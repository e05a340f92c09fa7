/**
 * The theme toggle: a click flips the body's "light-theme" class, swaps the
 * icon between the moon and the sun glyph accordingly, and hands the
 * matching theme name to the editor.
 */
module Theme {
  import opened Monaco

  const LightClass := "light-theme"
  const Sun := "fa-sun"
  const Moon := "fa-moon"

  /** The class lists of the page body and of the toggle's icon. */
  datatype ThemeView = ThemeView(body: set<string>, icon: set<string>)

  predicate IsLight(v: ThemeView)
  {
    LightClass in v.body
  }

  /** `classList.toggle(c)`: remove `c` when present, add it otherwise. */
  function ToggleClass(classes: set<string>, c: string): (r: set<string>)
    ensures (c in r) == (c !in classes)
    ensures r - {c} == classes - {c}
  {
    if c in classes then classes - {c} else classes + {c}
  }

  /** The icon shows exactly the glyph that matches the body's theme. */
  predicate Consistent(v: ThemeView)
  {
    if IsLight(v) then Sun in v.icon && Moon !in v.icon
    else Moon in v.icon && Sun !in v.icon
  }

  /** The class lists after one click. */
  function Toggled(v: ThemeView): ThemeView
  {
    var body := ToggleClass(v.body, LightClass);
    if LightClass in body then ThemeView(body, v.icon - {Moon} + {Sun})
    else ThemeView(body, v.icon - {Sun} + {Moon})
  }

  /** The editor theme that goes with the body's theme. */
  function EditorTheme(v: ThemeView): string
  {
    if IsLight(v) then "vs" else "vs-dark"
  }

  /**
   * A click flips the theme and, from any starting point, leaves the icon
   * showing the sun in light mode and the moon in dark mode; no other class
   * of the body or the icon changes.
   */
  lemma ToggleFlips(v: ThemeView)
    ensures IsLight(Toggled(v)) == !IsLight(v)
    ensures Consistent(Toggled(v))
    ensures IsLight(Toggled(v)) ==> Sun in Toggled(v).icon && EditorTheme(Toggled(v)) == "vs"
    ensures !IsLight(Toggled(v)) ==> Moon in Toggled(v).icon && EditorTheme(Toggled(v)) == "vs-dark"
    ensures Toggled(v).body - {LightClass} == v.body - {LightClass}
    ensures Toggled(v).icon - {Sun, Moon} == v.icon - {Sun, Moon}
  {
  }

  /**
   * Two clicks restore the body classes and the editor theme from any page,
   * and the icon classes too when the icon matched the theme.
   */
  lemma ToggleTwice(v: ThemeView)
    ensures Toggled(Toggled(v)).body == v.body
    ensures EditorTheme(Toggled(Toggled(v))) == EditorTheme(v)
    ensures Consistent(v) ==> Toggled(Toggled(v)) == v
  {
  }

  /** Whatever the page starts with, every click after the first is undone by the next one. */
  lemma ToggleTwiceAfterFirstClick(v: ThemeView)
    ensures Toggled(Toggled(Toggled(v))) == Toggled(v)
  {
    ToggleFlips(v);
    ToggleTwice(Toggled(v));
  }

  /** The body and the theme icon, which the toggle's click handler updates in place. */
  class ThemeToggle {
    var bodyClasses: set<string>
    var iconClasses: set<string>

    function View(): ThemeView
      reads this
    {
      ThemeView(bodyClasses, iconClasses)
    }

    constructor (initial: ThemeView)
      ensures View() == initial
    {
      bodyClasses := initial.body;
      iconClasses := initial.icon;
    }

    /**
     * The click handler. The editor theme is set only once the editor has
     * loaded (`editor` non-null); before that the call into the widget's
     * library fails after the class lists have changed.
     */
    method Toggle(editor: Editor?)
      modifies this, editor
      ensures View() == Toggled(old(View()))
      ensures editor != null ==> editor.theme == EditorTheme(View())
      ensures editor != null ==> editor.text == old(editor.text) && editor.mode == old(editor.mode)
      ensures editor != null ==> editor.layouts == old(editor.layouts)
    {
      bodyClasses := ToggleClass(bodyClasses, LightClass);
      if LightClass in bodyClasses {
        iconClasses := iconClasses - {Moon};
        iconClasses := iconClasses + {Sun};
        if editor != null {
          editor.SetTheme("vs");
        }
      } else {
        iconClasses := iconClasses - {Sun};
        iconClasses := iconClasses + {Moon};
        if editor != null {
          editor.SetTheme("vs-dark");
        }
      }
    }
  }
}
