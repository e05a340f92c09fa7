/**
 * The observable state of the embedded code editor, a third-party widget:
 * its text, its syntax mode, its colour theme and how many layout passes
 * have been requested of it. Its rendering is not modelled.
 */
module Monaco {
  import Catalog

  class Editor {
    var text: string
    var mode: string
    var theme: string
    var layouts: nat

    /** The editor as the page creates it once the widget has loaded: Python sample, dark theme. */
    constructor Create()
      ensures text == Catalog.Samples[71] && mode == "python" && theme == "vs-dark" && layouts == 0
    {
      text := Catalog.Samples[71];
      mode := "python";
      theme := "vs-dark";
      layouts := 0;
    }

    method SetValue(t: string)
      modifies this
      ensures text == t && mode == old(mode) && theme == old(theme) && layouts == old(layouts)
    {
      text := t;
    }

    method SetModelLanguage(m: string)
      modifies this
      ensures mode == m && text == old(text) && theme == old(theme) && layouts == old(layouts)
    {
      mode := m;
    }

    method SetTheme(t: string)
      modifies this
      ensures theme == t && text == old(text) && mode == old(mode) && layouts == old(layouts)
    {
      theme := t;
    }

    /** Asks the widget to recompute its layout; only the request is recorded. */
    method Layout()
      modifies this
      ensures layouts == old(layouts) + 1
      ensures text == old(text) && mode == old(mode) && theme == old(theme)
    {
      layouts := layouts + 1;
    }
  }

  /** The freshly created editor shows the sample and mode of the selector's first option. */
  lemma CreatedEditorMatchesFirstOption()
    ensures Catalog.Languages[0].id == 71
    ensures Catalog.SampleOrEmpty(Catalog.Languages[0].id) == Catalog.Samples[71]
    ensures Catalog.IdToMonacoLang(Catalog.Languages[0].id) == "python"
  {
  }
}
