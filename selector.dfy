/**
 * The language selector's change handler: once the editor exists, a new
 * selection replaces the editor's text by the language's sample (discarding
 * any edits) and switches its syntax mode.
 */
module Selector {
  import opened Catalog
  import opened Monaco

  /** The handler for a change of the selector to the option with id `value`; `editor` is null until the widget has loaded. */
  method OnLanguageChange(editor: Editor?, value: int)
    modifies editor
    ensures editor != null ==> editor.text == SampleOrEmpty(value) && editor.mode == IdToMonacoLang(value)
    ensures editor != null ==> editor.theme == old(editor.theme) && editor.layouts == old(editor.layouts)
  {
    if editor != null {
      editor.SetValue(SampleOrEmpty(value));
      var lang := IdToMonacoLang(value);
      editor.SetModelLanguage(lang);
    }
  }
}
