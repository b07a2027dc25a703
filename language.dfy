/** The colour a language is drawn in, looked up case-insensitively with a grey default. */
module Language {
  import opened Text

  const DefaultLangColor := "#818181"

  /**
   * The colour of `name` in the language table `colors` (keyed by lower-case
   * names), or the default when the table has no entry.
   */
  function LangColor(colors: map<string, string>, name: string): (c: string)
    ensures c in colors.Values || c == DefaultLangColor
    ensures ToLower(name) !in colors ==> c == DefaultLangColor
  {
    var key := ToLower(name);
    if key in colors then colors[key] else DefaultLangColor
  }

  /** A name looked up that is in the table gets exactly its table colour. */
  lemma LangColorFromTable(colors: map<string, string>, name: string)
    requires name == ToLower(name) && name in colors
    ensures LangColor(colors, name) == colors[name]
  {
  }

  /** Upper- or lower-casing a name does not change its colour. */
  lemma {:induction false} LangColorIgnoresCase(colors: map<string, string>, name: string)
    ensures LangColor(colors, ToUpper(name)) == LangColor(colors, name)
    ensures LangColor(colors, ToLower(name)) == LangColor(colors, name)
  {
    assert forall i :: 0 <= i < |name| ==> ToLower(ToUpper(name))[i] == ToLower(name)[i];
    assert ToLower(ToUpper(name)) == ToLower(name);
    ToLowerIdempotent(name);
  }
}
