/**
 * Choosing the speech-to-text model (main.py:94, 96, 105-106) and the
 * language hint given to it (main.py:68-69).
 */
module WhisperModel {
  import opened Wrappers

  /** The model sizes the command line accepts (main.py:94). */
  const ModelChoices: set<string> := {"tiny", "base", "small", "medium", "large"}

  const EnglishSuffix: string := ".en"

  /** The name of the English-only variant: the size with ".en" appended. */
  predicate IsEnglishVariant(name: string)
  {
    |name| >= |EnglishSuffix| && name[|name| - |EnglishSuffix|..] == EnglishSuffix
  }

  /**
   * The model name that is loaded: the English-only variant when English
   * is requested, except for "large", which has none.
   */
  function ResolveModelName(model: string, english: bool): (name: string)
    ensures english && model != "large" ==> |name| == |model| + |EnglishSuffix|
    ensures english && model != "large" ==> name[..|model|] == model && name[|model|..] == EnglishSuffix
    ensures !(english && model != "large") ==> name == model
  {
    if model != "large" && english then
      var name := model + EnglishSuffix;
      assert name[..|model|] == model;
      name
    else model
  }

  /** Strips the English-only suffix again. */
  function BaseModel(name: string): string
  {
    if IsEnglishVariant(name) then name[..|name| - |EnglishSuffix|] else name
  }

  /**
   * For every model size the command line accepts, the loaded name is an
   * English-only variant exactly when English is requested and the size
   * is not "large", and the size can be read back from it.
   */
  lemma ResolveModelNameChoices(model: string, english: bool)
    requires model in ModelChoices
    ensures IsEnglishVariant(ResolveModelName(model, english)) <==> english && model != "large"
    ensures BaseModel(ResolveModelName(model, english)) == model
  {
    var name := ResolveModelName(model, english);
    if english && model != "large" {
      assert name == model + EnglishSuffix;
      assert name[|name| - |EnglishSuffix|..] == EnglishSuffix;
      assert name[..|name| - |EnglishSuffix|] == model;
    } else {
      assert name == model;
    }
  }

  /** The language argument passed to transcription: "english" in English-only mode, none otherwise. */
  function LanguageHint(english: bool): (hint: Option<string>)
    ensures hint.Some? <==> english
    ensures hint.Some? ==> hint.value == "english"
  {
    if english then Some("english") else None
  }
}
