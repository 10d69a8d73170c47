/** The translation adapter: a language pair chosen from a fixed table, a single-slot cache of
    the last text translated, and the error sentinel returned when the backend fails. The
    backend is the function `backend`, given the translator (its language pair) and the text;
    it returns the translation, or the message of the exception it raised. */
module Translation {
  import opened Wrappers
  import Text

  /** Language names offered to the user, and the codes the backend takes. */
  const SupportedLanguages: map<string, string> :=
    map["Português" := "pt", "English" := "en", "Español" := "es"]

  /** A backend client bound to one language pair (`GoogleTranslator(source=…, target=…)`). */
  datatype Translator = Translator(source: string, target: string)

  /** The single-slot cache: the last text translated successfully and its translation. */
  datatype Cache = Cache(lastText: Option<string>, lastTranslation: Option<string>)

  /** What one `translate` call returns, the cache it leaves, and whether it called the backend. */
  datatype Reply = Reply(output: string, cache: Cache, called: bool)

  type Backend = (Translator, string) -> Result<string, string>

  /** The string returned in place of a translation when the backend raises. */
  function ErrorText(cause: string): (s: string)
    ensures |s| == |cause| + 21
    ensures s[..20] == "[Translation Error: " && s[|s| - 1] == ']'
    ensures s[20..|s| - 1] == cause
  {
    "[Translation Error: " + cause + "]"
  }

  /** `translate(text)` from the cache `cache` with the translator `translator`. */
  function TranslateStep(cache: Cache, translator: Translator, text: string, backend: Backend): (r: Reply)
    // the backend is called exactly when the text is neither blank nor the cached one
    ensures r.called <==> !Text.IsBlank(text) && cache.lastText != Some(text)
    // blank text: "" and nothing else happens
    ensures Text.IsBlank(text) ==> r.output == "" && r.cache == cache
    // cache hit: the cached translation ("" if there is none)
    ensures !Text.IsBlank(text) && cache.lastText == Some(text) ==>
      r.output == cache.lastTranslation.GetOr("") && r.cache == cache
    // success fills the cache; failure gives the sentinel and keeps the cache
    ensures r.called && backend(translator, text).Success? ==>
      r.output == backend(translator, text).value && r.cache == Cache(Some(text), Some(r.output))
    ensures r.called && backend(translator, text).Failure? ==>
      r.output == ErrorText(backend(translator, text).error) && r.cache == cache
  {
    Text.StripEmptyIffBlank(text);
    if Text.Strip(text) == "" then Reply("", cache, false)
    else if cache.lastText == Some(text) then Reply(cache.lastTranslation.GetOr(""), cache, false)
    else
      match backend(translator, text)
      case Success(translation) => Reply(translation, Cache(Some(text), Some(translation)), true)
      case Failure(cause) => Reply(ErrorText(cause), cache, true)
  }

  /** Translating the same text again right after a call that did not fail is served from the
      cache, returns the same string, and calls no backend, whatever the translator and the
      backend are the second time (so also after a change of languages). */
  lemma RepeatIsServedFromCache(cache: Cache, first: Translator, second: Translator, text: string,
                                backend1: Backend, backend2: Backend)
    requires var r := TranslateStep(cache, first, text, backend1);
      !(r.called && backend1(first, text).Failure?)
    ensures var r1 := TranslateStep(cache, first, text, backend1);
      var r2 := TranslateStep(r1.cache, second, text, backend2);
      !r2.called && r2.output == r1.output && r2.cache == r1.cache
  {
    var r1 := TranslateStep(cache, first, text, backend1);
    if r1.called {
      assert r1.cache == Cache(Some(text), Some(r1.output));
    }
  }

  /** A failed call leaves nothing cached for its text: retrying it calls the backend again,
      and a healthy backend then gives the real translation. */
  lemma FailureIsRetried(cache: Cache, translator: Translator, text: string,
                         backend1: Backend, backend2: Backend)
    requires TranslateStep(cache, translator, text, backend1).called
    requires backend1(translator, text).Failure?
    ensures var r1 := TranslateStep(cache, translator, text, backend1);
      var r2 := TranslateStep(r1.cache, translator, text, backend2);
      && r1.output == ErrorText(backend1(translator, text).error)
      && r1.cache == cache
      && r2.called
      && (backend2(translator, text).Success? ==> r2.output == backend2(translator, text).value)
  {
  }

  /** `TranslationService`. `backendCalls` records every call made to the backend. */
  class TranslationService {
    var sourceLang: string
    var targetLang: string
    var translator: Translator
    var lastText: Option<string>
    var lastTranslation: Option<string>
    ghost var backendCalls: seq<(Translator, string)>

    /** Both codes come from the table, the translator is bound to them, and the two cache
        fields are filled together. */
    ghost predicate Valid()
      reads this
    {
      && (lastText.None? <==> lastTranslation.None?)
      && sourceLang in SupportedLanguages.Values
      && targetLang in SupportedLanguages.Values
      && translator == Translator(sourceLang, targetLang)
    }

    function CacheState(): Cache
      reads this
    {
      Cache(lastText, lastTranslation)
    }

    constructor ()
      ensures Valid()
      ensures sourceLang == "en" && targetLang == "pt"
      ensures lastText == None && lastTranslation == None
      ensures backendCalls == []
    {
      sourceLang := "en";
      targetLang := "pt";
      translator := Translator("en", "pt");
      lastText := None;
      lastTranslation := None;
      backendCalls := [];
      assert SupportedLanguages["English"] == "en" && SupportedLanguages["Português"] == "pt";
    }

    /** `set_languages`: both codes change, and the translator is rebuilt, only when both names
        are in the table; otherwise nothing changes. The cache is left as it is. */
    method SetLanguages(sourceName: string, targetName: string)
      requires Valid()
      modifies this
      ensures Valid()
      ensures if sourceName in SupportedLanguages && targetName in SupportedLanguages then
          sourceLang == SupportedLanguages[sourceName] && targetLang == SupportedLanguages[targetName]
        else
          sourceLang == old(sourceLang) && targetLang == old(targetLang) && translator == old(translator)
      ensures lastText == old(lastText) && lastTranslation == old(lastTranslation)
      ensures backendCalls == old(backendCalls)
    {
      if sourceName in SupportedLanguages && targetName in SupportedLanguages {
        sourceLang := SupportedLanguages[sourceName];
        targetLang := SupportedLanguages[targetName];
        translator := Translator(sourceLang, targetLang);
      }
    }

    /** `translate`, with `backend` standing for what the backend does at this call. */
    method Translate(text: string, backend: Backend) returns (output: string)
      requires Valid()
      modifies this
      ensures Valid()
      ensures var r := TranslateStep(old(CacheState()), old(translator), text, backend);
        && output == r.output
        && CacheState() == r.cache
        && backendCalls == old(backendCalls) + (if r.called then [(old(translator), text)] else [])
      ensures sourceLang == old(sourceLang) && targetLang == old(targetLang) && translator == old(translator)
    {
      Text.StripEmptyIffBlank(text);
      if Text.Strip(text) == "" {
        return "";
      }
      if Some(text) == lastText {
        return lastTranslation.GetOr("");
      }
      backendCalls := backendCalls + [(translator, text)];
      match backend(translator, text) {
        case Success(translation) =>
          lastText := Some(text);
          lastTranslation := Some(translation);
          output := translation;
        case Failure(cause) =>
          output := ErrorText(cause);
      }
    }
  }
}
