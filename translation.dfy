/**
 * The client side of translation: the table of supported languages and
 * `translateText`, which falls back to the original text on any failure.
 */
module Translation {
  import opened Wrappers
  import opened Gateway
  import TranslateContent

  datatype Language = Language(code: string, name: string, rtl: bool)

  const SupportedLanguages: seq<Language> := [
    Language("en", "English", false),
    Language("es", "Español", false),
    Language("fr", "Français", false),
    Language("de", "Deutsch", false),
    Language("it", "Italiano", false),
    Language("pt", "Português", false),
    Language("ar", "العربية", true),
    Language("hi", "हिन्दी", false),
    Language("zh", "中文", false),
    Language("ja", "日本語", false),
    Language("ko", "한국어", false),
    Language("ru", "Русский", false)]

  /** `supportedLanguages.find(l => l.code === code)`: the first entry with that code. */
  function FindLanguage(table: seq<Language>, code: string): (r: Option<Language>)
    ensures r.Some? ==> r.value in table && r.value.code == code
    ensures r.None? <==> forall k :: 0 <= k < |table| ==> table[k].code != code
  {
    if table == [] then None
    else if table[0].code == code then Some(table[0])
    else FindLanguage(table[1..], code)
  }

  /** The table has twelve entries with distinct codes, and only Arabic is written right to left. */
  lemma LanguageTableFacts()
    ensures |SupportedLanguages| == 12
    ensures forall i, j :: 0 <= i < j < |SupportedLanguages| ==>
              SupportedLanguages[i].code != SupportedLanguages[j].code
    ensures forall k :: 0 <= k < |SupportedLanguages| ==>
              (SupportedLanguages[k].rtl <==> SupportedLanguages[k].code == "ar")
  {
    var t := SupportedLanguages;
    forall i, j | 0 <= i < j < |t| ensures t[i].code != t[j].code {
      CodeLetters(t[i].code, t[j].code);
    }
  }

  /** Two-letter codes that differ in a letter are different codes. */
  lemma CodeLetters(a: string, b: string)
    requires |a| == |b| == 2 && (a[0] != b[0] || a[1] != b[1])
    ensures a != b
  {
  }

  /** The request body `translateText` sends; the content type defaults to "general". */
  function TranslateBody(text: string, targetLanguage: string, contentType: Option<string>): (b: TranslateContent.TranslateRequest)
    ensures b.text == text && b.targetLanguage == targetLanguage
    ensures b.contentType == Some(contentType.GetOr("general"))
  {
    TranslateContent.TranslateRequest(text, targetLanguage, Some(contentType.GetOr("general")))
  }

  /** `translateText`: the function's translation, or the original text when the call fails. */
  function TranslateText(text: string, reply: Invoke<TranslateContent.Translated>): (t: string)
    ensures reply.InvokeError? ==> t == text
    ensures reply.Data? ==> t == reply.value.translatedText
  {
    match reply
    case InvokeError => text
    case Data(body) => body.translatedText
  }

  /**
   * End to end: whatever the edge function answers, the caller gets either
   * the original text (any error status) or the edge function's translation,
   * which itself falls back to the original.
   */
  lemma TranslateEndToEnd(text: string, targetLanguage: string, contentType: Option<string>,
                          apiKeyConfigured: bool, reply: Reply<Option<string>>)
    ensures var req := TranslateBody(text, targetLanguage, contentType);
            var r := TranslateContent.Handle(req, apiKeyConfigured, reply);
            var t := TranslateText(text, if r.Answer? then InvokeOf(200, r.body) else InvokeError);
            && (!(apiKeyConfigured && reply.Success?) ==> t == text)
            && (apiKeyConfigured && reply.Success? ==> t == TranslateContent.TranslatedText(reply.body, text))
  {
  }
}
