/**
 * The language selector: the selected code, the document's `lang` and
 * `dir` attributes and the saved preference.
 */
module LanguageSelector {
  import opened Wrappers
  import opened Translation

  /** The document's `dir` attribute, "ltr" or "rtl". */
  datatype Direction = Ltr | Rtl

  /** The document attributes and the stored preference after applying `code` to them. */
  datatype Applied = Applied(lang: string, dir: Direction, saved: Option<string>)

  function ApplyTo(before: Applied, code: string): (after: Applied)
    ensures FindLanguage(SupportedLanguages, code).None? ==> after == before
    ensures FindLanguage(SupportedLanguages, code).Some? ==>
              && after.lang == code && after.saved == Some(code)
              && (after.dir == Rtl <==> FindLanguage(SupportedLanguages, code).value.rtl)
  {
    match FindLanguage(SupportedLanguages, code)
    case None => before
    case Some(l) => Applied(code, if l.rtl then Rtl else Ltr, Some(code))
  }

  /** Among the supported languages, only Arabic switches the document to right to left. */
  lemma OnlyArabicIsRightToLeft(before: Applied, code: string)
    requires FindLanguage(SupportedLanguages, code).Some?
    ensures ApplyTo(before, code).dir == Rtl <==> code == "ar"
  {
    LanguageTableFacts();
  }

  class Selector {
    var selected: string
    var lang: string
    var dir: Direction
    var saved: Option<string>

    /** A fresh selector shows "en"; the document and the storage are as found. */
    constructor (documentLang: string, documentDir: Direction, stored: Option<string>)
      ensures selected == "en" && lang == documentLang && dir == documentDir && saved == stored
    {
      selected := "en";
      lang := documentLang;
      dir := documentDir;
      saved := stored;
    }

    /** `applyLanguage`. */
    method ApplyLanguage(code: string)
      modifies this
      ensures Applied(lang, dir, saved) == ApplyTo(Applied(old(lang), old(dir), old(saved)), code)
      ensures selected == old(selected)
    {
      var found := FindLanguage(SupportedLanguages, code);
      if found.Some? {
        lang := code;
        dir := if found.value.rtl then Rtl else Ltr;
        saved := Some(code);
      }
    }

    /** The mount effect: a non-empty saved preference is selected, even an unknown one, and applied. */
    method Restore()
      modifies this
      ensures old(saved).None? || old(saved).value == "" ==>
                selected == old(selected) && lang == old(lang) && dir == old(dir) && saved == old(saved)
      ensures old(saved).Some? && old(saved).value != "" ==>
                && selected == old(saved).value
                && Applied(lang, dir, saved) == ApplyTo(Applied(old(lang), old(dir), old(saved)), old(saved).value)
    {
      if saved.Some? && saved.value != "" {
        var code := saved.value;
        selected := code;
        ApplyLanguage(code);
      }
    }

    /** `handleLanguageChange`: select the code and apply it (the page reload is left out). */
    method ChangeLanguage(code: string)
      modifies this
      ensures selected == code
      ensures Applied(lang, dir, saved) == ApplyTo(Applied(old(lang), old(dir), old(saved)), code)
    {
      selected := code;
      ApplyLanguage(code);
    }
  }
}
