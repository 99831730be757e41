/**
 * The `translate-content` edge function: it picks an instruction for the
 * kind of content, asks the AI gateway for a translation and answers with
 * the translation next to the request's own fields.
 */
module TranslateContent {
  import opened Wrappers
  import opened Text
  import opened Gateway

  datatype TranslateRequest = TranslateRequest(text: string, targetLanguage: string, contentType: Option<string>)

  /** The body of a 2xx answer. */
  datatype Translated = Translated(originalText: string, translatedText: string,
                                   targetLanguage: string, contentType: Option<string>)

  datatype TranslateResponse = Answer(body: Translated) | ErrorStatus(status: int)

  const LegalInstruction := "This is legal information. Maintain accuracy and formal tone. Use proper legal terminology."
  const CounselingInstruction := "This is mental health content. Use compassionate, supportive language. Preserve emotional nuance."
  const EducationalInstruction := "This is educational content for children/young adults. Use clear, simple language."
  const EmergencyInstruction := "This is emergency safety information. Keep it concise and urgent. Clarity is critical."
  const GeneralInstruction := "General content. Maintain the original tone and meaning."

  /** `contextInstructions[contentType] || contextInstructions.general`. */
  function Instruction(contentType: Option<string>): (s: string)
    ensures contentType == Some("legal") <==> s == LegalInstruction
    ensures contentType == Some("counseling") <==> s == CounselingInstruction
    ensures contentType == Some("educational") <==> s == EducationalInstruction
    ensures contentType == Some("emergency") <==> s == EmergencyInstruction
    ensures contentType !in {Some("legal"), Some("counseling"), Some("educational"), Some("emergency")}
            <==> s == GeneralInstruction
  {
    match contentType
    case Some("legal") => LegalInstruction
    case Some("counseling") => CounselingInstruction
    case Some("educational") => EducationalInstruction
    case Some("emergency") => EmergencyInstruction
    case _ => GeneralInstruction
  }

  /** `content?.trim() || text`: the trimmed model output, or the original when that is missing or blank. */
  function TranslatedText(content: Option<string>, text: string): (t: string)
    ensures content.Some? && !IsBlank(content.value) ==> t == Trim(content.value)
    ensures content.None? || IsBlank(content.value) ==> t == text
  {
    if content.Some? && Trim(content.value) != "" then Trim(content.value) else text
  }

  /**
   * The handler.  The reply carries the first choice's message content, if
   * any; a reply without choices is an exception.
   */
  function Handle(req: TranslateRequest, apiKeyConfigured: bool, reply: Reply<Option<string>>): TranslateResponse
  {
    if !apiKeyConfigured then ErrorStatus(InternalError)
    else match reply
      case Threw => ErrorStatus(InternalError)
      case HttpError(status) =>
        if status == TooManyRequests then ErrorStatus(TooManyRequests)
        else if status == PaymentRequired then ErrorStatus(PaymentRequired)
        else ErrorStatus(InternalError)
      case Success(content) =>
        Answer(Translated(req.text, TranslatedText(content, req.text), req.targetLanguage, req.contentType))
  }

  /**
   * A 2xx answer echoes the original text, target language and content type
   * unchanged, and its translation is never blank unless the original is.
   */
  lemma AnswerEchoesRequest(req: TranslateRequest, reply: Reply<Option<string>>)
    requires reply.Success?
    ensures var r := Handle(req, true, reply);
            && r.Answer?
            && r.body.originalText == req.text
            && r.body.targetLanguage == req.targetLanguage
            && r.body.contentType == req.contentType
            && (IsBlank(r.body.translatedText) ==> r.body.translatedText == req.text)
  {
    var c := reply.body;
    if c.Some? && !IsBlank(c.value) {
      assert Trim(c.value) != [];
    }
  }

  /** 429 and 402 pass through, every other failure is a 500. */
  lemma StatusMapping(req: TranslateRequest, apiKeyConfigured: bool, reply: Reply<Option<string>>)
    ensures var r := Handle(req, apiKeyConfigured, reply);
            && (r.Answer? <==> apiKeyConfigured && reply.Success?)
            && (apiKeyConfigured && reply.HttpError? && reply.status in {429, 402} ==> r == ErrorStatus(reply.status))
            && (r.ErrorStatus? ==> r.status in {429, 402, 500})
            && (r.ErrorStatus? && r.status != 500 ==> apiKeyConfigured && reply.HttpError? && reply.status == r.status)
  {
  }
}
