/**
 * The `ai-counseling-chat` edge function: it picks the system prompt by
 * user type, forwards the conversation to the AI gateway as a stream, maps
 * upstream failures to statuses, and flags a crisis by keywords in the last
 * message.
 */
module CounselingChat {
  import opened Wrappers
  import opened Text
  import opened Gateway

  datatype Audience = ChildAudience | WomanAudience | GuardianAudience

  /** `systemPrompts[userType] || systemPrompts.woman`. */
  function AudienceFor(userType: Option<string>): (a: Audience)
    ensures userType == Some("child") <==> a == ChildAudience
    ensures userType == Some("guardian") <==> a == GuardianAudience
    ensures userType != Some("child") && userType != Some("guardian") <==> a == WomanAudience
  {
    if userType == Some("child") then ChildAudience
    else if userType == Some("guardian") then GuardianAudience
    else WomanAudience
  }

  function SystemPrompt(a: Audience): string {
    match a
    case ChildAudience =>
      "You are a compassionate AI counselor specializing in supporting children aged 8-17. \n"
      + "Use simple, age-appropriate language. Be warm, encouraging, and patient. \n"
      + "Focus on building confidence and resilience. Always prioritize safety.\n"
      + "If you detect severe distress, bullying, abuse, or self-harm thoughts, immediately flag this as a crisis."
    case WomanAudience =>
      "You are an empathetic AI counselor providing mental health support to women.\n"
      + "Use professional yet warm language. Provide evidence-based coping strategies.\n"
      + "Be trauma-informed and culturally sensitive. Empower and validate experiences.\n"
      + "If you detect severe distress, abuse, or self-harm thoughts, immediately flag this as a crisis."
    case GuardianAudience =>
      "You are a supportive AI counselor helping guardians navigate caregiving challenges.\n"
      + "Provide practical guidance on supporting children's mental health and safety.\n"
      + "Offer stress management techniques and resources for guardians.\n"
      + "If you detect concerns about child safety or guardian distress, flag appropriately."
  }

  /** `emotionalState || 'neutral'`. */
  function EmotionalState(state: Option<string>): (s: string)
    ensures s != ""
    ensures state.Some? && state.value != "" ==> s == state.value
    ensures state.None? || state.value == "" ==> s == "neutral"
  {
    if state.Some? && state.value != "" then state.value else "neutral"
  }

  /** The line telling the model the client's emotional state. */
  function StateLine(state: Option<string>): string {
    "Current emotional state: " + EmotionalState(state)
  }

  /** The system message put in front of the conversation. */
  function SystemMessage(userType: Option<string>, state: Option<string>): string {
    SystemPrompt(AudienceFor(userType)) + "\n\n" + StateLine(state) + ". Adjust your tone accordingly."
  }

  /**
   * The system message opens with the prompt of the user's audience and
   * carries the emotional-state line (whose state is "neutral" when none is given).
   */
  lemma SystemMessageParts(userType: Option<string>, state: Option<string>)
    ensures SystemPrompt(AudienceFor(userType)) <= SystemMessage(userType, state)
    ensures Contains(SystemMessage(userType, state), StateLine(state))
  {
    PromptThenLine(SystemPrompt(AudienceFor(userType)), "\n\n", StateLine(state), ". Adjust your tone accordingly.");
  }

  /** A prompt followed by a separator, a line and a tail: the prompt is a prefix and the line is found. */
  lemma PromptThenLine(prompt: string, sep: string, line: string, tail: string)
    ensures prompt <= prompt + sep + line + tail
    ensures Contains(prompt + sep + line + tail, line)
  {
    ContainsMiddle(prompt + sep, line, tail);
    AppendAssociates(prompt, sep, line);
    AppendAssociates(prompt, sep + line, tail);
    assert prompt + sep + line + tail == prompt + (sep + line + tail);
  }

  /** A chat message as the client sends it; `content` may be missing. */
  datatype Message = Message(role: string, content: Option<string>)

  const CrisisKeywords: seq<string> := [
    "suicide", "kill myself", "end my life", "want to die", "hurt myself",
    "self-harm", "cutting", "abuse", "being hurt", "touched inappropriately",
    "scared for my life", "going to hurt", "weapon"]

  /** `messages[messages.length - 1]?.content?.toLowerCase() || ''`: the last message of any role. */
  function LastMessageText(messages: seq<Message>): (t: string)
    ensures messages == [] ==> t == ""
    ensures messages != [] && messages[|messages| - 1].content.Some? ==>
              t == Lower(messages[|messages| - 1].content.value)
    ensures messages != [] && messages[|messages| - 1].content.None? ==> t == ""
  {
    if messages == [] then ""
    else match messages[|messages| - 1].content
      case None => ""
      case Some(c) => Lower(c)
  }

  /** `keywords.some(k => text.includes(k))`. */
  function AnyKeyword(text: string, keywords: seq<string>): (found: bool)
    ensures found <==> exists k :: 0 <= k < |keywords| && Contains(text, keywords[k])
  {
    if keywords == [] then false
    else Contains(text, keywords[0]) || AnyKeyword(text, keywords[1..])
  }

  predicate CrisisDetected(messages: seq<Message>) {
    AnyKeyword(LastMessageText(messages), CrisisKeywords)
  }

  /**
   * A crisis holds exactly when the lower-cased last message contains one
   * of the keywords; no message, or a last message without content, is
   * never a crisis.
   */
  lemma CrisisIffKeyword(messages: seq<Message>)
    ensures CrisisDetected(messages) <==>
            exists k :: 0 <= k < |CrisisKeywords| && Contains(LastMessageText(messages), CrisisKeywords[k])
    ensures messages == [] || messages[|messages| - 1].content.None? ==> !CrisisDetected(messages)
  {
    if LastMessageText(messages) == "" {
      forall k | 0 <= k < |CrisisKeywords|
        ensures !Contains("", CrisisKeywords[k])
      {
        assert |CrisisKeywords[k]| > 0;
      }
    }
  }

  /** The reply: the upstream stream (with or without the crisis header), or an error status. */
  datatype ChatResponse<S> = Streamed(body: S, crisisHeader: bool) | ErrorStatus(status: int)

  /** The handler, from the request and the upstream reply. */
  function Handle<S>(messages: seq<Message>, apiKeyConfigured: bool, reply: Reply<S>): ChatResponse<S>
  {
    if !apiKeyConfigured then ErrorStatus(InternalError)
    else match reply
      case Threw => ErrorStatus(InternalError)
      case HttpError(status) =>
        if status == TooManyRequests then ErrorStatus(TooManyRequests)
        else if status == PaymentRequired then ErrorStatus(PaymentRequired)
        else ErrorStatus(InternalError)
      case Success(stream) => Streamed(stream, CrisisDetected(messages))
  }

  /**
   * Status mapping: 429 and 402 pass through, every other failure is a 500;
   * a success forwards the upstream stream itself, with the crisis header
   * exactly when a crisis is detected.  Detection only happens on success.
   */
  lemma HandleOutcomes<S>(messages: seq<Message>, apiKeyConfigured: bool, reply: Reply<S>)
    ensures var r := Handle(messages, apiKeyConfigured, reply);
            && (r.Streamed? <==> apiKeyConfigured && reply.Success?)
            && (r.Streamed? ==> r.body == reply.body && (r.crisisHeader <==> CrisisDetected(messages)))
            && (apiKeyConfigured && reply.HttpError? && reply.status in {429, 402} ==> r == ErrorStatus(reply.status))
            && (r.ErrorStatus? ==> r.status in {429, 402, 500})
            && (r.ErrorStatus? && r.status != 500 ==> apiKeyConfigured && reply.HttpError? && reply.status == r.status)
  {
  }
}
