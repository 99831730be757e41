/**
 * The `generate-coping-strategies` edge function: it asks the AI gateway
 * for a JSON array of strategies and falls back to fixed lists when the
 * gateway is rate-limited or the reply does not decode.
 */
module CopingStrategies {
  import opened Wrappers
  import opened Text
  import opened Gateway

  datatype Strategy = Strategy(title: string, icon: string, description: string, instructions: string)

  /** The reply: a list of strategies with status 200, or status 500. */
  datatype CopingResponse = Strategies(list: seq<Strategy>) | ServerError

  /** The three strategies returned when the gateway answers 429 or 402. */
  const RateLimitFallback: seq<Strategy> := [
    Strategy("Deep Breathing", "heart", "Calm your mind and body",
      "Breathe in for 4 counts, hold for 7, exhale for 8. Repeat 4 times."),
    Strategy("Grounding Exercise", "brain", "Connect with the present moment",
      "Name 5 things you see, 4 you hear, 3 you can touch, 2 you smell, 1 you taste."),
    Strategy("Positive Affirmation", "lightbulb", "Build self-confidence",
      "Say to yourself: 'I am capable, I am strong, I can handle this situation.'")]

  /** The single strategy returned when the `[...]` span does not decode. */
  const MindfulBreathing: Strategy := Strategy("Mindful Breathing", "heart", "Center yourself with breath",
    "Find a quiet spot. Close your eyes. Take slow, deep breaths focusing on the sensation of air moving in and out.")

  /** `userType === "child" ? ... : ...`. */
  function AgeAppropriate(userType: Option<string>): (s: string)
    ensures userType == Some("child") <==> s == "age-appropriate for children (8-17 years old)"
    ensures userType != Some("child") <==> s == "suitable for adults"
  {
    if userType == Some("child") then "age-appropriate for children (8-17 years old)" else "suitable for adults"
  }

  /** `recentTopics?.join(", ") || "general stress"`. */
  function TopicsText(recentTopics: Option<seq<string>>): (s: string)
    ensures s != ""
    ensures recentTopics.None? || Join(recentTopics.value, ", ") == "" ==> s == "general stress"
    ensures recentTopics.Some? && Join(recentTopics.value, ", ") != "" ==> s == Join(recentTopics.value, ", ")
  {
    if recentTopics.Some? && Join(recentTopics.value, ", ") != "" then Join(recentTopics.value, ", ")
    else "general stress"
  }

  /** `data.choices[0]?.message?.content || "[]"`. */
  function ReplyText(content: Option<string>): (t: string)
    ensures content.Some? && content.value != "" ==> t == content.value
    ensures content.None? || content.value == "" ==> t == "[]"
  {
    if content.Some? && content.value != "" then content.value else "[]"
  }

  /** The strategies read from the reply text: the decoded `[...]` span, `[]` without one, the fallback when it does not decode. */
  function ParseStrategies(text: string, decode: string -> Option<seq<Strategy>>): seq<Strategy>
  {
    match GreedyMatch(text, '[', ']')
    case None => []
    case Some(span) =>
      match decode(span)
      case None => [MindfulBreathing]
      case Some(list) => list
  }

  /** The handler, from the gateway's reply. */
  function Handle(apiKeyConfigured: bool, reply: Reply<Option<string>>,
                  decode: string -> Option<seq<Strategy>>): CopingResponse
  {
    if !apiKeyConfigured then ServerError
    else match reply
      case Threw => ServerError
      case HttpError(status) =>
        if status == TooManyRequests || status == PaymentRequired then Strategies(RateLimitFallback)
        else ServerError
      case Success(content) => Strategies(ParseStrategies(ReplyText(content), decode))
  }

  /** A rate-limited or unpaid gateway gives exactly the three fixed strategies with status 200. */
  lemma RateLimitGivesThreeStrategies(status: int, decode: string -> Option<seq<Strategy>>)
    requires status == 429 || status == 402
    ensures var r := Handle(true, HttpError(status), decode);
            && r.Strategies? && |r.list| == 3
            && r.list[0].title == "Deep Breathing" && r.list[0].icon == "heart"
            && r.list[1].title == "Grounding Exercise" && r.list[1].icon == "brain"
            && r.list[2].title == "Positive Affirmation" && r.list[2].icon == "lightbulb"
  {
  }

  /** Every other failure is a 500: no key, an exception, or another status. */
  lemma OtherFailuresAre500(apiKeyConfigured: bool, reply: Reply<Option<string>>, decode: string -> Option<seq<Strategy>>)
    ensures Handle(apiKeyConfigured, reply, decode).ServerError? <==>
            !apiKeyConfigured || reply.Threw? || (reply.HttpError? && reply.status != 429 && reply.status != 402)
  {
  }

  /** Without a `[...]` span the list is empty: there is no at-least-one guarantee. */
  lemma NoSpanGivesEmptyList(content: string, decode: string -> Option<seq<Strategy>>)
    requires content != ""
    requires forall i, j :: 0 <= i < j < |content| ==> !(content[i] == '[' && content[j] == ']')
    ensures Handle(true, Success(Some(content)), decode) == Strategies([])
  {
  }

  /** A span that does not decode gives the one "Mindful Breathing" strategy. */
  lemma UndecodableSpanGivesMindfulBreathing(content: string, decode: string -> Option<seq<Strategy>>)
    requires content != ""
    requires GreedyMatch(content, '[', ']').Some? && decode(GreedyMatch(content, '[', ']').value).None?
    ensures Handle(true, Success(Some(content)), decode) == Strategies([MindfulBreathing])
    ensures MindfulBreathing.title == "Mindful Breathing"
  {
  }

  /** Missing or empty content is read as "[]", which decodes to the empty list. */
  lemma MissingContentGivesEmptyList(content: Option<string>, decode: string -> Option<seq<Strategy>>)
    requires content.None? || content.value == ""
    requires decode("[]") == Some([])
    ensures Handle(true, Success(content), decode) == Strategies([])
  {
    var s := GreedySpan("[]", '[', ']');
    assert "[]"[0] == '[' && "[]"[1] == ']';
    assert s.Some? && s.value == (0, 2);
    assert "[]"[0..2] == "[]";
  }
}
