/**
 * The counseling session page: the session clock and its display, the
 * transcript (sending a message and folding the streamed reply into one
 * assistant message), the topics sent for coping strategies and the icons
 * they are shown with.
 */
module CounselingSession {
  import opened Wrappers
  import opened Text
  import opened Seqs
  import opened Gateway
  import CopingStrategies

  datatype Role = User | Assistant

  /** A transcript entry (its timestamp is left out). */
  datatype ChatMessage = ChatMessage(role: Role, content: string)

  const Greeting := ChatMessage(Assistant, "Hello! I'm here to support you. How are you feeling today?")

  /** `secs.toString().padStart(2, "0")` for a number of seconds below 60. */
  function TwoDigits(n: nat): (r: string)
    requires n < 60
    ensures |r| == 2 && AllDigits(r)
  {
    if n < 10 then "0" + DecimalString(n) else DecimalString(n)
  }

  /** `formatTime`: whole minutes, a colon, then the seconds padded to two digits. */
  function FormatTime(seconds: nat): (r: string)
    ensures |r| >= 4 && r[|r| - 3] == ':'
  {
    DecimalString(seconds / 60) + ":" + TwoDigits(seconds % 60)
  }

  /** Reading an "m:ss" display back into seconds. */
  function ParseClock(t: string): (r: Option<nat>)
    ensures r.Some? ==> exists i :: 0 <= i < |t| && t[i] == ':'
  {
    match IndexOf(t, ':')
    case None => None
    case Some(i) =>
      var m := t[..i];
      var sec := t[i + 1..];
      if m != "" && AllDigits(m) && |sec| == 2 && AllDigits(sec) && DecimalValue(sec) < 60
      then Some(DecimalValue(m) * 60 + DecimalValue(sec))
      else None
  }

  lemma {:induction false} TwoDigitsValue(n: nat)
    requires n < 60
    ensures DecimalValue(TwoDigits(n)) == n
  {
    DecimalRoundTrip(n);
    if n < 10 {
      var d := DecimalString(n);
      assert |d| == 1;
      assert TwoDigits(n)[..1] == "0";
    }
  }

  /** The display loses nothing: every session time is read back from its "m:ss" form. */
  lemma {:induction false} FormatTimeRoundTrip(seconds: nat)
    ensures ParseClock(FormatTime(seconds)) == Some(seconds)
  {
    DecimalRoundTrip(seconds / 60);
    TwoDigitsValue(seconds % 60);
    ParseDigitsColonDigits(DecimalString(seconds / 60), TwoDigits(seconds % 60));
  }

  /** Minutes digits, a colon and two seconds digits are read back as their values. */
  lemma ParseDigitsColonDigits(m: string, sec: string)
    requires m != [] && AllDigits(m) && |sec| == 2 && AllDigits(sec) && DecimalValue(sec) < 60
    ensures ParseClock(m + ":" + sec) == Some(DecimalValue(m) * 60 + DecimalValue(sec))
  {
    var t := m + ":" + sec;
    assert forall k :: 0 <= k < |m| ==> t[k] == m[k];
    assert t[|m|] == ':';
    assert IndexOf(t, ':') == Some(|m|);
    assert t[..|m|] == m && t[|m| + 1..] == sec;
  }

  /** `duration_minutes`: the whole minutes of the session. */
  function DurationMinutes(sessionTime: nat): (m: nat)
    ensures m * 60 <= sessionTime < m * 60 + 60
  {
    sessionTime / 60
  }

  /** The contents of the user messages. */
  function UserContents(messages: seq<ChatMessage>): (r: seq<string>)
    ensures |r| <= |messages|
  {
    var us := Filter(messages, (m: ChatMessage) => m.role == User);
    seq(|us|, k requires 0 <= k < |us| => us[k].content)
  }

  /** `recentTopics`: the contents of the last three user messages, in order. */
  function RecentTopics(messages: seq<ChatMessage>): (r: seq<string>)
    ensures |r| <= 3
    ensures |r| == if |UserContents(messages)| < 3 then |UserContents(messages)| else 3
    ensures r == UserContents(messages)[|UserContents(messages)| - |r|..]
  {
    var all := UserContents(messages);
    if |all| <= 3 then all else all[|all| - 3..]
  }

  /** After a user message is appended, it is the last recent topic, and assistant messages never count. */
  lemma {:induction false} RecentTopicsAfterSend(messages: seq<ChatMessage>, text: string)
    ensures var r := RecentTopics(messages + [ChatMessage(User, text)]);
            r != [] && r[|r| - 1] == text
    ensures RecentTopics(messages + [ChatMessage(Assistant, text)]) == RecentTopics(messages)
  {
    UserContentsAppend(messages, ChatMessage(User, text));
    var all := UserContents(messages + [ChatMessage(User, text)]);
    assert all[|all| - 1] == text;
    var r := RecentTopics(messages + [ChatMessage(User, text)]);
    assert r[|r| - 1] == all[|all| - 1];
    UserContentsAppend(messages, ChatMessage(Assistant, text));
  }

  /** Appending a message adds its content to the user contents exactly when it is the user's. */
  lemma UserContentsAppend(messages: seq<ChatMessage>, m: ChatMessage)
    ensures UserContents(messages + [m]) == UserContents(messages) + (if m.role == User then [m.content] else [])
  {
    var p := (m: ChatMessage) => m.role == User;
    FilterAppend(messages, [m], p);
    assert Filter([m], p) == if m.role == User then [m] else [];
  }

  datatype Icon = HeartIcon | BrainIcon | LightbulbIcon

  /** `iconMap[s.icon] || Lightbulb`. */
  function IconFor(name: string): (i: Icon)
    ensures name == "heart" <==> i == HeartIcon
    ensures name == "brain" <==> i == BrainIcon
    ensures name != "heart" && name != "brain" <==> i == LightbulbIcon
  {
    if name == "heart" then HeartIcon else if name == "brain" then BrainIcon else LightbulbIcon
  }

  /** A strategy card as the page shows it. */
  datatype Card = Card(icon: Icon, title: string, description: string)

  const InitialCards: seq<Card> := [
    Card(HeartIcon, "Deep Breathing", "Try 4-7-8 breathing technique"),
    Card(BrainIcon, "Mindfulness", "Focus on present moment"),
    Card(LightbulbIcon, "Positive Affirmation", "You are capable and strong")]

  function CardOf(s: CopingStrategies.Strategy): Card {
    Card(IconFor(s.icon), s.title, s.description)
  }

  /** The cards after `loadCopingStrategies`: replaced only by a successful, non-empty list. */
  function CardsAfterLoad(current: seq<Card>, reply: Invoke<seq<CopingStrategies.Strategy>>): (r: seq<Card>)
    ensures reply.InvokeError? || reply.value == [] ==> r == current
    ensures reply.Data? && reply.value != [] ==>
              |r| == |reply.value| && forall k :: 0 <= k < |r| ==> r[k] == CardOf(reply.value[k])
  {
    if reply.Data? && |reply.value| > 0 then
      seq(|reply.value|, k requires 0 <= k < |reply.value| => CardOf(reply.value[k]))
    else current
  }

  /** The transcript after one streamed chunk, once the reply so far is `soFar`. */
  function Upserted(messages: seq<ChatMessage>, soFar: string): (r: seq<ChatMessage>)
    ensures |messages| > 0 && messages[|messages| - 1].role == Assistant ==>
              r == messages[..|messages| - 1] + [ChatMessage(Assistant, soFar)]
    ensures (|messages| == 0 || messages[|messages| - 1].role != Assistant) ==>
              r == messages + [ChatMessage(Assistant, soFar)]
  {
    if |messages| > 0 && messages[|messages| - 1].role == Assistant then
      messages[..|messages| - 1] + [messages[|messages| - 1].(content := soFar)]
    else messages + [ChatMessage(Assistant, soFar)]
  }

  /** The transcript after the chunks `chunks`, with `soFar` already accumulated. */
  function UpsertAll(messages: seq<ChatMessage>, soFar: string, chunks: seq<string>): seq<ChatMessage>
    decreases |chunks|
  {
    if chunks == [] then messages
    else UpsertAll(Upserted(messages, soFar + chunks[0]), soFar + chunks[0], chunks[1..])
  }

  /**
   * A streamed reply after a user message becomes exactly one assistant
   * message, holding the chunks concatenated in order.
   */
  lemma {:induction false} StreamedReplyIsOneMessage(messages: seq<ChatMessage>, chunks: seq<string>)
    requires messages != [] && messages[|messages| - 1].role == User
    requires chunks != []
    ensures UpsertAll(messages, "", chunks) == messages + [ChatMessage(Assistant, Concat(chunks))]
  {
    var first := Upserted(messages, "" + chunks[0]);
    assert "" + chunks[0] == chunks[0];
    assert first == messages + [ChatMessage(Assistant, chunks[0])];
    UpsertTail(messages, chunks[0], chunks[1..]);
    assert Concat(chunks) == chunks[0] + Concat(chunks[1..]);
  }

  /** While the last message is the assistant's reply so far, further chunks extend it in place. */
  lemma {:induction false} UpsertTail(prefix: seq<ChatMessage>, soFar: string, chunks: seq<string>)
    ensures UpsertAll(prefix + [ChatMessage(Assistant, soFar)], soFar, chunks)
         == prefix + [ChatMessage(Assistant, soFar + Concat(chunks))]
    decreases |chunks|
  {
    var ms := prefix + [ChatMessage(Assistant, soFar)];
    if chunks == [] {
      assert soFar + "" == soFar;
    } else {
      var next := soFar + chunks[0];
      ReplaceLastReply(prefix, soFar, next);
      UpsertTail(prefix, next, chunks[1..]);
      AppendAssociates(soFar, chunks[0], Concat(chunks[1..]));
    }
  }

  /** With the reply so far last, one chunk replaces that message and keeps the rest. */
  lemma ReplaceLastReply(prefix: seq<ChatMessage>, soFar: string, next: string)
    ensures Upserted(prefix + [ChatMessage(Assistant, soFar)], next) == prefix + [ChatMessage(Assistant, next)]
  {
    var ms := prefix + [ChatMessage(Assistant, soFar)];
    assert ms[..|ms| - 1] == prefix;
  }

  /** The page's state. */
  class Session {
    var messages: seq<ChatMessage>
    var input: string
    var sessionTime: nat
    var showCrisisDialog: bool
    var cards: seq<Card>
    var assistantSoFar: string

    constructor ()
      ensures messages == [Greeting] && input == "" && sessionTime == 0
      ensures !showCrisisDialog && cards == InitialCards && assistantSoFar == ""
    {
      messages := [Greeting];
      input := "";
      sessionTime := 0;
      showCrisisDialog := false;
      cards := InitialCards;
      assistantSoFar := "";
    }

    /** One timer tick: one more second. */
    method Tick()
      modifies this
      ensures sessionTime == old(sessionTime) + 1
      ensures messages == old(messages) && input == old(input) && cards == old(cards)
      ensures showCrisisDialog == old(showCrisisDialog) && assistantSoFar == old(assistantSoFar)
    {
      sessionTime := sessionTime + 1;
    }

    /** The crisis flag of the chat hook opens the dialog. */
    method OnCrisisFlag(crisisDetected: bool)
      modifies this
      ensures showCrisisDialog == (old(showCrisisDialog) || crisisDetected)
      ensures messages == old(messages) && input == old(input) && cards == old(cards)
      ensures sessionTime == old(sessionTime) && assistantSoFar == old(assistantSoFar)
    {
      if crisisDetected {
        showCrisisDialog := true;
      }
    }

    /**
     * `handleSend`: a blank input, or a reply still loading, does nothing;
     * otherwise the input becomes one user message, the input is cleared and
     * a new reply starts empty.  `sent` is the message list given to the
     * chat hook.
     */
    method HandleSend(isLoading: bool) returns (sent: Option<seq<ChatMessage>>)
      modifies this
      ensures Trim(old(input)) == "" || isLoading ==>
                sent.None? && messages == old(messages) && input == old(input) && assistantSoFar == old(assistantSoFar)
      ensures !(Trim(old(input)) == "" || isLoading) ==>
                && messages == old(messages) + [ChatMessage(User, old(input))]
                && input == "" && assistantSoFar == ""
                && sent == Some(messages)
      ensures sessionTime == old(sessionTime) && cards == old(cards) && showCrisisDialog == old(showCrisisDialog)
    {
      if Trim(input) == "" || isLoading {
        return None;
      }
      var userMessage := ChatMessage(User, input);
      messages := messages + [userMessage];
      input := "";
      assistantSoFar := "";
      sent := Some(messages);
    }

    /** `upsertAssistant`: one streamed chunk. */
    method UpsertAssistant(nextChunk: string)
      modifies this
      ensures assistantSoFar == old(assistantSoFar) + nextChunk
      ensures messages == Upserted(old(messages), assistantSoFar)
      ensures input == old(input) && sessionTime == old(sessionTime) && cards == old(cards)
      ensures showCrisisDialog == old(showCrisisDialog)
    {
      assistantSoFar := assistantSoFar + nextChunk;
      var last := |messages| - 1;
      if |messages| > 0 && messages[last].role == Assistant {
        messages := messages[..last] + [messages[last].(content := assistantSoFar)];
      } else {
        messages := messages + [ChatMessage(Assistant, assistantSoFar)];
      }
    }

    /** `loadCopingStrategies`. */
    method LoadCopingStrategies(reply: Invoke<seq<CopingStrategies.Strategy>>)
      modifies this
      ensures cards == CardsAfterLoad(old(cards), reply)
      ensures messages == old(messages) && input == old(input) && sessionTime == old(sessionTime)
      ensures showCrisisDialog == old(showCrisisDialog) && assistantSoFar == old(assistantSoFar)
    {
      cards := CardsAfterLoad(cards, reply);
    }
  }
}
