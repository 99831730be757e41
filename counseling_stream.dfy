/**
 * The client side of the counseling chat (`useAICounseling`): it reads the
 * server-sent event stream chunk by chunk, takes complete lines out of a
 * text buffer, hands each `data: ` payload to the JSON decoder and passes
 * every non-empty `choices[0].delta.content` on, then flushes what is left
 * in the buffer.  Only the subset of section 9.2 (server-sent events) of the
 * WHATWG HTML Living Standard that the code handles is modelled: `data: `
 * with the space, `:` comment lines, and a carriage return before the line
 * feed.
 */
module CounselingStream {
  import opened Wrappers
  import opened Text
  import opened Gateway

  /**
   * The decoder: `None` when `JSON.parse` throws, otherwise the value of
   * `parsed.choices?.[0]?.delta?.content`, which may be absent.
   */
  type Decoder = string -> Option<Option<string>>

  /** What a line, after its carriage return is removed, is for the parser. */
  datatype LineKind = Ignored | DoneMarker | Payload(json: string)

  /** `if (line.endsWith('\r')) line = line.slice(0, -1)`. */
  function StripCR(line: string): (r: string)
    ensures line != [] && line[|line| - 1] == '\r' ==> r == line[..|line| - 1]
    ensures line == [] || line[|line| - 1] != '\r' ==> r == line
  {
    if line != [] && line[|line| - 1] == '\r' then line[..|line| - 1] else line
  }

  /**
   * Comment lines (starting with ':'), blank lines and lines that do not
   * start with "data: " are ignored; otherwise the payload is the trimmed
   * text after the prefix, and "[DONE]" is the end marker.
   */
  function Classify(line: string): LineKind
  {
    if (line != [] && line[0] == ':') || Trim(line) == "" then Ignored
    else if !("data: " <= line) then Ignored
    else
      var json := Trim(line[6..]);
      if json == "[DONE]" then DoneMarker else Payload(json)
  }

  /** What each classification of a line means. */
  lemma ClassifyMeaning(line: string)
    ensures Classify(line).Payload? ==>
              "data: " <= line && Classify(line).json == Trim(line[6..]) && Classify(line).json != "[DONE]"
    ensures Classify(line).DoneMarker? ==> "data: " <= line && Trim(line[6..]) == "[DONE]"
    ensures (line != [] && line[0] == ':') || IsBlank(line) || !("data: " <= line) ==> Classify(line).Ignored?
    ensures !(line != [] && line[0] == ':') && !IsBlank(line) && "data: " <= line ==> !Classify(line).Ignored?
  {
  }

  /** `if (content) onDelta(content)`: a delta for present, non-empty content. */
  function Delta(content: Option<string>): (r: seq<string>)
    ensures |r| <= 1
    ensures |r| == 1 <==> content.Some? && content.value != ""
    ensures |r| == 1 ==> r[0] == content.value
  {
    if content.Some? && content.value != "" then [content.value] else []
  }

  /** What the inner loop does with the first complete line of the buffer. */
  datatype Step =
    | NoLine                                  // no '\n' in the buffer: wait for the next chunk
    | Skip(after: string)                     // an ignored line
    | Stop(after: string)                     // "[DONE]"
    | Retry(buffer: string)                   // a payload that does not decode, put back in front
    | Emit(content: Option<string>, after: string)  // a decoded payload

  /** What happens to one line (its '\r' already dropped), given the text after it. */
  function LineStep(line: string, after: string, decode: Decoder): (st: Step)
    ensures !st.NoLine?
    ensures st.Skip? || st.Stop? || st.Emit? ==> st.after == after
    ensures st.Retry? ==> st.buffer == line + "\n" + after
  {
    match Classify(line)
    case Ignored => Skip(after)
    case DoneMarker => Stop(after)
    case Payload(json) =>
      match decode(json)
      case None => Retry(line + "\n" + after)
      case Some(content) => Emit(content, after)
  }

  /** One iteration of the inner loop: cut the first line off, drop its '\r', classify and decode it. */
  function NextLine(buf: string, decode: Decoder): (st: Step)
    ensures st.NoLine? <==> forall k :: 0 <= k < |buf| ==> buf[k] != '\n'
    ensures st.Skip? || st.Stop? || st.Emit? ==> |st.after| < |buf|
    ensures st.Retry? ==> |st.buffer| <= |buf|
  {
    match IndexOf(buf, '\n')
    case None => NoLine
    case Some(i) =>
      var line := StripCR(buf[..i]);
      assert |line| <= i && |buf[i + 1..]| == |buf| - i - 1;
      LineStep(line, buf[i + 1..], decode)
  }

  /** The first line of `line + "\n" + rest` is `line`. */
  lemma NextLineAtNewline(line: string, rest: string, decode: Decoder)
    requires '\n' !in line
    ensures NextLine(line + "\n" + rest, decode) == LineStep(StripCR(line), rest, decode)
  {
    LineSplitsAtNewline(line, rest);
  }

  /** The outcome of the inner loop over one buffer. */
  datatype Drained = Drained(emitted: seq<string>, rest: string, done: bool)

  /**
   * The inner loop: take complete lines off the front of the buffer until
   * none is left, "[DONE]" is met, or a payload fails to decode (that line,
   * without its carriage return, goes back in front of the rest).
   */
  function Drain(buf: string, decode: Decoder): (d: Drained)
    ensures |d.rest| <= |buf|
    decreases |buf|
  {
    match NextLine(buf, decode)
    case NoLine => Drained([], buf, false)
    case Skip(after) => Drain(after, decode)
    case Stop(after) => Drained([], after, true)
    case Retry(buffer) => Drained([], buffer, false)
    case Emit(content, after) =>
      var d := Drain(after, decode);
      d.(emitted := Delta(content) + d.emitted)
  }

  /** The outcome of the outer loop over the chunks. */
  datatype ReadOutcome = ReadOutcome(emitted: seq<string>, buffer: string, sawDone: bool)

  /** The outer loop: append each chunk to the buffer and drain it, until "[DONE]" or the end of the stream. */
  function ReadAll(buf: string, chunks: seq<string>, decode: Decoder): ReadOutcome
    decreases |chunks|
  {
    if chunks == [] then ReadOutcome([], buf, false)
    else
      var d := Drain(buf + chunks[0], decode);
      if d.done then ReadOutcome(d.emitted, d.rest, true)
      else
        var r := ReadAll(d.rest, chunks[1..], decode);
        r.(emitted := d.emitted + r.emitted)
  }

  /** One piece of the final flush: empty pieces, "[DONE]" and decode failures give nothing. */
  function FlushLine(raw: string, decode: Decoder): seq<string>
  {
    if raw == "" then []
    else match Classify(StripCR(raw))
      case Ignored => []
      case DoneMarker => []
      case Payload(json) =>
        match decode(json)
        case None => []
        case Some(content) => Delta(content)
  }

  function FlushLines(lines: seq<string>, decode: Decoder): seq<string>
  {
    if lines == [] then []
    else FlushLines(lines[..|lines| - 1], decode) + FlushLine(lines[|lines| - 1], decode)
  }

  /** The final flush: nothing for a blank buffer, otherwise every '\n'-separated piece once. */
  function Flush(buf: string, decode: Decoder): seq<string>
  {
    if Trim(buf) == "" then [] else FlushLines(Split(buf, '\n'), decode)
  }

  /**
   * In the flush a piece gives a delta exactly when it is a non-empty data
   * payload that decodes to non-empty content: "[DONE]" is passed over and a
   * decode failure is dropped.
   */
  lemma FlushLineOutcomes(raw: string, decode: Decoder)
    ensures |FlushLine(raw, decode)| <= 1
    ensures |FlushLine(raw, decode)| == 1 <==>
              raw != "" && Classify(StripCR(raw)).Payload?
              && decode(Classify(StripCR(raw)).json).Some?
              && decode(Classify(StripCR(raw)).json).value.Some?
              && decode(Classify(StripCR(raw)).json).value.value != ""
    ensures raw != "" && Classify(StripCR(raw)).DoneMarker? ==> FlushLine(raw, decode) == []
  {
  }

  /** Every delta a successful stream hands to `onDelta`, in order. */
  function StreamDeltas(chunks: seq<string>, decode: Decoder): seq<string>
  {
    var r := ReadAll("", chunks, decode);
    r.emitted + Flush(r.buffer, decode)
  }

  /** A comment, blank or non-data line is dropped without output. */
  lemma IgnoredLineEmitsNothing(line: string, rest: string, decode: Decoder)
    requires '\n' !in line
    requires Classify(StripCR(line)).Ignored?
    ensures Drain(line + "\n" + rest, decode) == Drain(rest, decode)
  {
    NextLineAtNewline(line, rest, decode);
    DrainSkips(line + "\n" + rest, decode, rest);
  }

  /** A payload line whose content is present and non-empty gives exactly that one delta, before the rest. */
  lemma PayloadLineEmitsOnce(line: string, rest: string, decode: Decoder, content: string)
    requires '\n' !in line
    requires Classify(StripCR(line)).Payload?
    requires decode(Classify(StripCR(line)).json) == Some(Some(content)) && content != ""
    ensures Drain(line + "\n" + rest, decode).emitted == [content] + Drain(rest, decode).emitted
    ensures Drain(line + "\n" + rest, decode).rest == Drain(rest, decode).rest
  {
    NextLineAtNewline(line, rest, decode);
    LineStepEmits(StripCR(line), rest, decode, Some(content));
    DrainEmits(line + "\n" + rest, decode, Some(content), rest);
  }

  /** A payload line that decodes is emitted. */
  lemma LineStepEmits(line: string, after: string, decode: Decoder, content: Option<string>)
    requires Classify(line).Payload? && decode(Classify(line).json) == Some(content)
    ensures LineStep(line, after, decode) == Emit(content, after)
  {
  }

  /** Unfolding the inner loop when no complete line is left. */
  lemma DrainWaits(buf: string, decode: Decoder)
    requires NextLine(buf, decode) == NoLine
    ensures Drain(buf, decode) == Drained([], buf, false)
  {
  }

  /** Unfolding the inner loop at an ignored line. */
  lemma DrainSkips(buf: string, decode: Decoder, after: string)
    requires NextLine(buf, decode) == Skip(after)
    ensures Drain(buf, decode) == Drain(after, decode)
  {
  }

  /** Unfolding the inner loop at "[DONE]". */
  lemma DrainStops(buf: string, decode: Decoder, after: string)
    requires NextLine(buf, decode) == Stop(after)
    ensures Drain(buf, decode) == Drained([], after, true)
  {
  }

  /** Unfolding the inner loop at a line that does not decode. */
  lemma DrainRetries(buf: string, decode: Decoder, back: string)
    requires NextLine(buf, decode) == Retry(back)
    ensures Drain(buf, decode) == Drained([], back, false)
  {
  }

  /** Unfolding the inner loop at a line that emits. */
  lemma DrainEmits(buf: string, decode: Decoder, content: Option<string>, after: string)
    requires NextLine(buf, decode) == Emit(content, after)
    ensures Drain(buf, decode).emitted == Delta(content) + Drain(after, decode).emitted
    ensures Drain(buf, decode).rest == Drain(after, decode).rest
  {
  }

  /** "[DONE]" ends the inner loop with nothing emitted; what follows it stays in the buffer. */
  lemma DoneLineStops(line: string, rest: string, decode: Decoder)
    requires '\n' !in line
    requires Classify(StripCR(line)).DoneMarker?
    ensures Drain(line + "\n" + rest, decode) == Drained([], rest, true)
  {
    NextLineAtNewline(line, rest, decode);
    DrainStops(line + "\n" + rest, decode, rest);
  }

  /** A payload that fails to decode goes back to the front of the buffer, and the inner loop stops. */
  lemma UndecodableLineGoesBack(line: string, rest: string, decode: Decoder)
    requires '\n' !in line
    requires Classify(StripCR(line)).Payload?
    requires decode(Classify(StripCR(line)).json).None?
    ensures Drain(line + "\n" + rest, decode) == Drained([], StripCR(line) + "\n" + rest, false)
  {
    NextLineAtNewline(line, rest, decode);
    DrainRetries(line + "\n" + rest, decode, StripCR(line) + "\n" + rest);
  }

  lemma LineSplitsAtNewline(line: string, rest: string)
    requires '\n' !in line
    ensures IndexOf(line + "\n" + rest, '\n') == Some(|line|)
    ensures (line + "\n" + rest)[..|line|] == line
    ensures (line + "\n" + rest)[|line| + 1..] == rest
  {
    var s := line + "\n" + rest;
    assert s[|line|] == '\n';
    assert forall k :: 0 <= k < |line| ==> s[k] == line[k];
  }

  /**
   * A line put back after a failed decode blocks the read loop: whatever
   * chunks follow, nothing more is emitted before the flush, and the chunks
   * pile up behind it in the buffer.
   */
  lemma {:induction false} UndecodableLineBlocksReading(line: string, rest: string, chunks: seq<string>, decode: Decoder)
    requires '\n' !in line && StripCR(line) == line
    requires Classify(line).Payload? && decode(Classify(line).json).None?
    ensures ReadAll(line + "\n" + rest, chunks, decode) == ReadOutcome([], line + "\n" + rest + Concat(chunks), false)
    decreases |chunks|
  {
    if chunks != [] {
      BlockedChunk(line, rest, chunks[0], decode);
      UndecodableLineBlocksReading(line, rest + chunks[0], chunks[1..], decode);
      ConcatBehind(line + "\n", rest, chunks);
    }
  }

  /** One more chunk behind a line that does not decode is drained to nothing. */
  lemma BlockedChunk(line: string, rest: string, chunk: string, decode: Decoder)
    requires '\n' !in line && StripCR(line) == line
    requires Classify(line).Payload? && decode(Classify(line).json).None?
    ensures Drain(line + "\n" + rest + chunk, decode) == Drained([], line + "\n" + (rest + chunk), false)
  {
    AppendAssociates(line + "\n", rest, chunk);
    UndecodableLineGoesBack(line, rest + chunk, decode);
  }

  /** Chunks appended one by one behind a fixed head add up to their concatenation. */
  lemma ConcatBehind(head: string, rest: string, chunks: seq<string>)
    requires chunks != []
    ensures head + (rest + chunks[0]) + Concat(chunks[1..]) == head + rest + Concat(chunks)
  {
    assert Concat(chunks) == chunks[0] + Concat(chunks[1..]);
  }

  /** Once "[DONE]" is met, later chunks are never read: they change nothing. */
  lemma {:induction false} DoneStopsReading(buf: string, chunks: seq<string>, more: seq<string>, decode: Decoder)
    requires ReadAll(buf, chunks, decode).sawDone
    ensures ReadAll(buf, chunks + more, decode) == ReadAll(buf, chunks, decode)
    decreases |chunks|
  {
    assert chunks != [];
    assert (chunks + more)[0] == chunks[0];
    var d := Drain(buf + chunks[0], decode);
    if !d.done {
      assert (chunks + more)[1..] == chunks[1..] + more;
      DoneStopsReading(d.rest, chunks[1..], more, decode);
    }
  }

  /** The outer loop's unfolding at chunk `i`. */
  lemma ReadAllStep(buf: string, chunks: seq<string>, i: nat, decode: Decoder)
    requires i < |chunks|
    ensures var d := Drain(buf + chunks[i], decode);
            ReadAll(buf, chunks[i..], decode)
            == if d.done then ReadOutcome(d.emitted, d.rest, true)
               else var r := ReadAll(d.rest, chunks[i + 1..], decode); r.(emitted := d.emitted + r.emitted)
  {
    assert chunks[i..][0] == chunks[i] && chunks[i..][1..] == chunks[i + 1..];
  }

  /** The inner loop of `streamChat`: complete lines off the front of the buffer. */
  method DrainBuffer(buf: string, decode: Decoder) returns (emitted: seq<string>, textBuffer: string, streamDone: bool)
    ensures Drained(emitted, textBuffer, streamDone) == Drain(buf, decode)
  {
    emitted, textBuffer, streamDone := [], buf, false;
    var step := NextLine(textBuffer, decode);
    while !step.NoLine?
      invariant step == NextLine(textBuffer, decode)
      invariant !streamDone
      invariant Drain(buf, decode).emitted == emitted + Drain(textBuffer, decode).emitted
      invariant Drain(buf, decode).rest == Drain(textBuffer, decode).rest
      invariant Drain(buf, decode).done == Drain(textBuffer, decode).done
      decreases |textBuffer|
    {
      ghost var d := Drain(textBuffer, decode);
      match step {
        case Skip(after) =>
          DrainSkips(textBuffer, decode, after);
          textBuffer := after;
        case Stop(after) =>
          DrainStops(textBuffer, decode, after);
          assert emitted + [] == emitted;
          textBuffer := after;
          streamDone := true;
          break;
        case Retry(buffer) =>
          DrainRetries(textBuffer, decode, buffer);
          assert emitted + [] == emitted;
          textBuffer := buffer;
          break;
        case Emit(content, after) =>
          DrainEmits(textBuffer, decode, content, after);
          AppendAssociates(emitted, Delta(content), Drain(after, decode).emitted);
          textBuffer := after;
          emitted := emitted + Delta(content);
      }
      step := NextLine(textBuffer, decode);
    }
    if step.NoLine? {
      DrainWaits(textBuffer, decode);
      assert emitted + [] == emitted;
    }
  }

  /** The read loop of `streamChat`: the deltas it emits and the buffer it leaves. */
  method ReadStream(chunks: seq<string>, decode: Decoder) returns (deltas: seq<string>, textBuffer: string)
    ensures deltas == ReadAll("", chunks, decode).emitted
    ensures textBuffer == ReadAll("", chunks, decode).buffer
  {
    deltas := [];
    textBuffer := "";
    var streamDone := false;
    var i := 0;
    assert chunks[i..] == chunks;
    while !streamDone && i < |chunks|
      invariant 0 <= i <= |chunks|
      invariant !streamDone ==> deltas + ReadAll(textBuffer, chunks[i..], decode).emitted == ReadAll("", chunks, decode).emitted
      invariant !streamDone ==> ReadAll(textBuffer, chunks[i..], decode).buffer == ReadAll("", chunks, decode).buffer
      invariant streamDone ==> deltas == ReadAll("", chunks, decode).emitted
      invariant streamDone ==> textBuffer == ReadAll("", chunks, decode).buffer
      decreases |chunks| - i
    {
      ghost var before := deltas;
      ghost var d0 := Drain(textBuffer + chunks[i], decode);
      ghost var r0 := ReadAll(textBuffer, chunks[i..], decode);
      ReadAllStep(textBuffer, chunks, i, decode);
      textBuffer := textBuffer + chunks[i];
      i := i + 1;
      var emitted, done;
      emitted, textBuffer, done := DrainBuffer(textBuffer, decode);
      deltas := deltas + emitted;
      streamDone := done;
      assert deltas == before + d0.emitted && textBuffer == d0.rest && streamDone == d0.done;
      if !streamDone {
        ghost var r1 := ReadAll(textBuffer, chunks[i..], decode);
        assert r0.emitted == d0.emitted + r1.emitted && r0.buffer == r1.buffer;
        AppendAssociates(before, d0.emitted, r1.emitted);
      }
    }
  }

  /** One piece of the final flush, handled as the loop body does. */
  method FlushPiece(raw: string, decode: Decoder) returns (d: seq<string>)
    ensures d == FlushLine(raw, decode)
  {
    d := [];
    if raw != "" {
      match Classify(StripCR(raw))
      case Ignored =>
      case DoneMarker =>
      case Payload(jsonStr) =>
        var parsed := decode(jsonStr);
        if parsed.Some? {
          d := Delta(parsed.value);
        }
    }
  }

  /** The loop of the final flush over the pieces of the buffer. */
  method FlushPieces(lines: seq<string>, decode: Decoder) returns (deltas: seq<string>)
    ensures deltas == FlushLines(lines, decode)
  {
    deltas := [];
    for k := 0 to |lines|
      invariant deltas == FlushLines(lines[..k], decode)
    {
      assert lines[..k + 1][..k] == lines[..k];
      var d := FlushPiece(lines[k], decode);
      deltas := deltas + d;
    }
    assert lines[..|lines|] == lines;
  }

  /** The final flush of `streamChat`. */
  method FlushBuffer(textBuffer: string, decode: Decoder) returns (deltas: seq<string>)
    ensures deltas == Flush(textBuffer, decode)
  {
    deltas := [];
    if Trim(textBuffer) != "" {
      deltas := FlushPieces(Split(textBuffer, '\n'), decode);
    }
  }

  /** What the chat function's reply looks like to the client. */
  datatype StreamReply = StreamReply(crisisHeader: Option<string>, chunks: Option<seq<string>>)

  /** The toast shown for a failed call. */
  function FailureToast(reply: Reply<StreamReply>): (title: string)
    ensures reply.HttpError? && reply.status == 429 ==> title == "Please slow down"
    ensures reply.HttpError? && reply.status == 402 ==> title == "Service unavailable"
    ensures !(reply.HttpError? && reply.status in {429, 402}) ==> title == "Connection error"
  {
    if reply.HttpError? && reply.status == TooManyRequests then "Please slow down"
    else if reply.HttpError? && reply.status == PaymentRequired then "Service unavailable"
    else "Connection error"
  }

  /** The hook's flags. */
  class CounselingHook {
    var isLoading: bool
    var crisisDetected: bool

    constructor ()
      ensures !isLoading && !crisisDetected
    {
      isLoading := false;
      crisisDetected := false;
    }

    /**
     * `streamChat`: a reply that is not 2xx shows a toast and never calls
     * `onDone`; a reply without a body throws after the crisis flag is set;
     * a readable stream calls `onDelta` once per delta and `onDone` once.
     */
    method StreamChat(reply: Reply<StreamReply>, decode: Decoder)
      returns (deltas: seq<string>, doneCalled: bool, toast: Option<string>)
      modifies this
      ensures !isLoading
      ensures crisisDetected <==> reply.Success? && reply.body.crisisHeader == Some("true")
      ensures doneCalled <==> reply.Success? && reply.body.chunks.Some?
      ensures doneCalled ==> deltas == StreamDeltas(reply.body.chunks.value, decode) && toast.None?
      ensures !doneCalled ==> deltas == [] && toast == Some(FailureToast(reply))
    {
      isLoading := true;
      crisisDetected := false;
      deltas, doneCalled, toast := [], false, None;
      if !reply.Success? {
        toast := Some(FailureToast(reply));
      } else {
        if reply.body.crisisHeader == Some("true") {
          crisisDetected := true;
        }
        if reply.body.chunks.None? {
          toast := Some(FailureToast(reply));
        } else {
          var textBuffer;
          deltas, textBuffer := ReadStream(reply.body.chunks.value, decode);
          var rest := FlushBuffer(textBuffer, decode);
          deltas := deltas + rest;
          doneCalled := true;
        }
      }
      isLoading := false;
    }
  }
}
