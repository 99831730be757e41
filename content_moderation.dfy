/**
 * The `content-moderation` edge function: it asks the AI gateway to classify
 * a text, turns the reply into a verdict (with three fixed fallbacks), and
 * writes one `safety_alerts` row when the verdict is unsafe and asks for an
 * action.
 */
module ContentModeration {
  import opened Wrappers
  import opened Text
  import opened Gateway

  /**
   * A verdict as the handler holds it: the decoded JSON object, any field of
   * which may be absent.  `isSafe` is kept as its JavaScript truthiness, the
   * only thing the handler reads of it.
   */
  datatype Verdict = Verdict(
    isSafe: bool,
    severity: Option<string>,
    categories: Option<seq<string>>,
    explanation: Option<string>,
    actionRequired: Option<string>)

  /** The verdict returned when the gateway answers with a non-2xx status. */
  const Unavailable := Verdict(false, Some("medium"), Some(["analysis_unavailable"]),
    Some("Content moderation service temporarily unavailable"), Some("alert"))

  /** The verdict used when the reply holds no `{...}` span. */
  const NoIssues := Verdict(true, Some("low"), Some([]), Some("No issues detected"), Some("none"))

  /** The verdict used when the `{...}` span does not decode. */
  const ParseError := Verdict(false, Some("medium"), Some(["parse_error"]),
    Some("Unable to complete analysis"), Some("alert"))

  /** The body of the status-500 reply (its `error` message is left out). */
  const Failure := Verdict(false, Some("medium"), None, None, Some("alert"))

  /** The decoded empty object `{}`: every field absent, so `isSafe` is falsy. */
  const EmptyObject := Verdict(false, None, None, None, None)

  /** The request body the function reads. */
  datatype Request = Request(text: string, userId: Option<string>, context: Option<string>)

  datatype Response = Response(status: int, body: Verdict)

  datatype AlertMetadata = AlertMetadata(
    context: Option<string>,
    categories: seq<string>,
    actionRequired: Option<string>,
    timestamp: string)

  /** The record inserted into `safety_alerts`. */
  datatype AlertRow = AlertRow(
    userId: Option<string>,
    alertType: string,
    title: string,
    description: Option<string>,
    severity: string,
    status: string,
    detectedContent: string,
    metadata: AlertMetadata)

  /** What one call does: the reply it sends and the row it tries to insert, if any. */
  datatype Outcome = Outcome(response: Response, insert: Option<AlertRow>)

  const PromptHead: string :=
    "Analyze this text for safety concerns. Detect:\n"
    + "1. Harassment, bullying, or threats\n"
    + "2. Grooming or inappropriate contact attempts\n"
    + "3. Self-harm or suicidal ideation\n"
    + "4. Hate speech or discrimination\n"
    + "5. Sexual content or predatory behavior\n"
    + "6. Sharing of personal information (addresses, phone numbers)\n\n"
    + "Text: \""

  const PromptTail: string :=
    "\n\nRespond with JSON: {\n"
    + "  \"isSafe\": boolean,\n"
    + "  \"severity\": \"low\" | \"medium\" | \"high\" | \"critical\",\n"
    + "  \"categories\": [\"category1\", \"category2\"],\n"
    + "  \"explanation\": \"brief explanation\",\n"
    + "  \"actionRequired\": \"none\" | \"alert\" | \"block\" | \"escalate\"\n"
    + "}"

  /** `context || "general"`. */
  function PromptContext(context: Option<string>): string
  {
    if context.Some? && context.value != "" then context.value else "general"
  }

  function ContextLine(context: Option<string>): string
  {
    "Context: " + PromptContext(context)
  }

  /** The analysis prompt: the text verbatim between quotes, then the context line. */
  function AnalysisPrompt(text: string, context: Option<string>): string
  {
    PromptHead + text + "\"\n\n" + ContextLine(context) + PromptTail
  }

  /** The prompt carries the submitted text unchanged, and the context or "general". */
  lemma PromptEmbedsTextAndContext(text: string, context: Option<string>)
    ensures Contains(AnalysisPrompt(text, context), text)
    ensures Contains(AnalysisPrompt(text, context), ContextLine(context))
    ensures context.None? || context.value == "" ==> ContextLine(context) == "Context: general"
  {
    FoundInFive(PromptHead, text, "\"\n\n", ContextLine(context), PromptTail);
  }

  /** The second and the fourth of five concatenated strings are found in the whole. */
  lemma FoundInFive(a: string, b: string, c: string, d: string, e: string)
    ensures Contains(a + b + c + d + e, b)
    ensures Contains(a + b + c + d + e, d)
  {
    assert a + b + c + d + e == a + b + (c + d + e);
    ContainsMiddle(a, b, c + d + e);
    assert a + b + c + d + e == (a + b + c) + d + e;
    ContainsMiddle(a + b + c, d, e);
  }

  /** `data.choices[0]?.message?.content || "{}"`. */
  function ReplyText(content: Option<string>): (t: string)
    ensures t != ""
    ensures content.Some? && content.value != "" ==> t == content.value
  {
    if content.Some? && content.value != "" then content.value else "{}"
  }

  /** The reply text turned into a verdict: the decoded span, or one of two fixed fallbacks. */
  function ParseVerdict(reply: string, decode: string -> Option<Verdict>): Verdict
  {
    match GreedyMatch(reply, '{', '}')
    case None => NoIssues
    case Some(span) =>
      match decode(span)
      case None => ParseError
      case Some(v) => v
  }

  /** A reply in which no `{` comes before a `}` gives the safe default. */
  lemma NoSpanIsSafeDefault(reply: string, decode: string -> Option<Verdict>)
    requires forall i, j :: 0 <= i < j < |reply| ==> !(reply[i] == '{' && reply[j] == '}')
    ensures ParseVerdict(reply, decode) == NoIssues
    ensures !NeedsAlert(ParseVerdict(reply, decode))
  {
  }

  /**
   * The candidate handed to the decoder runs from the first `{` to the last
   * `}`: with two objects in the reply, it spans both and whatever is between.
   */
  lemma SpanIsGreedy(reply: string, decode: string -> Option<Verdict>, i: nat, j: nat)
    requires i < j < |reply| && reply[i] == '{' && reply[j] == '}'
    requires forall k :: 0 <= k < i ==> reply[k] != '{'
    requires forall k :: j < k < |reply| ==> reply[k] != '}'
    ensures GreedyMatch(reply, '{', '}') == Some(reply[i..j + 1])
    ensures ParseVerdict(reply, decode) == decode(reply[i..j + 1]).GetOr(ParseError)
  {
    var r := GreedySpan(reply, '{', '}');
    assert r.Some?;
    var (a, b) := r.value;
  }

  /** An alert is raised when `isSafe` is falsy and `actionRequired !== "none"`. */
  predicate NeedsAlert(v: Verdict)
  {
    !v.isSafe && v.actionRequired != Some("none")
  }

  /**
   * The row the handler builds, or `None` when building it throws: without
   * `categories`, `categories.join` fails; without `severity`,
   * `severity.toUpperCase` fails.
   */
  function AlertRowFor(v: Verdict, req: Request, timestamp: string): (r: Option<AlertRow>)
    ensures r.Some? <==> v.categories.Some? && v.severity.Some?
    ensures r.Some? ==> r.value.status == "active" && r.value.detectedContent == req.text
  {
    match (v.categories, v.severity)
    case (Some(cats), Some(sev)) =>
      Some(AlertRow(
        req.userId,
        Join(cats, ", "),
        Upper(sev) + " Safety Alert",
        v.explanation,
        sev,
        "active",
        req.text,
        AlertMetadata(req.context, cats, v.actionRequired, timestamp)))
    case _ => None
  }

  /** The handler, from the request and the answers of its collaborators. */
  function Moderate(req: Request, apiKeyConfigured: bool, reply: Reply<Option<string>>,
                    decode: string -> Option<Verdict>, timestamp: string): Outcome
  {
    if !apiKeyConfigured then Outcome(Response(InternalError, Failure), None)
    else match reply
      case Threw => Outcome(Response(InternalError, Failure), None)
      case HttpError(_) => Outcome(Response(200, Unavailable), None)
      case Success(content) =>
        var v := ParseVerdict(ReplyText(content), decode);
        if !NeedsAlert(v) then Outcome(Response(200, v), None)
        else match AlertRowFor(v, req, timestamp)
          case None => Outcome(Response(InternalError, Failure), None)
          case Some(row) => Outcome(Response(200, v), Some(row))
  }

  /** A non-2xx gateway reply gives exactly the fail-safe verdict and no alert row. */
  lemma GatewayErrorIsFailSafe(req: Request, status: int, decode: string -> Option<Verdict>, timestamp: string)
    ensures Moderate(req, true, HttpError(status), decode, timestamp)
         == Outcome(Response(200, Verdict(false, Some("medium"), Some(["analysis_unavailable"]),
              Some("Content moderation service temporarily unavailable"), Some("alert"))), None)
  {
  }

  /** A reply without a `{...}` span gives the safe default, status 200, and no row. */
  lemma NoSpanReplyIsSafe(req: Request, content: string, decode: string -> Option<Verdict>, timestamp: string)
    requires content != ""
    requires forall i, j :: 0 <= i < j < |content| ==> !(content[i] == '{' && content[j] == '}')
    ensures Moderate(req, true, Success(Some(content)), decode, timestamp).response
         == Response(200, Verdict(true, Some("low"), Some([]), Some("No issues detected"), Some("none")))
    ensures Moderate(req, true, Success(Some(content)), decode, timestamp).insert.None?
  {
    NoSpanIsSafeDefault(content, decode);
  }

  /**
   * A span that does not decode gives the parse-error verdict with status
   * 200, and since that verdict is unsafe and asks for an alert, one row
   * titled "MEDIUM Safety Alert" of type "parse_error".
   */
  lemma UndecodableSpanIsFlagged(req: Request, content: string, decode: string -> Option<Verdict>, timestamp: string)
    requires GreedyMatch(content, '{', '}').Some?
    requires decode(GreedyMatch(content, '{', '}').value).None?
    ensures Moderate(req, true, Success(Some(content)), decode, timestamp).response.status == 200
    ensures Moderate(req, true, Success(Some(content)), decode, timestamp).response.body
         == Verdict(false, Some("medium"), Some(["parse_error"]), Some("Unable to complete analysis"), Some("alert"))
    ensures Moderate(req, true, Success(Some(content)), decode, timestamp).insert.Some?
    ensures Moderate(req, true, Success(Some(content)), decode, timestamp).insert.value.alertType == "parse_error"
    ensures Moderate(req, true, Success(Some(content)), decode, timestamp).insert.value.title == "MEDIUM Safety Alert"
  {
    assert ReplyText(Some(content)) == content;
    assert ParseVerdict(content, decode) == ParseError;
    ParseErrorRow(req, timestamp);
  }

  /** The row built from the parse-error verdict. */
  lemma ParseErrorRow(req: Request, timestamp: string)
    ensures AlertRowFor(ParseError, req, timestamp).Some?
    ensures AlertRowFor(ParseError, req, timestamp).value.alertType == "parse_error"
    ensures AlertRowFor(ParseError, req, timestamp).value.title == "MEDIUM Safety Alert"
  {
    assert Join(["parse_error"], ", ") == "parse_error";
    assert Upper("medium") == "MEDIUM";
  }

  /**
   * Alert gating: for a decoded verdict, a row is attempted exactly when the
   * verdict is unsafe, asks for an action, and carries the two fields the row
   * is built from; an unsafe actionable verdict missing one of them makes the
   * call fail with status 500 and no row.
   */
  lemma AlertGating(req: Request, content: Option<string>, decode: string -> Option<Verdict>, timestamp: string)
    ensures var v := ParseVerdict(ReplyText(content), decode);
            var o := Moderate(req, true, Success(content), decode, timestamp);
            && (o.insert.Some? <==> NeedsAlert(v) && v.categories.Some? && v.severity.Some?)
            && (o.response.status == InternalError <==> NeedsAlert(v) && !(v.categories.Some? && v.severity.Some?))
            && (o.response.status != InternalError ==> o.response == Response(200, v))
  {
  }

  /** The inserted row: type, title, status, description, content and metadata as the handler builds them. */
  lemma InsertedRowContents(req: Request, content: Option<string>, decode: string -> Option<Verdict>, timestamp: string)
    requires Moderate(req, true, Success(content), decode, timestamp).insert.Some?
    ensures var v := ParseVerdict(ReplyText(content), decode);
            var row := Moderate(req, true, Success(content), decode, timestamp).insert.value;
            && !v.isSafe && v.actionRequired != Some("none")
            && row.userId == req.userId
            && row.alertType == Join(v.categories.value, ", ")
            && row.title == Upper(v.severity.value) + " Safety Alert"
            && row.severity == v.severity.value
            && row.status == "active"
            && row.description == v.explanation
            && row.detectedContent == req.text
            && row.metadata == AlertMetadata(req.context, v.categories.value, v.actionRequired, timestamp)
  {
  }

  /** A missing API key, or an exception from the call, gives status 500 with the fail-safe fields and no row. */
  lemma FailuresAre500(req: Request, apiKeyConfigured: bool, reply: Reply<Option<string>>,
                       decode: string -> Option<Verdict>, timestamp: string)
    requires !apiKeyConfigured || reply.Threw?
    ensures Moderate(req, apiKeyConfigured, reply, decode, timestamp)
         == Outcome(Response(500, Verdict(false, Some("medium"), None, None, Some("alert"))), None)
  {
  }

  /**
   * An empty or absent reply content is read as "{}"; decoded, that object
   * has no `isSafe` and no `categories`, so it enters the alert branch and
   * fails there: status 500 and no row.
   */
  lemma EmptyReplyFailsInAlertBranch(req: Request, content: Option<string>, decode: string -> Option<Verdict>, timestamp: string)
    requires content.None? || content.value == ""
    requires decode("{}") == Some(EmptyObject)
    ensures Moderate(req, true, Success(content), decode, timestamp)
         == Outcome(Response(500, Verdict(false, Some("medium"), None, None, Some("alert"))), None)
  {
    assert ReplyText(content) == "{}";
    var s := GreedySpan("{}", '{', '}');
    assert "{}"[0] == '{' && "{}"[1] == '}';
    assert s.Some?;
    assert s.value == (0, 2);
    assert "{}"[0..2] == "{}";
  }

  /** Whatever the inputs, a reply that is not a 200 says `isSafe: false` and `actionRequired: "alert"`. */
  lemma NonSuccessIsNeverSafe(req: Request, apiKeyConfigured: bool, reply: Reply<Option<string>>,
                              decode: string -> Option<Verdict>, timestamp: string)
    ensures var r := Moderate(req, apiKeyConfigured, reply, decode, timestamp).response;
            r.status != 200 ==> !r.body.isSafe && r.body.actionRequired == Some("alert")
  {
  }

  /** The `safety_alerts` table, as far as this function writes to it. */
  class AlertsTable {
    var rows: seq<AlertRow>

    constructor (initial: seq<AlertRow>)
      ensures rows == initial
    {
      rows := initial;
    }

    /**
     * One call of the handler.  `insertAccepted` is the database's answer to
     * the insert; a refused insert is only logged, and the verdict is still
     * returned with status 200.
     */
    method Serve(req: Request, apiKeyConfigured: bool, reply: Reply<Option<string>>,
                 decode: string -> Option<Verdict>, timestamp: string, insertAccepted: bool)
      returns (resp: Response)
      modifies this
      ensures resp == Moderate(req, apiKeyConfigured, reply, decode, timestamp).response
      ensures var ins := Moderate(req, apiKeyConfigured, reply, decode, timestamp).insert;
              rows == if ins.Some? && insertAccepted then old(rows) + [ins.value] else old(rows)
    {
      if !apiKeyConfigured {
        return Response(InternalError, Failure);
      }
      if reply.Threw? {
        return Response(InternalError, Failure);
      }
      if reply.HttpError? {
        return Response(200, Unavailable);
      }
      var aiResponse := ReplyText(reply.body);
      var analysisResult: Verdict;
      var jsonMatch := GreedyMatch(aiResponse, '{', '}');
      if jsonMatch.None? {
        analysisResult := NoIssues;
      } else {
        var decoded := decode(jsonMatch.value);
        if decoded.None? {
          analysisResult := ParseError;
        } else {
          analysisResult := decoded.value;
        }
      }
      if NeedsAlert(analysisResult) {
        var row := AlertRowFor(analysisResult, req, timestamp);
        if row.None? {
          return Response(InternalError, Failure);
        }
        if insertAccepted {
          rows := rows + [row.value];
        }
      }
      resp := Response(200, analysisResult);
    }
  }
}
