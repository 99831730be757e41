/**
 * The `useContentModeration` hook: it invokes `content-moderation` with the
 * text, the signed-in user's id and the context, and falls back to a
 * fail-safe "unavailable" verdict whenever the invocation fails.
 */
module ModerationClient {
  import opened Wrappers
  import opened Gateway
  import opened ContentModeration

  /** The hook's verdict for one invocation outcome. */
  function ClientVerdict(reply: Invoke<Verdict>): (v: Verdict)
    ensures reply.InvokeError? ==> v == Unavailable
    ensures reply.Data? ==> v == reply.value
  {
    match reply
    case Data(v) => v
    case InvokeError => Unavailable
  }

  /**
   * End to end: whatever the edge function meets, the hook reports a safe
   * verdict only when the function answered 200 with a safe verdict, and
   * every failure of the function (status 500) reaches the caller as the
   * fail-safe "unavailable" verdict.
   */
  lemma ClientIsFailSafe(req: Request, apiKeyConfigured: bool, reply: Reply<Option<string>>,
                         decode: string -> Option<Verdict>, timestamp: string)
    ensures var r := Moderate(req, apiKeyConfigured, reply, decode, timestamp).response;
            var v := ClientVerdict(InvokeOf(r.status, r.body));
            && (v.isSafe ==> r.status == 200 && r.body.isSafe)
            && (r.status == InternalError ==> v == Unavailable)
            && (r.status == 200 ==> v == r.body)
  {
  }

  /** The hook's state: the busy flag and the signed-in user. */
  class ModerationHook {
    var isAnalyzing: bool
    var userId: Option<string>

    constructor (userId: Option<string>)
      ensures !isAnalyzing && this.userId == userId
    {
      isAnalyzing := false;
      this.userId := userId;
    }

    /** Start a call: raise the busy flag and build the request body. */
    method Begin(text: string, context: Option<string>) returns (body: Request)
      modifies this
      ensures isAnalyzing && userId == old(userId)
      ensures body == Request(text, old(userId), context)
    {
      isAnalyzing := true;
      body := Request(text, userId, context);
    }

    /** Finish a call with the invocation's outcome: lower the flag and return the verdict. */
    method Finish(reply: Invoke<Verdict>) returns (result: Verdict)
      modifies this
      ensures !isAnalyzing && userId == old(userId)
      ensures result == ClientVerdict(reply)
    {
      if reply.InvokeError? {
        result := Verdict(false, Some("medium"), Some(["analysis_unavailable"]),
          Some("Content moderation service temporarily unavailable"), Some("alert"));
      } else {
        result := reply.value;
      }
      isAnalyzing := false;
    }
  }
}
