/**
 * The `useSafetyAlerts` hook: the signed-in user's alert list, filled by a
 * query, extended by live inserts, and updated by acknowledge and resolve.
 */
module SafetyAlerts {
  import opened Wrappers
  import opened SafetyTypes

  /** The query `fetchAlerts` issues: one user's rows, by `created_at` descending, at most `limit`. */
  datatype AlertQuery = AlertQuery(userId: string, newestFirst: bool, limit: nat)

  /** The database's answer to the query: rows (possibly `null`), or an error. */
  datatype FetchReply = Rows(rows: Option<seq<SafetyAlert>>) | FetchFailed

  /** The toast raised for a live alert. */
  datatype Toast = Toast(title: string, description: Option<string>, durationMs: nat)

  /** The result toast of acknowledge and resolve. */
  datatype Notice = Success(message: string) | Failure(message: string)

  const FetchLimit: nat := 50
  const AlertToastMs: nat := 10000

  function QueryFor(userId: string): (q: AlertQuery)
    ensures q.userId == userId && q.newestFirst && q.limit == 50
  {
    AlertQuery(userId, true, FetchLimit)
  }

  predicate OwnedBy(xs: seq<SafetyAlert>, userId: string) {
    forall k :: 0 <= k < |xs| ==> xs[k].userId == userId
  }

  predicate NewestFirst(xs: seq<SafetyAlert>) {
    forall i, j :: 0 <= i < j < |xs| ==> xs[i].createdAt >= xs[j].createdAt
  }

  /** Rows that the database may return for the query. */
  predicate Answers(q: AlertQuery, rows: seq<SafetyAlert>) {
    OwnedBy(rows, q.userId) && (q.newestFirst ==> NewestFirst(rows)) && |rows| <= q.limit
  }

  /** The filter of the realtime subscription, `None` when there is no user to subscribe for. */
  function SubscriptionFilter(user: Option<string>): (f: Option<string>)
    ensures f.Some? <==> user.Some?
    ensures f.Some? ==> f.value == "user_id=eq." + user.value
  {
    match user
    case None => None
    case Some(id) => Some("user_id=eq." + id)
  }

  /** A live alert raises a toast exactly when its severity is critical or high. */
  function AlertToast(a: SafetyAlert): (t: Option<Toast>)
    ensures t.Some? <==> a.severity == Critical || a.severity == High
    ensures t.Some? ==> t.value == Toast(a.title, a.description, 10000)
  {
    if a.severity == Critical || a.severity == High then Some(Toast(a.title, a.description, AlertToastMs))
    else None
  }

  function Acknowledge(a: SafetyAlert, now: Instant): SafetyAlert {
    a.(status := Acknowledged, acknowledgedAt := Some(now))
  }

  function Resolve(a: SafetyAlert, now: Instant): SafetyAlert {
    a.(status := Resolved, resolvedAt := Some(now))
  }

  /** `alerts.map(a => a.id === id ? {...a, acknowledged} : a)`. */
  function AcknowledgeById(xs: seq<SafetyAlert>, id: string, now: Instant): (r: seq<SafetyAlert>)
    ensures |r| == |xs|
  {
    seq(|xs|, k requires 0 <= k < |xs| => if xs[k].id == id then Acknowledge(xs[k], now) else xs[k])
  }

  /** `alerts.map(a => a.id === id ? {...a, resolved} : a)`. */
  function ResolveById(xs: seq<SafetyAlert>, id: string, now: Instant): (r: seq<SafetyAlert>)
    ensures |r| == |xs|
  {
    seq(|xs|, k requires 0 <= k < |xs| => if xs[k].id == id then Resolve(xs[k], now) else xs[k])
  }

  /**
   * Acknowledging sets status and time on exactly the alerts with that id;
   * every other field of those alerts, and every other alert, is unchanged.
   */
  lemma AcknowledgeTouchesOnlyId(xs: seq<SafetyAlert>, id: string, now: Instant)
    ensures forall k :: 0 <= k < |xs| && xs[k].id != id ==> AcknowledgeById(xs, id, now)[k] == xs[k]
    ensures forall k :: 0 <= k < |xs| && xs[k].id == id ==>
              var r := AcknowledgeById(xs, id, now)[k];
              && r.status == Acknowledged && r.acknowledgedAt == Some(now)
              && r.(status := xs[k].status, acknowledgedAt := xs[k].acknowledgedAt) == xs[k]
  {
  }

  /** Resolving sets status and time on exactly the alerts with that id. */
  lemma ResolveTouchesOnlyId(xs: seq<SafetyAlert>, id: string, now: Instant)
    ensures forall k :: 0 <= k < |xs| && xs[k].id != id ==> ResolveById(xs, id, now)[k] == xs[k]
    ensures forall k :: 0 <= k < |xs| && xs[k].id == id ==>
              var r := ResolveById(xs, id, now)[k];
              && r.status == Resolved && r.resolvedAt == Some(now)
              && r.(status := xs[k].status, resolvedAt := xs[k].resolvedAt) == xs[k]
  {
  }

  /** An id that is not in the list leaves it as it is. */
  lemma UnknownIdChangesNothing(xs: seq<SafetyAlert>, id: string, now: Instant)
    requires forall k :: 0 <= k < |xs| ==> xs[k].id != id
    ensures AcknowledgeById(xs, id, now) == xs
    ensures ResolveById(xs, id, now) == xs
  {
  }

  /**
   * There is no terminal state: acknowledging a resolved alert makes it
   * acknowledged again (keeping its `resolved_at`).
   */
  lemma AcknowledgeReopensResolved(xs: seq<SafetyAlert>, id: string, now: Instant, k: nat)
    requires k < |xs| && xs[k].id == id && xs[k].status == Resolved
    ensures AcknowledgeById(xs, id, now)[k].status == Acknowledged
    ensures AcknowledgeById(xs, id, now)[k].resolvedAt == xs[k].resolvedAt
  {
  }

  /** Applying the same update twice is the same as applying it once. */
  lemma UpdatesAreIdempotent(xs: seq<SafetyAlert>, id: string, now: Instant)
    ensures AcknowledgeById(AcknowledgeById(xs, id, now), id, now) == AcknowledgeById(xs, id, now)
    ensures ResolveById(ResolveById(xs, id, now), id, now) == ResolveById(xs, id, now)
  {
  }

  /** The hook's state. */
  class AlertStore {
    var user: Option<string>
    var alerts: seq<SafetyAlert>
    var loading: bool

    /** Every alert held belongs to the signed-in user. */
    predicate Valid()
      reads this
    {
      user.Some? ==> OwnedBy(alerts, user.value)
    }

    constructor (user: Option<string>)
      ensures this.user == user && alerts == [] && loading
      ensures Valid()
    {
      this.user := user;
      alerts := [];
      loading := true;
    }

    /**
     * `fetchAlerts`: without a user nothing is requested and nothing
     * changes.  Otherwise the query is issued; rows (or `[]` for `null`)
     * replace the list, an error leaves it, and loading ends either way.
     */
    method Fetch(reply: FetchReply) returns (issued: Option<AlertQuery>)
      modifies this
      ensures user == old(user)
      ensures old(user).None? ==> issued.None? && alerts == old(alerts) && loading == old(loading)
      ensures old(user).Some? ==> issued == Some(QueryFor(user.value)) && !loading
      ensures old(user).Some? ==> alerts == (if reply.Rows? then reply.rows.GetOr([]) else old(alerts))
      ensures old(Valid()) && (reply.Rows? && reply.rows.Some? && issued.Some? ==> Answers(issued.value, reply.rows.value))
              ==> Valid()
      ensures issued.Some? && reply.Rows? && reply.rows.Some? && Answers(issued.value, reply.rows.value)
              ==> NewestFirst(alerts) && |alerts| <= 50
    {
      if user.None? {
        return None;
      }
      issued := Some(QueryFor(user.value));
      if reply.Rows? {
        alerts := if reply.rows.Some? then reply.rows.value else [];
      }
      loading := false;
    }

    /**
     * The INSERT handler: the new alert goes in front of the list, and a
     * 10-second toast is raised for critical and high alerts.  The channel
     * delivers only rows of the subscribed user.
     */
    method OnInsert(newAlert: SafetyAlert) returns (toast: Option<Toast>)
      requires user.Some? && newAlert.userId == user.value
      requires Valid()
      modifies this
      ensures alerts == [newAlert] + old(alerts)
      ensures user == old(user) && loading == old(loading)
      ensures toast == AlertToast(newAlert)
      ensures Valid()
    {
      alerts := [newAlert] + alerts;
      toast := AlertToast(newAlert);
    }

    /** `acknowledgeAlert`: `updated` is whether the database update succeeded. */
    method AcknowledgeAlert(id: string, updated: bool, now: Instant) returns (notice: Notice)
      requires Valid()
      modifies this
      ensures alerts == if updated then AcknowledgeById(old(alerts), id, now) else old(alerts)
      ensures user == old(user) && loading == old(loading)
      ensures notice == if updated then Success("Alert acknowledged") else Failure("Failed to acknowledge alert")
      ensures Valid()
    {
      if !updated {
        return Failure("Failed to acknowledge alert");
      }
      alerts := AcknowledgeById(alerts, id, now);
      notice := Success("Alert acknowledged");
    }

    /** `resolveAlert`: `updated` is whether the database update succeeded. */
    method ResolveAlert(id: string, updated: bool, now: Instant) returns (notice: Notice)
      requires Valid()
      modifies this
      ensures alerts == if updated then ResolveById(old(alerts), id, now) else old(alerts)
      ensures user == old(user) && loading == old(loading)
      ensures notice == if updated then Success("Alert resolved") else Failure("Failed to resolve alert")
      ensures Valid()
    {
      if !updated {
        return Failure("Failed to resolve alert");
      }
      alerts := ResolveById(alerts, id, now);
      notice := Success("Alert resolved");
    }
  }
}
