/**
 * `SafetyAlertsList`: the status filter over the alert list, the severity
 * styles, the detected-content preview and which actions an alert offers.
 */
module SafetyAlertsList {
  import opened Wrappers
  import opened SafetyTypes
  import opened Seqs
  import SafetyAlerts

  datatype StatusFilter = All | ActiveOnly | ResolvedOnly

  /** The filter selected when the list first renders. */
  const InitialFilter: StatusFilter := ActiveOnly

  /** Whether an alert is listed under the filter. */
  predicate Shown(f: StatusFilter, a: SafetyAlert) {
    match f
    case All => true
    case ActiveOnly => a.status == Active || a.status == Acknowledged
    case ResolvedOnly => a.status == Resolved
  }

  /** `filteredAlerts`. */
  function FilterAlerts(xs: seq<SafetyAlert>, f: StatusFilter): (r: seq<SafetyAlert>)
    ensures |r| <= |xs|
    ensures forall k :: 0 <= k < |r| ==> Shown(f, r[k])
  {
    Filter(xs, a => Shown(f, a))
  }

  /**
   * Membership: an alert is listed exactly when it is in the list and its
   * status passes; an escalated alert is therefore listed only under "all".
   */
  lemma FilterMembership(xs: seq<SafetyAlert>, f: StatusFilter, a: SafetyAlert)
    ensures a in FilterAlerts(xs, f) <==> a in xs && Shown(f, a)
    ensures a.status == Escalated && a in FilterAlerts(xs, f) ==> f == All
  {
    FilterMember(xs, a => Shown(f, a), a);
  }

  /** "all" lists the whole list, in its order. */
  lemma AllShowsEverything(xs: seq<SafetyAlert>)
    ensures FilterAlerts(xs, All) == xs
  {
    FilterKeepsAll(xs, a => Shown(All, a));
  }

  /**
   * Order is kept: the listed alerts of a prefix come first, in the same
   * order, followed by those of the rest; a new alert put in front of the
   * list is listed first when it passes.
   */
  lemma FilterKeepsOrder(xs: seq<SafetyAlert>, ys: seq<SafetyAlert>, f: StatusFilter)
    ensures FilterAlerts(xs + ys, f) == FilterAlerts(xs, f) + FilterAlerts(ys, f)
  {
    FilterAppend(xs, ys, a => Shown(f, a));
  }

  lemma PrependedAlertListedFirst(a: SafetyAlert, xs: seq<SafetyAlert>, f: StatusFilter)
    ensures FilterAlerts([a] + xs, f) == (if Shown(f, a) then [a] else []) + FilterAlerts(xs, f)
  {
    FilterKeepsOrder([a], xs, f);
    assert FilterAlerts([a], f) == (if Shown(f, a) then [a] else []) + Filter([], (b: SafetyAlert) => Shown(f, b));
  }

  /** The "Acknowledge" button. */
  predicate OffersAcknowledge(s: AlertStatus) { s == Active }

  /** The "Mark Resolved" button. */
  predicate OffersResolve(s: AlertStatus) { s == Active || s == Acknowledged }

  /**
   * Action gating: resolved and escalated alerts offer nothing; exactly the
   * alerts listed under "active" offer "Mark Resolved".
   */
  lemma ActionGating(a: SafetyAlert)
    ensures a.status == Resolved || a.status == Escalated ==> !OffersAcknowledge(a.status) && !OffersResolve(a.status)
    ensures OffersResolve(a.status) <==> Shown(ActiveOnly, a)
    ensures OffersAcknowledge(a.status) ==> OffersResolve(a.status)
  {
  }

  /**
   * The offered actions move an alert the way the filters expect: one
   * acknowledged from the list stays under "active", one resolved moves to
   * "resolved".
   */
  lemma ActionsMoveBetweenFilters(a: SafetyAlert, now: Instant)
    ensures OffersAcknowledge(a.status) ==> Shown(ActiveOnly, SafetyAlerts.Acknowledge(a, now))
    ensures Shown(ResolvedOnly, SafetyAlerts.Resolve(a, now)) && !Shown(ActiveOnly, SafetyAlerts.Resolve(a, now))
  {
  }

  /** `getSeverityColor`. */
  function SeverityStyle(s: Severity): (style: string)
    ensures s == Low ==> style == "bg-primary/10 text-primary border-primary"
  {
    match s
    case Critical => "bg-emergency/10 text-emergency border-emergency"
    case High => "bg-destructive/10 text-destructive border-destructive"
    case Medium => "bg-accent/10 text-accent border-accent"
    case Low => "bg-primary/10 text-primary border-primary"
  }

  /** The four severities get four different styles. */
  lemma SeverityStylesDistinct(s: Severity, t: Severity)
    ensures SeverityStyle(s) == SeverityStyle(t) <==> s == t
  {
  }

  /**
   * The detected-content preview: absent for missing or empty content,
   * otherwise the first 100 characters followed by "..." (also when the
   * content is shorter).
   */
  function Preview(content: Option<string>): (r: Option<string>)
    ensures r.Some? <==> content.Some? && content.value != ""
    ensures r.Some? ==> 4 <= |r.value| <= 103 && r.value[|r.value| - 3..] == "..."
    ensures r.Some? ==> r.value[..|r.value| - 3] <= content.value
    ensures r.Some? && |content.value| >= 100 ==> |r.value| == 103
    ensures r.Some? && |content.value| <= 100 ==> r.value == content.value + "..."
  {
    if content.Some? && content.value != "" then
      var c := content.value;
      var shown := if |c| <= 100 then c else c[..100];
      assert shown <= c && 1 <= |shown| <= 100;
      Some(WithEllipsis(shown))
    else None
  }

  /** A text followed by "...": the text is kept as the prefix. */
  function WithEllipsis(t: string): (r: string)
    ensures |r| == |t| + 3 && r[..|t|] == t && r[|t|..] == "..."
  {
    t + "..."
  }
}
