/**
 * The database enums `alert_severity`, `alert_status` and `user_type`, and
 * the `safety_alerts` row the client reads.
 */
module SafetyTypes {
  import opened Wrappers

  datatype Severity = Low | Medium | High | Critical
  datatype AlertStatus = Active | Acknowledged | Resolved | Escalated
  datatype UserType = Woman | Child | Guardian

  /** A point in time (milliseconds since the epoch); its ISO rendering is left out. */
  type Instant = int

  function SeverityName(s: Severity): string {
    match s
    case Low => "low"
    case Medium => "medium"
    case High => "high"
    case Critical => "critical"
  }

  function ParseSeverity(t: string): (r: Option<Severity>)
    ensures r.Some? ==> SeverityName(r.value) == t
  {
    if t == "low" then Some(Low)
    else if t == "medium" then Some(Medium)
    else if t == "high" then Some(High)
    else if t == "critical" then Some(Critical)
    else None
  }

  /** Every severity is spelled by exactly one name, and reading the name back gives it. */
  lemma SeverityNameRoundTrip(s: Severity)
    ensures ParseSeverity(SeverityName(s)) == Some(s)
  {
  }

  function StatusName(s: AlertStatus): string {
    match s
    case Active => "active"
    case Acknowledged => "acknowledged"
    case Resolved => "resolved"
    case Escalated => "escalated"
  }

  function ParseUserType(t: string): (r: Option<UserType>)
  {
    if t == "woman" then Some(Woman)
    else if t == "child" then Some(Child)
    else if t == "guardian" then Some(Guardian)
    else None
  }

  /** One row of `safety_alerts`. */
  datatype SafetyAlert = SafetyAlert(
    id: string,
    userId: string,
    alertType: string,
    title: string,
    description: Option<string>,
    severity: Severity,
    status: AlertStatus,
    detectedContent: Option<string>,
    escalatedTo: Option<seq<string>>,
    createdAt: Instant,
    acknowledgedAt: Option<Instant>,
    resolvedAt: Option<Instant>)
}
