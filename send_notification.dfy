/**
 * The `send-notification` edge function: it looks the notification type up
 * (with a default), works out the priority, notifies the approved guardians
 * of the user for the two alert types, and builds the notification record.
 */
module SendNotification {
  import opened Wrappers
  import opened Seqs

  datatype NotificationConfig = NotificationConfig(sendAlways: bool, urgent: bool)

  /** The request body; `data` is the caller's JSON object, reduced to string fields. */
  datatype NotificationRequest = NotificationRequest(
    userId: string,
    notificationType: string,
    title: string,
    body: string,
    data: Option<map<string, string>>,
    priority: Option<string>)

  /** One row of `guardian_child_links`. */
  datatype GuardianLink = GuardianLink(guardianId: string, childId: string, status: string)

  /** The record the function prepares and returns. */
  datatype Notification = Notification(
    userId: string,
    notificationType: string,
    title: string,
    body: string,
    data: map<string, string>,
    priority: string,
    sentAt: string,
    status: string)

  const UrgentTypes: set<string> := {"emergency", "safety_alert", "guardian_alert"}
  const QuietTypes: set<string> := {"counseling_reminder", "journey_update", "system"}

  /** `notificationTypes[type] || { sendAlways: false, urgent: false }`. */
  function ConfigFor(notificationType: string): (c: NotificationConfig)
    ensures c.urgent <==> notificationType in UrgentTypes
    ensures c.sendAlways <==> notificationType in UrgentTypes
    ensures notificationType !in UrgentTypes + QuietTypes ==> c == NotificationConfig(false, false)
  {
    if notificationType == "emergency" then NotificationConfig(true, true)
    else if notificationType == "safety_alert" then NotificationConfig(true, true)
    else if notificationType == "counseling_reminder" then NotificationConfig(false, false)
    else if notificationType == "guardian_alert" then NotificationConfig(true, true)
    else if notificationType == "journey_update" then NotificationConfig(false, false)
    else if notificationType == "system" then NotificationConfig(false, false)
    else NotificationConfig(false, false)
  }

  /** `priority || (urgent ? "high" : "normal")`. */
  function PriorityFor(requested: Option<string>, c: NotificationConfig): (p: string)
    ensures requested.Some? && requested.value != "" ==> p == requested.value
    ensures (requested.None? || requested.value == "") ==> (p == "high" <==> c.urgent)
    ensures (requested.None? || requested.value == "") ==> (p == "normal" <==> !c.urgent)
  {
    if requested.Some? && requested.value != "" then requested.value
    else if c.urgent then "high" else "normal"
  }

  /** Only guardian and safety alerts reach the guardians. */
  predicate NotifiesGuardians(notificationType: string) {
    notificationType == "guardian_alert" || notificationType == "safety_alert"
  }

  /** Every type that reaches the guardians is an urgent one. */
  lemma GuardianTypesAreUrgent(notificationType: string)
    ensures NotifiesGuardians(notificationType) ==> ConfigFor(notificationType).urgent
    ensures NotifiesGuardians(notificationType) ==> PriorityFor(None, ConfigFor(notificationType)) == "high"
  {
  }

  /** The rows the lookup selects: links of this child whose status is "approved". */
  function ApprovedLinks(table: seq<GuardianLink>, childId: string): (r: seq<GuardianLink>)
    ensures forall k :: 0 <= k < |r| ==> r[k].childId == childId && r[k].status == "approved"
  {
    Filter(table, (l: GuardianLink) => l.childId == childId && l.status == "approved")
  }

  lemma ApprovedLinksExact(table: seq<GuardianLink>, childId: string, l: GuardianLink)
    ensures l in ApprovedLinks(table, childId) <==> l in table && l.childId == childId && l.status == "approved"
  {
    FilterMember(table, (l: GuardianLink) => l.childId == childId && l.status == "approved", l);
  }

  /** The guardian ids of a list of links, in order. */
  function GuardianIds(links: seq<GuardianLink>): (ids: seq<string>)
    ensures |ids| == |links|
  {
    seq(|links|, k requires 0 <= k < |links| => links[k].guardianId)
  }

  /** The loop over the links: one dispatch per link, in order. */
  method DispatchToGuardians(links: seq<GuardianLink>) returns (sent: seq<string>)
    ensures |sent| == |links|
    ensures forall k :: 0 <= k < |links| ==> sent[k] == links[k].guardianId
    ensures sent == GuardianIds(links)
  {
    sent := [];
    for i := 0 to |links|
      invariant |sent| == i
      invariant forall k :: 0 <= k < i ==> sent[k] == links[k].guardianId
    {
      sent := sent + [links[i].guardianId];
    }
  }

  /** The record built from the request. */
  function NotificationRecord(req: NotificationRequest, sentAt: string): (n: Notification)
    ensures n.userId == req.userId && n.notificationType == req.notificationType
    ensures n.title == req.title && n.body == req.body
    ensures req.data.None? ==> n.data == map[]
    ensures req.data.Some? ==> n.data == req.data.value
    ensures n.priority == PriorityFor(req.priority, ConfigFor(req.notificationType))
    ensures n.status == "sent" && n.sentAt == sentAt
  {
    Notification(req.userId, req.notificationType, req.title, req.body,
      req.data.GetOr(map[]), PriorityFor(req.priority, ConfigFor(req.notificationType)), sentAt, "sent")
  }

  /**
   * The handler.  `profileFound` is whether the profile lookup returned a
   * row; `linkTable` is `guardian_child_links`, and `lookupOk` whether the
   * link lookup returned data (it gives `null` on error).  The result is the
   * status, the record (on success) and the guardians notified.
   */
  method Handle(req: NotificationRequest, profileFound: bool, linkTable: seq<GuardianLink>,
                lookupOk: bool, sentAt: string)
    returns (status: int, notification: Option<Notification>, dispatched: seq<string>)
    ensures !profileFound ==> status == 500 && notification.None? && dispatched == []
    ensures profileFound ==> status == 200 && notification == Some(NotificationRecord(req, sentAt))
    ensures dispatched == if profileFound && NotifiesGuardians(req.notificationType) && lookupOk
                          then GuardianIds(ApprovedLinks(linkTable, req.userId)) else []
  {
    if !profileFound {
      return 500, None, [];
    }
    dispatched := [];
    if NotifiesGuardians(req.notificationType) {
      if lookupOk {
        var guardianLinks := ApprovedLinks(linkTable, req.userId);
        if |guardianLinks| > 0 {
          dispatched := DispatchToGuardians(guardianLinks);
        }
      }
    }
    notification := Some(NotificationRecord(req, sentAt));
    status := 200;
  }

  /**
   * Every guardian notified holds an approved link to the user, and there
   * are as many dispatches as approved links of the user.
   */
  lemma DispatchesAreApprovedGuardians(table: seq<GuardianLink>, userId: string, g: string)
    ensures g in GuardianIds(ApprovedLinks(table, userId)) <==>
            exists l :: l in table && l.childId == userId && l.status == "approved" && l.guardianId == g
    ensures |GuardianIds(ApprovedLinks(table, userId))|
         == Count(table, (l: GuardianLink) => l.childId == userId && l.status == "approved")
  {
    var links := ApprovedLinks(table, userId);
    var ids := GuardianIds(links);
    if g in ids {
      var k :| 0 <= k < |ids| && ids[k] == g;
      ApprovedLinksExact(table, userId, links[k]);
    }
    if l :| l in table && l.childId == userId && l.status == "approved" && l.guardianId == g {
      ApprovedLinksExact(table, userId, l);
      var k :| 0 <= k < |links| && links[k] == l;
      assert ids[k] == g;
    }
  }
}
