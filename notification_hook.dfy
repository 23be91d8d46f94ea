/**
 * The notification webhook's `handle`: for each configured notification,
 * the findings its rules match are handed to a notifier of the
 * notification's type, created with the notification's template.
 */
module NotificationHook {
  import opened Wrappers
  import opened RuleFilter

  /** One entry of the NOTIFICATIONS configuration. */
  datatype Notification = Notification(
    name: string,
    notifierType: string,
    template: string,
    customTemplate: Option<string>,
    rules: seq<MatchRule>)

  /** One `NotifierFactory.create(type, template).sendNotification(findings)` call. */
  datatype Dispatch = Dispatch(notifierType: string, template: string, findings: seq<FlatFinding>)

  /** `notifications.forEach(...)`: one dispatch per notification, in order. */
  method Handle(findings: seq<FlatFinding>, notifications: seq<Notification>) returns (sent: seq<Dispatch>)
    ensures |sent| == |notifications|
    ensures forall i :: 0 <= i < |sent| ==>
      sent[i].notifierType == notifications[i].notifierType &&
      sent[i].template == notifications[i].template
    ensures forall i, x :: 0 <= i < |sent| ==>
      (x in sent[i].findings <==> x in findings && AnyRuleMatches(x, notifications[i].rules))
    ensures forall i :: 0 <= i < |sent| ==> IsSubsequence(sent[i].findings, findings)
    ensures forall i :: 0 <= i < |sent| ==> sent[i].findings == Filter(findings, notifications[i].rules)
  {
    sent := [];
    var i := 0;
    while i < |notifications|
      invariant 0 <= i <= |notifications|
      invariant |sent| == i
      invariant forall k :: 0 <= k < i ==>
        sent[k] == Dispatch(notifications[k].notifierType, notifications[k].template,
                            Filter(findings, notifications[k].rules))
    {
      var notification := notifications[i];
      var matchingFindings := Filter(findings, notification.rules);
      sent := sent + [Dispatch(notification.notifierType, notification.template, matchingFindings)];
      i := i + 1;
    }
  }
}
