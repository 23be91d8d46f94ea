/**
 * The second `handle` of the notification webhook, which lets a
 * notification carry a custom template. As written, the template is
 * chosen by calling methods on the enclosing function's `this` rather
 * than on the notifier, and that call throws on the first notification.
 */
module NotificationSrcHook {
  import opened Wrappers
  import opened RuleFilter
  import opened NotificationHook

  /** The template a notifier ends up initialised with. */
  datatype TemplateChoice = Standard(name: string) | Custom(text: string)

  /** One `notifier.sendMessage(findingsToNotify)` call. */
  datatype Message = Message(notifierType: string, template: TemplateChoice, findings: seq<FlatFinding>)

  /** How a call of `handle` ends, with the messages sent before it ended. */
  datatype Outcome = Completed(sent: seq<Message>) | Threw(sent: seq<Message>)

  /** A custom template is used when it is present and not the empty string. */
  function ChooseTemplate(n: Notification): (t: TemplateChoice)
    ensures t.Custom? <==> n.customTemplate.Some? && n.customTemplate.value != ""
    ensures t.Custom? ==> t.text == n.customTemplate.value
    ensures t.Standard? ==> t.name == n.template
  {
    if n.customTemplate.Some? && n.customTemplate.value != "" then Custom(n.customTemplate.value)
    else Standard(n.template)
  }

  /**
   * The loop as written. `notifier.initTemplate` succeeds, then
   * `this.initCustomTemplate` or `this.initTemplate` is looked up on a
   * receiver that has neither, so the first iteration throws before
   * `sendMessage` is reached.
   */
  method HandleAsWritten(findings: seq<FlatFinding>, notifications: seq<Notification>) returns (outcome: Outcome)
    ensures outcome.Threw? <==> |notifications| > 0
    ensures outcome.sent == []
  {
    if |notifications| > 0 {
      var notification := notifications[0];
      var findingsToNotify := Filter(findings, notification.rules);
      // Neither branch can call a method of the notifier: both throw.
      return Threw([]);
    }
    return Completed([]);
  }

  /** The loop as evidently intended: the template methods are called on the notifier. */
  method Handle(findings: seq<FlatFinding>, notifications: seq<Notification>) returns (outcome: Outcome)
    ensures outcome.Completed?
    ensures |outcome.sent| == |notifications|
    ensures forall i :: 0 <= i < |outcome.sent| ==> outcome.sent[i].notifierType == notifications[i].notifierType
    ensures forall i :: 0 <= i < |outcome.sent| ==>
      var custom := notifications[i].customTemplate;
      outcome.sent[i].template == if custom.Some? && custom.value != "" then Custom(custom.value)
                                  else Standard(notifications[i].template)
    ensures forall i, x :: 0 <= i < |outcome.sent| ==>
      (x in outcome.sent[i].findings <==> x in findings && AnyRuleMatches(x, notifications[i].rules))
    ensures forall i :: 0 <= i < |outcome.sent| ==> IsSubsequence(outcome.sent[i].findings, findings)
    ensures forall i :: 0 <= i < |outcome.sent| ==> outcome.sent[i].findings == Filter(findings, notifications[i].rules)
  {
    var sent: seq<Message> := [];
    var i := 0;
    while i < |notifications|
      invariant 0 <= i <= |notifications|
      invariant |sent| == i
      invariant forall k :: 0 <= k < i ==>
        sent[k] == Message(notifications[k].notifierType, ChooseTemplate(notifications[k]),
                           Filter(findings, notifications[k].rules))
    {
      var notification := notifications[i];
      var findingsToNotify := Filter(findings, notification.rules);
      var template: TemplateChoice;
      if notification.customTemplate.Some? && notification.customTemplate.value != "" {
        template := Custom(notification.customTemplate.value);
      } else {
        template := Standard(notification.template);
      }
      sent := sent + [Message(notification.notifierType, template, findingsToNotify)];
      i := i + 1;
    }
    IntendedMessages(findings, notifications, sent);
    outcome := Completed(sent);
  }

  /** What the intended loop's messages say about each notification. */
  lemma IntendedMessages(findings: seq<FlatFinding>, notifications: seq<Notification>, sent: seq<Message>)
    requires |sent| == |notifications|
    requires forall k :: 0 <= k < |sent| ==>
      sent[k] == Message(notifications[k].notifierType, ChooseTemplate(notifications[k]),
                         Filter(findings, notifications[k].rules))
    ensures forall i :: 0 <= i < |sent| ==> sent[i].notifierType == notifications[i].notifierType
    ensures forall i :: 0 <= i < |sent| ==>
      var custom := notifications[i].customTemplate;
      sent[i].template == if custom.Some? && custom.value != "" then Custom(custom.value)
                          else Standard(notifications[i].template)
    ensures forall i, x :: 0 <= i < |sent| ==>
      (x in sent[i].findings <==> x in findings && AnyRuleMatches(x, notifications[i].rules))
    ensures forall i :: 0 <= i < |sent| ==> IsSubsequence(sent[i].findings, findings)
    ensures forall i :: 0 <= i < |sent| ==> sent[i].findings == Filter(findings, notifications[i].rules)
  {
  }

  /** An empty custom template falls back to the named one, exactly as an absent one does. */
  lemma EmptyCustomTemplateFallsBack(n: Notification)
    ensures ChooseTemplate(n.(customTemplate := Some(""))) == ChooseTemplate(n.(customTemplate := None))
    ensures ChooseTemplate(n.(customTemplate := None)) == Standard(n.template)
  {
  }
}
