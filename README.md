# Cascading scans and notification rules of secureCodeBox, in Dafny

secureCodeBox runs security scanners as Kubernetes `Scan` resources. This
project models two of its hooks. Both run after a scan has finished and
look at its findings.

**The cascading-scans hook.** It turns the findings of a finished parent
scan into follow-up scans. It does so with `CascadingRule`s. A rule
matches a finding when one of its `anyOf` clauses matches: the category
and every listed attribute must match. A value ending in `*` matches by
prefix. A rule that already fired in the parent's chain
(`cascading.securecodebox.io/chain`) is skipped. Every remaining
(finding, rule) pair gives one scan definition. That definition has:

- a derived name;
- templated parameters, labels and annotations;
- the rule's `env`, the finding and the parent's `cascades` copied as they are.

A second step, `getCascadingScanDefinition`, merges the final labels and
annotations. It takes the parent's entries unless `inheritLabels` or
`inheritAnnotations` is `false`, adds the rule's own entries, and adds a
`cascading.securecodebox.io/matched-finding` annotation holding the
finding's id.

**The notification webhook.** It keeps, for each configured notification,
the findings that one of the notification's rules matches. A rule matches
when every one of its key/value pairs appears in the finding (lodash
`isMatch`). Each notification is then handed to a notifier together with
its own list.

The implementation of the cascading hook (`hook.js`, `scan-helpers.js`)
is not part of this model. The cascading model is written against the
fixtures and inline snapshots of hooks/cascading-scans/hook.test.js. The
module `Scenarios` re-states those test cases as lemmas about the model.

Modules:

- `Wrappers` — `Option`.
- `Strings` — JavaScript-style `split`/`join` on one character, and decimal rendering of integers.
- `Model` — values, findings, rules, parent scans and scan definitions.
- `Matcher` — the rule matcher.
- `Chain` — the chain gate.
- `Template` — the template resolver used for parameters, labels and annotations.
- `Naming` — name derivation.
- `Engine` — `getCascadingScans`.
- `Inheritance` — `getCascadingScanDefinition`'s label and annotation merge.
- `Scenarios` — the test cases of hook.test.js.
- `RuleFilter` — `matches` and the filter of the notification webhook.
- `NotificationHook` — `handle` in hooks/notification-webhook/hook.ts.
- `NotificationSrcHook` — `handle` in hooks/notification-webhook/src/hook.ts, as written and as intended.

## Model

| member | source | states |
|---|---|---|
| Matcher.WildcardIsPrefix | hooks/cascading-scans/hook.test.js:338-343 | an expected value `prefix*` matches a string exactly when the string starts with `prefix` |
| Matcher.ClauseOrderIrrelevant | hooks/cascading-scans/hook.test.js:35-48 | two rules whose `anyOf` lists have the same clauses, in any order and with any repetition, match the same findings |
| Matcher.EmptyClauseMatchesAll | hooks/cascading-scans/hook.test.js:35-48 | a clause with no category and no attributes matches every finding |
| Matcher.WeakerClauseMatches | hooks/cascading-scans/hook.test.js:35-48 | a clause that demands a subset of another's conditions matches whatever the other matches |
| Matcher.NoClausesNoMatch | hooks/cascading-scans/hook.test.js:35-48 | a rule with an empty `anyOf` matches nothing |
| Chain.ChainOf | hooks/cascading-scans/hook.test.js:183-207 | the rule names read from the comma-separated chain annotation contain no comma |
| Chain.HasFiredIffListed | hooks/cascading-scans/hook.test.js:183-207 | for a chain written as a comma-joined list of non-empty names, a rule counts as fired iff its name is in the list |
| Chain.NoChainNoBlock | hooks/cascading-scans/hook.test.js:209-257 | without annotations, or without the chain key, no rule counts as fired |
| Chain.ExtendedChainBlocksRule | hooks/cascading-scans/hook.test.js:183-207 | once the firing rule is appended to the parent's chain, the child's chain is the parent's plus that rule, so the rule cannot fire again in the child |
| Chain.JoinNonEmpty | hooks/cascading-scans/hook.test.js:183-207 | a written chain is never the empty string, so it is never read back as "no chain" |
| Template.LookupHostOrIP | hooks/cascading-scans/hook.test.js:130-181 | `{{$.hostOrIP}}` resolves to the hostname when it is a non-empty string; to the `ip_address` when the hostname is missing, undefined or ""; and to "" when both are missing |
| Template.LookupAttribute | hooks/cascading-scans/hook.test.js:97-100 | `attributes.<key>` (a key without a dot) resolves to the attribute's text, and to "" for a missing attribute |
| Template.LookupMetadataEntry | hooks/cascading-scans/hook.test.js:744-788 | `metadata.labels.<key>` and `metadata.annotations.<key>` resolve to the parent's entry, and to "" when it is missing |
| Template.UnknownMetadataIsEmpty | hooks/cascading-scans/hook.test.js:744-788 | a `metadata.<field>` path (a field without a dot) other than `metadata.name` resolves to "" |
| Template.FindClose | hooks/cascading-scans/hook.test.js:53 | returns the first `}}` at or after the given index, or nothing when there is none |
| Template.FindCloseFirst | hooks/cascading-scans/hook.test.js:53 | when a `}}` starts at `j` and none starts earlier, the first close found is `j` |
| Template.RenderPlain | hooks/cascading-scans/hook.test.js:614-677 | text without `{` renders to itself |
| Template.RenderLiteralPrefix | hooks/cascading-scans/hook.test.js:53 | a leading segment without `{` is copied and the rest is rendered after it |
| Template.RenderPlaceholder | hooks/cascading-scans/hook.test.js:53 | `{{path}}` followed by more text renders to the path's value followed by the rendered rest |
| Template.RenderAllAppend | hooks/cascading-scans/hook.test.js:97-100 | the parameters are rendered one by one: rendering two lists joined is rendering each and joining the results |
| Template.RenderValuesUpdate | hooks/cascading-scans/hook.test.js:744-788 | each label or annotation value is rendered on its own: changing one entry changes only that entry of the result, to the new value rendered |
| Naming.PrefixedParentName | hooks/cascading-scans/hook.test.js:96 | a parent named `<type>-<rest>` gives `<newType>-<rest>-<rule>`, which again starts with the new type |
| Naming.DistinctRulesDistinctNames | hooks/cascading-scans/hook.test.js:96 | for one parent and scan type, different rule names give different scan names |
| Naming.EndsWithRuleName | hooks/cascading-scans/hook.test.js:96 | every derived name ends with `-<rule>` |
| Naming.NamesDoNotAccumulate | hooks/cascading-scans/hook.test.js:16-20 | two generations give `<type2>-<rest>-<rule1>-<rule2>`: the scan-type prefix is replaced, not stacked |
| Engine.DefinitionFromRule | hooks/cascading-scans/hook.test.js:83-106 | every definition in the result carries one of the given findings and the parent's `cascades`, and comes from a given rule that fires on that finding: its derived name, the rule's scan type, name as `generatedBy` and `env`, and the rule's parameters, labels and annotations rendered against the finding |
| Engine.ScansForFinding | hooks/cascading-scans/hook.test.js:35-48 | one finding gives at most one definition per rule; its exact result is given by `Engine.ScansForFindingSingle` and `Engine.ScansForFindingAppend` |
| Engine.ScansForFindingSingle | hooks/cascading-scans/hook.test.js:80-106 | one finding and one rule give that pair's definition when the rule fires, and nothing otherwise |
| Engine.ScansForFindingAppend | hooks/cascading-scans/hook.test.js:60-107 | the rules are tried one after another: more rules append their definitions, in rule order |
| Engine.CascadingScans | hooks/cascading-scans/hook.test.js:60-107 | the result has at most findings × rules definitions; its contents are given by `Engine.CascadingScansAppend`, `Engine.ScansForFindingSingle` and `Engine.ScansForFindingAppend` |
| Engine.ScansForFindingMembers | hooks/cascading-scans/hook.test.js:35-48 | a definition is produced for a finding iff some rule fires on it and the definition is that pair's |
| Engine.CascadingScansMembers | hooks/cascading-scans/hook.test.js:60-107 | a definition is in the result iff some (finding, rule) pair fires (the rule matches and is not in the chain) and the definition is that pair's |
| Engine.CascadingScansAppend | hooks/cascading-scans/hook.test.js:790-851 | the findings are handled one after another: more findings append their definitions |
| Engine.NothingFiresNoScans | hooks/cascading-scans/hook.test.js:790-851 | when no pair fires, the result is empty |
| Engine.NoRulesNoScans | hooks/cascading-scans/hook.test.js:109-128 | an empty rule list gives no definitions |
| Engine.ChainedRulesNeverFire | hooks/cascading-scans/hook.test.js:183-207 | every definition comes from a rule that is not in the parent's chain, from one of the given rules with its `env`, and from one of the given findings |
| Engine.OnePairOneScan | hooks/cascading-scans/hook.test.js:80-106 | one finding and one rule give exactly one definition when the rule fires, however many of its clauses match, and none otherwise |
| Engine.NestingOrderIrrelevant | hooks/cascading-scans/hook.test.js:60-107 | iterating rules outside and findings inside gives the same definitions with the same multiplicities |
| Engine.ByRuleNoFindings | hooks/cascading-scans/hook.test.js:109-128 | with the rules-outer nesting, no findings give no definitions |
| Engine.ByRuleSplitsFirstFinding | hooks/cascading-scans/hook.test.js:60-107 | with the rules-outer nesting, the first finding's definitions and the rest's together make up the result |
| Inheritance.MergeInherited | hooks/cascading-scans/hook.test.js:402-612 | the merged keys are the parent's (when inherited) plus the rule's; the rule's entries win; every other entry is the parent's |
| Inheritance.InheritedLabels | hooks/cascading-scans/hook.test.js:438-508 | with `inheritLabels` unset or true, every parent label pair is in the final labels iff the rule gives no parent key a different value |
| Inheritance.NotInheritedLabels | hooks/cascading-scans/hook.test.js:402-436 | with `inheritLabels` false, the final labels are the rule's alone, so the parent's pairs are all there only if the rule itself holds them |
| Inheritance.InheritedAnnotations | hooks/cascading-scans/hook.test.js:545-612 | with `inheritAnnotations` unset or true, every parent annotation pair is in the final annotations iff neither the matched-finding entry nor the rule gives a parent key a different value |
| Inheritance.NotInheritedAnnotations | hooks/cascading-scans/hook.test.js:510-543 | with `inheritAnnotations` false, the final annotations are the rule's plus the matched-finding entry, so the parent's pairs are all there only if those hold them |
| Inheritance.RuleEntriesAndMatchedFinding | hooks/cascading-scans/hook.test.js:614-742 | the rule's labels, and its annotations other than the matched-finding key (which the finding's id overrides), are always in the final metadata, and the matched-finding annotation holds the finding's id |
| Inheritance.NoOtherEntries | hooks/cascading-scans/hook.test.js:402-612 | the final keys come only from the parent, the rule and the matched-finding key |
| Inheritance.GeneratedScanMetadata | hooks/cascading-scans/hook.test.js:853-861 | for every generated definition, the final matched-finding annotation is the triggering finding's id |
| Inheritance.InheritedChainUnchanged | hooks/cascading-scans/hook.test.js:545-612 | with annotations inherited, a parent chain the rule does not override reaches the final annotations unchanged |
| Inheritance.SubmittedScanBlocksItsRule | hooks/cascading-scans/hook.test.js:183-207 | for every generated scan, the rule that made it was not in the parent's chain, and once it is appended to the final annotations' chain the child's chain is the parent's plus that rule, so the rule is blocked in the child |
| Scenarios.HttpsPortScenario | hooks/cascading-scans/hook.test.js:60-107 | an open HTTPS port on `foobar.com` gives one sslyze scan `sslyze-foobar.com-tls-scans` with parameters `--regular`, `foobar.com:443` |
| Scenarios.IpAddressScenario | hooks/cascading-scans/hook.test.js:130-181 | with parent `foobar.com` and only an IP address, the scan is `foobar.com-tls-scans` on `10.42.42.42:443` |
| Scenarios.ChainScenario | hooks/cascading-scans/hook.test.js:183-207 | the rule already in the chain gives no scans |
| Scenarios.NoAnnotationsScenario | hooks/cascading-scans/hook.test.js:209-257 | a parent without annotations gives the normal scan |
| Scenarios.EnvScenario | hooks/cascading-scans/hook.test.js:260-324 | the rule's `env` list is on the scan as it is |
| Scenarios.WildcardScenario | hooks/cascading-scans/hook.test.js:326-400 | `https*` with port 8443 matches `https-alt` on 8443 and gives a scan on `foobar.com:8443` |
| Scenarios.WildcardRejectsHttp | hooks/cascading-scans/hook.test.js:338-343 | `https*` does not match `http` |
| Scenarios.WildcardNeedsExactPort | hooks/cascading-scans/hook.test.js:326-363 | the `https*` rule's port 8443 is compared exactly: an `https-alt` finding on port 443 gives no scan, and the number 8443 does not match the string "8443" |
| Scenarios.LabelInheritanceScenario | hooks/cascading-scans/hook.test.js:402-508 | the HTTPS finding gives exactly one scan, and every parent label is on its final labels iff `inheritLabels` is not false |
| Scenarios.AnnotationInheritanceScenario | hooks/cascading-scans/hook.test.js:510-612 | the HTTPS finding gives exactly one scan, and every parent annotation is on its final annotations iff `inheritAnnotations` is not false |
| Scenarios.RuleLabelsScenario | hooks/cascading-scans/hook.test.js:614-677 | the rule's `scanLabels` are in the definition and in the final labels |
| Scenarios.RuleAnnotationsScenario | hooks/cascading-scans/hook.test.js:679-742 | the rule's `scanAnnotations` are in the definition and in the final annotations |
| Scenarios.TemplatedMetadataScenario | hooks/cascading-scans/hook.test.js:744-788 | `{{metadata.name}}`, `{{metadata.unknown_property}}` and `{{$.hostOrIP}}` become `nmap-foobar.com`, "" and `foobar.com` in both labels and annotations |
| Scenarios.MatchedFindingScenario | hooks/cascading-scans/hook.test.js:790-861 | of an unknown-service and an HTTPS finding only the HTTPS one gives a scan, and its matched-finding annotation is that finding's id |
| RuleFilter.Matches | hooks/notification-webhook/hook.ts:33-39 | the loop returns true iff some rule is a partial match of the finding; the unused flag plays no part |
| RuleFilter.EmptyRules | hooks/notification-webhook/src/hook.ts:40-46 | no rules match nothing; an empty rule matches every finding |
| RuleFilter.RuleOrderIrrelevant | hooks/notification-webhook/hook.ts:35-37 | two rule lists with the same members (in any order, any number of times) match the same findings |
| RuleFilter.Filter | hooks/notification-webhook/hook.ts:26 | the kept findings are exactly the matching ones, each kept as many times as it occurs, in their original order |
| NotificationHook.Handle | hooks/notification-webhook/hook.ts:23-30 | one dispatch per notification, in order, with that notification's type and template; its findings are exactly `RuleFilter.Filter`'s list for the notification's own rules: the matching findings, each as often as it occurs, in order |
| NotificationSrcHook.EmptyCustomTemplateFallsBack | hooks/notification-webhook/src/hook.ts:30 | an empty custom template behaves like an absent one |
| NotificationSrcHook.HandleAsWritten | hooks/notification-webhook/src/hook.ts:22-38 | as written, the handler throws iff there is at least one notification, and sends no message |
| NotificationSrcHook.Handle | hooks/notification-webhook/src/hook.ts:25-37 | as intended, the handler completes and sends one message per notification, in order, with its type; the template is the custom one when it is present and not "", and the named one otherwise; the findings are exactly `RuleFilter.Filter`'s list for its rules: the matching findings, each as often as it occurs, in order |

## Left out

- hooks/cascading-scans/hook.js and hooks/cascading-scans/scan-helpers.js are not part of this model. The cascading behaviour is what the test fixtures pin down.
- Engine.CascadingScans: the tests use a single rule, so they cannot tell in which order the definitions come. The model iterates findings outside and rules inside. `Engine.NestingOrderIrrelevant` shows that the other nesting gives the same definitions.
- Template.Render: Mustache's HTML escaping, whitespace handling, sections and partials are not modelled. An unclosed `{{` is kept as literal text, where Mustache would throw.
- Template.Lookup: only `$.hostOrIP`, `metadata.name`, `attributes.<key>`, `metadata.labels.<key>` and `metadata.annotations.<key>` are resolved. Every other path gives "". The `metadata.unknown_property` case of the tests is one of those.
- Owner references, `apiVersion`, `kind`, UIDs and `generateName` of the final Scan resource are not modelled. The tests only look at its labels and annotations.
- Model.Value: `Num` holds an integer only. JavaScript numbers are doubles: fractions such as `7.5` and the exponent form `String(1e21) == "1e+21"` are not modelled.
- RuleFilter.Matches: `for (let rule of rules)` throws a TypeError when a notification has no `rules` (hooks/notification-webhook/hook.ts:35, hooks/notification-webhook/src/hook.ts:42). In the model a notification's rules are always a list.
- Inheritance.CascadingScanMetadata: appending the firing rule to the child's chain annotation happens when the scan is submitted, which is not part of this model. The final annotations carry the parent's chain as it is (`Inheritance.InheritedChainUnchanged`); `Inheritance.SubmittedScanBlocksItsRule` states what the appended chain then gives.
- `env` entries are an opaque type copied as they are. Their `valueFrom.secretKeyRef` structure is not looked into.
- Matcher.ClauseMatches: `category` is compared for exact equality. A wildcard in the category is not modelled, because the tests do not use one.
- RuleFilter.IsMatch: lodash `isMatch` compares nested objects and arrays partially. The model compares one level of key/value pairs exactly.
- Parsing `process.env["NOTIFICATIONS"]` is not modelled. The notifications are a parameter.
- `NotifierFactory`, the notifiers, Mustache rendering of the messages and the network calls are not modelled. A dispatch or message records the notifier type, the template and the findings handed over.
- NotificationSrcHook.Handle: `notifier.initTemplate` is called before the template choice. The model records only the template the notifier ends up with, the later call winning.
- NotificationSrcHook.Handle: in hooks/notification-webhook/src/hook.ts `getFindings()` is not awaited. The model takes the findings as a list, as hooks/notification-webhook/hook.ts does after `await`.
- The `matches` function of hooks/notification-webhook/src/hook.ts:40-46 is the same text as that of hooks/notification-webhook/hook.ts:33-39. Both are modelled by `RuleFilter.Matches`.

## Findings

| source | as written | input that shows it | evidently intended | confidence | as-written member | corrected member |
|---|---|---|---|---|---|---|
| hooks/notification-webhook/src/hook.ts:30-34 | the template is set with `this.initCustomTemplate(...)` / `this.initTemplate(...)` inside an arrow function of a module-level function, whose `this` has no such methods, so the call throws a TypeError | any configuration with one notification: the first iteration throws before `sendMessage`, and no message is sent | call `notifier.initCustomTemplate(...)` / `notifier.initTemplate(...)`, then send one message per notification | not executed | NotificationSrcHook.HandleAsWritten | NotificationSrcHook.Handle |
