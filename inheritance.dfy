/**
 * `getCascadingScanDefinition`: the labels and annotations of the scan that
 * is finally created. Parent entries are inherited unless the matching
 * `inherit*` switch is `false`; the rule's own (rendered) entries override
 * them; the annotation `cascading.securecodebox.io/matched-finding` records
 * the id of the finding that triggered the scan.
 */
module Inheritance {
  import opened Wrappers
  import opened Model
  import opened Template
  import opened Engine
  import opened Chain

  const MatchedFindingKey: string := "cascading.securecodebox.io/matched-finding"

  /** The part of the created scan's metadata this model keeps. */
  datatype ScanMetadata = ScanMetadata(labels: StringMap, annotations: StringMap)

  /** An unset switch means "inherit"; only an explicit `false` turns inheritance off. */
  predicate Inherits(flag: Option<bool>) {
    flag != Some(false)
  }

  /** Every key/value pair of `a` is found in `b`. */
  predicate PairsIn(a: StringMap, b: StringMap) {
    forall k :: k in a ==> k in b && b[k] == a[k]
  }

  /** Parent entries (absent means none), dropped when the switch is off, then the rule's on top. */
  function MergeInherited(parentProps: Option<StringMap>, ruleProps: StringMap, flag: Option<bool>): (r: StringMap)
    ensures r.Keys == (if Inherits(flag) then parentProps.GetOr(map[]).Keys else {}) + ruleProps.Keys
    ensures PairsIn(ruleProps, r)
    ensures forall k :: k in r && k !in ruleProps ==>
              Inherits(flag) && parentProps.Some? && r[k] == parentProps.value[k]
  {
    (if Inherits(flag) then parentProps.GetOr(map[]) else map[]) + ruleProps
  }

  /** The matched-finding annotation, present when the finding has an id. */
  function MatchedFinding(f: Finding): StringMap {
    if f.id.Some? then map[MatchedFindingKey := f.id.value] else map[]
  }

  function CascadingScanMetadata(d: ScanDefinition, p: ParentScan): ScanMetadata {
    ScanMetadata(
      labels := MergeInherited(p.labels, d.scanLabels, p.cascades.inheritLabels),
      annotations := MergeInherited(p.annotations, d.scanAnnotations, p.cascades.inheritAnnotations)
                     + MatchedFinding(d.finding))
  }

  /**
   * With label inheritance on, every parent label appears in the created scan
   * unless the rule overrides it with another value.
   */
  lemma InheritedLabels(d: ScanDefinition, p: ParentScan, parentLabels: StringMap)
    requires p.labels == Some(parentLabels) && Inherits(p.cascades.inheritLabels)
    ensures PairsIn(parentLabels, CascadingScanMetadata(d, p).labels) <==>
            forall k :: k in parentLabels && k in d.scanLabels ==> d.scanLabels[k] == parentLabels[k]
  {
    var labels := CascadingScanMetadata(d, p).labels;
    if !PairsIn(parentLabels, labels) {
      var k :| k in parentLabels && !(k in labels && labels[k] == parentLabels[k]);
      assert k in d.scanLabels;
    }
  }

  /** With label inheritance off, a parent label appears only if the rule sets it itself. */
  lemma NotInheritedLabels(d: ScanDefinition, p: ParentScan, parentLabels: StringMap)
    requires p.labels == Some(parentLabels) && !Inherits(p.cascades.inheritLabels)
    ensures CascadingScanMetadata(d, p).labels == d.scanLabels
    ensures PairsIn(parentLabels, CascadingScanMetadata(d, p).labels) <==> PairsIn(parentLabels, d.scanLabels)
  {
  }

  /**
   * With annotation inheritance on, every parent annotation appears unless
   * the rule or the matched-finding annotation replaces it with another value.
   */
  lemma InheritedAnnotations(d: ScanDefinition, p: ParentScan, parentAnnotations: StringMap)
    requires p.annotations == Some(parentAnnotations) && Inherits(p.cascades.inheritAnnotations)
    ensures PairsIn(parentAnnotations, CascadingScanMetadata(d, p).annotations) <==>
            forall k :: k in parentAnnotations ==>
              (k in MatchedFinding(d.finding) ==> MatchedFinding(d.finding)[k] == parentAnnotations[k]) &&
              (k !in MatchedFinding(d.finding) && k in d.scanAnnotations ==> d.scanAnnotations[k] == parentAnnotations[k])
  {
    var annotations := CascadingScanMetadata(d, p).annotations;
    if !PairsIn(parentAnnotations, annotations) {
      var k :| k in parentAnnotations && !(k in annotations && annotations[k] == parentAnnotations[k]);
      assert k in d.scanAnnotations || k in MatchedFinding(d.finding);
    }
  }

  /** With annotation inheritance off, a parent annotation appears only if the scan sets it itself. */
  lemma NotInheritedAnnotations(d: ScanDefinition, p: ParentScan, parentAnnotations: StringMap)
    requires p.annotations == Some(parentAnnotations) && !Inherits(p.cascades.inheritAnnotations)
    ensures CascadingScanMetadata(d, p).annotations == d.scanAnnotations + MatchedFinding(d.finding)
    ensures PairsIn(parentAnnotations, CascadingScanMetadata(d, p).annotations) <==>
            PairsIn(parentAnnotations, d.scanAnnotations + MatchedFinding(d.finding))
  {
  }

  /**
   * The rule's labels always appear, and so do its annotations apart from
   * the reserved matched-finding key; the finding's id is that key's value.
   */
  lemma RuleEntriesAndMatchedFinding(d: ScanDefinition, p: ParentScan)
    ensures PairsIn(d.scanLabels, CascadingScanMetadata(d, p).labels)
    ensures PairsIn(d.scanAnnotations - {MatchedFindingKey}, CascadingScanMetadata(d, p).annotations)
    ensures d.finding.id.Some? ==>
              MatchedFindingKey in CascadingScanMetadata(d, p).annotations &&
              CascadingScanMetadata(d, p).annotations[MatchedFindingKey] == d.finding.id.value
  {
  }

  /** Nothing but inherited, rule-declared and matched-finding entries appears. */
  lemma NoOtherEntries(d: ScanDefinition, p: ParentScan)
    ensures CascadingScanMetadata(d, p).labels.Keys <= p.labels.GetOr(map[]).Keys + d.scanLabels.Keys
    ensures CascadingScanMetadata(d, p).annotations.Keys
            <= p.annotations.GetOr(map[]).Keys + d.scanAnnotations.Keys + {MatchedFindingKey}
  {
  }

  /**
   * End to end: each generated scan carries its rule's labels and
   * annotations, rendered against its finding and the parent, and the id of
   * the finding that triggered it.
   */
  lemma GeneratedScanMetadata(p: ParentScan, findings: seq<Finding>, rules: seq<Rule>, d: ScanDefinition)
    requires d in CascadingScans(p, findings, rules)
    ensures exists j :: 0 <= j < |rules| && rules[j].name == d.generatedBy
             && PairsIn(RenderValues(rules[j].scanLabels, d.finding, p), CascadingScanMetadata(d, p).labels)
    ensures d.finding.id.Some? ==> CascadingScanMetadata(d, p).annotations[MatchedFindingKey] == d.finding.id.value
  {
    CascadingScansMembers(p, findings, rules, d);
    var i, j :| 0 <= i < |findings| && 0 <= j < |rules| && Produces(p, findings[i], rules[j], d);
    RuleEntriesAndMatchedFinding(d, p);
  }

  /**
   * The chain is not touched here: with annotations inherited, the parent's
   * chain reaches the created scan verbatim unless the rule sets that key.
   */
  lemma InheritedChainUnchanged(d: ScanDefinition, p: ParentScan, parentAnnotations: StringMap)
    requires p.annotations == Some(parentAnnotations) && Inherits(p.cascades.inheritAnnotations)
    requires ChainKey in parentAnnotations && ChainKey !in d.scanAnnotations
    ensures ChainKey in CascadingScanMetadata(d, p).annotations
    ensures CascadingScanMetadata(d, p).annotations[ChainKey] == parentAnnotations[ChainKey]
  {
    assert ChainKey != MatchedFindingKey by {
      assert ChainKey[|ChainKey| - 1] != MatchedFindingKey[|ChainKey| - 1];
    }
  }

  /**
   * Once the chain of a generated scan is extended by its rule's name (the
   * append happens when the scan is submitted), that rule is recorded after
   * the parent's chain and cannot fire again on the new scan's findings.
   */
  lemma SubmittedScanBlocksItsRule(p: ParentScan, findings: seq<Finding>, rules: seq<Rule>, d: ScanDefinition)
    requires d in CascadingScans(p, findings, rules)
    requires d.generatedBy != "" && ',' !in d.generatedBy
    ensures var child := CascadingScanMetadata(d, p).annotations[ChainKey := ExtendChain(p.annotations, d.generatedBy)];
            && ChainOf(Some(child)) == ChainOf(p.annotations) + [d.generatedBy]
            && HasFired(Some(child), d.generatedBy)
            && !HasFired(p.annotations, d.generatedBy)
  {
    ChainedRulesNeverFire(p, findings, rules, d);
    ExtendedChainBlocksRule(p.annotations, CascadingScanMetadata(d, p).annotations, d.generatedBy);
  }
}
