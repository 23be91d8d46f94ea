/**
 * `getCascadingScans`: for every finding, for every rule, a rule that matches
 * the finding and is not already in the parent's chain yields one scan
 * definition; nothing else is produced and nothing is deduplicated.
 */
module Engine {
  import opened Wrappers
  import opened Model
  import opened Matcher
  import opened Chain
  import opened Template
  import opened Naming

  /** The rule matches the finding and the chain gate lets it through. */
  predicate Fires(p: ParentScan, f: Finding, r: Rule) {
    RuleMatches(f, r) && !HasFired(p.annotations, r.name)
  }

  /** The definition built for one firing (finding, rule) pair. */
  function Definition(p: ParentScan, f: Finding, r: Rule): (d: ScanDefinition)
    ensures d.generatedBy == r.name && d.scanType == r.scanType
    ensures d.finding == f && d.env == r.env && d.cascades == p.cascades
    ensures |d.parameters| == |r.parameters|
    ensures forall i :: 0 <= i < |r.parameters| ==> d.parameters[i] == Render(r.parameters[i], f, p)
    ensures d.scanLabels.Keys == r.scanLabels.Keys && d.scanAnnotations.Keys == r.scanAnnotations.Keys
  {
    ScanDefinition(
      name := CascadedName(p.name, p.scanType, r.scanType, r.name),
      scanType := r.scanType,
      parameters := RenderAll(r.parameters, f, p),
      cascades := p.cascades,
      generatedBy := r.name,
      env := r.env,
      scanLabels := RenderValues(r.scanLabels, f, p),
      scanAnnotations := RenderValues(r.scanAnnotations, f, p),
      finding := f)
  }

  /** One finding against the rules, in rule order. */
  function ScansForFinding(p: ParentScan, f: Finding, rules: seq<Rule>): (ds: seq<ScanDefinition>)
    ensures |ds| <= |rules|
    decreases |rules|
  {
    if |rules| == 0 then []
    else
      (if Fires(p, f, rules[0]) then [Definition(p, f, rules[0])] else [])
      + ScansForFinding(p, f, rules[1..])
  }

  /** `getCascadingScans(parentScan, findings, rules)`, findings outer, rules inner. */
  function CascadingScans(p: ParentScan, findings: seq<Finding>, rules: seq<Rule>): (ds: seq<ScanDefinition>)
    ensures |ds| <= |findings| * |rules|
    decreases |findings|
  {
    if |findings| == 0 then []
    else
      var rest := CascadingScans(p, findings[1..], rules);
      assert |rest| <= (|findings| - 1) * |rules|;
      assert (|findings| - 1) * |rules| + |rules| == |findings| * |rules|;
      ScansForFinding(p, findings[0], rules) + rest
  }

  /** A single rule gives its definition when it fires and nothing otherwise. */
  lemma ScansForFindingSingle(p: ParentScan, f: Finding, r: Rule)
    ensures ScansForFinding(p, f, [r]) == if Fires(p, f, r) then [Definition(p, f, r)] else []
  {
    assert [r][1..] == [];
  }

  /**
   * The rules are taken one after another, in order and without merging:
   * the scans for a concatenation of rule lists are the concatenated scans.
   */
  lemma {:induction false} ScansForFindingAppend(p: ParentScan, f: Finding, a: seq<Rule>, b: seq<Rule>)
    ensures ScansForFinding(p, f, a + b) == ScansForFinding(p, f, a) + ScansForFinding(p, f, b)
    decreases |a|
  {
    if |a| > 0 {
      assert (a + b)[0] == a[0];
      assert (a + b)[1..] == a[1..] + b;
      ScansForFindingAppend(p, f, a[1..], b);
    } else {
      assert a + b == b;
    }
  }

  /** `d` is the definition of a firing pair. */
  predicate Produces(p: ParentScan, f: Finding, r: Rule, d: ScanDefinition) {
    Fires(p, f, r) && d == Definition(p, f, r)
  }

  lemma {:induction false} ScansForFindingMembers(p: ParentScan, f: Finding, rules: seq<Rule>, d: ScanDefinition)
    ensures d in ScansForFinding(p, f, rules) <==> exists j :: 0 <= j < |rules| && Produces(p, f, rules[j], d)
    decreases |rules|
  {
    if |rules| > 0 {
      var tail := rules[1..];
      ScansForFindingMembers(p, f, tail, d);
      if d in ScansForFinding(p, f, tail) {
        var j :| 0 <= j < |tail| && Produces(p, f, tail[j], d);
        assert rules[j + 1] == tail[j];
      }
      if exists j :: 0 <= j < |rules| && Produces(p, f, rules[j], d) {
        var j :| 0 <= j < |rules| && Produces(p, f, rules[j], d);
        if j > 0 {
          assert tail[j - 1] == rules[j];
        }
      }
    }
  }

  /**
   * A definition is produced exactly when some finding and some rule fire
   * together and it is the definition built for that pair.
   */
  lemma {:induction false} CascadingScansMembers(p: ParentScan, findings: seq<Finding>, rules: seq<Rule>, d: ScanDefinition)
    ensures d in CascadingScans(p, findings, rules) <==>
            exists i, j :: 0 <= i < |findings| && 0 <= j < |rules| && Produces(p, findings[i], rules[j], d)
    decreases |findings|
  {
    if |findings| > 0 {
      var tail := findings[1..];
      assert CascadingScans(p, findings, rules) == ScansForFinding(p, findings[0], rules) + CascadingScans(p, tail, rules);
      CascadingScansMembers(p, tail, rules, d);
      ScansForFindingMembers(p, findings[0], rules, d);
      if d in ScansForFinding(p, findings[0], rules) {
        var j :| 0 <= j < |rules| && Produces(p, findings[0], rules[j], d);
      }
      if d in CascadingScans(p, tail, rules) {
        var i, j :| 0 <= i < |tail| && 0 <= j < |rules| && Produces(p, tail[i], rules[j], d);
        assert findings[i + 1] == tail[i];
      }
      if exists i, j :: 0 <= i < |findings| && 0 <= j < |rules| && Produces(p, findings[i], rules[j], d) {
        var i, j :| 0 <= i < |findings| && 0 <= j < |rules| && Produces(p, findings[i], rules[j], d);
        if i > 0 {
          assert tail[i - 1] == findings[i];
        }
      }
    }
  }

  /** Output order follows finding order: the scans of a concatenation are concatenated. */
  lemma {:induction false} CascadingScansAppend(p: ParentScan, a: seq<Finding>, b: seq<Finding>, rules: seq<Rule>)
    ensures CascadingScans(p, a + b, rules) == CascadingScans(p, a, rules) + CascadingScans(p, b, rules)
    decreases |a|
  {
    if |a| == 0 {
      assert a + b == b;
    } else {
      assert (a + b)[0] == a[0];
      assert (a + b)[1..] == a[1..] + b;
      CascadingScansAppend(p, a[1..], b, rules);
    }
  }

  /** When no (finding, rule) pair fires, no scan is generated. */
  lemma {:induction false} NothingFiresNoScans(p: ParentScan, findings: seq<Finding>, rules: seq<Rule>)
    requires forall i, j :: 0 <= i < |findings| && 0 <= j < |rules| ==> !Fires(p, findings[i], rules[j])
    ensures CascadingScans(p, findings, rules) == []
  {
    var ds := CascadingScans(p, findings, rules);
    if |ds| > 0 {
      CascadingScansMembers(p, findings, rules, ds[0]);
    }
  }

  /** An empty rule list yields no scans. */
  lemma {:induction false} NoRulesNoScans(p: ParentScan, findings: seq<Finding>)
    ensures CascadingScans(p, findings, []) == []
  {
    NothingFiresNoScans(p, findings, []);
  }

  /** A rule already recorded in the parent's chain never produces a scan, whatever it matches. */
  lemma {:induction false} ChainedRulesNeverFire(p: ParentScan, findings: seq<Finding>, rules: seq<Rule>, d: ScanDefinition)
    requires d in CascadingScans(p, findings, rules)
    ensures !HasFired(p.annotations, d.generatedBy)
    ensures exists j :: 0 <= j < |rules| && rules[j].name == d.generatedBy && d.env == rules[j].env
                        && d.scanType == rules[j].scanType && RuleMatches(d.finding, rules[j])
    ensures d.finding in findings && d.cascades == p.cascades
  {
    CascadingScansMembers(p, findings, rules, d);
    var i, j :| 0 <= i < |findings| && 0 <= j < |rules| && Produces(p, findings[i], rules[j], d);
  }

  /** `d` is what `r` builds for `d`'s own finding, when `r` fires on it. */
  predicate FromRule(p: ParentScan, d: ScanDefinition, r: Rule) {
    && Fires(p, d.finding, r)
    && d.name == CascadedName(p.name, p.scanType, r.scanType, r.name)
    && d.scanType == r.scanType && d.generatedBy == r.name && d.env == r.env
    && d.parameters == RenderAll(r.parameters, d.finding, p)
    && d.scanLabels == RenderValues(r.scanLabels, d.finding, p)
    && d.scanAnnotations == RenderValues(r.scanAnnotations, d.finding, p)
  }

  /**
   * Every generated definition is built from one given finding and one
   * given rule that fires on it: the derived name, the rule's scan type,
   * name and `env`, the rule's parameters, labels and annotations rendered
   * against that finding and the parent, and the parent's `cascades`.
   */
  lemma DefinitionFromRule(p: ParentScan, findings: seq<Finding>, rules: seq<Rule>, d: ScanDefinition)
    requires d in CascadingScans(p, findings, rules)
    ensures d.finding in findings && d.cascades == p.cascades
    ensures exists j :: 0 <= j < |rules| && FromRule(p, d, rules[j])
  {
    CascadingScansMembers(p, findings, rules, d);
    var i, j :| 0 <= i < |findings| && 0 <= j < |rules| && Produces(p, findings[i], rules[j], d);
    assert d.finding == findings[i];
  }

  /** One finding and one rule: exactly one scan when the pair fires, however many clauses match. */
  lemma OnePairOneScan(p: ParentScan, f: Finding, r: Rule)
    ensures CascadingScans(p, [f], [r]) == if Fires(p, f, r) then [Definition(p, f, r)] else []
  {
    assert [f][1..] == [];
    assert [r][1..] == [];
  }

  // The same pairs taken rules outer, findings inner.

  function ScansForRule(p: ParentScan, r: Rule, findings: seq<Finding>): seq<ScanDefinition>
    decreases |findings|
  {
    if |findings| == 0 then []
    else
      (if Fires(p, findings[0], r) then [Definition(p, findings[0], r)] else [])
      + ScansForRule(p, r, findings[1..])
  }

  function CascadingScansByRule(p: ParentScan, findings: seq<Finding>, rules: seq<Rule>): seq<ScanDefinition>
    decreases |rules|
  {
    if |rules| == 0 then []
    else ScansForRule(p, rules[0], findings) + CascadingScansByRule(p, findings, rules[1..])
  }

  /**
   * The nesting order changes only the order of the output: both produce the
   * same definitions, each as often.
   */
  lemma {:induction false} NestingOrderIrrelevant(p: ParentScan, findings: seq<Finding>, rules: seq<Rule>)
    ensures multiset(CascadingScans(p, findings, rules)) == multiset(CascadingScansByRule(p, findings, rules))
    decreases |findings|
  {
    if |findings| == 0 {
      ByRuleNoFindings(p, rules);
    } else {
      NestingOrderIrrelevant(p, findings[1..], rules);
      ByRuleSplitsFirstFinding(p, findings, rules);
    }
  }

  lemma {:induction false} ByRuleNoFindings(p: ParentScan, rules: seq<Rule>)
    ensures CascadingScansByRule(p, [], rules) == []
    decreases |rules|
  {
    if |rules| > 0 {
      ByRuleNoFindings(p, rules[1..]);
    }
  }

  /** Taking rules outer, the first finding's scans can be pulled out in front, up to order. */
  lemma {:induction false} ByRuleSplitsFirstFinding(p: ParentScan, findings: seq<Finding>, rules: seq<Rule>)
    requires |findings| > 0
    ensures multiset(CascadingScansByRule(p, findings, rules))
            == multiset(ScansForFinding(p, findings[0], rules)) + multiset(CascadingScansByRule(p, findings[1..], rules))
    decreases |rules|
  {
    if |rules| > 0 {
      ByRuleSplitsFirstFinding(p, findings, rules[1..]);
      var f := findings[0];
      var one := if Fires(p, f, rules[0]) then [Definition(p, f, rules[0])] else [];
      assert ScansForRule(p, rules[0], findings) == one + ScansForRule(p, rules[0], findings[1..]);
      assert ScansForFinding(p, f, rules) == one + ScansForFinding(p, f, rules[1..]);
      assert CascadingScansByRule(p, findings[1..], rules)
             == ScansForRule(p, rules[0], findings[1..]) + CascadingScansByRule(p, findings[1..], rules[1..]);
    }
  }
}
