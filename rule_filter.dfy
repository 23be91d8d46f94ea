/**
 * The notification webhook's rule filter: a finding is kept for a
 * notification when one of the notification's rules partially matches it,
 * that is, every key/value pair of the rule equals the finding's.
 */
module RuleFilter {
  import opened Model

  /** A finding as the webhook sees it: a flat object. */
  type FlatFinding = map<string, Value>

  /** A notification rule: the key/value pairs a finding must have. */
  type MatchRule = map<string, Value>

  /** lodash `isMatch(finding, rule)`, one level deep. */
  predicate IsMatch(finding: FlatFinding, rule: MatchRule) {
    forall k :: k in rule ==> k in finding && finding[k] == rule[k]
  }

  predicate AnyRuleMatches(finding: FlatFinding, rules: seq<MatchRule>) {
    exists i :: 0 <= i < |rules| && IsMatch(finding, rules[i])
  }

  /** `matches(finding, rules)`: scans the rules in order and returns at the first that matches. */
  method Matches(finding: FlatFinding, rules: seq<MatchRule>) returns (result: bool)
    ensures result <==> AnyRuleMatches(finding, rules)
  {
    // Declared and never read, as in the source: it does not take part in the result.
    var matches := false;
    var i := 0;
    while i < |rules|
      invariant 0 <= i <= |rules|
      invariant forall j :: 0 <= j < i ==> !IsMatch(finding, rules[j])
    {
      if IsMatch(finding, rules[i]) {
        return true;
      }
      i := i + 1;
    }
    return false;
  }

  /** An empty rule list matches nothing; an empty rule matches everything. */
  lemma EmptyRules(finding: FlatFinding)
    ensures !AnyRuleMatches(finding, [])
    ensures AnyRuleMatches(finding, [map[]])
  {
    assert IsMatch(finding, [map[]][0]);
  }

  /** Only which rules are present matters, not their order or repetition. */
  lemma RuleOrderIrrelevant(finding: FlatFinding, rules: seq<MatchRule>, others: seq<MatchRule>)
    requires forall r :: r in rules <==> r in others
    ensures AnyRuleMatches(finding, rules) <==> AnyRuleMatches(finding, others)
  {
    if AnyRuleMatches(finding, rules) {
      var i :| 0 <= i < |rules| && IsMatch(finding, rules[i]);
      assert rules[i] in others;
      var j :| 0 <= j < |others| && others[j] == rules[i];
    }
    if AnyRuleMatches(finding, others) {
      var j :| 0 <= j < |others| && IsMatch(finding, others[j]);
      assert others[j] in rules;
      var i :| 0 <= i < |rules| && rules[i] == others[j];
    }
  }

  /** `xs` is `ys` with some elements left out, the rest in their order. */
  predicate IsSubsequence<T(==)>(xs: seq<T>, ys: seq<T>)
    decreases |ys|
  {
    if |xs| == 0 then true
    else if |ys| == 0 then false
    else if xs[0] == ys[0] then IsSubsequence(xs[1..], ys[1..])
    else IsSubsequence(xs, ys[1..])
  }

  /** `findings.filter(finding => matches(finding, rules))`. */
  function Filter(findings: seq<FlatFinding>, rules: seq<MatchRule>): (kept: seq<FlatFinding>)
    ensures forall x :: x in kept <==> x in findings && AnyRuleMatches(x, rules)
    ensures forall x :: multiset(kept)[x] == if AnyRuleMatches(x, rules) then multiset(findings)[x] else 0
    ensures IsSubsequence(kept, findings)
    decreases |findings|
  {
    if |findings| == 0 then []
    else
      var rest := Filter(findings[1..], rules);
      assert findings == [findings[0]] + findings[1..];
      if AnyRuleMatches(findings[0], rules) then
        assert ([findings[0]] + rest)[1..] == rest;
        [findings[0]] + rest
      else
        SubsequenceOfTail(rest, findings);
        rest
  }

  /** A subsequence of the tail is a subsequence of the whole. */
  lemma {:induction false} SubsequenceOfTail<T>(xs: seq<T>, ys: seq<T>)
    requires |ys| > 0 && IsSubsequence(xs, ys[1..])
    ensures IsSubsequence(xs, ys)
    decreases |ys|, |xs|
  {
    if |xs| > 0 && xs[0] == ys[0] {
      SubsequenceDropHead(xs, ys[1..]);
    }
  }

  /** A subsequence with its first element removed is still a subsequence. */
  lemma {:induction false} SubsequenceDropHead<T>(xs: seq<T>, ys: seq<T>)
    requires |xs| > 0 && IsSubsequence(xs, ys)
    ensures IsSubsequence(xs[1..], ys)
    decreases |ys|, |xs|
  {
    if |ys| > 0 {
      if xs[0] == ys[0] {
        if |xs| > 1 {
          SubsequenceOfTail(xs[1..], ys);
        }
      } else {
        SubsequenceDropHead(xs, ys[1..]);
        SubsequenceOfTail(xs[1..], ys);
      }
    }
  }
}
