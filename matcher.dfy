/**
 * Rule matching: a rule matches a finding when one of its `anyOf` clauses
 * does; a clause matches when its category and each of its attributes match.
 */
module Matcher {
  import opened Wrappers
  import opened Strings
  import opened Model

  /** A clause value is a wildcard when it is a string ending in `*`. */
  predicate IsWildcard(expected: Value) {
    expected.Str? && |expected.s| > 0 && expected.s[|expected.s| - 1] == '*'
  }

  /**
   * One attribute: a wildcard matches any string starting with the text
   * before its `*`; any other value needs strict equality (so `443` and
   * `"443"` differ).
   */
  predicate ValueMatches(actual: Value, expected: Value) {
    if IsWildcard(expected) then
      actual.Str? && StartsWith(actual.s, expected.s[..|expected.s| - 1])
    else
      actual == expected
  }

  predicate ClauseMatches(f: Finding, c: Clause) {
    && (c.category.Some? ==> f.category == c.category.value)
    && forall k :: k in c.attributes ==> k in f.attributes && ValueMatches(f.attributes[k], c.attributes[k])
  }

  predicate RuleMatches(f: Finding, r: Rule) {
    exists i :: 0 <= i < |r.anyOf| && ClauseMatches(f, r.anyOf[i])
  }

  /** A trailing `*` matches exactly the strings that start with what precedes it. */
  lemma WildcardIsPrefix(actual: string, prefix: string)
    ensures ValueMatches(Str(actual), Str(prefix + "*")) <==> StartsWith(actual, prefix)
  {
    assert (prefix + "*")[..|prefix|] == prefix;
  }

  /** A clause with no category and no attributes matches every finding. */
  lemma EmptyClauseMatchesAll(f: Finding)
    ensures ClauseMatches(f, Clause(None, map[]))
  {
  }

  /**
   * A clause that asks for less (no category or the same one, a subset of the
   * attribute constraints) matches whenever the stronger one does.
   */
  lemma WeakerClauseMatches(f: Finding, strong: Clause, weak: Clause)
    requires weak.category.None? || weak.category == strong.category
    requires forall k :: k in weak.attributes ==> k in strong.attributes && weak.attributes[k] == strong.attributes[k]
    requires ClauseMatches(f, strong)
    ensures ClauseMatches(f, weak)
  {
  }

  /**
   * `anyOf` is a set of alternatives: two rules with the same clauses, in any
   * order and repeated any number of times, match the same findings.
   */
  lemma ClauseOrderIrrelevant(f: Finding, r: Rule, s: Rule)
    requires forall c :: c in r.anyOf <==> c in s.anyOf
    ensures RuleMatches(f, r) <==> RuleMatches(f, s)
  {
    if RuleMatches(f, r) {
      var i :| 0 <= i < |r.anyOf| && ClauseMatches(f, r.anyOf[i]);
      assert r.anyOf[i] in s.anyOf;
      var j :| 0 <= j < |s.anyOf| && s.anyOf[j] == r.anyOf[i];
    }
    if RuleMatches(f, s) {
      var j :| 0 <= j < |s.anyOf| && ClauseMatches(f, s.anyOf[j]);
      assert s.anyOf[j] in r.anyOf;
      var i :| 0 <= i < |r.anyOf| && r.anyOf[i] == s.anyOf[j];
    }
  }

  /** A rule with no clauses matches nothing. */
  lemma NoClausesNoMatch(f: Finding, r: Rule)
    requires r.anyOf == []
    ensures !RuleMatches(f, r)
  {
  }
}
