/**
 * Name derivation: a parent named `<scanType>-<rest>` hands `<rest>` on under
 * the new scan type, so chained scans do not pile up scan types; any other
 * parent name is kept whole. The rule name is appended in both cases.
 */
module Naming {
  import opened Strings

  function CascadedName(parentName: string, parentScanType: string, scanType: string, ruleName: string): string {
    if StartsWith(parentName, parentScanType + "-") then
      scanType + parentName[|parentScanType|..] + "-" + ruleName
    else
      parentName + "-" + ruleName
  }

  /**
   * A parent named after its own scan type: the new name is the new scan
   * type, the rest of the parent name and the rule name, joined by hyphens;
   * so it starts with the new scan type and a hyphen in turn.
   */
  lemma PrefixedParentName(rest: string, parentScanType: string, scanType: string, ruleName: string)
    ensures CascadedName(parentScanType + "-" + rest, parentScanType, scanType, ruleName)
            == scanType + "-" + rest + "-" + ruleName
    ensures StartsWith(CascadedName(parentScanType + "-" + rest, parentScanType, scanType, ruleName), scanType + "-")
  {
    var parentName := parentScanType + "-" + rest;
    assert parentName[..|parentScanType + "-"|] == parentScanType + "-";
    assert parentName[|parentScanType|..] == "-" + rest;
    var name := scanType + "-" + rest + "-" + ruleName;
    assert name[..|scanType + "-"|] == scanType + "-";
  }

  /**
   * Two rules firing on the same parent get different scan names: the name
   * determines the rule, since everything before `-<rule>` depends on the
   * parent alone.
   */
  lemma DistinctRulesDistinctNames(parentName: string, parentScanType: string, scanType: string, r1: string, r2: string)
    requires CascadedName(parentName, parentScanType, scanType, r1) == CascadedName(parentName, parentScanType, scanType, r2)
    ensures r1 == r2
  {
    var prefix := if StartsWith(parentName, parentScanType + "-") then scanType + parentName[|parentScanType|..] else parentName;
    var n1 := CascadedName(parentName, parentScanType, scanType, r1);
    assert n1 == prefix + "-" + r1;
    assert n1 == prefix + "-" + r2;
    assert r1 == n1[|prefix| + 1..];
    assert r2 == n1[|prefix| + 1..];
  }

  /** Every derived name ends with a hyphen and the rule name. */
  lemma EndsWithRuleName(parentName: string, parentScanType: string, scanType: string, ruleName: string)
    ensures EndsWith(CascadedName(parentName, parentScanType, scanType, ruleName), "-" + ruleName)
  {
    var name := CascadedName(parentName, parentScanType, scanType, ruleName);
    var prefix := if StartsWith(parentName, parentScanType + "-") then scanType + parentName[|parentScanType|..] else parentName;
    assert name == prefix + ("-" + ruleName);
    assert name[|name| - |"-" + ruleName|..] == "-" + ruleName;
  }

  /**
   * Two generations: the grandchild's name carries only the newest scan type,
   * the original target and both rule names.
   */
  lemma NamesDoNotAccumulate(rest: string, t0: string, t1: string, t2: string, r1: string, r2: string)
    ensures CascadedName(CascadedName(t0 + "-" + rest, t0, t1, r1), t1, t2, r2)
            == t2 + "-" + rest + "-" + r1 + "-" + r2
  {
    PrefixedParentName(rest, t0, t1, r1);
    PrefixedParentName(rest + "-" + r1, t1, t2, r2);
    assert t1 + "-" + rest + "-" + r1 == t1 + "-" + (rest + "-" + r1);
    assert t2 + "-" + (rest + "-" + r1) + "-" + r2 == t2 + "-" + rest + "-" + r1 + "-" + r2;
  }
}
