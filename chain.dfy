/**
 * The chain gate: the annotation `cascading.securecodebox.io/chain` holds the
 * comma-separated names of the rules that already fired in a scan's ancestry,
 * and a rule in it does not fire again.
 */
module Chain {
  import opened Wrappers
  import opened Strings
  import opened Model

  const ChainKey: string := "cascading.securecodebox.io/chain"

  /** The rule names recorded on a scan; missing annotations or an empty value mean none. */
  function ChainOf(annotations: Option<StringMap>): (names: seq<string>)
    ensures forall i :: 0 <= i < |names| ==> ',' !in names[i]
  {
    if annotations.Some? && ChainKey in annotations.value && annotations.value[ChainKey] != "" then
      Split(annotations.value[ChainKey], ',')
    else
      []
  }

  predicate HasFired(annotations: Option<StringMap>, ruleName: string) {
    ruleName in ChainOf(annotations)
  }

  /** The chain value a child scan carries once `ruleName` has fired: the parent's chain plus that name. */
  function ExtendChain(annotations: Option<StringMap>, ruleName: string): string {
    Join(ChainOf(annotations) + [ruleName], ',')
  }

  /**
   * A chain written from a list of rule names (non-empty, without commas)
   * blocks exactly those rules.
   */
  lemma HasFiredIffListed(names: seq<string>, others: StringMap, ruleName: string)
    requires |names| >= 1
    requires forall i :: 0 <= i < |names| ==> names[i] != "" && ',' !in names[i]
    ensures HasFired(Some(others[ChainKey := Join(names, ',')]), ruleName) <==> ruleName in names
  {
    SplitJoin(names, ',');
    JoinNonEmpty(names);
  }

  /** Without the chain annotation, or with no annotations at all, nothing is blocked. */
  lemma NoChainNoBlock(annotations: Option<StringMap>, ruleName: string)
    requires annotations.None? || ChainKey !in annotations.value
    ensures !HasFired(annotations, ruleName)
  {
  }

  /**
   * Loop prevention: a child scan annotated with the extended chain records
   * the parent's chain followed by the rule, so that rule never fires again
   * further down the lineage.
   */
  lemma ExtendedChainBlocksRule(parent: Option<StringMap>, child: StringMap, ruleName: string)
    requires ruleName != "" && ',' !in ruleName
    ensures ChainOf(Some(child[ChainKey := ExtendChain(parent, ruleName)])) == ChainOf(parent) + [ruleName]
    ensures HasFired(Some(child[ChainKey := ExtendChain(parent, ruleName)]), ruleName)
  {
    var names := ChainOf(parent) + [ruleName];
    SplitJoin(names, ',');
    JoinNonEmpty(names);
  }

  /** Joining gives a non-empty string unless it joins a single empty piece. */
  lemma JoinNonEmpty(names: seq<string>)
    requires |names| >= 2 || (|names| == 1 && names[0] != "")
    ensures Join(names, ',') != ""
  {
    if |names| >= 2 {
      assert Join(names, ',') == names[0] + [','] + Join(names[1..], ',');
      assert Join(names, ',')[|names[0]|] == ',';
    }
  }
}
