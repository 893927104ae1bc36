/** Wi-Fi scenes: which rule decides on a network, and why the order of the rules does not matter. */
module WifiScene {
  import opened Wrappers

  const MAX_SCENES := 64

  /** The six bytes of a BSSID. */
  type Bssid = seq<bv8>

  datatype Facts = Facts(ssid: Option<string>, bssid: Option<Bssid>)

  datatype Action = EnableProxy | DisableProxy

  datatype Rule = Rule(id: string, ssid: Option<string>, bssid: Option<Bssid>, action: Action) {
    predicate Matches(facts: Facts) {
      && (ssid.Some? ==> facts.ssid == ssid)
      && (bssid.Some? ==> facts.bssid == bssid)
    }

    function Specificity(): nat {
      (if ssid.Some? then 1 else 0) + 2 * (if bssid.Some? then 1 else 0)
    }

    predicate Clashes(other: Rule) {
      id == other.id || (ssid == other.ssid && bssid == other.bssid)
    }
  }

  datatype Decision = Decision(sceneId: string, action: Action)

  datatype SceneError = TooManyRules | DuplicateRule

  ghost predicate ClashFree(rules: seq<Rule>) {
    forall i, j :: 0 <= i < j < |rules| ==> !rules[i].Clashes(rules[j])
  }

  method ClashesWithEarlier(rules: seq<Rule>, index: nat) returns (found: bool)
    requires index < |rules|
    ensures found <==> exists i :: 0 <= i < index && rules[i].Clashes(rules[index])
  {
    for i := 0 to index
      invariant forall k :: 0 <= k < i ==> !rules[k].Clashes(rules[index])
    {
      if rules[i].Clashes(rules[index]) {
        return true;
      }
    }
    found := false;
  }

  /** The matcher takes a list of rules exactly if it is short enough and no two rules clash. */
  method NewMatcher(rules: seq<Rule>) returns (r: Result<seq<Rule>, SceneError>)
    ensures r.Ok? <==> |rules| <= MAX_SCENES && ClashFree(rules)
    ensures r.Ok? ==> r.value == rules
    ensures r == Err(TooManyRules) <==> |rules| > MAX_SCENES
  {
    if |rules| > MAX_SCENES {
      return Err(TooManyRules);
    }
    for index := 0 to |rules|
      invariant ClashFree(rules[..index])
    {
      var clashes := ClashesWithEarlier(rules, index);
      if clashes {
        return Err(DuplicateRule);
      }
    }
    assert rules[..|rules|] == rules;
    r := Ok(rules);
  }

  /** The rule matches, and no matching rule is more specific. */
  ghost predicate MostSpecific(rule: Rule, rules: seq<Rule>, facts: Facts) {
    && rule in rules && rule.Matches(facts)
    && forall other :: other in rules && other.Matches(facts) ==> other.Specificity() <= rule.Specificity()
  }

  method Select(rules: seq<Rule>, facts: Facts) returns (selected: Option<Rule>)
    ensures selected.None? <==> forall rule :: rule in rules ==> !rule.Matches(facts)
    ensures selected.Some? ==> MostSpecific(selected.value, rules, facts)
  {
    selected := None;
    for i := 0 to |rules|
      invariant selected.None? <==> forall rule :: rule in rules[..i] ==> !rule.Matches(facts)
      invariant selected.Some? ==> MostSpecific(selected.value, rules[..i], facts)
    {
      var rule := rules[i];
      assert rules[..i + 1] == rules[..i] + [rule];
      if rule.Matches(facts) {
        if selected.None? || rule.Specificity() > selected.value.Specificity() {
          selected := Some(rule);
        }
      }
    }
    assert rules[..|rules|] == rules;
  }

  method Evaluate(rules: seq<Rule>, facts: Facts) returns (decision: Option<Decision>)
    requires ClashFree(rules)
    ensures decision == DecisionFor(rules, facts)
  {
    var selected := Select(rules, facts);
    match selected {
      case None => decision := None;
      case Some(rule) =>
        DecidedBy(rules, facts, rule);
        decision := Some(Decision(rule.id, rule.action));
    }
  }

  /** The decision, without reference to any order of the rules. */
  ghost function DecisionFor(rules: seq<Rule>, facts: Facts): Option<Decision> {
    if exists rule :: MostSpecific(rule, rules, facts) then
      var rule :| MostSpecific(rule, rules, facts);
      Some(Decision(rule.id, rule.action))
    else
      None
  }

  /** Rules that do not clash never tie: at most one of them is the most specific. */
  lemma MostSpecificIsUnique(rules: seq<Rule>, facts: Facts, a: Rule, b: Rule)
    requires ClashFree(rules) && MostSpecific(a, rules, facts) && MostSpecific(b, rules, facts)
    ensures a == b
  {
    var i :| 0 <= i < |rules| && rules[i] == a;
    var j :| 0 <= j < |rules| && rules[j] == b;
    assert a.ssid == b.ssid && a.bssid == b.bssid;
  }

  /**
   * What the weights amount to: a rule for the access point beats any rule without one, and among equals in that a
   * rule for the network name beats any rule without one.
   */
  lemma AccessPointFirst(rules: seq<Rule>, facts: Facts, rule: Rule)
    ensures MostSpecific(rule, rules, facts) <==>
      && rule in rules && rule.Matches(facts)
      && (rule.bssid.None? ==> forall other :: other in rules && other.Matches(facts) ==> other.bssid.None?)
      && (rule.ssid.None? ==>
            forall other :: other in rules && other.Matches(facts) && other.bssid.Some? == rule.bssid.Some? ==> other.ssid.None?)
  {
    forall other: Rule
      ensures other.Specificity() <= rule.Specificity() <==>
        (rule.bssid.None? ==> other.bssid.None?) &&
        (rule.ssid.None? && other.bssid.Some? == rule.bssid.Some? ==> other.ssid.None?)
    {
    }
  }

  lemma DecidedBy(rules: seq<Rule>, facts: Facts, rule: Rule)
    requires ClashFree(rules) && MostSpecific(rule, rules, facts)
    ensures DecisionFor(rules, facts) == Some(Decision(rule.id, rule.action))
  {
    forall other | MostSpecific(other, rules, facts)
      ensures other == rule
    {
      MostSpecificIsUnique(rules, facts, rule, other);
    }
  }

  lemma SameElements(a: seq<Rule>, b: seq<Rule>, rule: Rule)
    requires multiset(a) == multiset(b)
    ensures rule in a <==> rule in b
  {
    assert rule in a <==> rule in multiset(a);
    assert rule in b <==> rule in multiset(b);
  }

  /** A clash-free list has every rule once, so clashes do not depend on order either. */
  lemma ClashFreeReordered(a: seq<Rule>, b: seq<Rule>)
    requires ClashFree(a) && multiset(a) == multiset(b)
    ensures ClashFree(b)
  {
    forall i, j | 0 <= i < j < |b|
      ensures !b[i].Clashes(b[j])
    {
      SameElements(a, b, b[i]);
      SameElements(a, b, b[j]);
      if b[i] == b[j] {
        TwiceCounts(b, i, j);
        OnceCounts(a, b[i]);
        assert false;
      }
      var k :| 0 <= k < |a| && a[k] == b[i];
      var l :| 0 <= l < |a| && a[l] == b[j];
      assert k < l ==> !a[k].Clashes(a[l]);
      assert l < k ==> !a[l].Clashes(a[k]);
    }
  }

  lemma TwiceCounts(b: seq<Rule>, i: nat, j: nat)
    requires i < j < |b| && b[i] == b[j]
    ensures multiset(b)[b[i]] >= 2
  {
    assert b == b[..i] + ([b[i]] + (b[i + 1..j] + ([b[j]] + b[j + 1..])));
  }

  lemma {:induction false} OnceCounts(a: seq<Rule>, rule: Rule)
    requires ClashFree(a)
    ensures multiset(a)[rule] <= 1
  {
    if a != [] {
      assert a == [a[0]] + a[1..];
      OnceCounts(a[1..], rule);
      if rule == a[0] {
        assert rule !in a[1..] by {
          assert forall k :: 0 < k < |a| ==> !a[0].Clashes(a[k]);
        }
      }
    }
  }

  /** The matcher's decision is the same for every order of its rules. */
  lemma OrderIndependent(a: seq<Rule>, b: seq<Rule>, facts: Facts)
    requires ClashFree(a) && multiset(a) == multiset(b)
    ensures ClashFree(b) && DecisionFor(a, facts) == DecisionFor(b, facts)
  {
    ClashFreeReordered(a, b);
    forall rule
      ensures rule in a <==> rule in b
    {
      SameElements(a, b, rule);
    }
    if rule :| MostSpecific(rule, a, facts) {
      assert MostSpecific(rule, b, facts);
      DecidedBy(a, facts, rule);
      DecidedBy(b, facts, rule);
    } else {
      assert forall rule :: MostSpecific(rule, b, facts) ==> MostSpecific(rule, a, facts);
    }
  }
}
