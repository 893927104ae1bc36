/** One netfilter table: what each command does to it, and what it holds once sections have been added.

    A netfilter payload is committed as a whole or not at all.  The closed form `WithSections` says what the table is
    once a list of sections has been added to it. */
module Tables {
  import opened Wrappers
  import opened Netfilter
  import opened Plan
  import opened PlanFacts

  // ----- one netfilter table -----

  /** No rule anywhere jumps to `chain`. */
  predicate Unreferenced(chains: Chains, chain: ChainName) {
    forall c, r :: c in chains && r in chains[c] ==> r.target != Jump(chain)
  }

  /** Jumps lead to user-defined chains that exist: what the kernel enforces. */
  predicate Closed(chains: Chains) {
    forall c, r :: c in chains && r in chains[c] && r.target.Jump? ==>
      r.target.chain in chains && !BuiltIn(r.target.chain)
  }

  function DeleteFirst(rules: seq<Rule>, rule: Rule): seq<Rule> {
    if rules == [] then []
    else if rules[0] == rule then rules[1..]
    else [rules[0]] + DeleteFirst(rules[1..], rule)
  }

  function RunCommand(chains: Chains, command: Command): Option<Chains> {
    match command
    case NewChain(c) => if c in chains then None else Some(chains[c := []])
    case Append(c, rule) =>
      if c !in chains || (rule.target.Jump? && rule.target.chain !in chains) then None
      else Some(chains[c := chains[c] + [rule]])
    case Delete(c, rule) =>
      if c !in chains || rule !in chains[c] then None else Some(chains[c := DeleteFirst(chains[c], rule)])
    case Flush(c) => if c !in chains then None else Some(chains[c := []])
    case RemoveChain(c) =>
      if c !in chains || chains[c] != [] || !Unreferenced(chains, c) then None else Some(chains - {c})
  }

  /** One payload: every command, or nothing. */
  function RunCommands(chains: Chains, commands: seq<Command>): Option<Chains>
    decreases |commands|
  {
    if commands == [] then Some(chains)
    else
      var next := RunCommand(chains, commands[0]);
      if next.None? then None else RunCommands(next.value, commands[1..])
  }

  lemma {:induction false} RunConcat(chains: Chains, a: seq<Command>, b: seq<Command>)
    ensures RunCommands(chains, a + b) ==
            var first := RunCommands(chains, a);
            if first.None? then None else RunCommands(first.value, b)
    decreases |a|
  {
    if a == [] {
      assert a + b == b;
    } else {
      assert (a + b)[1..] == a[1..] + b;
      var next := RunCommand(chains, a[0]);
      if next.Some? { RunConcat(next.value, a[1..], b); }
    }
  }

  predicate Distinct<T(==)>(s: seq<T>) {
    forall i, j :: 0 <= i < j < |s| ==> s[i] != s[j]
  }

  function Elements<T>(s: seq<T>): set<T> {
    set x | x in s
  }

  function Empty(chains: seq<ChainName>): Chains {
    map c | c in chains :: []
  }

  lemma TailDistinct<T>(s: seq<T>)
    requires Distinct(s) && s != []
    ensures Distinct(s[1..]) && s[0] !in s[1..]
    ensures forall x :: x in s <==> x == s[0] || x in s[1..]
  {
    assert s == [s[0]] + s[1..];
    assert forall i :: 0 <= i < |s[1..]| ==> s[1..][i] == s[i + 1];
  }

  lemma EmptyCons(chains: Chains, creates: seq<ChainName>)
    requires creates != [] && Distinct(creates)
    ensures chains[creates[0] := []] + Empty(creates[1..]) == chains + Empty(creates)
  {
    TailDistinct(creates);
  }

  lemma {:induction false} RunNewChains(chains: Chains, creates: seq<ChainName>)
    requires Distinct(creates) && forall c :: c in creates ==> c !in chains
    ensures RunCommands(chains, NewChains(creates)) == Some(chains + Empty(creates))
    decreases |creates|
  {
    if creates == [] {
      assert chains + Empty(creates) == chains;
    } else {
      hide Empty;
      var c, rest := creates[0], creates[1..];
      assert NewChains(creates)[1..] == NewChains(rest) && NewChains(creates)[0] == NewChain(c);
      assert c in creates;
      TailDistinct(creates);
      RunNewChains(chains[c := []], rest);
      EmptyCons(chains, creates);
    }
  }

  /** Every chain followed by what `appends` puts on it. */
  function Extend(chains: Chains, appends: seq<Appended>): Chains {
    map c | c in chains :: chains[c] + RulesOn(appends, c)
  }

  lemma ExtendStep(chains: Chains, appends: seq<Appended>)
    requires appends != [] && appends[0].chain in chains
    ensures var a := appends[0];
            Extend(chains[a.chain := chains[a.chain] + [a.rule]], appends[1..]) == Extend(chains, appends)
  {
    var a, rest := appends[0], appends[1..];
    var next := chains[a.chain := chains[a.chain] + [a.rule]];
    forall c | c in chains ensures next[c] + RulesOn(rest, c) == chains[c] + RulesOn(appends, c) {
      if c == a.chain {
        assert chains[c] + [a.rule] + RulesOn(rest, c) == chains[c] + ([a.rule] + RulesOn(rest, c));
      } else {
        assert [] + RulesOn(rest, c) == RulesOn(rest, c);
      }
    }
  }

  lemma ExtendNothing(chains: Chains)
    ensures Extend(chains, []) == chains
  {
    forall c | c in chains ensures chains[c] + RulesOn([], c) == chains[c] {
      assert chains[c] + [] == chains[c];
    }
  }

  lemma {:induction false} RunAppends(chains: Chains, appends: seq<Appended>)
    requires forall a :: a in appends ==>
               a.chain in chains && (a.rule.target.Jump? ==> a.rule.target.chain in chains)
    ensures RunCommands(chains, Appends(appends)) == Some(Extend(chains, appends))
    decreases |appends|
  {
    hide Extend, RulesOn;
    if appends == [] {
      ExtendNothing(chains);
    } else {
      var a, rest := appends[0], appends[1..];
      assert Appends(appends)[1..] == Appends(rest);
      assert a in appends;
      var next := chains[a.chain := chains[a.chain] + [a.rule]];
      RunAppends(next, rest);
      ExtendStep(chains, appends);
    }
  }

  lemma {:induction false} DeleteFirstAfter(before: seq<Rule>, rule: Rule, after: seq<Rule>)
    requires rule !in before
    ensures rule in before + [rule] + after
    ensures DeleteFirst(before + [rule] + after, rule) == before + after
  {
    var all := before + [rule] + after;
    assert all[|before|] == rule;
    if before == [] {
      assert all[1..] == after && before + after == after;
    } else {
      assert all[0] == before[0] && all[1..] == before[1..] + [rule] + after;
      DeleteFirstAfter(before[1..], rule, after);
      assert [before[0]] + (before[1..] + after) == before + after;
    }
  }

  /** Chains that read `before`, then some hooks, then `after`. */
  function Sandwich(before: Chains, hooks: seq<Appended>, after: Chains): Chains
    requires before.Keys == after.Keys
  {
    map c | c in before :: before[c] + RulesOn(hooks, c) + after[c]
  }

  lemma SandwichKeys(before: Chains, hooks: seq<Appended>, after: Chains)
    requires before.Keys == after.Keys
    ensures Sandwich(before, hooks, after).Keys == before.Keys
  {
  }

  lemma RulesOnFirst(appends: seq<Appended>, chain: ChainName)
    requires appends != []
    ensures appends[0].chain == chain ==> RulesOn(appends, chain) == [appends[0].rule] + RulesOn(appends[1..], chain)
    ensures appends[0].chain != chain ==> RulesOn(appends, chain) == RulesOn(appends[1..], chain)
  {
  }

  lemma SandwichStep(before: Chains, hooks: seq<Appended>, after: Chains)
    requires before.Keys == after.Keys && hooks != [] && hooks[0].chain in before
    requires hooks[0].rule !in before[hooks[0].chain]
    ensures var h, chains := hooks[0], Sandwich(before, hooks, after);
            && h.rule in chains[h.chain]
            && chains[h.chain := DeleteFirst(chains[h.chain], h.rule)] == Sandwich(before, hooks[1..], after)
  {
    hide DeleteFirst, RulesOn;
    var h, rest := hooks[0], hooks[1..];
    var chains := Sandwich(before, hooks, after);
    var tail := RulesOn(rest, h.chain) + after[h.chain];
    RulesOnFirst(hooks, h.chain);
    assert chains[h.chain] == before[h.chain] + [h.rule] + tail;
    DeleteFirstAfter(before[h.chain], h.rule, tail);
    var next := chains[h.chain := DeleteFirst(chains[h.chain], h.rule)];
    forall c | c in before ensures next[c] == before[c] + RulesOn(rest, c) + after[c] {
      if c == h.chain {
        assert before[c] + tail == before[c] + RulesOn(rest, c) + after[c];
      } else {
        RulesOnFirst(hooks, c);
      }
    }
  }

  /** Deleting hooks in the order they were added leaves what was around them. */
  lemma {:induction false} RunDeletes(before: Chains, hooks: seq<Appended>, after: Chains)
    requires before.Keys == after.Keys
    requires forall h :: h in hooks ==> h.chain in before && h.rule !in before[h.chain]
    ensures RunCommands(Sandwich(before, hooks, after), Deletes(hooks)) == Some(Sandwich(before, [], after))
    decreases |hooks|
  {
    hide Sandwich, DeleteFirst, RulesOn;
    if hooks != [] {
      var h, rest := hooks[0], hooks[1..];
      assert Deletes(hooks)[1..] == Deletes(rest);
      assert Deletes(hooks)[0] == Delete(h.chain, h.rule);
      assert h in hooks;
      SandwichKeys(before, hooks, after);
      SandwichStep(before, hooks, after);
      RunDeletes(before, rest, after);
    }
  }

  lemma {:induction false} DeletesKeepKeys(chains: Chains, hooks: seq<Appended>)
    ensures var r := RunCommands(chains, Deletes(hooks)); r.Some? ==> r.value.Keys == chains.Keys
    decreases |hooks|
  {
    if hooks != [] {
      assert Deletes(hooks)[1..] == Deletes(hooks[1..]);
      var next := RunCommand(chains, Deletes(hooks)[0]);
      if next.Some? { DeletesKeepKeys(next.value, hooks[1..]); }
    }
  }

  function Emptied(chains: Chains, which: seq<ChainName>): Chains {
    map c | c in chains :: if c in which then [] else chains[c]
  }

  lemma {:induction false} RunFlushes(chains: Chains, which: seq<ChainName>)
    requires forall c :: c in which ==> c in chains
    ensures RunCommands(chains, Flushes(which)) == Some(Emptied(chains, which))
    decreases |which|
  {
    if which == [] {
      assert Emptied(chains, which) == chains;
    } else {
      var c, rest := which[0], which[1..];
      assert Flushes(which)[1..] == Flushes(rest);
      assert c in which && forall x :: x in which <==> x == c || x in rest;
      RunFlushes(chains[c := []], rest);
      assert Emptied(chains[c := []], rest) == Emptied(chains, which);
    }
  }

  lemma {:induction false} RunRemovals(chains: Chains, which: seq<ChainName>)
    requires Distinct(which)
    requires forall c :: c in which ==> c in chains && chains[c] == [] && Unreferenced(chains, c)
    ensures RunCommands(chains, Removals(which)) == Some(chains - Elements(which))
    decreases |which|
  {
    if which == [] {
      assert chains - Elements(which) == chains;
    } else {
      var c, rest := which[0], which[1..];
      assert Removals(which)[1..] == Removals(rest);
      assert c in which;
      TailDistinct(which);
      var next := chains - {c};
      forall x | x in rest ensures x in next && next[x] == [] && Unreferenced(next, x) {
        assert Unreferenced(chains, x);
      }
      RunRemovals(next, rest);
      assert next - Elements(rest) == chains - Elements(which);
    }
  }

  // ----- sections on a table -----

  /** Everything the sections put on `chain`, in order. */
  function AllRules(sections: seq<Section>, chain: ChainName): seq<Rule> {
    if sections == [] then [] else RulesOn(sections[0].appends, chain) + AllRules(sections[1..], chain)
  }

  function AllCreates(sections: seq<Section>): set<ChainName> {
    set i, c | 0 <= i < |sections| && c in sections[i].creates :: c
  }

  /** A table with the sections added to it. */
  function WithSections(chains: Chains, sections: seq<Section>): Chains {
    map c | c in chains.Keys + AllCreates(sections) :: (if c in chains then chains[c] else []) + AllRules(sections, c)
  }

  /** A section that can be added to `chains`: its chains are new, it hooks them into built-in chains that exist, and it
      jumps only to chains of its own. */
  ghost predicate Fits(chains: Chains, s: Section) {
    && s.creates != [] && Distinct(s.creates)
    && (forall c :: c in s.creates ==> c.Owned? && c !in chains)
    && (forall a :: a in s.appends ==>
          && (a.chain in chains || a.chain in s.creates)
          && (a.rule.target.Jump? ==> a.rule.target.chain in s.creates)
          && (a.chain !in s.creates ==> BuiltIn(a.chain) && a.rule.target.Jump?))
  }

  ghost predicate AllFit(chains: Chains, sections: seq<Section>) {
    && Closed(chains)
    && (forall i :: 0 <= i < |sections| ==> Fits(chains, sections[i]))
    && (forall i, j, c :: 0 <= i < |sections| && 0 <= j < |sections| && i != j && c in sections[i].creates ==>
          c !in sections[j].creates)
  }

  lemma {:induction false} AllRulesConcat(a: seq<Section>, b: seq<Section>, chain: ChainName)
    ensures AllRules(a + b, chain) == AllRules(a, chain) + AllRules(b, chain)
  {
    if a == [] {
      assert a + b == b;
    } else {
      assert (a + b)[1..] == a[1..] + b;
      AllRulesConcat(a[1..], b, chain);
    }
  }

  lemma AllCreatesConcat(a: seq<Section>, b: seq<Section>)
    ensures AllCreates(a + b) == AllCreates(a) + AllCreates(b)
  {
    forall c | c in AllCreates(a) ensures c in AllCreates(a + b) {
      var i :| 0 <= i < |a| && c in a[i].creates;
      assert (a + b)[i] == a[i];
    }
    forall c | c in AllCreates(b) ensures c in AllCreates(a + b) {
      var i :| 0 <= i < |b| && c in b[i].creates;
      assert (a + b)[|a| + i] == b[i];
    }
  }

  lemma AllCreatesOne(s: Section)
    ensures AllCreates([s]) == Elements(s.creates) && forall c :: AllRules([s], c) == RulesOn(s.appends, c)
  {
    assert [s][0] == s && [s][1..] == [];
    forall c | c in s.creates ensures c in AllCreates([s]) { assert c in [s][0].creates; }
  }

  lemma {:induction false} RulesOnFrom(appends: seq<Appended>, chain: ChainName, rule: Rule)
    requires rule in RulesOn(appends, chain)
    ensures Appended(chain, rule) in appends
  {
    if !(appends[0].chain == chain && appends[0].rule == rule) { RulesOnFrom(appends[1..], chain, rule); }
  }

  lemma {:induction false} AllRulesFrom(sections: seq<Section>, chain: ChainName, rule: Rule) returns (i: nat)
    requires rule in AllRules(sections, chain)
    ensures i < |sections| && Appended(chain, rule) in sections[i].appends
  {
    if rule in RulesOn(sections[0].appends, chain) {
      RulesOnFrom(sections[0].appends, chain, rule);
      i := 0;
    } else {
      var k := AllRulesFrom(sections[1..], chain, rule);
      i := k + 1;
    }
  }

  lemma {:induction false} HooksAre(appends: seq<Appended>, creates: seq<ChainName>, chain: ChainName)
    ensures RulesOn(Hooks(appends, creates), chain) == if chain in creates then [] else RulesOn(appends, chain)
    ensures forall h :: h in Hooks(appends, creates) ==> h in appends && h.chain !in creates
  {
    if appends != [] {
      HooksAre(appends[1..], creates, chain);
      var h := appends[0];
      if h.chain !in creates {
        assert ([h] + Hooks(appends[1..], creates))[1..] == Hooks(appends[1..], creates);
      } else {
        assert [] + Hooks(appends[1..], creates) == Hooks(appends[1..], creates);
      }
    }
  }

  /** Installing a section on a table that holds others gives the table with that section last. */
  lemma ApplySection(chains: Chains, sections: seq<Section>, s: Section)
    requires AllFit(chains, sections + [s])
    ensures RunCommands(WithSections(chains, sections), ApplyCommands(s)) == Some(WithSections(chains, sections + [s]))
  {
    hide RunCommands, AllRules, RulesOn;
    var all := sections + [s];
    var table := WithSections(chains, sections);
    assert all[|sections|] == s && Fits(chains, s);
    assert sections + [s] + [] == all && sections + [] == sections;
    SplitKeys(chains, sections, s, []);
    assert forall c :: c in s.creates ==> c in Elements(s.creates);
    RunNewChains(table, s.creates);
    var created := table + Empty(s.creates);
    RunAppends(created, s.appends);
    RunConcat(table, NewChains(s.creates), Appends(s.appends));
    ExtendIsLast(chains, sections, s);
  }

  lemma ExtendIsLast(chains: Chains, sections: seq<Section>, s: Section)
    requires AllFit(chains, sections + [s])
    ensures Extend(WithSections(chains, sections) + Empty(s.creates), s.appends) == WithSections(chains, sections + [s])
  {
    hide AllFit, AllRules, RulesOn, AllCreates;
    assert sections + [s] + [] == sections + [s] && sections + [] == sections;
    SplitKeys(chains, sections, s, []);
    var left := Extend(WithSections(chains, sections) + Empty(s.creates), s.appends);
    var right := WithSections(chains, sections + [s]);
    assert forall c :: c in s.creates <==> c in Elements(s.creates);
    forall c | c in right ensures left[c] == right[c] {
      SplitRules(chains, sections, s, [], c);
      NoRules(c);
    }
  }

  lemma NoRules(chain: ChainName)
    ensures AllRules([], chain) == []
  {
  }

  /** Other sections put nothing on a chain that a section creates. */
  lemma NoRulesOn(chains: Chains, sections: seq<Section>, s: Section, c: ChainName)
    requires AllFit(chains, sections + [s])
    requires c in s.creates
    ensures AllRules(sections, c) == []
  {
    var all := sections + [s];
    assert all[|sections|] == s && Fits(chains, s);
    forall i, r | 0 <= i < |sections| ensures Appended(c, r) !in sections[i].appends {
      assert all[i] == sections[i] && Fits(chains, all[i]);
    }
    if AllRules(sections, c) != [] {
      var i := AllRulesFrom(sections, c, AllRules(sections, c)[0]);
    }
  }

  /** Order does not matter for fitting. */
  lemma MoveLast(chains: Chains, a: seq<Section>, s: Section, b: seq<Section>)
    requires AllFit(chains, a + [s] + b)
    ensures AllFit(chains, a + b + [s])
  {
    hide Fits, Closed;
    var from, to := a + [s] + b, a + b + [s];
    forall i | 0 <= i < |to|
      ensures 0 <= Came(a, b, i) < |from| && to[i] == from[Came(a, b, i)]
    {
      CameFrom(a, s, b, i);
    }
    forall i | 0 <= i < |to| ensures Fits(chains, to[i]) {
      assert Fits(chains, from[Came(a, b, i)]);
    }
    forall i, j, c | 0 <= i < |to| && 0 <= j < |to| && i != j && c in to[i].creates ensures c !in to[j].creates {
      assert from[Came(a, b, i)] == to[i] && from[Came(a, b, j)] == to[j] && Came(a, b, i) != Came(a, b, j);
    }
  }

  /** Where the section at `i` stood before the move. */
  function Came(a: seq<Section>, b: seq<Section>, i: int): int {
    if i < |a| then i else if i < |a| + |b| then i + 1 else |a|
  }

  lemma CameFrom(a: seq<Section>, s: Section, b: seq<Section>, i: int)
    requires 0 <= i < |a + b + [s]|
    ensures 0 <= Came(a, b, i) < |a + [s] + b| && (a + b + [s])[i] == (a + [s] + b)[Came(a, b, i)]
  {
  }

  /** The part of the table below the hooks of `s`: everything of earlier sections, and the chains of `s`. */
  function Below(chains: Chains, a: seq<Section>, s: Section, b: seq<Section>): Chains {
    map c | c in WithSections(chains, a + b + [s]) ::
      if c in s.creates then RulesOn(s.appends, c) else (if c in chains then chains[c] else []) + AllRules(a, c)
  }

  function Above(chains: Chains, a: seq<Section>, s: Section, b: seq<Section>): Chains {
    map c | c in WithSections(chains, a + b + [s]) :: if c in s.creates then [] else AllRules(b, c)
  }

  /** The rules on one chain, seen from section `s`. */
  lemma SplitRules(chains: Chains, a: seq<Section>, s: Section, b: seq<Section>, c: ChainName)
    requires AllFit(chains, a + [s] + b)
    ensures AllRules(a + [s] + b, c) == AllRules(a, c) + RulesOn(s.appends, c) + AllRules(b, c)
    ensures AllRules(a + b, c) == AllRules(a, c) + AllRules(b, c)
    ensures RulesOn(Hooks(s.appends, s.creates), c) == if c in s.creates then [] else RulesOn(s.appends, c)
    ensures c in s.creates ==> AllRules(a, c) == [] && AllRules(b, c) == [] && c !in chains
  {
    hide AllRules, RulesOn;
    AllRulesConcat(a, [s], c);
    AllRulesConcat(a + [s], b, c);
    AllRulesConcat(a, b, c);
    AllCreatesOne(s);
    HooksAre(s.appends, s.creates, c);
    assert (a + [s] + b)[|a|] == s && Fits(chains, s);
    if c in s.creates {
      MoveLast(chains, a, s, b);
      NoRulesOn(chains, a + b, s, c);
    }
  }

  /** The chains of a section are not those of the others. */
  lemma CreatesApart(chains: Chains, others: seq<Section>, s: Section)
    requires AllFit(chains, others + [s])
    ensures AllCreates(others) !! Elements(s.creates) && chains.Keys !! Elements(s.creates)
  {
    var all := others + [s];
    assert all[|others|] == s && Fits(chains, s);
    forall c | c in s.creates ensures c !in AllCreates(others) {
      forall i | 0 <= i < |others| ensures c !in others[i].creates {
        assert all[i] == others[i];
      }
    }
  }

  lemma SplitKeys(chains: Chains, a: seq<Section>, s: Section, b: seq<Section>)
    requires AllFit(chains, a + [s] + b)
    ensures WithSections(chains, a + [s] + b).Keys == WithSections(chains, a + b + [s]).Keys
    ensures WithSections(chains, a + b + [s]).Keys == WithSections(chains, a + b).Keys + Elements(s.creates)
    ensures WithSections(chains, a + b).Keys !! Elements(s.creates)
  {
    hide AllRules, AllCreates;
    MoveLast(chains, a, s, b);
    AllCreatesConcat(a, [s]);
    AllCreatesConcat(a + [s], b);
    AllCreatesConcat(a, b);
    AllCreatesConcat(a + b, [s]);
    AllCreatesOne(s);
    CreatesApart(chains, a + b, s);
  }

  lemma SandwichAt(chains: Chains, a: seq<Section>, s: Section, b: seq<Section>, hooks: seq<Appended>, c: ChainName)
    requires c in WithSections(chains, a + b + [s])
    ensures Below(chains, a, s, b).Keys == Above(chains, a, s, b).Keys == WithSections(chains, a + b + [s]).Keys
    ensures Sandwich(Below(chains, a, s, b), hooks, Above(chains, a, s, b)).Keys == WithSections(chains, a + b + [s]).Keys
    ensures Sandwich(Below(chains, a, s, b), hooks, Above(chains, a, s, b))[c] ==
            if c in s.creates then RulesOn(s.appends, c) + RulesOn(hooks, c) + []
            else (if c in chains then chains[c] else []) + AllRules(a, c) + RulesOn(hooks, c) + AllRules(b, c)
  {
    hide RulesOn, AllRules, AllCreates, WithSections;
  }

  lemma WithSectionsAt(chains: Chains, sections: seq<Section>, c: ChainName)
    requires c in WithSections(chains, sections)
    ensures WithSections(chains, sections)[c] == (if c in chains then chains[c] else []) + AllRules(sections, c)
  {
  }

  lemma SplitAroundHooks(chains: Chains, a: seq<Section>, s: Section, b: seq<Section>)
    requires AllFit(chains, a + [s] + b)
    ensures Below(chains, a, s, b).Keys == Above(chains, a, s, b).Keys
    ensures Sandwich(Below(chains, a, s, b), Hooks(s.appends, s.creates), Above(chains, a, s, b)) ==
            WithSections(chains, a + [s] + b)
  {
    hide AllFit, AllRules, RulesOn, Hooks, AllCreates, WithSections, Below, Above, Sandwich, Elements;
    SplitKeys(chains, a, s, b);
    KeysAround(chains, a, s, b, Hooks(s.appends, s.creates));
    var left := Sandwich(Below(chains, a, s, b), Hooks(s.appends, s.creates), Above(chains, a, s, b));
    var right := WithSections(chains, a + [s] + b);
    forall c | c in right ensures left[c] == right[c] {
      SplitRules(chains, a, s, b, c);
      SandwichAt(chains, a, s, b, Hooks(s.appends, s.creates), c);
      WithSectionsAt(chains, a + [s] + b, c);
    }
  }

  lemma KeysAround(chains: Chains, a: seq<Section>, s: Section, b: seq<Section>, hooks: seq<Appended>)
    ensures Below(chains, a, s, b).Keys == Above(chains, a, s, b).Keys
    ensures Sandwich(Below(chains, a, s, b), hooks, Above(chains, a, s, b)).Keys == WithSections(chains, a + b + [s]).Keys
  {
    hide RulesOn, AllRules, AllCreates, WithSections;
  }

  lemma EmptiedAt(chains: Chains, which: seq<ChainName>, c: ChainName)
    requires c in chains
    ensures Emptied(chains, which).Keys == chains.Keys
    ensures Emptied(chains, which)[c] == if c in which then [] else chains[c]
  {
  }

  lemma SplitWithoutHooks(chains: Chains, a: seq<Section>, s: Section, b: seq<Section>)
    requires AllFit(chains, a + [s] + b)
    requires Below(chains, a, s, b).Keys == Above(chains, a, s, b).Keys
    ensures Emptied(Sandwich(Below(chains, a, s, b), [], Above(chains, a, s, b)), s.creates) - Elements(s.creates) ==
            WithSections(chains, a + b)
    ensures forall c :: c in s.creates ==> c in Sandwich(Below(chains, a, s, b), [], Above(chains, a, s, b))
  {
    hide AllFit, AllRules, RulesOn, AllCreates, WithSections, Below, Above, Sandwich;
    SplitKeys(chains, a, s, b);
    KeysAround(chains, a, s, b, []);
    var unhooked := Sandwich(Below(chains, a, s, b), [], Above(chains, a, s, b));
    var left := Emptied(unhooked, s.creates) - Elements(s.creates);
    var right := WithSections(chains, a + b);
    assert forall c :: c in s.creates <==> c in Elements(s.creates);
    forall c | c in right ensures left[c] == right[c] {
      SplitRules(chains, a, s, b, c);
      RulesOnNone(c);
      SandwichAt(chains, a, s, b, [], c);
      WithSectionsAt(chains, a + b, c);
    }
  }

  /** Removing a section from the middle leaves the others exactly as if it had never been added. */
  lemma RollbackSection(chains: Chains, a: seq<Section>, s: Section, b: seq<Section>)
    requires AllFit(chains, a + [s] + b)
    ensures RunCommands(WithSections(chains, a + [s] + b), RollbackCommands(s)) == Some(WithSections(chains, a + b))
  {
    hide WithSections, Below, Above, Sandwich, Emptied, RunCommands;
    var table := WithSections(chains, a + [s] + b);
    var below, above := Below(chains, a, s, b), Above(chains, a, s, b);
    var hooks := Hooks(s.appends, s.creates);
    SplitAroundHooks(chains, a, s, b);
    SplitWithoutHooks(chains, a, s, b);
    BelowHasNoHooks(chains, a, s, b);
    RunDeletes(below, hooks, above);
    var unhooked := Sandwich(below, [], above);
    RunFlushes(unhooked, s.creates);
    var emptied := Emptied(unhooked, s.creates);
    EmptiedUnreferenced(chains, a, s, b);
    RunRemovals(emptied, s.creates);
    RunConcat(table, Deletes(hooks), Flushes(s.creates));
    RunConcat(table, Deletes(hooks) + Flushes(s.creates), Removals(s.creates));
  }

  /** No other section, and nothing in the base, jumps to a chain that `s` creates. */
  lemma NobodyJumps(chains: Chains, all: seq<Section>, k: nat, others: seq<Section>, x: ChainName)
    requires AllFit(chains, all) && k < |all|
    requires forall t :: t in others ==> exists i :: 0 <= i < |all| && i != k && all[i] == t
    ensures forall r :: r in AllRules(others, x) && r.target.Jump? ==> r.target.chain !in all[k].creates
    ensures forall r :: x in chains && r in chains[x] && r.target.Jump? ==> r.target.chain !in all[k].creates
  {
    assert Fits(chains, all[k]);
    forall r | r in AllRules(others, x) && r.target.Jump? ensures r.target.chain !in all[k].creates {
      var i := AllRulesFrom(others, x, r);
      assert others[i] in others;
      var m :| 0 <= m < |all| && m != k && all[m] == others[i];
      assert Fits(chains, all[m]);
    }
  }

  lemma OthersAround(a: seq<Section>, s: Section, b: seq<Section>)
    ensures var all := a + [s] + b;
            && all[|a|] == s
            && (forall t :: t in a ==> exists i :: 0 <= i < |all| && i != |a| && all[i] == t)
            && (forall t :: t in b ==> exists i :: 0 <= i < |all| && i != |a| && all[i] == t)
  {
    var all := a + [s] + b;
    forall t | t in a ensures exists i :: 0 <= i < |all| && i != |a| && all[i] == t {
      var i :| 0 <= i < |a| && a[i] == t;
      assert all[i] == t;
    }
    forall t | t in b ensures exists i :: 0 <= i < |all| && i != |a| && all[i] == t {
      var i :| 0 <= i < |b| && b[i] == t;
      assert all[|a| + 1 + i] == t;
    }
  }

  lemma BelowHasNoHooks(chains: Chains, a: seq<Section>, s: Section, b: seq<Section>)
    requires AllFit(chains, a + [s] + b)
    ensures Below(chains, a, s, b).Keys == Above(chains, a, s, b).Keys
    ensures forall h :: h in Hooks(s.appends, s.creates) ==>
              h.chain in Below(chains, a, s, b) && h.rule !in Below(chains, a, s, b)[h.chain]
    ensures Distinct(s.creates)
  {
    var all := a + [s] + b;
    OthersAround(a, s, b);
    assert Fits(chains, all[|a|]);
    forall h | h in Hooks(s.appends, s.creates)
      ensures h.chain in Below(chains, a, s, b) && h.rule !in Below(chains, a, s, b)[h.chain]
    {
      HooksAre(s.appends, s.creates, h.chain);
      assert h.chain in chains && h.rule.target.Jump? && h.rule.target.chain in s.creates;
      NobodyJumps(chains, all, |a|, a, h.chain);
    }
  }

  lemma EmptiedUnreferenced(chains: Chains, a: seq<Section>, s: Section, b: seq<Section>)
    requires AllFit(chains, a + [s] + b)
    requires Below(chains, a, s, b).Keys == Above(chains, a, s, b).Keys
    ensures var emptied := Emptied(Sandwich(Below(chains, a, s, b), [], Above(chains, a, s, b)), s.creates);
            forall c :: c in s.creates ==> c in emptied && emptied[c] == [] && Unreferenced(emptied, c)
  {
    hide AllFit, RulesOn, AllRules, Below, Above, Sandwich, Emptied, WithSections, AllCreates;
    var all := a + [s] + b;
    OthersAround(a, s, b);
    var unhooked := Sandwich(Below(chains, a, s, b), [], Above(chains, a, s, b));
    var emptied := Emptied(unhooked, s.creates);
    SplitKeys(chains, a, s, b);
    KeysAround(chains, a, s, b, []);
    forall x | x in unhooked
      ensures x in emptied && (x in s.creates ==> emptied[x] == [])
      ensures forall r: Rule :: r in emptied[x] && r.target.Jump? ==> r.target.chain !in s.creates
    {
      EmptiedAt(unhooked, s.creates, x);
      NobodyJumps(chains, all, |a|, a, x);
      NobodyJumps(chains, all, |a|, b, x);
      SandwichAt(chains, a, s, b, [], x);
      RulesOnNone(x);
    }
    EmptiedKeys(unhooked, s.creates);
    forall c | c in s.creates ensures c in emptied && emptied[c] == [] && Unreferenced(emptied, c) {
      assert c in Elements(s.creates);
    }
  }

  lemma EmptiedKeys(chains: Chains, which: seq<ChainName>)
    ensures Emptied(chains, which).Keys == chains.Keys
  {
  }

  lemma RulesOnNone(chain: ChainName)
    ensures RulesOn([], chain) == []
  {
  }

  /** A payload that removes chains which are not there is refused. */
  lemma RollbackAbsentSection(chains: Chains, s: Section)
    requires s.creates != [] && s.creates[0] !in chains
    ensures RunCommands(chains, RollbackCommands(s)) == None
  {
    var hooks := Hooks(s.appends, s.creates);
    RunConcat(chains, Deletes(hooks), Flushes(s.creates));
    RunConcat(chains, Deletes(hooks) + Flushes(s.creates), Removals(s.creates));
    DeletesKeepKeys(chains, hooks);
    assert Flushes(s.creates)[0] == Flush(s.creates[0]);
  }
}
