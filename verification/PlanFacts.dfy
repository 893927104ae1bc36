/** What each payload leaves on each chain, and which rules of built-in chains it owns. */
module PlanFacts {
  import opened Wrappers
  import opened Netfilter
  import opened Capture
  import opened Capability
  import opened Plan
  import opened Sequences

  lemma OnChainConcat(chain: ChainName, a: seq<Rule>, b: seq<Rule>)
    ensures OnChain(chain, a + b) == OnChain(chain, a) + OnChain(chain, b)
  {
  }

  lemma AppendsConcat(a: seq<Appended>, b: seq<Appended>)
    ensures Appends(a + b) == Appends(a) + Appends(b)
  {
  }

  lemma {:induction false} RulesOnConcat(a: seq<Appended>, b: seq<Appended>, chain: ChainName)
    ensures RulesOn(a + b, chain) == RulesOn(a, chain) + RulesOn(b, chain)
  {
    if a == [] {
      assert a + b == b;
    } else {
      assert (a + b)[0] == a[0] && (a + b)[1..] == a[1..] + b;
      RulesOnConcat(a[1..], b, chain);
      Regroup(if a[0].chain == chain then [a[0].rule] else [], RulesOn(a[1..], chain), RulesOn(b, chain));
    }
  }

  lemma {:induction false} RulesOnOnChain(chain: ChainName, rules: seq<Rule>, at: ChainName)
    ensures RulesOn(OnChain(chain, rules), at) == if chain == at then rules else []
  {
    if rules != [] {
      assert OnChain(chain, rules)[1..] == OnChain(chain, rules[1..]);
      RulesOnOnChain(chain, rules[1..], at);
      assert rules == [rules[0]] + rules[1..];
    }
  }

  lemma {:induction false} HooksConcat(a: seq<Appended>, b: seq<Appended>, creates: seq<ChainName>)
    ensures Hooks(a + b, creates) == Hooks(a, creates) + Hooks(b, creates)
  {
    if a == [] {
      assert a + b == b;
    } else {
      assert (a + b)[1..] == a[1..] + b;
      HooksConcat(a[1..], b, creates);
    }
  }

  lemma {:induction false} HooksOnChain(chain: ChainName, rules: seq<Rule>, creates: seq<ChainName>)
    ensures Hooks(OnChain(chain, rules), creates) == if chain in creates then [] else OnChain(chain, rules)
  {
    if rules != [] {
      assert OnChain(chain, rules)[1..] == OnChain(chain, rules[1..]);
      HooksOnChain(chain, rules[1..], creates);
      assert OnChain(chain, rules) == [OnChain(chain, rules)[0]] + OnChain(chain, rules)[1..];
    }
  }

  /** A payload made of one block of hooks and one chain of its own. */
  lemma SingleChainFacts(hook: ChainName, hooks: seq<Rule>, chain: ChainName, rules: seq<Rule>)
    requires hook != chain
    ensures var appends := OnChain(hook, hooks) + OnChain(chain, rules);
            && Hooks(appends, [chain]) == OnChain(hook, hooks)
            && RulesOn(appends, chain) == rules
  {
    HooksConcat(OnChain(hook, hooks), OnChain(chain, rules), [chain]);
    HooksOnChain(hook, hooks, [chain]);
    HooksOnChain(chain, rules, [chain]);
    RulesOnConcat(OnChain(hook, hooks), OnChain(chain, rules), chain);
    RulesOnOnChain(hook, hooks, chain);
    RulesOnOnChain(chain, rules, chain);
  }

  function Pick(chain: ChainName, rules: seq<Rule>, at: ChainName): seq<Rule> {
    if chain == at then rules else []
  }

  /** Takes one block off the front of a payload. */
  lemma TakeBlock(chain: ChainName, rules: seq<Rule>, rest: seq<Appended>, at: ChainName)
    ensures RulesOn(OnChain(chain, rules) + rest, at) == Pick(chain, rules, at) + RulesOn(rest, at)
  {
    RulesOnConcat(OnChain(chain, rules), rest, at);
    RulesOnOnChain(chain, rules, at);
  }

  /** The hooks of a payload whose remaining blocks all go to chains of its own. */
  lemma SkipBlock(chain: ChainName, rules: seq<Rule>, rest: seq<Appended>, creates: seq<ChainName>)
    requires chain in creates
    ensures Hooks(OnChain(chain, rules) + rest, creates) == Hooks(rest, creates)
  {
    HooksConcat(OnChain(chain, rules), rest, creates);
    HooksOnChain(chain, rules, creates);
  }

  lemma KeepBlock(chain: ChainName, rules: seq<Rule>, rest: seq<Appended>, creates: seq<ChainName>)
    requires chain !in creates
    ensures Hooks(OnChain(chain, rules) + rest, creates) == OnChain(chain, rules) + Hooks(rest, creates)
  {
    HooksConcat(OnChain(chain, rules), rest, creates);
    HooksOnChain(chain, rules, creates);
  }

  function TproxyHooks(owner: Owner, slot: Slot): seq<Appended> {
    OnChain(Output, [HookRule(owner, Owned(Out, slot))]) + OnChain(Prerouting, [HookRule(owner, Owned(Pre, slot))])
  }

  lemma TproxyHooksAre(
    family: IpFamily, slot: Slot, policy: CapturePolicy, allocation: ResourceCandidate, port: nat, owner: Owner,
    scope: Option<seq<string>>)
    ensures var s := TproxySection(family, slot, policy, allocation, port, owner, scope);
            Hooks(s.appends, s.creates) == TproxyHooks(owner, slot)
  {
    hide RulesOn, OnChain, Hooks, OutBody, PreBody, OutHead, DivChain;
    var outChain, preChain, divChain := Owned(Out, slot), Owned(Pre, slot), Owned(Div, slot);
    var creates := [outChain, preChain, divChain];
    var r7 := OnChain(preChain, PreBody(policy, allocation, port, divChain));
    var r6 := OnChain(divChain, DivChain(allocation)) + r7;
    var r5 := OnChain(outChain, OutBody(family, policy, allocation, scope)) + r6;
    var r4 := OnChain(preChain, [ReplyAccept()]) + r5;
    var r3 := OnChain(outChain, OutHead(policy, allocation)) + r4;
    var r2 := OnChain(Prerouting, [HookRule(owner, preChain)]) + r3;
    KeepBlock(Output, [HookRule(owner, outChain)], r2, creates);
    KeepBlock(Prerouting, [HookRule(owner, preChain)], r3, creates);
    SkipBlock(outChain, OutHead(policy, allocation), r4, creates);
    SkipBlock(preChain, [ReplyAccept()], r5, creates);
    SkipBlock(outChain, OutBody(family, policy, allocation, scope), r6, creates);
    SkipBlock(divChain, DivChain(allocation), r7, creates);
    HooksOnChain(preChain, PreBody(policy, allocation, port, divChain), creates);
    var hooks := OnChain(Prerouting, [HookRule(owner, preChain)]);
    assert hooks + [] == hooks;
  }

  /** The blocks of the TPROXY payload as one chain sees them. */
  lemma TproxyPicks(
    family: IpFamily, slot: Slot, policy: CapturePolicy, allocation: ResourceCandidate, port: nat, owner: Owner,
    scope: Option<seq<string>>, at: ChainName)
    ensures var outChain, preChain, divChain := Owned(Out, slot), Owned(Pre, slot), Owned(Div, slot);
            RulesOn(TproxySection(family, slot, policy, allocation, port, owner, scope).appends, at) ==
            Pick(Output, [HookRule(owner, outChain)], at)
            + (Pick(Prerouting, [HookRule(owner, preChain)], at)
               + (Pick(outChain, OutHead(policy, allocation), at)
                  + (Pick(preChain, [ReplyAccept()], at)
                     + (Pick(outChain, OutBody(family, policy, allocation, scope), at)
                        + (Pick(divChain, DivChain(allocation), at)
                           + Pick(preChain, PreBody(policy, allocation, port, divChain), at))))))
  {
    hide RulesOn, OnChain, Hooks, OutBody, PreBody, OutHead, DivChain;
    var outChain, preChain, divChain := Owned(Out, slot), Owned(Pre, slot), Owned(Div, slot);
    var r7 := OnChain(preChain, PreBody(policy, allocation, port, divChain));
    var r6 := OnChain(divChain, DivChain(allocation)) + r7;
    var r5 := OnChain(outChain, OutBody(family, policy, allocation, scope)) + r6;
    var r4 := OnChain(preChain, [ReplyAccept()]) + r5;
    var r3 := OnChain(outChain, OutHead(policy, allocation)) + r4;
    var r2 := OnChain(Prerouting, [HookRule(owner, preChain)]) + r3;
    TakeBlock(Output, [HookRule(owner, outChain)], r2, at);
    TakeBlock(Prerouting, [HookRule(owner, preChain)], r3, at);
    TakeBlock(outChain, OutHead(policy, allocation), r4, at);
    TakeBlock(preChain, [ReplyAccept()], r5, at);
    TakeBlock(outChain, OutBody(family, policy, allocation, scope), r6, at);
    TakeBlock(divChain, DivChain(allocation), r7, at);
    RulesOnOnChain(preChain, PreBody(policy, allocation, port, divChain), at);
  }

  /** The TPROXY payload puts exactly these rules on its three chains. */
  lemma TproxyChains(
    family: IpFamily, slot: Slot, policy: CapturePolicy, allocation: ResourceCandidate, port: nat, owner: Owner,
    scope: Option<seq<string>>)
    ensures var appends := TproxySection(family, slot, policy, allocation, port, owner, scope).appends;
            && RulesOn(appends, Owned(Out, slot)) == OutChain(family, policy, allocation, scope)
            && RulesOn(appends, Owned(Pre, slot)) == PreChain(policy, allocation, port, Owned(Div, slot))
            && RulesOn(appends, Owned(Div, slot)) == DivChain(allocation)
  {
    hide RulesOn, OnChain, TproxySection, OutBody, PreBody, OutHead, DivChain;
    TproxyPicks(family, slot, policy, allocation, port, owner, scope, Owned(Out, slot));
    TproxyPicks(family, slot, policy, allocation, port, owner, scope, Owned(Pre, slot));
    TproxyPicks(family, slot, policy, allocation, port, owner, scope, Owned(Div, slot));
    OutChainSplit(family, policy, allocation, scope);
  }

  lemma OutChainSplit(family: IpFamily, policy: CapturePolicy, allocation: ResourceCandidate, scope: Option<seq<string>>)
    ensures OutHead(policy, allocation) + OutBody(family, policy, allocation, scope) ==
            OutChain(family, policy, allocation, scope)
  {
    hide OutBody;
  }

  /** The IPv6 guard payload: its hook and the content of its two chains. */
  lemma GuardFacts(slot: Slot, policy: CapturePolicy, owner: Owner)
    ensures var s := GuardSection(slot, policy, owner);
            && Hooks(s.appends, s.creates) == OnChain(Output, [HookRule(owner, Owned(V6Guard, slot))])
            && RulesOn(s.appends, Owned(V6Guard, slot)) == GuardChain(policy, Owned(V6Block, slot))
            && RulesOn(s.appends, Owned(V6Block, slot)) == BlockChain()
  {
    hide RulesOn, OnChain, Hooks, GuardChain, BlockChain;
    var guard, block := Owned(V6Guard, slot), Owned(V6Block, slot);
    var creates := [guard, block];
    var r3 := OnChain(block, BlockChain());
    var r2 := OnChain(guard, GuardChain(policy, block)) + r3;
    TakeBlock(Output, [HookRule(owner, guard)], r2, guard);
    TakeBlock(guard, GuardChain(policy, block), r3, guard);
    RulesOnOnChain(block, BlockChain(), guard);
    TakeBlock(Output, [HookRule(owner, guard)], r2, block);
    TakeBlock(guard, GuardChain(policy, block), r3, block);
    RulesOnOnChain(block, BlockChain(), block);
    KeepBlock(Output, [HookRule(owner, guard)], r2, creates);
    SkipBlock(guard, GuardChain(policy, block), r3, creates);
    HooksOnChain(block, BlockChain(), creates);
  }
}
