/** The payloads of a plan, as the loops that write them produce them. */
module Planner {
  import opened Wrappers
  import opened Ordering
  import opened Netfilter
  import opened Capture
  import opened Capability
  import opened Plan
  import opened PlanFacts

  // ----- appending rules -----

  function AppendsTo(chain: ChainName, rules: seq<Rule>): seq<Command> {
    Appends(OnChain(chain, rules))
  }

  lemma AppendsToConcat(chain: ChainName, a: seq<Rule>, b: seq<Rule>)
    ensures AppendsTo(chain, a + b) == AppendsTo(chain, a) + AppendsTo(chain, b)
  {
    OnChainConcat(chain, a, b);
    AppendsConcat(OnChain(chain, a), OnChain(chain, b));
  }

  lemma AppendsToOne(chain: ChainName, rule: Rule)
    ensures AppendsTo(chain, [rule]) == [Append(chain, rule)]
  {
  }

  /** Puts one more rule at the end of a chain. */
  lemma AppendsToSnoc(before: seq<Command>, chain: ChainName, a: seq<Rule>, rule: Rule)
    ensures before + AppendsTo(chain, a) + [Append(chain, rule)] == before + AppendsTo(chain, a + [rule])
  {
    AppendsToConcat(chain, a, [rule]);
    AppendsToOne(chain, rule);
  }

  /** Puts several more rules at the end of a chain. */
  lemma AppendsToMore(before: seq<Command>, chain: ChainName, a: seq<Rule>, b: seq<Rule>)
    ensures before + AppendsTo(chain, a) + AppendsTo(chain, b) == before + AppendsTo(chain, a + b)
  {
    AppendsToConcat(chain, a, b);
  }

  method AppendOutputUidBypasses(rules: seq<Command>, chain: ChainName, policy: CapturePolicy) returns (r: seq<Command>)
    ensures r == rules + AppendsTo(chain, UidReturns(policy.excludeUids))
  {
    var uids := policy.excludeUids;
    r := rules;
    for i := 0 to |uids|
      invariant r == rules + AppendsTo(chain, UidReturns(uids[..i]))
    {
      r := r + [Append(chain, Rule([OwnedBy(uids[i])], Return))];
      assert uids[..i + 1][..i] == uids[..i];
      AppendsToSnoc(rules, chain, UidReturns(uids[..i]), Rule([OwnedBy(uids[i])], Return));
    }
    assert uids[..|uids|] == uids;
  }

  method AppendNetworkReturns(rules: seq<Command>, chain: ChainName, networks: seq<Cidr>) returns (r: seq<Command>)
    ensures r == rules + AppendsTo(chain, NetworkReturns(networks))
  {
    r := rules;
    for i := 0 to |networks|
      invariant r == rules + AppendsTo(chain, NetworkReturns(networks[..i]))
    {
      r := r + [Append(chain, Rule([ToNetwork(networks[i])], Return))];
      assert networks[..i + 1][..i] == networks[..i];
      AppendsToSnoc(rules, chain, NetworkReturns(networks[..i]), Rule([ToNetwork(networks[i])], Return));
    }
    assert networks[..|networks|] == networks;
  }

  method AppendIncludedMarks(
    rules: seq<Command>, chain: ChainName, prefix: seq<Match>, uids: seq<nat>, allocation: ResourceCandidate)
    returns (r: seq<Command>)
    ensures r == rules + AppendsTo(chain, IncludedMarks(prefix, uids, allocation))
  {
    r := rules;
    if uids == [] {
      r := r + [Append(chain, MarkRule(prefix, allocation))];
      AppendsToOne(chain, MarkRule(prefix, allocation));
    } else {
      for i := 0 to |uids|
        invariant r == rules + AppendsTo(chain, UidMarks(prefix, uids[..i], allocation))
      {
        var rule := MarkRule(prefix + [OwnedBy(uids[i])], allocation);
        r := r + [Append(chain, rule)];
        assert uids[..i + 1][..i] == uids[..i];
        AppendsToSnoc(rules, chain, UidMarks(prefix, uids[..i], allocation), rule);
      }
      assert uids[..|uids|] == uids;
    }
  }

  method AppendOutputCaptureRules(
    rules: seq<Command>, chain: ChainName, policy: CapturePolicy, allocation: ResourceCandidate,
    scope: Option<seq<string>>) returns (r: seq<Command>)
    ensures r == rules + AppendsTo(chain, CaptureRules(scope, policy.includeUids, allocation))
  {
    var uids := policy.includeUids;
    match scope
    case None => r := AppendIncludedMarks(rules, chain, [], uids, allocation);
    case Some(interfaces) =>
      r := rules;
      assert rules + AppendsTo(chain, InterfaceMarks(interfaces[..0], uids, allocation)) == rules;
      hide AppendsTo, IncludedMarks;
      for i := 0 to |interfaces|
        invariant r == rules + AppendsTo(chain, InterfaceMarks(interfaces[..i], uids, allocation))
      {
        r := AppendIncludedMarks(r, chain, [OnOutput(interfaces[i])], uids, allocation);
        assert interfaces[..i + 1][..i] == interfaces[..i];
        AppendsToMore(rules, chain, InterfaceMarks(interfaces[..i], uids, allocation),
                      IncludedMarks([OnOutput(interfaces[i])], uids, allocation));
      }
      assert interfaces[..|interfaces|] == interfaces;
  }

  method AppendDrops(rules: seq<Command>, chain: ChainName, scope: Option<seq<string>>, protocol: Protocol, port: nat)
    returns (r: seq<Command>)
    ensures r == rules + AppendsTo(chain, DropRules(scope, protocol, port))
  {
    match scope
    case None =>
      r := rules + [Append(chain, Rule([OfProtocol(protocol), ToPort(port)], Drop))];
      AppendsToOne(chain, Rule([OfProtocol(protocol), ToPort(port)], Drop));
    case Some(interfaces) =>
      r := rules;
      for i := 0 to |interfaces|
        invariant r == rules + AppendsTo(chain, InterfaceDrops(interfaces[..i], protocol, port))
      {
        var rule := Rule([OnOutput(interfaces[i]), OfProtocol(protocol), ToPort(port)], Drop);
        r := r + [Append(chain, rule)];
        assert interfaces[..i + 1][..i] == interfaces[..i];
        AppendsToSnoc(rules, chain, InterfaceDrops(interfaces[..i], protocol, port), rule);
      }
      assert interfaces[..|interfaces|] == interfaces;
  }

  /** The jumps from a built-in chain, one per interface. */
  method AppendForwardJumps(rules: seq<Command>, hook: ChainName, interfaces: seq<string>, owner: Owner, chain: ChainName)
    returns (r: seq<Command>)
    ensures r == rules + AppendsTo(hook, ForwardJumps(interfaces, owner, chain))
  {
    r := rules;
    for i := 0 to |interfaces|
      invariant r == rules + AppendsTo(hook, ForwardJumps(interfaces[..i], owner, chain))
    {
      var rule := Rule([OnInput(interfaces[i]), Commented(owner)], Jump(chain));
      r := r + [Append(hook, rule)];
      assert interfaces[..i + 1][..i] == interfaces[..i];
      AppendsToSnoc(rules, hook, ForwardJumps(interfaces[..i], owner, chain), rule);
    }
    assert interfaces[..|interfaces|] == interfaces;
  }

  /** The matching deletions, in the same order. */
  method DeleteForwardJumps(rules: seq<Command>, hook: ChainName, interfaces: seq<string>, owner: Owner, chain: ChainName)
    returns (r: seq<Command>)
    ensures r == rules + Deletes(OnChain(hook, ForwardJumps(interfaces, owner, chain)))
  {
    r := rules;
    for i := 0 to |interfaces|
      invariant r == rules + Deletes(OnChain(hook, ForwardJumps(interfaces[..i], owner, chain)))
    {
      var rule := Rule([OnInput(interfaces[i]), Commented(owner)], Jump(chain));
      var jumps := ForwardJumps(interfaces[..i], owner, chain);
      r := r + [Delete(hook, rule)];
      assert interfaces[..i + 1][..i] == interfaces[..i];
      OnChainConcat(hook, jumps, [rule]);
      assert Deletes(OnChain(hook, jumps) + OnChain(hook, [rule])) == Deletes(OnChain(hook, jumps)) + [Delete(hook, rule)];
    }
    assert interfaces[..|interfaces|] == interfaces;
  }

  method AppendUidJumps(rules: seq<Command>, chain: ChainName, uids: seq<nat>, block: ChainName) returns (r: seq<Command>)
    ensures r == rules + AppendsTo(chain, UidJumps(uids, block))
  {
    r := rules;
    for i := 0 to |uids|
      invariant r == rules + AppendsTo(chain, UidJumps(uids[..i], block))
    {
      r := r + [Append(chain, Rule([OwnedBy(uids[i])], Jump(block)))];
      assert uids[..i + 1][..i] == uids[..i];
      AppendsToSnoc(rules, chain, UidJumps(uids[..i], block), Rule([OwnedBy(uids[i])], Jump(block)));
    }
    assert uids[..|uids|] == uids;
  }

  // ----- payloads -----

  lemma ApplyTwoBlocks(kind: Kind, family: IpFamily, table: Table, creates: seq<ChainName>,
                       hook: ChainName, hooks: seq<Rule>, chain: ChainName, rules: seq<Rule>)
    ensures ApplyCommands(Section(kind, family, table, creates, OnChain(hook, hooks) + OnChain(chain, rules))) ==
            NewChains(creates) + AppendsTo(hook, hooks) + AppendsTo(chain, rules)
  {
    AppendsConcat(OnChain(hook, hooks), OnChain(chain, rules));
  }

  /** One more rule, for straight-line code. */
  lemma Grow(before: seq<Command>, chain: ChainName, rule: Rule, rest: seq<Rule>)
    ensures before + AppendsTo(chain, [rule] + rest) == before + [Append(chain, rule)] + AppendsTo(chain, rest)
  {
    AppendsToConcat(chain, [rule], rest);
    AppendsToOne(chain, rule);
  }

  lemma TunChainCommands(
    start: seq<Command>, chain: ChainName, policy: CapturePolicy, allocation: ResourceCandidate,
    scope: Option<seq<string>>)
    ensures start + [Append(chain, BypassReturn(policy, allocation))] + [Append(chain, LoopbackReturn())]
            + [Append(chain, ReplyAccept())] + AppendsTo(chain, UidReturns(policy.excludeUids))
            + AppendsTo(chain, CaptureRules(scope, policy.includeUids, allocation)) + [Append(chain, Rule([], Return))]
            == start + AppendsTo(chain, TunChain(policy, allocation, scope))
  {
    hide AppendsTo, UidReturns, CaptureRules;
    var excluded, capture := UidReturns(policy.excludeUids), CaptureRules(scope, policy.includeUids, allocation);
    var rest := excluded + (capture + [Rule([], Return)]);
    AppendsToConcat(chain, capture, [Rule([], Return)]);
    AppendsToOne(chain, Rule([], Return));
    AppendsToConcat(chain, excluded, capture + [Rule([], Return)]);
    Grow(start, chain, BypassReturn(policy, allocation), [LoopbackReturn()] + ([ReplyAccept()] + rest));
    var s1 := start + [Append(chain, BypassReturn(policy, allocation))];
    Grow(s1, chain, LoopbackReturn(), [ReplyAccept()] + rest);
    Grow(s1 + [Append(chain, LoopbackReturn())], chain, ReplyAccept(), rest);
  }

  method TunPayloads(
    family: IpFamily, slot: Slot, policy: CapturePolicy, allocation: ResourceCandidate, owner: Owner,
    scope: Option<seq<string>>) returns (apply: seq<Command>, rollback: seq<Command>)
    ensures var s := TunSection(family, slot, policy, allocation, owner, scope);
            apply == ApplyCommands(s) && rollback == RollbackCommands(s)
  {
    var chain := Owned(Tun, slot);
    var hook := HookRule(owner, chain);
    apply := [NewChain(chain), Append(Output, hook)];
    ghost var start := apply;
    apply := apply + [Append(chain, BypassReturn(policy, allocation))] + [Append(chain, LoopbackReturn())]
             + [Append(chain, ReplyAccept())];
    apply := AppendOutputUidBypasses(apply, chain, policy);
    apply := AppendOutputCaptureRules(apply, chain, policy, allocation, scope);
    apply := apply + [Append(chain, Rule([], Return))];
    TunChainCommands(start, chain, policy, allocation, scope);
    rollback := [Delete(Output, hook), Flush(chain), RemoveChain(chain)];
    ApplyTwoBlocks(NetfilterRestore, family, Mangle, [chain], Output, [hook], chain, TunChain(policy, allocation, scope));
    SingleChainFacts(Output, [hook], chain, TunChain(policy, allocation, scope));
    HookedPayload(Output, hook, chain);
  }

  /** The fixed parts of a payload with one hook and one chain. */
  lemma HookedPayload(hook: ChainName, rule: Rule, chain: ChainName)
    ensures NewChains([chain]) + AppendsTo(hook, [rule]) == [NewChain(chain), Append(hook, rule)]
    ensures Deletes(OnChain(hook, [rule])) + Flushes([chain]) + Removals([chain]) ==
            [Delete(hook, rule), Flush(chain), RemoveChain(chain)]
  {
  }

  lemma DnsChainCommands(
    start: seq<Command>, chain: ChainName, policy: CapturePolicy, allocation: ResourceCandidate,
    scope: Option<seq<string>>)
    ensures start + [Append(chain, LoopbackReturn())] + [Append(chain, MarkedReturn(allocation))]
            + [Append(chain, Rule([MarkIs(BypassMark(policy), 0xffff_ffff)], Return))]
            + AppendsTo(chain, DropRules(scope, Udp, 53)) + AppendsTo(chain, DropRules(scope, Tcp, 53))
            + AppendsTo(chain, DropRules(scope, Tcp, 853)) + [Append(chain, Rule([], Return))]
            == start + AppendsTo(chain, DnsChain(policy, allocation, scope))
  {
    hide AppendsTo, DropRules;
    var bypass := Rule([MarkIs(BypassMark(policy), 0xffff_ffff)], Return);
    var last := [Rule([], Return)];
    var tls := DropRules(scope, Tcp, 853) + last;
    var tcp := DropRules(scope, Tcp, 53) + tls;
    var udp := DropRules(scope, Udp, 53) + tcp;
    AppendsToOne(chain, Rule([], Return));
    AppendsToConcat(chain, DropRules(scope, Tcp, 853), last);
    AppendsToConcat(chain, DropRules(scope, Tcp, 53), tls);
    AppendsToConcat(chain, DropRules(scope, Udp, 53), tcp);
    Grow(start, chain, LoopbackReturn(), [MarkedReturn(allocation)] + ([bypass] + udp));
    var s1 := start + [Append(chain, LoopbackReturn())];
    Grow(s1, chain, MarkedReturn(allocation), [bypass] + udp);
    Grow(s1 + [Append(chain, MarkedReturn(allocation))], chain, bypass, udp);
  }

  method DnsGuardPayloads(
    family: IpFamily, slot: Slot, policy: CapturePolicy, allocation: ResourceCandidate, owner: Owner,
    scope: Option<seq<string>>) returns (apply: seq<Command>, rollback: seq<Command>)
    ensures var s := DnsSection(family, slot, policy, allocation, owner, scope);
            apply == ApplyCommands(s) && rollback == RollbackCommands(s)
  {
    var chain := Owned(Dns, slot);
    var hook := HookRule(owner, chain);
    var bypass := Rule([MarkIs(BypassMark(policy), 0xffff_ffff)], Return);
    apply := [NewChain(chain), Append(Output, hook)];
    ghost var start := apply;
    apply := apply + [Append(chain, LoopbackReturn())] + [Append(chain, MarkedReturn(allocation))] + [Append(chain, bypass)];
    apply := AppendDrops(apply, chain, scope, Udp, 53);
    apply := AppendDrops(apply, chain, scope, Tcp, 53);
    apply := AppendDrops(apply, chain, scope, Tcp, 853);
    apply := apply + [Append(chain, Rule([], Return))];
    DnsChainCommands(start, chain, policy, allocation, scope);
    rollback := [Delete(Output, hook), Flush(chain), RemoveChain(chain)];
    ApplyTwoBlocks(DnsGuardRestore, family, Filter, [chain], Output, [hook], chain, DnsChain(policy, allocation, scope));
    SingleChainFacts(Output, [hook], chain, DnsChain(policy, allocation, scope));
    HookedPayload(Output, hook, chain);
  }

  lemma FwdChainCommands(
    start: seq<Command>, chain: ChainName, policy: CapturePolicy, allocation: ResourceCandidate, port: nat)
    ensures var tcp := TproxyRule([OfProtocol(Tcp)], port, allocation);
            var udp := TproxyRule([OfProtocol(Udp)], port, allocation);
            start + [Append(chain, ReplyAccept())] + [Append(chain, MarkedReturn(allocation))]
            + AppendsTo(chain, NetworkReturns(ReservedV4()))
            + (if policy.proxyTcp then [Append(chain, tcp)] else []) + (if policy.proxyUdp then [Append(chain, udp)] else [])
            == start + AppendsTo(chain, FwdChain(policy, allocation, port))
  {
    hide AppendsTo, NetworkReturns, ReservedV4;
    var tcp, udp := TproxyRule([OfProtocol(Tcp)], port, allocation), TproxyRule([OfProtocol(Udp)], port, allocation);
    var networks := NetworkReturns(ReservedV4());
    var rest := When(policy.proxyTcp, tcp) + When(policy.proxyUdp, udp);
    AppendsToWhen(chain, policy.proxyTcp, tcp);
    AppendsToWhen(chain, policy.proxyUdp, udp);
    AppendsToConcat(chain, When(policy.proxyTcp, tcp), When(policy.proxyUdp, udp));
    AppendsToConcat(chain, networks, rest);
    Grow(start, chain, ReplyAccept(), [MarkedReturn(allocation)] + (networks + rest));
    Grow(start + [Append(chain, ReplyAccept())], chain, MarkedReturn(allocation), networks + rest);
  }

  method ForwardingPayloads(
    slot: Slot, policy: CapturePolicy, allocation: ResourceCandidate, port: nat, interfaces: seq<string>, owner: Owner)
    returns (apply: seq<Command>, rollback: seq<Command>)
    ensures var s := FwdSection(slot, policy, allocation, port, interfaces, owner);
            apply == ApplyCommands(s) && rollback == RollbackCommands(s)
  {
    var chain := Owned(Fwd, slot);
    ghost var jumps := ForwardJumps(interfaces, owner, chain);
    apply := [NewChain(chain)];
    apply := AppendForwardJumps(apply, Prerouting, interfaces, owner, chain);
    ghost var start := apply;
    apply := apply + [Append(chain, ReplyAccept())] + [Append(chain, MarkedReturn(allocation))];
    apply := AppendNetworkReturns(apply, chain, ReservedV4());
    var tcp := TproxyRule([OfProtocol(Tcp)], port, allocation);
    var udp := TproxyRule([OfProtocol(Udp)], port, allocation);
    if policy.proxyTcp { apply := apply + [Append(chain, tcp)]; }
    if policy.proxyUdp { apply := apply + [Append(chain, udp)]; }
    FwdChainCommands(start, chain, policy, allocation, port);
    rollback := DeleteForwardJumps([], Prerouting, interfaces, owner, chain);
    rollback := rollback + [Flush(chain), RemoveChain(chain)];
    ApplyTwoBlocks(ForwardingRestore, Ipv4, Mangle, [chain], Prerouting, jumps, chain, FwdChain(policy, allocation, port));
    SingleChainFacts(Prerouting, jumps, chain, FwdChain(policy, allocation, port));
    ForwardFrame(Prerouting, jumps, chain);
  }

  lemma AppendsToWhen(chain: ChainName, on: bool, rule: Rule)
    ensures AppendsTo(chain, When(on, rule)) == if on then [Append(chain, rule)] else []
  {
  }

  lemma ForwardFrame(hook: ChainName, jumps: seq<Rule>, chain: ChainName)
    ensures NewChains([chain]) == [NewChain(chain)]
    ensures [] + Deletes(OnChain(hook, jumps)) + [Flush(chain), RemoveChain(chain)] ==
            Deletes(OnChain(hook, jumps)) + Flushes([chain]) + Removals([chain])
  {
    assert Flushes([chain]) + Removals([chain]) == [Flush(chain), RemoveChain(chain)];
  }

  method ForwardingIpv6GuardPayloads(slot: Slot, interfaces: seq<string>, owner: Owner)
    returns (apply: seq<Command>, rollback: seq<Command>)
    ensures var s := Fwd6Section(slot, interfaces, owner);
            apply == ApplyCommands(s) && rollback == RollbackCommands(s)
  {
    var chain := Owned(Fwd6, slot);
    ghost var jumps := ForwardJumps(interfaces, owner, chain);
    apply := [NewChain(chain)];
    apply := AppendForwardJumps(apply, Forward, interfaces, owner, chain);
    apply := apply + [Append(chain, Rule([], Drop))];
    AppendsToOne(chain, Rule([], Drop));
    rollback := DeleteForwardJumps([], Forward, interfaces, owner, chain);
    rollback := rollback + [Flush(chain), RemoveChain(chain)];
    ApplyTwoBlocks(ForwardingRestore, Ipv6, Filter, [chain], Forward, jumps, chain, [Rule([], Drop)]);
    SingleChainFacts(Forward, jumps, chain, [Rule([], Drop)]);
    ForwardFrame(Forward, jumps, chain);
  }

  method Ipv6GuardPayloads(slot: Slot, policy: CapturePolicy, owner: Owner)
    returns (apply: seq<Command>, rollback: seq<Command>)
    ensures var s := GuardSection(slot, policy, owner);
            apply == ApplyCommands(s) && rollback == RollbackCommands(s)
  {
    var guard, block := Owned(V6Guard, slot), Owned(V6Block, slot);
    var hook := HookRule(owner, guard);
    apply := [NewChain(guard), NewChain(block), Append(Output, hook)];
    ghost var start := apply;
    apply := AppendOutputUidBypasses(apply, guard, policy);
    if policy.includeUids == [] {
      apply := apply + [Append(guard, Rule([], Jump(block)))];
      AppendsToOne(guard, Rule([], Jump(block)));
      AppendsToConcat(guard, UidReturns(policy.excludeUids), [Rule([], Jump(block))]);
    } else {
      apply := AppendUidJumps(apply, guard, policy.includeUids, block);
      apply := apply + [Append(guard, Rule([], Return))];
      AppendsToOne(guard, Rule([], Return));
      AppendsToConcat(guard, UidJumps(policy.includeUids, block), [Rule([], Return)]);
      AppendsToConcat(guard, UidReturns(policy.excludeUids), UidJumps(policy.includeUids, block) + [Rule([], Return)]);
    }
    assert apply == start + AppendsTo(guard, GuardChain(policy, block));
    apply := AppendNetworkReturns(apply, block, LocalV6());
    apply := apply + [Append(block, Rule([], Drop))];
    AppendsToConcat(block, NetworkReturns(LocalV6()), [Rule([], Drop)]);
    AppendsToOne(block, Rule([], Drop));
    assert apply == start + AppendsTo(guard, GuardChain(policy, block)) + AppendsTo(block, BlockChain());
    rollback := [Delete(Output, hook), Flush(guard), Flush(block), RemoveChain(guard), RemoveChain(block)];
    GuardFrame(slot, policy, owner);
  }

  lemma GuardFrame(slot: Slot, policy: CapturePolicy, owner: Owner)
    ensures var s := GuardSection(slot, policy, owner);
            var guard, block := Owned(V6Guard, slot), Owned(V6Block, slot);
            var hook := HookRule(owner, guard);
            && ApplyCommands(s) == [NewChain(guard), NewChain(block), Append(Output, hook)]
                                   + AppendsTo(guard, GuardChain(policy, block)) + AppendsTo(block, BlockChain())
            && RollbackCommands(s) == [Delete(Output, hook), Flush(guard), Flush(block), RemoveChain(guard), RemoveChain(block)]
  {
    hide GuardChain, BlockChain;
    var guard, block := Owned(V6Guard, slot), Owned(V6Block, slot);
    var hook := HookRule(owner, guard);
    AppendsConcat(OnChain(guard, GuardChain(policy, block)), OnChain(block, BlockChain()));
    AppendsConcat(OnChain(Output, [hook]), OnChain(guard, GuardChain(policy, block)) + OnChain(block, BlockChain()));
    AppendsToOne(Output, hook);
    assert NewChains([guard, block]) + [Append(Output, hook)] == [NewChain(guard), NewChain(block), Append(Output, hook)];
    GuardFacts(slot, policy, owner);
    assert Deletes(OnChain(Output, [hook])) == [Delete(Output, hook)];
  }

  method AppendOutputRules(
    rules: seq<Command>, chain: ChainName, family: IpFamily, policy: CapturePolicy, allocation: ResourceCandidate,
    scope: Option<seq<string>>) returns (r: seq<Command>)
    ensures r == rules + AppendsTo(chain, OutBody(family, policy, allocation, scope))
  {
    hide AppendsTo, OutBody, UidReturns, NetworkReturns, CaptureRules, ReservedDestinations;
    r := rules + [Append(chain, MarkRule([OfProtocol(Tcp), ToPort(53)], allocation))];
    r := r + [Append(chain, MarkRule([OfProtocol(Udp), ToPort(53)], allocation))];
    r := AppendOutputUidBypasses(r, chain, policy);
    r := AppendNetworkReturns(r, chain, ReservedDestinations(family));
    r := AppendOutputCaptureRules(r, chain, policy, allocation, scope);
    OutBodyCommands(rules, chain, family, policy, allocation, scope);
  }

  method AppendPreroutingRules(
    rules: seq<Command>, chain: ChainName, policy: CapturePolicy, allocation: ResourceCandidate, port: nat,
    divert: ChainName) returns (r: seq<Command>)
    ensures r == rules + AppendsTo(chain, PreBody(policy, allocation, port, divert))
  {
    hide AppendsTo, PreBody;
    PreBodyCommands(rules, chain, policy, allocation, port, divert);
    var marked := MarkIs(allocation.mark, allocation.mask);
    r := rules + if policy.proxyTcp then [Append(chain, Rule([OfProtocol(Tcp), OnTransparentSocket], Jump(divert)))] else [];
    r := r + [Append(chain, Rule([OnInput("lo"), MarkIsNot(allocation.mark, allocation.mask)], Return))];
    r := r + [Append(chain, TproxyRule([OfProtocol(Tcp), ToPort(53), marked], port, allocation))];
    r := r + [Append(chain, TproxyRule([OfProtocol(Udp), ToPort(53), marked], port, allocation))];
    r := r + if policy.proxyTcp then [Append(chain, TproxyRule([OfProtocol(Tcp), marked], port, allocation))] else [];
    r := r + if policy.proxyUdp then [Append(chain, TproxyRule([OfProtocol(Udp), marked], port, allocation))] else [];
  }

  method TproxyPayloads(
    family: IpFamily, slot: Slot, policy: CapturePolicy, allocation: ResourceCandidate, port: nat, owner: Owner,
    scope: Option<seq<string>>) returns (apply: seq<Command>, rollback: seq<Command>)
    ensures var s := TproxySection(family, slot, policy, allocation, port, owner, scope);
            apply == ApplyCommands(s) && rollback == RollbackCommands(s)
  {
    hide TproxySection, ApplyCommands, RollbackCommands, AppendsTo, OutBody, PreBody;
    var outChain, preChain, divChain := Owned(Out, slot), Owned(Pre, slot), Owned(Div, slot);
    var outHook, preHook := HookRule(owner, outChain), HookRule(owner, preChain);
    TproxyFrame(family, slot, policy, allocation, port, owner, scope);
    apply := [NewChain(outChain), NewChain(preChain), NewChain(divChain),
              Append(Output, outHook), Append(Prerouting, preHook),
              Append(outChain, BypassReturn(policy, allocation)), Append(outChain, ReplyAccept()),
              Append(preChain, ReplyAccept())];
    apply := AppendOutputRules(apply, outChain, family, policy, allocation, scope);
    apply := apply + [Append(divChain, MarkRule([], allocation)), Append(divChain, Rule([], Accept))];
    apply := AppendPreroutingRules(apply, preChain, policy, allocation, port, divChain);
    rollback := [Delete(Output, outHook), Delete(Prerouting, preHook),
                 Flush(outChain), Flush(preChain), Flush(divChain),
                 RemoveChain(outChain), RemoveChain(preChain), RemoveChain(divChain)];
  }

  lemma OutBodyCommands(
    start: seq<Command>, chain: ChainName, family: IpFamily, policy: CapturePolicy, allocation: ResourceCandidate,
    scope: Option<seq<string>>)
    ensures start + [Append(chain, MarkRule([OfProtocol(Tcp), ToPort(53)], allocation))]
            + [Append(chain, MarkRule([OfProtocol(Udp), ToPort(53)], allocation))]
            + AppendsTo(chain, UidReturns(policy.excludeUids))
            + AppendsTo(chain, NetworkReturns(ReservedDestinations(family)))
            + AppendsTo(chain, CaptureRules(scope, policy.includeUids, allocation))
            == start + AppendsTo(chain, OutBody(family, policy, allocation, scope))
  {
    hide AppendsTo, UidReturns, NetworkReturns, CaptureRules, ReservedDestinations;
    var tcp, udp := MarkRule([OfProtocol(Tcp), ToPort(53)], allocation), MarkRule([OfProtocol(Udp), ToPort(53)], allocation);
    var excluded, networks := UidReturns(policy.excludeUids), NetworkReturns(ReservedDestinations(family));
    var capture := CaptureRules(scope, policy.includeUids, allocation);
    AppendsToConcat(chain, networks, capture);
    AppendsToConcat(chain, excluded, networks + capture);
    Grow(start, chain, tcp, [udp] + (excluded + (networks + capture)));
    Grow(start + [Append(chain, tcp)], chain, udp, excluded + (networks + capture));
  }

  lemma PreBodyCommands(
    start: seq<Command>, chain: ChainName, policy: CapturePolicy, allocation: ResourceCandidate, port: nat,
    divert: ChainName)
    ensures var marked := MarkIs(allocation.mark, allocation.mask);
            start
            + (if policy.proxyTcp then [Append(chain, Rule([OfProtocol(Tcp), OnTransparentSocket], Jump(divert)))] else [])
            + [Append(chain, Rule([OnInput("lo"), MarkIsNot(allocation.mark, allocation.mask)], Return))]
            + [Append(chain, TproxyRule([OfProtocol(Tcp), ToPort(53), marked], port, allocation))]
            + [Append(chain, TproxyRule([OfProtocol(Udp), ToPort(53), marked], port, allocation))]
            + (if policy.proxyTcp then [Append(chain, TproxyRule([OfProtocol(Tcp), marked], port, allocation))] else [])
            + (if policy.proxyUdp then [Append(chain, TproxyRule([OfProtocol(Udp), marked], port, allocation))] else [])
            == start + AppendsTo(chain, PreBody(policy, allocation, port, divert))
  {
    hide AppendsTo;
    var marked := MarkIs(allocation.mark, allocation.mask);
    var jump := Rule([OfProtocol(Tcp), OnTransparentSocket], Jump(divert));
    var loopback := Rule([OnInput("lo"), MarkIsNot(allocation.mark, allocation.mask)], Return);
    var tcpDns := TproxyRule([OfProtocol(Tcp), ToPort(53), marked], port, allocation);
    var udpDns := TproxyRule([OfProtocol(Udp), ToPort(53), marked], port, allocation);
    var tcp, udp := TproxyRule([OfProtocol(Tcp), marked], port, allocation), TproxyRule([OfProtocol(Udp), marked], port, allocation);
    var rest := When(policy.proxyTcp, tcp) + When(policy.proxyUdp, udp);
    AppendsToWhen(chain, policy.proxyTcp, jump);
    AppendsToWhen(chain, policy.proxyTcp, tcp);
    AppendsToWhen(chain, policy.proxyUdp, udp);
    var s1 := start + AppendsTo(chain, When(policy.proxyTcp, jump));
    var s2 := s1 + [Append(chain, loopback)];
    var s3 := s2 + [Append(chain, tcpDns)];
    var s4 := s3 + [Append(chain, udpDns)];
    AppendsToMore(start, chain, When(policy.proxyTcp, jump), PreTail(policy, allocation, port));
    Grow(s1, chain, loopback, [tcpDns] + ([udpDns] + rest));
    Grow(s2, chain, tcpDns, [udpDns] + rest);
    Grow(s3, chain, udpDns, rest);
    AppendsToMore(s4, chain, When(policy.proxyTcp, tcp), When(policy.proxyUdp, udp));
    assert s1 + AppendsTo(chain, PreTail(policy, allocation, port)) == s4 + AppendsTo(chain, rest);
  }

  lemma TproxyFrame(
    family: IpFamily, slot: Slot, policy: CapturePolicy, allocation: ResourceCandidate, port: nat, owner: Owner,
    scope: Option<seq<string>>)
    ensures var s := TproxySection(family, slot, policy, allocation, port, owner, scope);
            var outChain, preChain, divChain := Owned(Out, slot), Owned(Pre, slot), Owned(Div, slot);
            && ApplyCommands(s) ==
               [NewChain(outChain), NewChain(preChain), NewChain(divChain),
                Append(Output, HookRule(owner, outChain)), Append(Prerouting, HookRule(owner, preChain)),
                Append(outChain, BypassReturn(policy, allocation)), Append(outChain, ReplyAccept()),
                Append(preChain, ReplyAccept())]
               + AppendsTo(outChain, OutBody(family, policy, allocation, scope))
               + [Append(divChain, MarkRule([], allocation)), Append(divChain, Rule([], Accept))]
               + AppendsTo(preChain, PreBody(policy, allocation, port, divChain))
            && RollbackCommands(s) ==
               [Delete(Output, HookRule(owner, outChain)), Delete(Prerouting, HookRule(owner, preChain)),
                Flush(outChain), Flush(preChain), Flush(divChain),
                RemoveChain(outChain), RemoveChain(preChain), RemoveChain(divChain)]
  {
    TproxyApplyFrame(family, slot, policy, allocation, port, owner, scope);
    TproxyRollbackFrame(family, slot, policy, allocation, port, owner, scope);
    hide ApplyCommands, RollbackCommands, TproxySection, AppendsTo, OutBody, PreBody;
  }

  lemma TproxyRollbackFrame(
    family: IpFamily, slot: Slot, policy: CapturePolicy, allocation: ResourceCandidate, port: nat, owner: Owner,
    scope: Option<seq<string>>)
    ensures var s := TproxySection(family, slot, policy, allocation, port, owner, scope);
            var outChain, preChain, divChain := Owned(Out, slot), Owned(Pre, slot), Owned(Div, slot);
            RollbackCommands(s) ==
            [Delete(Output, HookRule(owner, outChain)), Delete(Prerouting, HookRule(owner, preChain)),
             Flush(outChain), Flush(preChain), Flush(divChain),
             RemoveChain(outChain), RemoveChain(preChain), RemoveChain(divChain)]
  {
    TproxyHooksAre(family, slot, policy, allocation, port, owner, scope);
    assert Deletes(TproxyHooks(owner, slot)) ==
           [Delete(Output, HookRule(owner, Owned(Out, slot))), Delete(Prerouting, HookRule(owner, Owned(Pre, slot)))];
  }

  lemma TproxyApplyFrame(
    family: IpFamily, slot: Slot, policy: CapturePolicy, allocation: ResourceCandidate, port: nat, owner: Owner,
    scope: Option<seq<string>>)
    ensures var s := TproxySection(family, slot, policy, allocation, port, owner, scope);
            var outChain, preChain, divChain := Owned(Out, slot), Owned(Pre, slot), Owned(Div, slot);
            ApplyCommands(s) ==
            [NewChain(outChain), NewChain(preChain), NewChain(divChain),
             Append(Output, HookRule(owner, outChain)), Append(Prerouting, HookRule(owner, preChain)),
             Append(outChain, BypassReturn(policy, allocation)), Append(outChain, ReplyAccept()),
             Append(preChain, ReplyAccept())]
            + AppendsTo(outChain, OutBody(family, policy, allocation, scope))
            + [Append(divChain, MarkRule([], allocation)), Append(divChain, Rule([], Accept))]
            + AppendsTo(preChain, PreBody(policy, allocation, port, divChain))
  {
    hide OutBody, PreBody, OnChain, Appends, NewChains;
    var outChain, preChain, divChain := Owned(Out, slot), Owned(Pre, slot), Owned(Div, slot);
    var b1, b2 := OnChain(Output, [HookRule(owner, outChain)]), OnChain(Prerouting, [HookRule(owner, preChain)]);
    var b3, b4 := OnChain(outChain, OutHead(policy, allocation)), OnChain(preChain, [ReplyAccept()]);
    var b5, b6 := OnChain(outChain, OutBody(family, policy, allocation, scope)), OnChain(divChain, DivChain(allocation));
    var b7 := OnChain(preChain, PreBody(policy, allocation, port, divChain));
    AppendsConcat(b6, b7);
    AppendsConcat(b5, b6 + b7);
    AppendsConcat(b4, b5 + (b6 + b7));
    AppendsConcat(b3, b4 + (b5 + (b6 + b7)));
    AppendsConcat(b2, b3 + (b4 + (b5 + (b6 + b7))));
    AppendsConcat(b1, b2 + (b3 + (b4 + (b5 + (b6 + b7)))));
    DivAppends(divChain, allocation);
    TproxyHead(slot, policy, allocation, owner);
  }

  lemma DivAppends(divChain: ChainName, allocation: ResourceCandidate)
    ensures Appends(OnChain(divChain, DivChain(allocation))) ==
            [Append(divChain, MarkRule([], allocation)), Append(divChain, Rule([], Accept))]
  {
  }

  lemma TproxyHead(slot: Slot, policy: CapturePolicy, allocation: ResourceCandidate, owner: Owner)
    ensures var outChain, preChain, divChain := Owned(Out, slot), Owned(Pre, slot), Owned(Div, slot);
            NewChains([outChain, preChain, divChain])
            + (Appends(OnChain(Output, [HookRule(owner, outChain)]))
               + (Appends(OnChain(Prerouting, [HookRule(owner, preChain)]))
                  + (Appends(OnChain(outChain, OutHead(policy, allocation))) + Appends(OnChain(preChain, [ReplyAccept()])))))
            == [NewChain(outChain), NewChain(preChain), NewChain(divChain),
                Append(Output, HookRule(owner, outChain)), Append(Prerouting, HookRule(owner, preChain)),
                Append(outChain, BypassReturn(policy, allocation)), Append(outChain, ReplyAccept()),
                Append(preChain, ReplyAccept())]
  {
  }
}
