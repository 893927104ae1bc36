/** What the FORWARD chain does with packets that are passed on for tethered devices. */
module Tethering {
  import opened Wrappers
  import opened Netfilter
  import opened Capture
  import opened Capability
  import opened Plan
  import opened PlanFacts
  import opened Tables
  import opened KernelState
  import opened PlanReady
  import opened PacketPaths
  import opened Traffic

  // ----- what each section puts on FORWARD -----

  lemma TproxyPutsNothing(
    family: IpFamily, slot: Slot, policy: CapturePolicy, allocation: ResourceCandidate, port: nat, owner: Owner,
    scope: Option<seq<string>>)
    ensures RulesOn(TproxySection(family, slot, policy, allocation, port, owner, scope).appends, Forward) == []
  {
    TproxyPicks(family, slot, policy, allocation, port, owner, scope, Forward);
    hide RulesOn, OnChain, OutHead, OutBody, PreBody, DivChain, TproxySection;
  }

  lemma GuardPutsNothing(slot: Slot, policy: CapturePolicy, owner: Owner)
    ensures RulesOn(GuardSection(slot, policy, owner).appends, Forward) == []
  {
    var guard, block := Owned(V6Guard, slot), Owned(V6Block, slot);
    hide RulesOn, OnChain, GuardChain, BlockChain;
    TakeBlock(Output, [HookRule(owner, guard)], OnChain(guard, GuardChain(policy, block)) + OnChain(block, BlockChain()), Forward);
    TakeBlock(guard, GuardChain(policy, block), OnChain(block, BlockChain()), Forward);
    RulesOnOnChain(block, BlockChain(), Forward);
  }

  lemma OthersPutNothing(
    family: IpFamily, slot: Slot, policy: CapturePolicy, allocation: ResourceCandidate, port: nat, owner: Owner,
    scope: Option<seq<string>>, forwarding: seq<string>, forwardOwner: Owner)
    ensures RulesOn(DnsSection(family, slot, policy, allocation, owner, scope).appends, Forward) == []
    ensures RulesOn(TunSection(family, slot, policy, allocation, owner, scope).appends, Forward) == []
    ensures RulesOn(FwdSection(slot, policy, allocation, port, forwarding, forwardOwner).appends, Forward) == []
  {
    hide RulesOn, OnChain, DnsChain, TunChain, FwdChain, ForwardJumps;
    var dns, tun, fwd := Owned(Dns, slot), Owned(Tun, slot), Owned(Fwd, slot);
    SingleHooks(Output, [HookRule(owner, dns)], dns, DnsChain(policy, allocation, scope), Forward);
    SingleHooks(Output, [HookRule(owner, tun)], tun, TunChain(policy, allocation, scope), Forward);
    SingleHooks(Prerouting, ForwardJumps(forwarding, forwardOwner, fwd), fwd, FwdChain(policy, allocation, port), Forward);
  }

  lemma Fwd6Puts(slot: Slot, forwarding: seq<string>, owner: Owner)
    ensures var s, chain := Fwd6Section(slot, forwarding, owner), Owned(Fwd6, slot);
      && s.creates == [chain]
      && RulesOn(s.appends, Forward) == ForwardJumps(forwarding, owner, chain)
      && RulesOn(s.appends, chain) == [Rule([], Drop)]
  {
    var chain := Owned(Fwd6, slot);
    hide RulesOn, OnChain, ForwardJumps;
    SingleHooks(Forward, ForwardJumps(forwarding, owner, chain), chain, [Rule([], Drop)], Forward);
    SingleChainFacts(Forward, ForwardJumps(forwarding, owner, chain), chain, [Rule([], Drop)]);
  }

  /** The jumps of tethered interfaces to a chain that drops everything. */
  lemma {:induction false} ScanDropJumps(
    chains: Chains, interfaces: seq<string>, owner: Owner, chain: ChainName, p: Packet, mark: bv32)
    requires chain in chains && chains[chain] == [Rule([], Drop)]
    ensures Scan(chains, ForwardJumps(interfaces, owner, chain), p, mark) ==
            if FromInterface(interfaces, p.iif) then Decided(Dropped, mark) else Continue(mark)
  {
    DropsAll(chains - {chain}, p, mark);
    hide Scan;
    ScanNil(chains, p, mark);
    if interfaces != [] {
      var init, last := interfaces[..|interfaces| - 1], interfaces[|interfaces| - 1];
      ScanDropJumps(chains, init, owner, chain, p, mark);
      ScanAppend(chains, ForwardJumps(init, owner, chain), [Rule([OnInput(last), Commented(owner)], Jump(chain))], p, mark);
      ScanJump(chains, last, owner, chain, p, mark);
      FromSnoc(interfaces, p.iif);
    }
  }

  lemma DropsAll(chains: Chains, p: Packet, mark: bv32)
    ensures Scan(chains, [Rule([], Drop)], p, mark) == Decided(Dropped, mark)
  {
  }

  // ----- the sections of a whole plan -----

  lemma NothingPut(s: Section)
    requires RulesOn(s.appends, Forward) == []
    ensures AllRules([s], Forward) == []
  {
    AllCreatesOne(s);
  }

  lemma AtMostOne(s: Section, there: bool)
    ensures AllRules(if there then [s] else [], Forward) == if there then RulesOn(s.appends, Forward) else []
  {
    AllCreatesOne(s);
    NoRules(Forward);
  }

  /** A TPROXY plan puts nothing on FORWARD but the jumps to the IPv6 block. */
  lemma TproxyForwardRules(
    generation: nat, slot: Slot, policy: CapturePolicy, allocation: ResourceCandidate, port: nat,
    scope: Option<seq<string>>, forwarding: seq<string>, ipv6: Ipv6Handling, family: IpFamily, table: Table)
    ensures AllRules(
        TproxySectionsOn(generation, slot, policy, allocation, port, scope, forwarding, ipv6, family, table), Forward) ==
      if family == Ipv6 && table == Filter then ForwardJumps(forwarding, ForwardOwner(generation), Owned(Fwd6, slot)) else []
  {
    var owner, forwardOwner := LocalOwner(generation), ForwardOwner(generation);
    var t, d := TproxySection(family, slot, policy, allocation, port, owner, scope),
                DnsSection(family, slot, policy, allocation, owner, scope);
    var f := FwdSection(slot, policy, allocation, port, forwarding, forwardOwner);
    TproxyPutsNothing(family, slot, policy, allocation, port, owner, scope);
    OthersPutNothing(family, slot, policy, allocation, port, owner, scope, forwarding, forwardOwner);
    NoRules(Forward);
    hide TproxySection, DnsSection, FwdSection, GuardSection, Fwd6Section, AllRules, RulesOn;
    NothingPut(t);
    NothingPut(d);
    NothingPut(f);
    if family == Ipv6 && table == Filter {
      TproxyFilter6Rules(generation, slot, policy, allocation, port, scope, forwarding, ipv6);
    } else if table == Mangle && family == Ipv4 {
      AllRulesConcat([t], if forwarding != [] then [f] else [], Forward);
    }
  }

  /** Up to three sections, of which the second alone has hooks there. */
  lemma ThreeRules(g: Section, f: Section, d: Section, guarded: bool, forwarded: bool, captured: bool)
    requires RulesOn(g.appends, Forward) == [] && RulesOn(d.appends, Forward) == []
    ensures AllRules((if guarded then [g] else []) + (if forwarded then [f] else []) + (if captured then [d] else []), Forward)
         == if forwarded then RulesOn(f.appends, Forward) else []
  {
    hide AllRules, RulesOn;
    var guards := if guarded then [g] else [];
    var blocks := if forwarded then [f] else [];
    var lookups := if captured then [d] else [];
    AllRulesConcat(guards + blocks, lookups, Forward);
    AllRulesConcat(guards, blocks, Forward);
    AtMostOne(g, guarded);
    AtMostOne(f, forwarded);
    AtMostOne(d, captured);
  }

  lemma TproxyFilter6Rules(
    generation: nat, slot: Slot, policy: CapturePolicy, allocation: ResourceCandidate, port: nat,
    scope: Option<seq<string>>, forwarding: seq<string>, ipv6: Ipv6Handling)
    ensures AllRules(TproxySectionsOn(generation, slot, policy, allocation, port, scope, forwarding, ipv6, Ipv6, Filter), Forward)
         == ForwardJumps(forwarding, ForwardOwner(generation), Owned(Fwd6, slot))
  {
    hide DnsSection, GuardSection, Fwd6Section, TproxySection, FwdSection, AllRules, RulesOn;
    var owner, forwardOwner := LocalOwner(generation), ForwardOwner(generation);
    GuardPutsNothing(slot, policy, owner);
    Fwd6Puts(slot, forwarding, forwardOwner);
    OthersPutNothing(Ipv6, slot, policy, allocation, port, owner, scope, forwarding, forwardOwner);
    ThreeRules(GuardSection(slot, policy, owner), Fwd6Section(slot, forwarding, forwardOwner),
               DnsSection(Ipv6, slot, policy, allocation, owner, scope), ipv6.Ipv6Guarded?, forwarding != [], ipv6.Ipv6Captured?);
  }

  /** The chain behind those jumps. */
  lemma BlockInstalled(
    base: Chains, generation: nat, slot: Slot, policy: CapturePolicy, allocation: ResourceCandidate, port: nat,
    scope: Option<seq<string>>, forwarding: seq<string>, ipv6: Ipv6Handling)
    requires forwarding != []
    requires AllFit(base, TproxySectionsOn(generation, slot, policy, allocation, port, scope, forwarding, ipv6, Ipv6, Filter))
    ensures var table := WithSections(
              base, TproxySectionsOn(generation, slot, policy, allocation, port, scope, forwarding, ipv6, Ipv6, Filter));
      Owned(Fwd6, slot) in table && table[Owned(Fwd6, slot)] == [Rule([], Drop)]
  {
    var owner := LocalOwner(generation);
    var f := Fwd6Section(slot, forwarding, ForwardOwner(generation));
    Fwd6Puts(slot, forwarding, ForwardOwner(generation));
    hide WithSections, AllFit, RulesOn, GuardSection, DnsSection, Fwd6Section;
    var guards := if ipv6.Ipv6Guarded? then [GuardSection(slot, policy, owner)] else [];
    var lookups := if ipv6.Ipv6Captured? then [DnsSection(Ipv6, slot, policy, allocation, owner, scope)] else [];
    OwnChain(base, guards, f, lookups, Owned(Fwd6, slot));
  }

  // ----- theorems -----

  /**
   * With a TPROXY plan installed, IPv6 packets of tethered interfaces are dropped, whatever becomes of IPv6 otherwise;
   * every other packet passes FORWARD as it did, in every table of both families.
   */
  lemma TproxyForward(
    n: Network, generation: nat, slot: Slot, policy: CapturePolicy, allocation: ResourceCandidate, port: nat,
    scope: Option<seq<string>>, forwarding: seq<string>, ipv6: Ipv6Handling, family: IpFamily, table: Table, p: Packet,
    mark: bv32)
    requires Free(n, slot, allocation) && Forward in TableOf(n, family, table)
    ensures var after := TableOf(TproxyNetwork(n, generation, slot, policy, allocation, port, scope, forwarding, ipv6), family, table);
      && Forward in after
      && var before := Traverse(TableOf(n, family, table), Forward, p, mark);
         Traverse(after, Forward, p, mark) ==
         if before.Continue? && family == Ipv6 && table == Filter && FromInterface(forwarding, p.iif)
         then Decided(Dropped, before.mark) else before
  {
    hide WithSections, AllFit, TproxySectionsOn, TproxyNetwork, Traverse, Free, FreeTable, AllRules, Scan;
    var base := TableOf(n, family, table);
    var sections := TproxySectionsOn(generation, slot, policy, allocation, port, scope, forwarding, ipv6, family, table);
    TproxyTable(n, generation, slot, policy, allocation, port, scope, forwarding, ipv6, family, table);
    TproxyForwardRules(generation, slot, policy, allocation, port, scope, forwarding, ipv6, family, table);
    if family == Ipv6 && table == Filter && forwarding != [] {
      BlockInstalled(base, generation, slot, policy, allocation, port, scope, forwarding, ipv6);
    }
    ForeignRulesFirst(base, sections, Forward, p, mark);
    var after, before := WithSections(base, sections), Traverse(base, Forward, p, mark);
    if family == Ipv6 && table == Filter && forwarding != [] {
      ScanDropJumps(after - {Forward}, forwarding, ForwardOwner(generation), Owned(Fwd6, slot), p, before.mark);
    } else {
      ScanNil(after - {Forward}, p, before.mark);
      assert forwarding == [] ==> !FromInterface(forwarding, p.iif);
    }
  }

  /** A TUN plan leaves FORWARD alone. */
  lemma TunForward(
    n: Network, generation: nat, slot: Slot, policy: CapturePolicy, allocation: ResourceCandidate,
    scope: Option<seq<string>>, family: IpFamily, table: Table, p: Packet, mark: bv32)
    requires Free(n, slot, allocation) && Forward in TableOf(n, family, table)
    ensures var after := TableOf(TunNetwork(n, generation, slot, policy, allocation, scope), family, table);
      && Forward in after
      && Traverse(after, Forward, p, mark) == Traverse(TableOf(n, family, table), Forward, p, mark)
  {
    var base, owner := TableOf(n, family, table), TunOwner(generation);
    var sections := TunSectionsOn(generation, slot, policy, allocation, scope, family, table);
    TunTable(n, generation, slot, policy, allocation, scope, family, table);
    OthersPutNothing(family, slot, policy, allocation, 0, owner, scope, [], owner);
    hide WithSections, AllFit, TunNetwork, Traverse, Free, FreeTable, AllRules, Scan, TunSection, DnsSection, RulesOn;
    NothingPut(sections[0]);
    ForeignRulesFirst(base, sections, Forward, p, mark);
    ScanNil(WithSections(base, sections) - {Forward}, p, Traverse(base, Forward, p, mark).mark);
  }
}
