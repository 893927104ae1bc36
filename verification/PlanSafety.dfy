/** What holds while a plan is being applied or taken back, and what the builder's choices amount to for IPv6. */
module PlanSafety {
  import opened Wrappers
  import opened Netfilter
  import opened Capture
  import opened Capability
  import opened Plan
  import opened Tables
  import opened KernelState
  import opened PlanBuilder
  import opened PlanReady
  import opened PacketPaths
  import opened Traffic
  import opened Routing
  import opened Addresses

  // ----- every moment of an apply -----

  ghost predicate NoMangle(pieces: seq<Piece>) {
    forall p :: p in pieces && p.SectionPiece? ==> p.section.table == Filter
  }

  lemma {:induction false} NoMangleSections(pieces: seq<Piece>, family: IpFamily)
    requires NoMangle(pieces)
    ensures SectionsOn(pieces, family, Mangle) == []
  {
    if pieces != [] {
      assert pieces[0] in pieces;
      NoMangleSections(pieces[1..], family);
    }
  }

  lemma MangleUntouched(n: Network, pieces: seq<Piece>, family: IpFamily)
    requires NoMangle(pieces)
    ensures TableOf(Installed(n, pieces), family, Mangle) == TableOf(n, family, Mangle)
  {
    NoMangleSections(pieces, family);
    NothingAdded(TableOf(n, family, Mangle));
    hide SectionsOn, WithSections, RoutesOf, InstalledRules;
  }

  lemma NothingAdded(chains: Chains)
    ensures WithSections(chains, []) == chains
  {
    forall c | c in chains
      ensures c in WithSections(chains, []) && WithSections(chains, [])[c] == chains[c]
    {
      WithSectionsAt(chains, [], c);
    }
  }

  lemma BeginningHasNoMangle(
    slot: Slot, policy: CapturePolicy, allocation: ResourceCandidate, owner: Owner, ipv6: Ipv6Handling, device: string,
    local: bool, k: nat)
    requires k <= |Beginning(slot, policy, allocation, owner, ipv6, device, local)|
    ensures NoMangle(Beginning(slot, policy, allocation, owner, ipv6, device, local)[..k])
  {
    hide OnChain;
    var start := Beginning(slot, policy, allocation, owner, ipv6, device, local);
    forall p | p in start && p.SectionPiece?
      ensures p.section.table == Filter
    {
    }
  }

  /** Either no packet is marked yet, or wherever marked packets are to go, they go. */
  ghost predicate Safe(
    n: Network, m: Network, family: IpFamily, captured: bool, allocation: ResourceCandidate, device: string, local: bool,
    mark: bv32, view: View)
  {
    || TableOf(m, family, Mangle) == TableOf(n, family, Mangle)
    || Steers(n, m, family, captured, allocation, device, local, mark, view)
  }

  lemma MomentIsSafe(
    n: Network, slot: Slot, policy: CapturePolicy, allocation: ResourceCandidate, owner: Owner, ipv6: Ipv6Handling,
    device: string, local: bool, sections: seq<Piece>, k: nat, family: IpFamily, mark: bv32, view: View)
    requires Free(n, slot, allocation) && Unclaimed(n, allocation) && view.Valid() && OnlySections(sections)
    requires k <= |Beginning(slot, policy, allocation, owner, ipv6, device, local) + sections|
    ensures Safe(n, Installed(n, (Beginning(slot, policy, allocation, owner, ipv6, device, local) + sections)[..k]), family,
                 family == Ipv4 || ipv6.Ipv6Captured?, allocation, device, local, mark, view)
  {
    hide Beginning, Installed, Free, Unclaimed, Steers, Routes, View.Valid, NoMangle;
    var start := Beginning(slot, policy, allocation, owner, ipv6, device, local);
    var prefix := (start + sections)[..k];
    if k <= |start| {
      assert prefix == start[..k];
      BeginningHasNoMangle(slot, policy, allocation, owner, ipv6, device, local, k);
      MangleUntouched(n, prefix, family);
    } else {
      var some := sections[..k - |start|];
      assert prefix == start + some;
      PlanRoutes(n, slot, policy, allocation, owner, ipv6, device, local, some);
      PlanSteers(n, Installed(n, prefix), slot, allocation, ipv6, device, local, family, mark, view);
    }
  }

  /**
   * A TPROXY plan is applied in an order that strands no packet: at every moment of applying it, and of taking it back
   * step by step, marks are not set yet or the way for marked packets is there.
   */
  lemma TproxyMoments(
    n: Network, generation: nat, slot: Slot, policy: CapturePolicy, allocation: ResourceCandidate, port: nat,
    scope: Option<seq<string>>, forwarding: seq<string>, ipv6: Ipv6Handling, k: nat, family: IpFamily, mark: bv32, view: View)
    requires Free(n, slot, allocation) && Unclaimed(n, allocation) && view.Valid()
    requires k <= |TproxyPieces(generation, slot, policy, allocation, port, scope, forwarding, ipv6)|
    ensures Safe(n, Installed(n, TproxyPieces(generation, slot, policy, allocation, port, scope, forwarding, ipv6)[..k]), family,
                 family == Ipv4 || ipv6.Ipv6Captured?, allocation, "lo", true, mark, view)
  {
    hide Installed, Beginning, TproxySection, DnsSection, FwdSection, Fwd6Section, Safe, Free, Unclaimed, View.Valid;
    var owner := LocalOwner(generation);
    var start := Beginning(slot, policy, allocation, owner, ipv6, "lo", true);
    var sections := TproxySectionPieces(generation, slot, policy, allocation, port, scope, forwarding, ipv6);
    MomentIsSafe(n, slot, policy, allocation, owner, ipv6, "lo", true, sections, k, family, mark, view);
  }

  /** The sections of a plan, behind its beginning. */
  lemma TproxySectionPieces(
    generation: nat, slot: Slot, policy: CapturePolicy, allocation: ResourceCandidate, port: nat,
    scope: Option<seq<string>>, forwarding: seq<string>, ipv6: Ipv6Handling) returns (sections: seq<Piece>)
    ensures OnlySections(sections)
    ensures TproxyPieces(generation, slot, policy, allocation, port, scope, forwarding, ipv6) ==
            Beginning(slot, policy, allocation, LocalOwner(generation), ipv6, "lo", true) + sections
  {
    hide Beginning, TproxySection, DnsSection, FwdSection, Fwd6Section;
    var pieces := TproxyPieces(generation, slot, policy, allocation, port, scope, forwarding, ipv6);
    var start := Beginning(slot, policy, allocation, LocalOwner(generation), ipv6, "lo", true);
    sections := pieces[|start|..];
  }

  lemma TunSectionPieces(
    generation: nat, slot: Slot, policy: CapturePolicy, allocation: ResourceCandidate, scope: Option<seq<string>>)
    returns (sections: seq<Piece>)
    ensures OnlySections(sections)
    ensures TunPieces(generation, slot, policy, allocation, scope, Ipv6Captured) ==
            Beginning(slot, policy, allocation, TunOwner(generation), Ipv6Captured, "nethop0", false) + sections
  {
    hide Beginning, TunSection, DnsSection;
    var pieces := TunPieces(generation, slot, policy, allocation, scope, Ipv6Captured);
    var start := Beginning(slot, policy, allocation, TunOwner(generation), Ipv6Captured, "nethop0", false);
    sections := pieces[|start|..];
  }

  /** The same for a TUN plan. */
  lemma TunMoments(
    n: Network, generation: nat, slot: Slot, policy: CapturePolicy, allocation: ResourceCandidate,
    scope: Option<seq<string>>, k: nat, family: IpFamily, mark: bv32, view: View)
    requires Free(n, slot, allocation) && Unclaimed(n, allocation) && view.Valid()
    requires k <= |TunPieces(generation, slot, policy, allocation, scope, Ipv6Captured)|
    ensures Safe(n, Installed(n, TunPieces(generation, slot, policy, allocation, scope, Ipv6Captured)[..k]), family, true,
                 allocation, "nethop0", false, mark, view)
  {
    hide Installed, Beginning, TunSection, DnsSection, Safe, Free, Unclaimed, View.Valid, TunPieces;
    var sections := TunSectionPieces(generation, slot, policy, allocation, scope);
    MomentIsSafe(n, slot, policy, allocation, TunOwner(generation), Ipv6Captured, "nethop0", false, sections, k, family, mark, view);
  }

  // ----- the marks a plan leaves on chains that are not its own -----

  ghost predicate SignedRule(rule: Rule, generation: nat) {
    exists owner: Owner :: owner.generation == generation && Commented(owner) in rule.matches
  }

  /** Whatever a section puts on a chain that it does not create is signed with the generation. */
  ghost predicate Signed(s: Section, generation: nat) {
    forall a :: a in s.appends && a.chain !in s.creates ==> SignedRule(a.rule, generation)
  }

  lemma OnChainHas(chain: ChainName, rules: seq<Rule>, a: Appended)
    requires a in OnChain(chain, rules)
    ensures a.chain == chain && a.rule in rules
  {
  }

  lemma HookIsSigned(owner: Owner, chain: ChainName)
    ensures SignedRule(HookRule(owner, chain), owner.generation)
  {
    assert Commented(owner) in HookRule(owner, chain).matches;
  }

  lemma {:induction false} JumpsAreSigned(interfaces: seq<string>, owner: Owner, chain: ChainName, rule: Rule)
    requires rule in ForwardJumps(interfaces, owner, chain)
    ensures SignedRule(rule, owner.generation)
  {
    var n := |interfaces| - 1;
    if rule in ForwardJumps(interfaces[..n], owner, chain) {
      JumpsAreSigned(interfaces[..n], owner, chain, rule);
    } else {
      assert Commented(owner) in rule.matches;
    }
  }

  /** A section with one chain of its own and hooks on another. */
  lemma SingleSigned(s: Section, hook: ChainName, hooks: seq<Rule>, chain: ChainName, rules: seq<Rule>, generation: nat)
    requires s.creates == [chain] && s.appends == OnChain(hook, hooks) + OnChain(chain, rules)
    requires forall rule :: rule in hooks ==> SignedRule(rule, generation)
    ensures Signed(s, generation)
  {
    hide OnChain, SignedRule;
    forall a | a in s.appends && a.chain !in s.creates
      ensures SignedRule(a.rule, generation)
    {
      if a in OnChain(hook, hooks) { OnChainHas(hook, hooks, a); } else { OnChainHas(chain, rules, a); }
    }
  }

  lemma TproxySigned(
    family: IpFamily, slot: Slot, policy: CapturePolicy, allocation: ResourceCandidate, port: nat, owner: Owner,
    scope: Option<seq<string>>)
    ensures Signed(TproxySection(family, slot, policy, allocation, port, owner, scope), owner.generation)
  {
    hide OnChain, SignedRule, OutBody, PreBody, DivChain, OutHead, HookRule;
    var s := TproxySection(family, slot, policy, allocation, port, owner, scope);
    var outChain, preChain, divChain := Owned(Out, slot), Owned(Pre, slot), Owned(Div, slot);
    HookIsSigned(owner, outChain);
    HookIsSigned(owner, preChain);
    forall a | a in s.appends && a.chain !in s.creates
      ensures SignedRule(a.rule, owner.generation)
    {
      if a in OnChain(Output, [HookRule(owner, outChain)]) {
        OnChainHas(Output, [HookRule(owner, outChain)], a);
      } else if a in OnChain(Prerouting, [HookRule(owner, preChain)]) {
        OnChainHas(Prerouting, [HookRule(owner, preChain)], a);
      } else if a in OnChain(outChain, OutHead(policy, allocation)) {
        OnChainHas(outChain, OutHead(policy, allocation), a);
      } else if a in OnChain(preChain, [ReplyAccept()]) {
        OnChainHas(preChain, [ReplyAccept()], a);
      } else if a in OnChain(outChain, OutBody(family, policy, allocation, scope)) {
        OnChainHas(outChain, OutBody(family, policy, allocation, scope), a);
      } else if a in OnChain(divChain, DivChain(allocation)) {
        OnChainHas(divChain, DivChain(allocation), a);
      } else {
        OnChainHas(preChain, PreBody(policy, allocation, port, divChain), a);
      }
    }
  }

  lemma GuardSigned(slot: Slot, policy: CapturePolicy, owner: Owner)
    ensures Signed(GuardSection(slot, policy, owner), owner.generation)
  {
    hide OnChain, SignedRule, GuardChain, BlockChain, HookRule;
    var s := GuardSection(slot, policy, owner);
    var guard, block := Owned(V6Guard, slot), Owned(V6Block, slot);
    HookIsSigned(owner, guard);
    forall a | a in s.appends && a.chain !in s.creates
      ensures SignedRule(a.rule, owner.generation)
    {
      if a in OnChain(Output, [HookRule(owner, guard)]) {
        OnChainHas(Output, [HookRule(owner, guard)], a);
      } else if a in OnChain(guard, GuardChain(policy, block)) {
        OnChainHas(guard, GuardChain(policy, block), a);
      } else {
        OnChainHas(block, BlockChain(), a);
      }
    }
  }

  lemma OthersSigned(
    family: IpFamily, slot: Slot, policy: CapturePolicy, allocation: ResourceCandidate, port: nat, owner: Owner,
    scope: Option<seq<string>>, forwarding: seq<string>, forwardOwner: Owner)
    ensures Signed(DnsSection(family, slot, policy, allocation, owner, scope), owner.generation)
    ensures Signed(TunSection(family, slot, policy, allocation, owner, scope), owner.generation)
    ensures Signed(FwdSection(slot, policy, allocation, port, forwarding, forwardOwner), forwardOwner.generation)
    ensures Signed(Fwd6Section(slot, forwarding, forwardOwner), forwardOwner.generation)
  {
    hide OnChain, SignedRule, DnsChain, TunChain, FwdChain, ForwardJumps, HookRule, Signed;
    var dns, tun, fwd, fwd6 := Owned(Dns, slot), Owned(Tun, slot), Owned(Fwd, slot), Owned(Fwd6, slot);
    HookIsSigned(owner, dns);
    HookIsSigned(owner, tun);
    forall chain, rule | rule in ForwardJumps(forwarding, forwardOwner, chain)
      ensures SignedRule(rule, forwardOwner.generation)
    {
      JumpsAreSigned(forwarding, forwardOwner, chain, rule);
    }
    SingleSigned(DnsSection(family, slot, policy, allocation, owner, scope), Output, [HookRule(owner, dns)], dns,
                 DnsChain(policy, allocation, scope), owner.generation);
    SingleSigned(TunSection(family, slot, policy, allocation, owner, scope), Output, [HookRule(owner, tun)], tun,
                 TunChain(policy, allocation, scope), owner.generation);
    SingleSigned(FwdSection(slot, policy, allocation, port, forwarding, forwardOwner), Prerouting,
                 ForwardJumps(forwarding, forwardOwner, fwd), fwd, FwdChain(policy, allocation, port), forwardOwner.generation);
    SingleSigned(Fwd6Section(slot, forwarding, forwardOwner), Forward, ForwardJumps(forwarding, forwardOwner, fwd6), fwd6,
                 [Rule([], Drop)], forwardOwner.generation);
  }

  /** Every rule that a plan puts on a chain of the system carries the plan's generation. */
  lemma HooksAreSigned(
    generation: nat, slot: Slot, policy: CapturePolicy, allocation: ResourceCandidate, port: nat,
    scope: Option<seq<string>>, forwarding: seq<string>, ipv6: Ipv6Handling, p: Piece)
    requires p.SectionPiece?
    requires || p in TproxyPieces(generation, slot, policy, allocation, port, scope, forwarding, ipv6)
             || p in TunPieces(generation, slot, policy, allocation, scope, ipv6)
    ensures Signed(p.section, generation)
  {
    hide TproxySection, DnsSection, TunSection, FwdSection, Fwd6Section, GuardSection, Signed;
    var owner, tunOwner, forwardOwner := LocalOwner(generation), TunOwner(generation), ForwardOwner(generation);
    forall family: IpFamily
      ensures Signed(TproxySection(family, slot, policy, allocation, port, owner, scope), generation)
      ensures Signed(DnsSection(family, slot, policy, allocation, owner, scope), generation)
      ensures Signed(DnsSection(family, slot, policy, allocation, tunOwner, scope), generation)
      ensures Signed(TunSection(family, slot, policy, allocation, tunOwner, scope), generation)
    {
      TproxySigned(family, slot, policy, allocation, port, owner, scope);
      OthersSigned(family, slot, policy, allocation, port, owner, scope, forwarding, forwardOwner);
      OthersSigned(family, slot, policy, allocation, port, tunOwner, scope, forwarding, forwardOwner);
    }
    OthersSigned(Ipv4, slot, policy, allocation, port, owner, scope, forwarding, forwardOwner);
    GuardSigned(slot, policy, owner);
    GuardSigned(slot, policy, tunOwner);
  }

  // ----- no way around over IPv6 -----

  /** A packet on its way through the two OUTPUT tables of IPv6, `n` before and `m` with a plan. */
  ghost predicate Attended(
    n: Network, m: Network, policy: CapturePolicy, allocation: ResourceCandidate, captured: bool, p: Packet, mark: bv32)
  {
    && Output in n.mangle6 && Output in m.mangle6 && Output in n.filter6 && Output in m.filter6
    && if captured then
         var left, sent := Traverse(n.mangle6, Output, p, mark), Traverse(m.mangle6, Output, p, mark);
         left.Continue? && !Bypasses(policy, allocation, left.mark) ==> !sent.Decided? && Marked(allocation, sent.mark)
       else
         var left := Traverse(n.filter6, Output, p, mark);
         left.Continue? ==> Traverse(m.filter6, Output, p, mark) == Decided(Dropped, left.mark)
  }

  lemma HooksThere(
    n: Network, generation: nat, slot: Slot, policy: CapturePolicy, allocation: ResourceCandidate, port: nat,
    scope: Option<seq<string>>, forwarding: seq<string>, ipv6: Ipv6Handling, table: Table, p: Packet, mark: bv32)
    requires Free(n, slot, allocation)
    ensures Output in TableOf(n, Ipv6, table)
    ensures Output in TableOf(TproxyNetwork(n, generation, slot, policy, allocation, port, scope, forwarding, ipv6), Ipv6, table)
  {
    TproxyTable(n, generation, slot, policy, allocation, port, scope, forwarding, ipv6, Ipv6, table);
    hide TproxyNetwork, Free, TproxySectionsOn, AllFit, WithSections, Traverse;
    ForeignRulesFirst(
      TableOf(n, Ipv6, table),
      TproxySectionsOn(generation, slot, policy, allocation, port, scope, forwarding, ipv6, Ipv6, table), Output, p, mark);
  }

  lemma LocalIsReserved(address: nat)
    ensures InAny(address, LocalV6()) ==> InAny(address, ReservedDestinations(Ipv6))
  {
    hide LocalV6, InNetwork;
    InAnyAppend(address, [Cidr(0, 0)], LocalV6());
  }

  /**
   * On a device with an IPv6 address, a TPROXY plan leaves no captured sender a way around over IPv6: a packet that
   * other rules let continue is given the capture mark, or it is dropped.  The plan is one that the builder returns.
   */
  lemma NoWayAroundOverIpv6(
    n: Network, plan: NetworkPlan, policy: CapturePolicy, capabilities: CapabilityReport, scope: Option<seq<string>>,
    ipv6: Ipv6Handling, p: Packet, mark: bv32)
    requires IsTproxyPlan(plan, policy, capabilities, scope, ipv6) && policy.Valid() && plan.allocation.Valid()
    requires Free(n, plan.slot, plan.allocation)
    requires (ipv6.Ipv6Absent? <==> capabilities.ipv6.address.NotPresent?) && capabilities.ipv6.address.Supported?
    requires Selected(policy, p.owner) && !InAny(p.dst, ReservedDestinations(Ipv6)) && !p.reply
    requires ipv6.Ipv6Captured? ==> InScope(scope, p.oif)
    ensures Attended(
      n,
      TproxyNetwork(n, plan.generation, plan.slot, policy, plan.allocation, policy.inboundPort.value, scope,
                    plan.forwardingInterfaces, ipv6),
      policy, plan.allocation, ipv6.Ipv6Captured?, p, mark)
  {
    assert policy.inboundPort.Some?;
    var port, forwarding := policy.inboundPort.value, plan.forwardingInterfaces;
    hide IsTproxyPlan, Traverse, TproxyNetwork, Free, XMark, MarkMatches, Bypasses, InAny, Selected, InScope, LocalV6;
    hide ReservedDestinations;
    HooksThere(n, plan.generation, plan.slot, policy, plan.allocation, port, scope, forwarding, ipv6, Mangle, p, mark);
    HooksThere(n, plan.generation, plan.slot, policy, plan.allocation, port, scope, forwarding, ipv6, Filter, p, mark);
    if ipv6.Ipv6Captured? {
      TproxyOutgoing(n, plan.generation, plan.slot, policy, plan.allocation, port, scope, forwarding, ipv6, Ipv6, p, mark);
      XMarkSets(Traverse(n.mangle6, Output, p, mark).mark, plan.allocation.mark, plan.allocation.mask);
    } else {
      LocalIsReserved(p.dst);
      Ipv6Guard(n, plan.generation, plan.slot, policy, plan.allocation, port, scope, forwarding, p, mark);
    }
  }

  // ----- when a plan is possible at all -----

  /** Everything that a probe must have found for one family before packets of it are captured. */
  ghost predicate FamilyReady(f: FamilyCapability) {
    && f.address == Supported && f.netfilter == Supported && f.restore == Supported && f.tproxy == Supported
    && f.mark == Supported && f.conntrack == Supported && f.owner == Supported && f.socket == Supported
    && f.policyRouting == Supported && f.chainNamespace == Supported
  }

  /** What both kinds of plan need. */
  ghost predicate DeviceReady(policy: CapturePolicy, c: CapabilityReport) {
    && c.android == Supported && c.root == Supported && c.activeTunnel == Supported
    && (exists a :: a in c.allocations && a.status == Supported)
    && MarksApart(policy, c) && ScopeExists(policy, c) && ForwardingExists(policy, c)
  }

  /** On which devices, and for which policies, there is a TPROXY plan. */
  lemma TproxyPossible(generation: nat, policy: CapturePolicy, c: CapabilityReport)
    ensures AllMet(TproxyDemands(generation, policy, c)) <==>
      && generation != 0 && policy.mode == TproxyMode && DeviceReady(policy, c)
      && policy.inboundPort == Some(c.inboundPort) && c.inboundPortStatus == Supported
      && FamilyReady(c.ipv4)
      && (c.ipv6.address == NotPresent
          || FamilyReady(c.ipv6)
          || (policy.ipv6Guard && c.ipv6.address == Supported && c.ipv6.netfilter == Supported && c.ipv6.restore == Supported
              && c.ipv6.owner == Supported && c.ipv6.chainNamespace == Supported))
  {
    hide MarksApart, ScopeExists, ForwardingExists, AllMet;
    var platform, shared := PlatformDemands(generation, policy, c), SharedDemands(policy, c);
    MetConcat(platform + shared, [(Ipv6Attended(policy, c), Ipv6LeakRisk)]);
    MetConcat(platform, shared);
    OneDemand(Ipv6Attended(policy, c), Ipv6LeakRisk);
    AllMetSeven(platform);
    AllMetFour(shared);
  }

  lemma AllMetFour(demands: Demands)
    requires |demands| == 4
    ensures AllMet(demands) <==> demands[0].0 && demands[1].0 && demands[2].0 && demands[3].0
  {
  }

  lemma AllMetFive(demands: Demands)
    requires |demands| == 5
    ensures AllMet(demands) <==> demands[0].0 && demands[1].0 && demands[2].0 && demands[3].0 && demands[4].0
  {
  }

  lemma AllMetSeven(demands: Demands)
    requires |demands| == 7
    ensures AllMet(demands) <==>
      demands[0].0 && demands[1].0 && demands[2].0 && demands[3].0 && demands[4].0 && demands[5].0 && demands[6].0
  {
  }

  /** On which devices, and for which policies, there is a TUN plan. */
  lemma TunPossible(generation: nat, policy: CapturePolicy, c: CapabilityReport)
    ensures AllMet(TunDemands(generation, policy, c)) <==>
      && generation != 0 && policy.mode == TunMode && DeviceReady(policy, c)
      && c.tun == Supported && c.ipv6.address == Supported
  {
    hide MarksApart, ScopeExists, ForwardingExists, AllMet;
    var tunnel, shared := TunnelDemands(generation, policy, c), SharedDemands(policy, c);
    MetConcat(tunnel + shared, [(c.ipv6.address.Supported?, Ipv6LeakRisk)]);
    MetConcat(tunnel, shared);
    OneDemand(c.ipv6.address.Supported?, Ipv6LeakRisk);
    AllMetFive(tunnel);
    AllMetFour(shared);
  }
}
