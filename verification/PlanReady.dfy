/** Every plan can be applied to, and removed from, any network that has room for it. */
module PlanReady {
  import opened Wrappers
  import opened Netfilter
  import opened Capture
  import opened Capability
  import opened Plan
  import opened Tables
  import opened KernelState

  /** A table that holds none of the chains of one slot; those of the other slot may be there. */
  ghost predicate FreeTable(chains: Chains, slot: Slot, table: Table) {
    && Closed(chains)
    && Output in chains && (table == Mangle ==> Prerouting in chains) && (table == Filter ==> Forward in chains)
    && forall role :: Owned(role, slot) !in chains
  }

  /** A network with room for a plan: no chain of its slot, no route in its table, and no rule of its priority. */
  ghost predicate Free(n: Network, slot: Slot, allocation: ResourceCandidate) {
    && (forall family, table :: FreeTable(TableOf(n, family, table), slot, table))
    && (forall r :: r in n.routes ==> r.routeTable != allocation.routeTable)
    && (forall family, e :: e in RulesOf(n, family) ==> e.priority != allocation.rulePriority)
  }

  // ----- which rules jump, and where -----

  ghost predicate NoJumps(rules: seq<Rule>) {
    forall r :: r in rules ==> !r.target.Jump?
  }

  ghost predicate OnlyJumps(rules: seq<Rule>, chain: ChainName) {
    forall r :: r in rules ==> r.target == Jump(chain)
  }

  lemma {:induction false} UidReturnsPlain(uids: seq<nat>)
    ensures NoJumps(UidReturns(uids))
  {
    if uids != [] { UidReturnsPlain(uids[..|uids| - 1]); }
  }

  lemma {:induction false} NetworkReturnsPlain(networks: seq<Cidr>)
    ensures NoJumps(NetworkReturns(networks))
  {
    if networks != [] { NetworkReturnsPlain(networks[..|networks| - 1]); }
  }

  lemma {:induction false} UidMarksPlain(prefix: seq<Match>, uids: seq<nat>, allocation: ResourceCandidate)
    ensures NoJumps(UidMarks(prefix, uids, allocation))
  {
    if uids != [] { UidMarksPlain(prefix, uids[..|uids| - 1], allocation); }
  }

  lemma {:induction false} InterfaceMarksPlain(interfaces: seq<string>, uids: seq<nat>, allocation: ResourceCandidate)
    ensures NoJumps(InterfaceMarks(interfaces, uids, allocation))
  {
    if interfaces != [] {
      InterfaceMarksPlain(interfaces[..|interfaces| - 1], uids, allocation);
      UidMarksPlain([OnOutput(interfaces[|interfaces| - 1])], uids, allocation);
    }
  }

  lemma CaptureRulesPlain(scope: Option<seq<string>>, uids: seq<nat>, allocation: ResourceCandidate)
    ensures NoJumps(CaptureRules(scope, uids, allocation))
  {
    if scope.Some? { InterfaceMarksPlain(scope.value, uids, allocation); } else { UidMarksPlain([], uids, allocation); }
  }

  lemma {:induction false} InterfaceDropsPlain(interfaces: seq<string>, protocol: Protocol, port: nat)
    ensures NoJumps(InterfaceDrops(interfaces, protocol, port))
  {
    if interfaces != [] { InterfaceDropsPlain(interfaces[..|interfaces| - 1], protocol, port); }
  }

  lemma DropRulesPlain(scope: Option<seq<string>>, protocol: Protocol, port: nat)
    ensures NoJumps(DropRules(scope, protocol, port))
  {
    if scope.Some? { InterfaceDropsPlain(scope.value, protocol, port); }
  }

  lemma {:induction false} ForwardJumpsJump(interfaces: seq<string>, owner: Owner, chain: ChainName)
    ensures OnlyJumps(ForwardJumps(interfaces, owner, chain), chain)
  {
    if interfaces != [] { ForwardJumpsJump(interfaces[..|interfaces| - 1], owner, chain); }
  }

  lemma {:induction false} UidJumpsJump(uids: seq<nat>, chain: ChainName)
    ensures OnlyJumps(UidJumps(uids, chain), chain)
  {
    if uids != [] { UidJumpsJump(uids[..|uids| - 1], chain); }
  }

  lemma OutRulesPlain(family: IpFamily, policy: CapturePolicy, allocation: ResourceCandidate, scope: Option<seq<string>>)
    ensures NoJumps(OutHead(policy, allocation)) && NoJumps(OutBody(family, policy, allocation, scope))
  {
    UidReturnsPlain(policy.excludeUids);
    NetworkReturnsPlain(ReservedDestinations(family));
    CaptureRulesPlain(scope, policy.includeUids, allocation);
  }

  lemma PreBodyJumps(policy: CapturePolicy, allocation: ResourceCandidate, port: nat, divert: ChainName)
    ensures forall r :: r in PreBody(policy, allocation, port, divert) && r.target.Jump? ==> r.target.chain == divert
  {
  }

  lemma GuardJumps(policy: CapturePolicy, block: ChainName)
    ensures forall r :: r in GuardChain(policy, block) && r.target.Jump? ==> r.target.chain == block
    ensures NoJumps(BlockChain())
  {
    UidReturnsPlain(policy.excludeUids);
    UidJumpsJump(policy.includeUids, block);
    NetworkReturnsPlain(LocalV6());
  }

  lemma TunRulesPlain(policy: CapturePolicy, allocation: ResourceCandidate, scope: Option<seq<string>>)
    ensures NoJumps(TunChain(policy, allocation, scope))
  {
    UidReturnsPlain(policy.excludeUids);
    CaptureRulesPlain(scope, policy.includeUids, allocation);
  }

  lemma DnsRulesPlain(policy: CapturePolicy, allocation: ResourceCandidate, scope: Option<seq<string>>)
    ensures NoJumps(DnsChain(policy, allocation, scope))
  {
    DropRulesPlain(scope, Udp, 53);
    DropRulesPlain(scope, Tcp, 53);
    DropRulesPlain(scope, Tcp, 853);
  }

  lemma FwdRulesPlain(policy: CapturePolicy, allocation: ResourceCandidate, port: nat)
    ensures NoJumps(FwdChain(policy, allocation, port))
  {
    NetworkReturnsPlain(ReservedV4());
  }

  // ----- every section fits a free table -----

  /** A block of rules on one chain that a section with these chains may hold. */
  ghost predicate GoodBlock(chains: Chains, creates: seq<ChainName>, chain: ChainName, rules: seq<Rule>) {
    && (chain in chains || chain in creates)
    && (forall r :: r in rules && r.target.Jump? ==> r.target.chain in creates)
    && (chain !in creates ==> BuiltIn(chain) && forall r :: r in rules ==> r.target.Jump?)
  }

  ghost predicate GoodAppends(chains: Chains, creates: seq<ChainName>, appends: seq<Appended>) {
    forall a :: a in appends ==>
      && (a.chain in chains || a.chain in creates)
      && (a.rule.target.Jump? ==> a.rule.target.chain in creates)
      && (a.chain !in creates ==> BuiltIn(a.chain) && a.rule.target.Jump?)
  }

  lemma GoodCons(chains: Chains, creates: seq<ChainName>, chain: ChainName, rules: seq<Rule>, rest: seq<Appended>)
    requires GoodBlock(chains, creates, chain, rules) && GoodAppends(chains, creates, rest)
    ensures GoodAppends(chains, creates, OnChain(chain, rules) + rest)
  {
    forall a | a in OnChain(chain, rules) ensures a.chain == chain && a.rule in rules {
      var i :| 0 <= i < |OnChain(chain, rules)| && OnChain(chain, rules)[i] == a;
      assert a == Appended(chain, rules[i]);
    }
  }

  lemma GoodOne(chains: Chains, creates: seq<ChainName>, chain: ChainName, rules: seq<Rule>)
    requires GoodBlock(chains, creates, chain, rules)
    ensures GoodAppends(chains, creates, OnChain(chain, rules))
  {
    GoodCons(chains, creates, chain, rules, []);
    assert OnChain(chain, rules) + [] == OnChain(chain, rules);
  }

  lemma TproxyFits(
    chains: Chains, family: IpFamily, slot: Slot, policy: CapturePolicy, allocation: ResourceCandidate, port: nat,
    owner: Owner, scope: Option<seq<string>>)
    requires FreeTable(chains, slot, Mangle)
    ensures Fits(chains, TproxySection(family, slot, policy, allocation, port, owner, scope))
  {
    OutRulesPlain(family, policy, allocation, scope);
    PreBodyJumps(policy, allocation, port, Owned(Div, slot));
    hide OnChain, OutBody, PreBody, OutHead;
    var outChain, preChain, divChain := Owned(Out, slot), Owned(Pre, slot), Owned(Div, slot);
    var creates := [outChain, preChain, divChain];
    var r7 := OnChain(preChain, PreBody(policy, allocation, port, divChain));
    var r6 := OnChain(divChain, DivChain(allocation)) + r7;
    var r5 := OnChain(outChain, OutBody(family, policy, allocation, scope)) + r6;
    var r4 := OnChain(preChain, [ReplyAccept()]) + r5;
    var r3 := OnChain(outChain, OutHead(policy, allocation)) + r4;
    var r2 := OnChain(Prerouting, [HookRule(owner, preChain)]) + r3;
    GoodOne(chains, creates, preChain, PreBody(policy, allocation, port, divChain));
    GoodCons(chains, creates, divChain, DivChain(allocation), r7);
    GoodCons(chains, creates, outChain, OutBody(family, policy, allocation, scope), r6);
    GoodCons(chains, creates, preChain, [ReplyAccept()], r5);
    GoodCons(chains, creates, outChain, OutHead(policy, allocation), r4);
    GoodCons(chains, creates, Prerouting, [HookRule(owner, preChain)], r3);
    GoodCons(chains, creates, Output, [HookRule(owner, outChain)], r2);
  }

  /** A section with one block of hooks and one chain. */
  lemma SingleFits(chains: Chains, s: Section, hook: ChainName, hooks: seq<Rule>, chain: ChainName, rules: seq<Rule>)
    requires s.creates == [chain] && s.appends == OnChain(hook, hooks) + OnChain(chain, rules)
    requires chain.Owned? && chain !in chains && hook in chains && BuiltIn(hook)
    requires OnlyJumps(hooks, chain) && NoJumps(rules)
    ensures Fits(chains, s)
  {
    GoodOne(chains, s.creates, chain, rules);
    GoodCons(chains, s.creates, hook, hooks, OnChain(chain, rules));
  }

  lemma TunFits(
    chains: Chains, family: IpFamily, slot: Slot, policy: CapturePolicy, allocation: ResourceCandidate, owner: Owner,
    scope: Option<seq<string>>)
    requires FreeTable(chains, slot, Mangle)
    ensures Fits(chains, TunSection(family, slot, policy, allocation, owner, scope))
  {
    TunRulesPlain(policy, allocation, scope);
    SingleFits(chains, TunSection(family, slot, policy, allocation, owner, scope), Output,
               [HookRule(owner, Owned(Tun, slot))], Owned(Tun, slot), TunChain(policy, allocation, scope));
  }

  lemma DnsFits(
    chains: Chains, family: IpFamily, slot: Slot, policy: CapturePolicy, allocation: ResourceCandidate, owner: Owner,
    scope: Option<seq<string>>)
    requires FreeTable(chains, slot, Filter)
    ensures Fits(chains, DnsSection(family, slot, policy, allocation, owner, scope))
  {
    DnsRulesPlain(policy, allocation, scope);
    SingleFits(chains, DnsSection(family, slot, policy, allocation, owner, scope), Output,
               [HookRule(owner, Owned(Dns, slot))], Owned(Dns, slot), DnsChain(policy, allocation, scope));
  }

  lemma FwdFits(
    chains: Chains, slot: Slot, policy: CapturePolicy, allocation: ResourceCandidate, port: nat, interfaces: seq<string>,
    owner: Owner)
    requires FreeTable(chains, slot, Mangle)
    ensures Fits(chains, FwdSection(slot, policy, allocation, port, interfaces, owner))
  {
    FwdRulesPlain(policy, allocation, port);
    ForwardJumpsJump(interfaces, owner, Owned(Fwd, slot));
    SingleFits(chains, FwdSection(slot, policy, allocation, port, interfaces, owner), Prerouting,
               ForwardJumps(interfaces, owner, Owned(Fwd, slot)), Owned(Fwd, slot), FwdChain(policy, allocation, port));
  }

  lemma Fwd6Fits(chains: Chains, slot: Slot, interfaces: seq<string>, owner: Owner)
    requires FreeTable(chains, slot, Filter)
    ensures Fits(chains, Fwd6Section(slot, interfaces, owner))
  {
    ForwardJumpsJump(interfaces, owner, Owned(Fwd6, slot));
    SingleFits(chains, Fwd6Section(slot, interfaces, owner), Forward,
               ForwardJumps(interfaces, owner, Owned(Fwd6, slot)), Owned(Fwd6, slot), [Rule([], Drop)]);
  }

  lemma GuardFits(chains: Chains, slot: Slot, policy: CapturePolicy, owner: Owner)
    requires FreeTable(chains, slot, Filter)
    ensures Fits(chains, GuardSection(slot, policy, owner))
  {
    var guard, block := Owned(V6Guard, slot), Owned(V6Block, slot);
    GuardJumps(policy, block);
    hide OnChain, GuardChain, BlockChain;
    GoodOne(chains, [guard, block], block, BlockChain());
    GoodCons(chains, [guard, block], guard, GuardChain(policy, block), OnChain(block, BlockChain()));
    GoodCons(chains, [guard, block], Output, [HookRule(owner, guard)],
             OnChain(guard, GuardChain(policy, block)) + OnChain(block, BlockChain()));
  }

  // ----- whole plans -----

  /** Two pieces that do not compete for a chain name, a route table or a rule. */
  ghost predicate Apart(p: Piece, q: Piece) {
    && (p.SectionPiece? && q.SectionPiece? && p.section.family == q.section.family && p.section.table == q.section.table ==>
          forall c :: c in p.section.creates ==> c !in q.section.creates)
    && (p.RoutePiece? && q.RoutePiece? ==> p.family != q.family)
    && (p.RulePiece? && q.RulePiece? ==> p.family != q.family)
  }

  ghost predicate FitsNetwork(n: Network, p: Piece) {
    match p
    case SectionPiece(s) => Fits(TableOf(n, s.family, s.table), s)
    case RoutePiece(family, table, _, _) => forall r :: r in n.routes && r.family == family ==> r.routeTable != table
    case RulePiece(family, _, _, _, priority) => forall e :: e in RulesOf(n, family) ==> e.priority != priority
  }

  lemma {:induction false} SectionsFrom(pieces: seq<Piece>, family: IpFamily, table: Table, s: Section)
    requires s in SectionsOn(pieces, family, table)
    ensures SectionPiece(s) in pieces && s.family == family && s.table == table
  {
    if !(pieces[0] == SectionPiece(s) && s.family == family && s.table == table) {
      SectionsFrom(pieces[1..], family, table, s);
    }
  }

  lemma AllFitSnoc(chains: Chains, sections: seq<Section>, s: Section)
    requires AllFit(chains, sections) && Fits(chains, s)
    requires forall t, c :: t in sections && c in t.creates ==> c !in s.creates
    ensures AllFit(chains, sections + [s])
  {
    var all := sections + [s];
    assert forall i :: 0 <= i < |sections| ==> all[i] == sections[i] && sections[i] in sections;
    assert all[|sections|] == s;
  }

  lemma ReadySnoc(n: Network, pieces: seq<Piece>, p: Piece)
    requires Ready(n, pieces) && FitsNetwork(n, p)
    requires forall q :: q in pieces ==> Apart(q, p) && Apart(p, q)
    ensures Ready(n, pieces + [p])
  {
    var all := pieces + [p];
    forall family, table ensures AllFit(TableOf(n, family, table), SectionsOn(all, family, table)) {
      hide AllFit, SectionsOn;
      SectionsAround(pieces, p, [], family, table);
      assert pieces + [p] + [] == all && pieces + [] == pieces;
      var sections := SectionsOn(pieces, family, table);
      NoSections(family, table);
      assert AllFit(TableOf(n, family, table), sections);
      if OnTable(p, family, table) {
        assert SectionsOn(all, family, table) == sections + [p.section];
        forall t, c | t in sections && c in t.creates ensures c !in p.section.creates {
          SectionsFrom(pieces, family, table, t);
          assert Apart(SectionPiece(t), p);
        }
        AllFitSnoc(TableOf(n, family, table), sections, p.section);
      } else {
        assert SectionsOn(all, family, table) == sections;
      }
    }
    assert forall i :: 0 <= i < |pieces| ==> all[i] == pieces[i] && pieces[i] in pieces;
    assert all[|pieces|] == p;
  }

  lemma ReadyNone(n: Network)
    requires forall family, table :: Closed(TableOf(n, family, table))
    ensures Ready(n, [])
  {
  }

  // ----- labels tell pieces of one plan apart -----

  datatype Label = SectionLabel(family: IpFamily, table: Table, role: Role) | RouteLabel(family: IpFamily) | RuleLabel(family: IpFamily)

  /** The chains of the section that goes by `role`. */
  function ChainsFor(role: Role, slot: Slot): seq<ChainName> {
    match role
    case Out => [Owned(Out, slot), Owned(Pre, slot), Owned(Div, slot)]
    case V6Guard => [Owned(V6Guard, slot), Owned(V6Block, slot)]
    case _ => [Owned(role, slot)]
  }

  ghost predicate Labelled(p: Piece, tag: Label, slot: Slot) {
    match tag
    case SectionLabel(family, table, role) =>
      && role !in {Pre, Div, V6Block}
      && p.SectionPiece? && p.section.family == family && p.section.table == table
      && p.section.creates == ChainsFor(role, slot)
    case RouteLabel(family) => p.RoutePiece? && p.family == family
    case RuleLabel(family) => p.RulePiece? && p.family == family
  }

  /** Every piece goes by one of the labels. */
  ghost predicate AllLabelled(pieces: seq<Piece>, tags: set<Label>, slot: Slot) {
    forall p :: p in pieces ==> exists tag :: tag in tags && Labelled(p, tag, slot)
  }

  lemma LabelsApart(p: Piece, a: Label, q: Piece, b: Label, slot: Slot)
    requires Labelled(p, a, slot) && Labelled(q, b, slot) && a != b
    ensures Apart(p, q)
  {
  }

  /** Adds a piece under a label that is not taken. */
  lemma ReadyAdd(n: Network, pieces: seq<Piece>, tags: set<Label>, p: Piece, tag: Label, slot: Slot)
    requires Ready(n, pieces) && AllLabelled(pieces, tags, slot)
    requires FitsNetwork(n, p) && Labelled(p, tag, slot) && tag !in tags
    ensures Ready(n, pieces + [p]) && AllLabelled(pieces + [p], tags + {tag}, slot)
  {
    hide Ready, FitsNetwork, Apart, Labelled;
    forall q | q in pieces ensures Apart(q, p) && Apart(p, q) {
      var other :| other in tags && Labelled(q, other, slot);
      LabelsApart(q, other, p, tag, slot);
      LabelsApart(p, tag, q, other, slot);
    }
    ReadySnoc(n, pieces, p);
    forall q | q in pieces + [p] ensures exists l :: l in tags + {tag} && Labelled(q, l, slot) {
      if q in pieces {
        var other :| other in tags && Labelled(q, other, slot);
        assert other in tags + {tag};
      } else {
        assert tag in tags + {tag};
      }
    }
  }

  lemma ReadyAddTwo(
    n: Network, pieces: seq<Piece>, tags: set<Label>, p: Piece, a: Label, q: Piece, b: Label, slot: Slot)
    requires Ready(n, pieces) && AllLabelled(pieces, tags, slot)
    requires FitsNetwork(n, p) && Labelled(p, a, slot) && a !in tags
    requires FitsNetwork(n, q) && Labelled(q, b, slot) && b !in tags && a != b
    ensures Ready(n, pieces + [p, q]) && AllLabelled(pieces + [p, q], tags + {a, b}, slot)
  {
    hide Ready, FitsNetwork, Labelled, AllLabelled;
    ReadyAdd(n, pieces, tags, p, a, slot);
    ReadyAdd(n, pieces + [p], tags + {a}, q, b, slot);
    assert pieces + [p] + [q] == pieces + [p, q] && tags + {a} + {b} == tags + {a, b};
  }

  lemma ReadyPolicy(
    n: Network, pieces: seq<Piece>, tags: set<Label>, family: IpFamily, allocation: ResourceCandidate, device: string,
    local: bool, slot: Slot)
    requires Free(n, slot, allocation) && Ready(n, pieces) && AllLabelled(pieces, tags, slot)
    requires RouteLabel(family) !in tags && RuleLabel(family) !in tags
    ensures Ready(n, pieces + PolicyPieces(family, allocation, device, local))
    ensures AllLabelled(pieces + PolicyPieces(family, allocation, device, local),
                        tags + {RouteLabel(family), RuleLabel(family)}, slot)
  {
    hide Ready, AllLabelled;
    ReadyAddTwo(n, pieces, tags, RoutePiece(family, allocation.routeTable, device, local), RouteLabel(family),
                RulePiece(family, allocation.mark, allocation.mask, allocation.routeTable, allocation.rulePriority),
                RuleLabel(family), slot);
  }

  lemma FreeTables(n: Network, slot: Slot, allocation: ResourceCandidate, family: IpFamily, table: Table)
    requires Free(n, slot, allocation)
    ensures FreeTable(TableOf(n, family, table), slot, table)
  {
  }

  lemma CaptureShapes(
    family: IpFamily, slot: Slot, policy: CapturePolicy, allocation: ResourceCandidate, port: nat, owner: Owner,
    scope: Option<seq<string>>)
    ensures var s := TproxySection(family, slot, policy, allocation, port, owner, scope);
            s.family == family && s.table == Mangle && s.creates == [Owned(Out, slot), Owned(Pre, slot), Owned(Div, slot)]
    ensures var s := DnsSection(family, slot, policy, allocation, owner, scope);
            s.family == family && s.table == Filter && s.creates == [Owned(Dns, slot)]
  {
    hide OnChain, OutHead, OutBody, PreBody, DivChain, DnsChain;
  }

  lemma CaptureFits(
    n: Network, family: IpFamily, slot: Slot, policy: CapturePolicy, allocation: ResourceCandidate, port: nat, owner: Owner,
    scope: Option<seq<string>>)
    requires Free(n, slot, allocation)
    ensures var s := SectionPiece(TproxySection(family, slot, policy, allocation, port, owner, scope));
            FitsNetwork(n, s) && Labelled(s, SectionLabel(family, Mangle, Out), slot)
    ensures var s := SectionPiece(DnsSection(family, slot, policy, allocation, owner, scope));
            FitsNetwork(n, s) && Labelled(s, SectionLabel(family, Filter, Dns), slot)
  {
    hide Fits, Free, FreeTable, TproxySection, DnsSection;
    FreeTables(n, slot, allocation, family, Mangle);
    FreeTables(n, slot, allocation, family, Filter);
    CaptureShapes(family, slot, policy, allocation, port, owner, scope);
    TproxyFits(TableOf(n, family, Mangle), family, slot, policy, allocation, port, owner, scope);
    DnsFits(TableOf(n, family, Filter), family, slot, policy, allocation, owner, scope);
  }

  lemma ReadyCapture(
    n: Network, pieces: seq<Piece>, tags: set<Label>, family: IpFamily, slot: Slot, policy: CapturePolicy,
    allocation: ResourceCandidate, port: nat, owner: Owner, scope: Option<seq<string>>)
    requires Free(n, slot, allocation) && Ready(n, pieces) && AllLabelled(pieces, tags, slot)
    requires SectionLabel(family, Mangle, Out) !in tags && SectionLabel(family, Filter, Dns) !in tags
    ensures var more := [SectionPiece(TproxySection(family, slot, policy, allocation, port, owner, scope)),
                         SectionPiece(DnsSection(family, slot, policy, allocation, owner, scope))];
            && Ready(n, pieces + more)
            && AllLabelled(pieces + more, tags + {SectionLabel(family, Mangle, Out), SectionLabel(family, Filter, Dns)}, slot)
  {
    hide Ready, AllLabelled, Free, FitsNetwork, Labelled, TproxySection, DnsSection;
    CaptureFits(n, family, slot, policy, allocation, port, owner, scope);
    ReadyAddTwo(n, pieces, tags,
                SectionPiece(TproxySection(family, slot, policy, allocation, port, owner, scope)), SectionLabel(family, Mangle, Out),
                SectionPiece(DnsSection(family, slot, policy, allocation, owner, scope)), SectionLabel(family, Filter, Dns), slot);
  }

  lemma ReadyTunnel(
    n: Network, pieces: seq<Piece>, tags: set<Label>, family: IpFamily, slot: Slot, policy: CapturePolicy,
    allocation: ResourceCandidate, owner: Owner, scope: Option<seq<string>>)
    requires Free(n, slot, allocation) && Ready(n, pieces) && AllLabelled(pieces, tags, slot)
    requires SectionLabel(family, Mangle, Tun) !in tags && SectionLabel(family, Filter, Dns) !in tags
    ensures var more := [SectionPiece(TunSection(family, slot, policy, allocation, owner, scope)),
                         SectionPiece(DnsSection(family, slot, policy, allocation, owner, scope))];
            && Ready(n, pieces + more)
            && AllLabelled(pieces + more, tags + {SectionLabel(family, Mangle, Tun), SectionLabel(family, Filter, Dns)}, slot)
  {
    hide Ready, AllLabelled, OnChain, Fits;
    TunFits(TableOf(n, family, Mangle), family, slot, policy, allocation, owner, scope);
    DnsFits(TableOf(n, family, Filter), family, slot, policy, allocation, owner, scope);
    ReadyAddTwo(n, pieces, tags,
                SectionPiece(TunSection(family, slot, policy, allocation, owner, scope)), SectionLabel(family, Mangle, Tun),
                SectionPiece(DnsSection(family, slot, policy, allocation, owner, scope)), SectionLabel(family, Filter, Dns), slot);
  }

  lemma ReadyForward(
    n: Network, pieces: seq<Piece>, tags: set<Label>, slot: Slot, policy: CapturePolicy, allocation: ResourceCandidate,
    port: nat, forwarding: seq<string>, owner: Owner)
    requires Free(n, slot, allocation) && Ready(n, pieces) && AllLabelled(pieces, tags, slot)
    requires SectionLabel(Ipv4, Mangle, Fwd) !in tags && SectionLabel(Ipv6, Filter, Fwd6) !in tags
    ensures var more := [SectionPiece(FwdSection(slot, policy, allocation, port, forwarding, owner)),
                         SectionPiece(Fwd6Section(slot, forwarding, owner))];
            && Ready(n, pieces + more)
            && AllLabelled(pieces + more, tags + {SectionLabel(Ipv4, Mangle, Fwd), SectionLabel(Ipv6, Filter, Fwd6)}, slot)
  {
    hide Ready, AllLabelled, OnChain, Fits;
    FwdFits(TableOf(n, Ipv4, Mangle), slot, policy, allocation, port, forwarding, owner);
    Fwd6Fits(TableOf(n, Ipv6, Filter), slot, forwarding, owner);
    ReadyAddTwo(n, pieces, tags,
                SectionPiece(FwdSection(slot, policy, allocation, port, forwarding, owner)), SectionLabel(Ipv4, Mangle, Fwd),
                SectionPiece(Fwd6Section(slot, forwarding, owner)), SectionLabel(Ipv6, Filter, Fwd6), slot);
  }

  function BeginningLabels(): set<Label> {
    {SectionLabel(Ipv6, Filter, V6Guard), RouteLabel(Ipv4), RuleLabel(Ipv4), RouteLabel(Ipv6), RuleLabel(Ipv6)}
  }

  lemma MoreLabels(pieces: seq<Piece>, tags: set<Label>, more: set<Label>, slot: Slot)
    requires AllLabelled(pieces, tags, slot) && tags <= more
    ensures AllLabelled(pieces, more, slot)
  {
    hide Labelled;
    forall p | p in pieces ensures exists tag :: tag in more && Labelled(p, tag, slot) {
      var tag :| tag in tags && Labelled(p, tag, slot);
      assert tag in more;
    }
  }

  lemma ReadyBeginning(
    n: Network, slot: Slot, policy: CapturePolicy, allocation: ResourceCandidate, owner: Owner, ipv6: Ipv6Handling,
    device: string, local: bool)
    requires Free(n, slot, allocation)
    ensures Ready(n, Beginning(slot, policy, allocation, owner, ipv6, device, local))
    ensures AllLabelled(Beginning(slot, policy, allocation, owner, ipv6, device, local), BeginningLabels(), slot)
  {
    hide Ready, OnChain, GuardChain, BlockChain, Fits, PolicyPieces;
    assert forall family, table :: FreeTable(TableOf(n, family, table), slot, table);
    ReadyNone(n);
    var done: seq<Piece>, tags: set<Label> := [], {};
    assert AllLabelled(done, tags, slot);
    hide AllLabelled;
    if ipv6.Ipv6Guarded? {
      GuardFits(TableOf(n, Ipv6, Filter), slot, policy, owner);
      var p := SectionPiece(GuardSection(slot, policy, owner));
      ReadyAdd(n, done, tags, p, SectionLabel(Ipv6, Filter, V6Guard), slot);
      assert [] + [p] == [p];
      done, tags := [p], {SectionLabel(Ipv6, Filter, V6Guard)};
    }
    ReadyPolicy(n, done, tags, Ipv4, allocation, device, local, slot);
    done, tags := done + PolicyPieces(Ipv4, allocation, device, local), tags + {RouteLabel(Ipv4), RuleLabel(Ipv4)};
    if ipv6.Ipv6Captured? {
      ReadyPolicy(n, done, tags, Ipv6, allocation, device, local, slot);
      tags := tags + {RouteLabel(Ipv6), RuleLabel(Ipv6)};
    } else {
      assert done + [] == done;
    }
    MoreLabels(Beginning(slot, policy, allocation, owner, ipv6, device, local), tags, BeginningLabels(), slot);
  }

  /** A TPROXY plan is ready on every network that does not use its names yet. */
  lemma TproxyReady(
    n: Network, generation: nat, slot: Slot, policy: CapturePolicy, allocation: ResourceCandidate, port: nat,
    scope: Option<seq<string>>, forwarding: seq<string>, ipv6: Ipv6Handling)
    requires Free(n, slot, allocation)
    ensures Ready(n, TproxyPieces(generation, slot, policy, allocation, port, scope, forwarding, ipv6))
  {
    hide Ready, AllLabelled, TproxySection, DnsSection, FwdSection, Fwd6Section, GuardSection, PolicyPieces, Beginning, Free;
    var owner, forwardOwner := LocalOwner(generation), ForwardOwner(generation);
    ReadyBeginning(n, slot, policy, allocation, owner, ipv6, "lo", true);
    var done, tags := Beginning(slot, policy, allocation, owner, ipv6, "lo", true), BeginningLabels();
    ReadyCapture(n, done, tags, Ipv4, slot, policy, allocation, port, owner, scope);
    done := done + [SectionPiece(TproxySection(Ipv4, slot, policy, allocation, port, owner, scope)),
                    SectionPiece(DnsSection(Ipv4, slot, policy, allocation, owner, scope))];
    tags := tags + {SectionLabel(Ipv4, Mangle, Out), SectionLabel(Ipv4, Filter, Dns)};
    var forward := if forwarding != [] then
                     [SectionPiece(FwdSection(slot, policy, allocation, port, forwarding, forwardOwner)),
                      SectionPiece(Fwd6Section(slot, forwarding, forwardOwner))]
                   else [];
    if forwarding != [] {
      ReadyForward(n, done, tags, slot, policy, allocation, port, forwarding, forwardOwner);
      tags := tags + {SectionLabel(Ipv4, Mangle, Fwd), SectionLabel(Ipv6, Filter, Fwd6)};
    } else {
      assert done + [] == done;
    }
    done := done + forward;
    if ipv6.Ipv6Captured? {
      ReadyCapture(n, done, tags, Ipv6, slot, policy, allocation, port, owner, scope);
    } else {
      assert done + [] == done;
    }
  }

  /** A TUN plan is ready on every network that does not use its names yet. */
  lemma TunReady(
    n: Network, generation: nat, slot: Slot, policy: CapturePolicy, allocation: ResourceCandidate,
    scope: Option<seq<string>>, ipv6: Ipv6Handling)
    requires Free(n, slot, allocation)
    ensures Ready(n, TunPieces(generation, slot, policy, allocation, scope, ipv6))
  {
    hide Ready, AllLabelled, TunSection, DnsSection, GuardSection, PolicyPieces, Beginning, Free;
    var owner := TunOwner(generation);
    ReadyBeginning(n, slot, policy, allocation, owner, ipv6, "nethop0", false);
    var done, tags := Beginning(slot, policy, allocation, owner, ipv6, "nethop0", false), BeginningLabels();
    ReadyTunnel(n, done, tags, Ipv4, slot, policy, allocation, owner, scope);
    done := done + [SectionPiece(TunSection(Ipv4, slot, policy, allocation, owner, scope)),
                    SectionPiece(DnsSection(Ipv4, slot, policy, allocation, owner, scope))];
    tags := tags + {SectionLabel(Ipv4, Mangle, Tun), SectionLabel(Ipv4, Filter, Dns)};
    if ipv6.Ipv6Captured? {
      ReadyTunnel(n, done, tags, Ipv6, slot, policy, allocation, owner, scope);
    } else {
      assert done + [] == done;
    }
  }
}
