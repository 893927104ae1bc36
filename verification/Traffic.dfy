/** What packets meet on a network with a plan installed.

    NetHop appends its hooks, so rules of other programs on the same built-in chain run first.  Each theorem says what
    happens to a packet that those rules let continue; any other packet fares exactly as it would without the plan. */
module Traffic {
  import opened Wrappers
  import opened Netfilter
  import opened Capture
  import opened Capability
  import opened Plan
  import opened PlanFacts
  import opened Tables
  import opened KernelState
  import opened PlanReady
  import opened PacketPaths

  /** A packet enters a built-in chain. */
  function Traverse(chains: Chains, chain: ChainName, p: Packet, mark: bv32): Scanned
    requires chain in chains
  {
    Scan(chains - {chain}, chains[chain], p, mark)
  }

  // ----- rules of other programs -----

  /** `a` and `b` hold the same chains among `known`, and these call only one another. */
  ghost predicate Agree(a: Chains, b: Chains, known: set<ChainName>) {
    forall c: ChainName :: c in known ==> (c in a <==> c in b) && (c in a ==> a[c] == b[c] && JumpsInto(a[c], known))
  }

  ghost predicate JumpsInto(rules: seq<Rule>, known: set<ChainName>) {
    forall r :: r in rules && r.target.Jump? ==> r.target.chain in known
  }

  lemma {:induction false} ScanAgree(a: Chains, b: Chains, known: set<ChainName>, rules: seq<Rule>, p: Packet, mark: bv32)
    requires Agree(a, b, known) && JumpsInto(rules, known)
    ensures Scan(a, rules, p, mark) == Scan(b, rules, p, mark)
    decreases |a|, |rules|
  {
    if rules != [] {
      assert rules[0] in rules;
      if !Applies(rules[0], p, mark) {
        ScanAgree(a, b, known, rules[1..], p, mark);
      } else {
        match rules[0].target
        case SetXMark(value, mask) => ScanAgree(a, b, known, rules[1..], p, XMark(mark, value, mask));
        case Jump(chain) =>
          if chain !in a {
            ScanAgree(a, b, known, rules[1..], p, mark);
          } else {
            assert (a - {chain}).Keys == a.Keys - {chain};
            ScanAgree(a - {chain}, b - {chain}, known, a[chain], p, mark);
            ScanAgree(a, b, known, rules[1..], p, Scan(a - {chain}, a[chain], p, mark).mark);
          }
        case _ =>
      }
    }
  }

  /** The chains of a table that programs have made, NetHop's other slot included. */
  function MadeChains(chains: Chains): set<ChainName> {
    set c | c in chains && !BuiltIn(c)
  }

  /** Installing sections leaves every chain that was there as it was, but for hooks on built-in ones. */
  lemma SectionsLeaveMade(chains: Chains, sections: seq<Section>, c: ChainName)
    requires AllFit(chains, sections) && c in MadeChains(chains)
    ensures AllRules(sections, c) == [] && c !in AllCreates(sections)
  {
    forall i | 0 <= i < |sections| ensures c !in sections[i].creates {
      assert Fits(chains, sections[i]);
    }
    forall i, r | 0 <= i < |sections| ensures Appended(c, r) !in sections[i].appends {
      assert Fits(chains, sections[i]);
    }
    if AllRules(sections, c) != [] {
      var i := AllRulesFrom(sections, c, AllRules(sections, c)[0]);
    }
  }

  /** The rules already on a built-in chain act as they did; then come the hooks. */
  lemma ForeignRulesFirst(chains: Chains, sections: seq<Section>, hook: ChainName, p: Packet, mark: bv32)
    requires AllFit(chains, sections)
    requires hook in chains && BuiltIn(hook)
    ensures hook in WithSections(chains, sections)
    ensures var table := WithSections(chains, sections);
            var before := Traverse(chains, hook, p, mark);
            Traverse(table, hook, p, mark) ==
            if before.Continue? then Scan(table - {hook}, AllRules(sections, hook), p, before.mark) else before
  {
    var table, known := WithSections(chains, sections), MadeChains(chains);
    WithSectionsAt(chains, sections, hook);
    ScanAppend(table - {hook}, chains[hook], AllRules(sections, hook), p, mark);
    assert Agree(table - {hook}, chains - {hook}, known) by {
      forall c: ChainName | c in known
        ensures c in table && table[c] == chains[c] && JumpsInto(table[c], known)
      {
        SectionsLeaveMade(chains, sections, c);
        WithSectionsAt(chains, sections, c);
        assert chains[c] + [] == chains[c];
      }
    }
    ScanAgree(table - {hook}, chains - {hook}, known, chains[hook], p, mark);
  }

  /** One unconditional hook: run the chain; its RETURN goes on behind the hook. */
  lemma ScanHook(chains: Chains, owner: Owner, chain: ChainName, rest: seq<Rule>, p: Packet, mark: bv32)
    requires chain in chains
    ensures Scan(chains, [HookRule(owner, chain)] + rest, p, mark) ==
            var inner := Scan(chains - {chain}, chains[chain], p, mark);
            if inner.Decided? then inner else Scan(chains, rest, p, inner.mark)
  {
    assert ([HookRule(owner, chain)] + rest)[1..] == rest;
    Applies1(Commented(owner), Jump(chain), p, mark);
  }

  /** What a section's own chain holds once it is installed. */
  lemma OwnChain(chains: Chains, a: seq<Section>, s: Section, b: seq<Section>, c: ChainName)
    requires AllFit(chains, a + [s] + b) && c in s.creates
    ensures c in WithSections(chains, a + [s] + b)
    ensures WithSections(chains, a + [s] + b)[c] == RulesOn(s.appends, c)
  {
    SplitKeys(chains, a, s, b);
    assert c in Elements(s.creates);
    SplitRules(chains, a, s, b, c);
    WithSectionsAt(chains, a + [s] + b, c);
    assert [] + RulesOn(s.appends, c) + [] == RulesOn(s.appends, c);
  }

  // ----- the sections of a plan, table by table -----

  function Own(p: Piece, family: IpFamily, table: Table): seq<Section> {
    if OnTable(p, family, table) then [p.section] else []
  }

  lemma SectionsTwo(p: Piece, q: Piece, family: IpFamily, table: Table)
    ensures SectionsOn([p, q], family, table) == Own(p, family, table) + Own(q, family, table)
  {
    assert [p, q][1..] == [q] && [q][1..] == [];
    assert SectionsOn([q], family, table) == Own(q, family, table) + SectionsOn([q][1..], family, table);
    assert SectionsOn([p, q], family, table) == Own(p, family, table) + SectionsOn([p, q][1..], family, table);
  }

  lemma SectionsPolicy(f: IpFamily, allocation: ResourceCandidate, device: string, local: bool, family: IpFamily, table: Table)
    ensures SectionsOn(PolicyPieces(f, allocation, device, local), family, table) == []
  {
    SectionsTwo(RoutePiece(f, allocation.routeTable, device, local),
                RulePiece(f, allocation.mark, allocation.mask, allocation.routeTable, allocation.rulePriority), family, table);
  }

  lemma SectionsBeginning(
    slot: Slot, policy: CapturePolicy, allocation: ResourceCandidate, owner: Owner, ipv6: Ipv6Handling, device: string,
    local: bool, family: IpFamily, table: Table)
    ensures SectionsOn(Beginning(slot, policy, allocation, owner, ipv6, device, local), family, table) ==
            if ipv6.Ipv6Guarded? && family == Ipv6 && table == Filter then [GuardSection(slot, policy, owner)] else []
  {
    hide PolicyPieces, OnChain;
    var guard := if ipv6.Ipv6Guarded? then [SectionPiece(GuardSection(slot, policy, owner))] else [];
    var policy4 := PolicyPieces(Ipv4, allocation, device, local);
    var policy6 := if ipv6.Ipv6Captured? then PolicyPieces(Ipv6, allocation, device, local) else [];
    SectionsConcat(guard + policy4, policy6, family, table);
    SectionsConcat(guard, policy4, family, table);
    SectionsPolicy(Ipv4, allocation, device, local, family, table);
    SectionsPolicy(Ipv6, allocation, device, local, family, table);
    NoSections(family, table);
    if ipv6.Ipv6Guarded? { assert guard[1..] == []; }
  }

  /** What a TPROXY plan puts on each table, in order. */
  function TproxySectionsOn(
    generation: nat, slot: Slot, policy: CapturePolicy, allocation: ResourceCandidate, port: nat,
    scope: Option<seq<string>>, forwarding: seq<string>, ipv6: Ipv6Handling, family: IpFamily, table: Table): seq<Section>
  {
    var owner, forwardOwner := LocalOwner(generation), ForwardOwner(generation);
    match (family, table)
    case (Ipv4, Mangle) =>
      [TproxySection(Ipv4, slot, policy, allocation, port, owner, scope)]
      + (if forwarding != [] then [FwdSection(slot, policy, allocation, port, forwarding, forwardOwner)] else [])
    case (Ipv4, Filter) => [DnsSection(Ipv4, slot, policy, allocation, owner, scope)]
    case (Ipv6, Mangle) =>
      if ipv6.Ipv6Captured? then [TproxySection(Ipv6, slot, policy, allocation, port, owner, scope)] else []
    case (Ipv6, Filter) =>
      (if ipv6.Ipv6Guarded? then [GuardSection(slot, policy, owner)] else [])
      + (if forwarding != [] then [Fwd6Section(slot, forwarding, forwardOwner)] else [])
      + (if ipv6.Ipv6Captured? then [DnsSection(Ipv6, slot, policy, allocation, owner, scope)] else [])
  }

  /** The pair of sections that captures one family. */
  lemma SectionsPair(s: Section, t: Section, family: IpFamily, table: Table)
    requires s.family == t.family && s.table == Mangle && t.table == Filter
    ensures SectionsOn([SectionPiece(s), SectionPiece(t)], family, table) ==
            if s.family != family then [] else if table == Mangle then [s] else [t]
  {
    SectionsTwo(SectionPiece(s), SectionPiece(t), family, table);
  }

  lemma SectionsForward(s: Section, t: Section, family: IpFamily, table: Table)
    requires s.family == Ipv4 && t.family == Ipv6 && s.table == Mangle && t.table == Filter
    ensures SectionsOn([SectionPiece(s), SectionPiece(t)], family, table) ==
            if family == Ipv4 && table == Mangle then [s] else if family == Ipv6 && table == Filter then [t] else []
  {
    SectionsTwo(SectionPiece(s), SectionPiece(t), family, table);
  }

  /** The three parts behind the beginning of a plan. */
  lemma SectionsParts(a: seq<Piece>, b: seq<Piece>, c: seq<Piece>, d: seq<Piece>, family: IpFamily, table: Table)
    ensures SectionsOn(a + b + c + d, family, table) ==
            SectionsOn(a, family, table) + SectionsOn(b, family, table) + SectionsOn(c, family, table) + SectionsOn(d, family, table)
  {
    hide SectionsOn;
    SectionsConcat(a + b + c, d, family, table);
    SectionsConcat(a + b, c, family, table);
    SectionsConcat(a, b, family, table);
  }

  /** The parts of a TPROXY plan, sorted by table. */
  lemma SectionsSorted(
    start: seq<Piece>, t4: Section, d4: Section, forward: seq<Piece>, f4: Section, f6: Section, six: seq<Piece>,
    t6: Section, d6: Section, family: IpFamily, table: Table)
    requires t4.family == d4.family == Ipv4 && t6.family == d6.family == Ipv6
    requires t4.table == t6.table == f4.table == Mangle && d4.table == d6.table == f6.table == Filter
    requires f4.family == Ipv4 && f6.family == Ipv6
    requires forward == [] || forward == [SectionPiece(f4), SectionPiece(f6)]
    requires six == [] || six == [SectionPiece(t6), SectionPiece(d6)]
    ensures SectionsOn(start + [SectionPiece(t4), SectionPiece(d4)] + forward + six, family, table) ==
            SectionsOn(start, family, table)
            + (match (family, table)
               case (Ipv4, Mangle) => [t4] + (if forward != [] then [f4] else [])
               case (Ipv4, Filter) => [d4]
               case (Ipv6, Mangle) => if six != [] then [t6] else []
               case (Ipv6, Filter) => (if forward != [] then [f6] else []) + (if six != [] then [d6] else []))
  {
    hide SectionsOn;
    SectionsPair(t4, d4, family, table);
    SectionsPair(t6, d6, family, table);
    SectionsForward(f4, f6, family, table);
    NoSections(family, table);
    SectionsParts(start, [SectionPiece(t4), SectionPiece(d4)], forward, six, family, table);
  }

  lemma SectionPlaces(
    slot: Slot, policy: CapturePolicy, allocation: ResourceCandidate, port: nat, owner: Owner,
    scope: Option<seq<string>>, forwarding: seq<string>, forwardOwner: Owner)
    ensures forall family ::
      var t := TproxySection(family, slot, policy, allocation, port, owner, scope);
      t.family == family && t.table == Mangle
    ensures forall family ::
      var d := DnsSection(family, slot, policy, allocation, owner, scope);
      d.family == family && d.table == Filter
    ensures var f := FwdSection(slot, policy, allocation, port, forwarding, forwardOwner);
      f.family == Ipv4 && f.table == Mangle
    ensures var f := Fwd6Section(slot, forwarding, forwardOwner);
      f.family == Ipv6 && f.table == Filter
  {
    hide OnChain;
  }

  lemma TproxySectionsAre(
    generation: nat, slot: Slot, policy: CapturePolicy, allocation: ResourceCandidate, port: nat,
    scope: Option<seq<string>>, forwarding: seq<string>, ipv6: Ipv6Handling, family: IpFamily, table: Table)
    ensures SectionsOn(TproxyPieces(generation, slot, policy, allocation, port, scope, forwarding, ipv6), family, table) ==
            TproxySectionsOn(generation, slot, policy, allocation, port, scope, forwarding, ipv6, family, table)
  {
    hide OnChain, SectionsOn, Beginning, TproxySection, DnsSection, FwdSection, Fwd6Section, GuardSection;
    var owner, forwardOwner := LocalOwner(generation), ForwardOwner(generation);
    SectionPlaces(slot, policy, allocation, port, owner, scope, forwarding, forwardOwner);
    var t4, d4 := TproxySection(Ipv4, slot, policy, allocation, port, owner, scope), DnsSection(Ipv4, slot, policy, allocation, owner, scope);
    var t6, d6 := TproxySection(Ipv6, slot, policy, allocation, port, owner, scope), DnsSection(Ipv6, slot, policy, allocation, owner, scope);
    var f4, f6 := FwdSection(slot, policy, allocation, port, forwarding, forwardOwner), Fwd6Section(slot, forwarding, forwardOwner);
    var forward := if forwarding != [] then [SectionPiece(f4), SectionPiece(f6)] else [];
    var six := if ipv6.Ipv6Captured? then [SectionPiece(t6), SectionPiece(d6)] else [];
    var start := Beginning(slot, policy, allocation, owner, ipv6, "lo", true);
    SectionsSorted(start, t4, d4, forward, f4, f6, six, t6, d6, family, table);
    SectionsBeginning(slot, policy, allocation, owner, ipv6, "lo", true, family, table);
  }

  /** What a TUN plan that captures IPv6 puts on each table. */
  function TunSectionsOn(
    generation: nat, slot: Slot, policy: CapturePolicy, allocation: ResourceCandidate, scope: Option<seq<string>>,
    family: IpFamily, table: Table): seq<Section>
  {
    if table == Mangle then [TunSection(family, slot, policy, allocation, TunOwner(generation), scope)]
    else [DnsSection(family, slot, policy, allocation, TunOwner(generation), scope)]
  }

  lemma TunSectionsAre(
    generation: nat, slot: Slot, policy: CapturePolicy, allocation: ResourceCandidate, scope: Option<seq<string>>,
    family: IpFamily, table: Table)
    ensures SectionsOn(TunPieces(generation, slot, policy, allocation, scope, Ipv6Captured), family, table) ==
            TunSectionsOn(generation, slot, policy, allocation, scope, family, table)
  {
    hide OnChain, PolicyPieces;
    var owner := TunOwner(generation);
    var start := Beginning(slot, policy, allocation, owner, Ipv6Captured, "nethop0", false);
    var t4, d4 := SectionPiece(TunSection(Ipv4, slot, policy, allocation, owner, scope)),
                  SectionPiece(DnsSection(Ipv4, slot, policy, allocation, owner, scope));
    var t6, d6 := SectionPiece(TunSection(Ipv6, slot, policy, allocation, owner, scope)),
                  SectionPiece(DnsSection(Ipv6, slot, policy, allocation, owner, scope));
    SectionsConcat(start + [t4, d4], [t6, d6], family, table);
    SectionsConcat(start, [t4, d4], family, table);
    SectionsBeginning(slot, policy, allocation, owner, Ipv6Captured, "nethop0", false, family, table);
    hide SectionsOn;
    SectionsTwo(t4, d4, family, table);
    SectionsTwo(t6, d6, family, table);
  }

  // ----- hooks of a section on a built-in chain -----

  lemma SingleHooks(hook: ChainName, hooks: seq<Rule>, chain: ChainName, rules: seq<Rule>, at: ChainName)
    requires chain != at
    ensures RulesOn(OnChain(hook, hooks) + OnChain(chain, rules), at) == if hook == at then hooks else []
  {
    RulesOnConcat(OnChain(hook, hooks), OnChain(chain, rules), at);
    RulesOnOnChain(hook, hooks, at);
    RulesOnOnChain(chain, rules, at);
  }

  /** A section's hook among others: foreign rules, then the chain it hooks, then what later sections hook. */
  lemma HookedChain(
    chains: Chains, a: seq<Section>, s: Section, b: seq<Section>, hook: ChainName, owner: Owner, chain: ChainName,
    p: Packet, mark: bv32)
    requires AllFit(chains, a + [s] + b)
    requires hook in chains && BuiltIn(hook) && chain in s.creates
    requires AllRules(a, hook) == [] && RulesOn(s.appends, hook) == [HookRule(owner, chain)]
    ensures hook in WithSections(chains, a + [s] + b)
    ensures var table := WithSections(chains, a + [s] + b);
            var before := Traverse(chains, hook, p, mark);
            var inner := Scan(table - {hook} - {chain}, RulesOn(s.appends, chain), p, before.mark);
            Traverse(table, hook, p, mark) ==
            if !before.Continue? then before
            else if inner.Decided? then inner
            else Scan(table - {hook}, AllRules(b, hook), p, inner.mark)
  {
    hide Scan, WithSections, AllFit, AllRules, RulesOn, Closed, Traverse;
    var table := WithSections(chains, a + [s] + b);
    assert hook != chain by { OwnedNotBuiltIn(chains, a, s, b, chain); }
    ForeignRulesFirst(chains, a + [s] + b, hook, p, mark);
    SplitRules(chains, a, s, b, hook);
    OwnChain(chains, a, s, b, chain);
    assert [] + [HookRule(owner, chain)] + AllRules(b, hook) == [HookRule(owner, chain)] + AllRules(b, hook);
    ScanHook(table - {hook}, owner, chain, AllRules(b, hook), p, Traverse(chains, hook, p, mark).mark);
  }

  lemma OwnedNotBuiltIn(chains: Chains, a: seq<Section>, s: Section, b: seq<Section>, chain: ChainName)
    requires AllFit(chains, a + [s] + b) && chain in s.creates
    ensures chain.Owned?
  {
    assert (a + [s] + b)[|a|] == s;
    assert Fits(chains, s);
  }

  // ----- theorems -----

  /** The network with a TPROXY plan on it. */
  function TproxyNetwork(
    n: Network, generation: nat, slot: Slot, policy: CapturePolicy, allocation: ResourceCandidate, port: nat,
    scope: Option<seq<string>>, forwarding: seq<string>, ipv6: Ipv6Handling): Network
  {
    Installed(n, TproxyPieces(generation, slot, policy, allocation, port, scope, forwarding, ipv6))
  }

  function TunNetwork(
    n: Network, generation: nat, slot: Slot, policy: CapturePolicy, allocation: ResourceCandidate,
    scope: Option<seq<string>>): Network
  {
    Installed(n, TunPieces(generation, slot, policy, allocation, scope, Ipv6Captured))
  }

  lemma TproxyTable(
    n: Network, generation: nat, slot: Slot, policy: CapturePolicy, allocation: ResourceCandidate, port: nat,
    scope: Option<seq<string>>, forwarding: seq<string>, ipv6: Ipv6Handling, family: IpFamily, table: Table)
    requires Free(n, slot, allocation)
    ensures var sections := TproxySectionsOn(generation, slot, policy, allocation, port, scope, forwarding, ipv6, family, table);
            && TableOf(TproxyNetwork(n, generation, slot, policy, allocation, port, scope, forwarding, ipv6), family, table) ==
               WithSections(TableOf(n, family, table), sections)
            && AllFit(TableOf(n, family, table), sections)
    ensures FreeTable(TableOf(n, family, table), slot, table)
  {
    hide WithSections, AllFit, SectionsOn, TproxySectionsOn, TproxyPieces, FreeTable;
    TproxySectionsAre(generation, slot, policy, allocation, port, scope, forwarding, ipv6, family, table);
    TproxyReady(n, generation, slot, policy, allocation, port, scope, forwarding, ipv6);
    FreeTables(n, slot, allocation, family, table);
  }

  lemma TunTable(
    n: Network, generation: nat, slot: Slot, policy: CapturePolicy, allocation: ResourceCandidate,
    scope: Option<seq<string>>, family: IpFamily, table: Table)
    requires Free(n, slot, allocation)
    ensures var sections := TunSectionsOn(generation, slot, policy, allocation, scope, family, table);
            && TableOf(TunNetwork(n, generation, slot, policy, allocation, scope), family, table) ==
               WithSections(TableOf(n, family, table), sections)
            && AllFit(TableOf(n, family, table), sections)
    ensures FreeTable(TableOf(n, family, table), slot, table)
  {
    hide WithSections, AllFit, SectionsOn, TunSectionsOn, TunPieces, FreeTable;
    TunSectionsAre(generation, slot, policy, allocation, scope, family, table);
    TunReady(n, generation, slot, policy, allocation, scope, Ipv6Captured);
    FreeTables(n, slot, allocation, family, table);
  }

  /** How the output chain of a TPROXY plan disposes of a packet with mark `mark`. */
  ghost predicate TproxyOutput(
    family: IpFamily, policy: CapturePolicy, allocation: ResourceCandidate, scope: Option<seq<string>>, p: Packet,
    mark: bv32, result: Scanned)
  {
    if Bypasses(policy, allocation, mark) then Passes(result, mark)
    else if p.reply then result == Decided(Accepted, mark)
    else Passes(result, Remark(allocation, mark, TproxyCaptures(family, policy, scope, p)))
  }

  /** Compiler correctness on the installed network, outgoing packets of a TPROXY plan. */
  lemma TproxyOutgoing(
    n: Network, generation: nat, slot: Slot, policy: CapturePolicy, allocation: ResourceCandidate, port: nat,
    scope: Option<seq<string>>, forwarding: seq<string>, ipv6: Ipv6Handling, family: IpFamily, p: Packet, mark: bv32)
    requires Free(n, slot, allocation) && policy.Valid() && allocation.Valid()
    requires family == Ipv4 || ipv6.Ipv6Captured?
    ensures var after := TableOf(TproxyNetwork(n, generation, slot, policy, allocation, port, scope, forwarding, ipv6), family, Mangle);
            && Output in TableOf(n, family, Mangle) && Output in after
            && var before := Traverse(TableOf(n, family, Mangle), Output, p, mark);
               var result := Traverse(after, Output, p, mark);
               if before.Continue? then TproxyOutput(family, policy, allocation, scope, p, before.mark, result)
               else result == before
  {
    var owner := LocalOwner(generation);
    var base := TableOf(n, family, Mangle);
    TproxyTable(n, generation, slot, policy, allocation, port, scope, forwarding, ipv6, family, Mangle);
    var s, later := TproxyMangle(generation, slot, policy, allocation, port, scope, forwarding, ipv6, family);
    hide WithSections, AllFit, TproxySectionsOn, OutChain, TproxyNetwork, Traverse, Free, AllRules, RulesOn;
    OutgoingOnTable(base, s, later, owner, slot, family, policy, allocation, scope, p, mark);
  }

  /** The mangle table of a captured family: the TPROXY section, then forwarding if there is any. */
  lemma TproxyMangle(
    generation: nat, slot: Slot, policy: CapturePolicy, allocation: ResourceCandidate, port: nat,
    scope: Option<seq<string>>, forwarding: seq<string>, ipv6: Ipv6Handling, family: IpFamily)
    returns (s: Section, later: seq<Section>)
    requires family == Ipv4 || ipv6.Ipv6Captured?
    ensures TproxySectionsOn(generation, slot, policy, allocation, port, scope, forwarding, ipv6, family, Mangle) == [] + [s] + later
    ensures s.creates == [Owned(Out, slot), Owned(Pre, slot), Owned(Div, slot)]
    ensures RulesOn(s.appends, Output) == [HookRule(LocalOwner(generation), Owned(Out, slot))]
    ensures RulesOn(s.appends, Prerouting) == [HookRule(LocalOwner(generation), Owned(Pre, slot))]
    ensures RulesOn(s.appends, Owned(Out, slot)) == OutChain(family, policy, allocation, scope)
    ensures RulesOn(s.appends, Owned(Pre, slot)) == PreChain(policy, allocation, port, Owned(Div, slot))
    ensures RulesOn(s.appends, Owned(Div, slot)) == DivChain(allocation)
    ensures AllRules(later, Output) == []
    ensures AllRules(later, Prerouting) ==
            if family == Ipv4 then ForwardJumps(forwarding, ForwardOwner(generation), Owned(Fwd, slot)) else []
  {
    hide OnChain;
    TproxyOutputHooks(generation, slot, policy, allocation, port, scope, forwarding, family);
    s := TproxySection(family, slot, policy, allocation, port, LocalOwner(generation), scope);
    var fwd := FwdSection(slot, policy, allocation, port, forwarding, ForwardOwner(generation));
    later := if family == Ipv4 && forwarding != [] then [fwd] else [];
  }

  lemma OutgoingOnTable(
    base: Chains, s: Section, later: seq<Section>, owner: Owner, slot: Slot, family: IpFamily, policy: CapturePolicy,
    allocation: ResourceCandidate, scope: Option<seq<string>>, p: Packet, mark: bv32)
    requires AllFit(base, [] + [s] + later) && Output in base
    requires policy.Valid() && allocation.Valid()
    requires Owned(Out, slot) in s.creates && RulesOn(s.appends, Output) == [HookRule(owner, Owned(Out, slot))]
    requires RulesOn(s.appends, Owned(Out, slot)) == OutChain(family, policy, allocation, scope)
    requires AllRules(later, Output) == []
    ensures Output in WithSections(base, [] + [s] + later)
    ensures var before := Traverse(base, Output, p, mark);
            var result := Traverse(WithSections(base, [] + [s] + later), Output, p, mark);
            if before.Continue? then TproxyOutput(family, policy, allocation, scope, p, before.mark, result)
            else result == before
  {
    hide Scan, WithSections, AllFit, OutChain, Traverse, RulesOn;
    NoRules(Output);
    var chain := Owned(Out, slot);
    HookedChain(base, [], s, later, Output, owner, chain, p, mark);
    var table := WithSections(base, [] + [s] + later);
    var before := Traverse(base, Output, p, mark);
    OutChainMeetsPolicy(table - {Output} - {chain}, family, policy, allocation, scope, p, before.mark);
    var inner := Scan(table - {Output} - {chain}, OutChain(family, policy, allocation, scope), p, before.mark);
    ScanNil(table - {Output}, p, inner.mark);
  }

  lemma TproxyOutputHooks(
    generation: nat, slot: Slot, policy: CapturePolicy, allocation: ResourceCandidate, port: nat,
    scope: Option<seq<string>>, forwarding: seq<string>, family: IpFamily)
    ensures var owner := LocalOwner(generation);
            var s := TproxySection(family, slot, policy, allocation, port, owner, scope);
            var fwd := FwdSection(slot, policy, allocation, port, forwarding, ForwardOwner(generation));
            && RulesOn(s.appends, Output) == [HookRule(owner, Owned(Out, slot))]
            && RulesOn(s.appends, Prerouting) == [HookRule(owner, Owned(Pre, slot))]
            && RulesOn(s.appends, Owned(Out, slot)) == OutChain(family, policy, allocation, scope)
            && RulesOn(s.appends, Owned(Pre, slot)) == PreChain(policy, allocation, port, Owned(Div, slot))
            && RulesOn(s.appends, Owned(Div, slot)) == DivChain(allocation)
            && AllRules([fwd], Output) == []
            && AllRules([fwd], Prerouting) == ForwardJumps(forwarding, ForwardOwner(generation), Owned(Fwd, slot))
            && AllRules([], Output) == [] && AllRules([], Prerouting) == []
  {
    var owner, forwardOwner := LocalOwner(generation), ForwardOwner(generation);
    TproxyChains(family, slot, policy, allocation, port, owner, scope);
    TproxyPicks(family, slot, policy, allocation, port, owner, scope, Output);
    TproxyPicks(family, slot, policy, allocation, port, owner, scope, Prerouting);
    var chain := Owned(Fwd, slot);
    SingleHooks(Prerouting, ForwardJumps(forwarding, forwardOwner, chain), chain, FwdChain(policy, allocation, port), Output);
    SingleHooks(Prerouting, ForwardJumps(forwarding, forwardOwner, chain), chain, FwdChain(policy, allocation, port), Prerouting);
    hide RulesOn, OnChain, OutHead, OutBody, PreBody, DivChain, OutChain, PreChain, ForwardJumps, FwdChain;
    AllCreatesOne(FwdSection(slot, policy, allocation, port, forwarding, forwardOwner));
  }

  // ----- packets coming in -----

  predicate FromInterface(interfaces: seq<string>, name: string) {
    exists i :: 0 <= i < |interfaces| && InterfaceMatches(interfaces[i], name)
  }

  /** The jumps of tethered interfaces: the forwarding chain decides, or the packet goes on as it was. */
  lemma {:induction false} ScanForwardJumps(
    chains: Chains, interfaces: seq<string>, owner: Owner, chain: ChainName, policy: CapturePolicy,
    allocation: ResourceCandidate, port: nat, p: Packet, mark: bv32)
    requires chain in chains && chains[chain] == FwdChain(policy, allocation, port)
    ensures Scan(chains, ForwardJumps(interfaces, owner, chain), p, mark) ==
            var outcome := FwdOutcome(policy, allocation, port, p, mark);
            if FromInterface(interfaces, p.iif) && outcome.Decided? then outcome else Continue(mark)
  {
    hide Scan, FwdChain, FwdOutcome;
    ScanNil(chains, p, mark);
    if interfaces != [] {
      var init, last := interfaces[..|interfaces| - 1], interfaces[|interfaces| - 1];
      ScanForwardJumps(chains, init, owner, chain, policy, allocation, port, p, mark);
      ScanAppend(chains, ForwardJumps(init, owner, chain), [Rule([OnInput(last), Commented(owner)], Jump(chain))], p, mark);
      ScanJump(chains, last, owner, chain, p, mark);
      FwdChainMeetsPolicy(chains - {chain}, policy, allocation, port, p, mark);
      FromSnoc(interfaces, p.iif);
    }
  }

  lemma ScanJump(chains: Chains, name: string, owner: Owner, chain: ChainName, p: Packet, mark: bv32)
    requires chain in chains
    ensures Scan(chains, [Rule([OnInput(name), Commented(owner)], Jump(chain))], p, mark) ==
            var inner := Scan(chains - {chain}, chains[chain], p, mark);
            if !InterfaceMatches(name, p.iif) then Continue(mark)
            else if inner.Decided? then inner
            else Continue(inner.mark)
  {
    var rule := Rule([OnInput(name), Commented(owner)], Jump(chain));
    assert [rule][1..] == [];
    Applies2(OnInput(name), Commented(owner), Jump(chain), p, mark);
  }

  lemma FromSnoc(interfaces: seq<string>, name: string)
    requires interfaces != []
    ensures FromInterface(interfaces, name) <==>
            FromInterface(interfaces[..|interfaces| - 1], name) || InterfaceMatches(interfaces[|interfaces| - 1], name)
  {
    ScopeSnoc(interfaces, name);
    assert InScope(Some(interfaces), name) == FromInterface(interfaces, name);
    assert InScope(Some(interfaces[..|interfaces| - 1]), name) == FromInterface(interfaces[..|interfaces| - 1], name);
  }

  /** What NetHop's chains do with a packet that enters with mark `mark`. */
  function TproxyInput(
    family: IpFamily, policy: CapturePolicy, allocation: ResourceCandidate, port: nat, forwarding: seq<string>, p: Packet,
    mark: bv32): Scanned
  {
    var pre := PreOutcome(policy, allocation, port, p, mark);
    var fwd := FwdOutcome(policy, allocation, port, p, mark);
    if pre.Decided? then pre
    else if family == Ipv4 && FromInterface(forwarding, p.iif) && fwd.Decided? then fwd
    else Continue(mark)
  }

  /** The same on one table, given what its sections hold. */
  lemma IncomingOnTable(
    base: Chains, s: Section, later: seq<Section>, owner: Owner, slot: Slot, family: IpFamily, policy: CapturePolicy,
    allocation: ResourceCandidate, port: nat, forwarding: seq<string>, forwardOwner: Owner, p: Packet, mark: bv32)
    requires AllFit(base, [] + [s] + later) && Prerouting in base
    requires s.creates == [Owned(Out, slot), Owned(Pre, slot), Owned(Div, slot)]
    requires RulesOn(s.appends, Prerouting) == [HookRule(owner, Owned(Pre, slot))]
    requires RulesOn(s.appends, Owned(Pre, slot)) == PreChain(policy, allocation, port, Owned(Div, slot))
    requires RulesOn(s.appends, Owned(Div, slot)) == DivChain(allocation)
    requires AllRules(later, Prerouting) == if family == Ipv4 then ForwardJumps(forwarding, forwardOwner, Owned(Fwd, slot)) else []
    requires family == Ipv4 && forwarding != [] ==>
               Owned(Fwd, slot) in WithSections(base, [] + [s] + later) &&
               WithSections(base, [] + [s] + later)[Owned(Fwd, slot)] == FwdChain(policy, allocation, port)
    ensures Prerouting in WithSections(base, [] + [s] + later)
    ensures var before := Traverse(base, Prerouting, p, mark);
            var result := Traverse(WithSections(base, [] + [s] + later), Prerouting, p, mark);
            var expected := TproxyInput(family, policy, allocation, port, forwarding, p, before.mark);
            result == if before.Continue? then expected else before
  {
    hide Scan, WithSections, AllFit, Traverse, RulesOn, PreChain, DivChain, FwdChain, PreOutcome, FwdOutcome, AllRules;
    var table := WithSections(base, [] + [s] + later);
    var chain, divert := Owned(Pre, slot), Owned(Div, slot);
    var before := Traverse(base, Prerouting, p, mark);
    NoRules(Prerouting);
    HookedChain(base, [], s, later, Prerouting, owner, chain, p, mark);
    OwnChain(base, [], s, later, divert);
    PreChainMeetsPolicy(table - {Prerouting} - {chain}, policy, allocation, port, divert, p, before.mark);
    if family == Ipv4 && forwarding != [] {
      ScanForwardJumps(table - {Prerouting}, forwarding, forwardOwner, Owned(Fwd, slot), policy, allocation, port, p, before.mark);
    } else {
      ScanNil(table - {Prerouting}, p, before.mark);
      assert forwarding == [] ==> !FromInterface(forwarding, p.iif);
    }
  }

  /** Incoming packets of a TPROXY plan: replies pass, established transparent sockets are kept, marked packets of a
      proxied transport or of port 53 reach the listener, and tethered packets are handled by the forwarding chain. */
  lemma TproxyIncoming(
    n: Network, generation: nat, slot: Slot, policy: CapturePolicy, allocation: ResourceCandidate, port: nat,
    scope: Option<seq<string>>, forwarding: seq<string>, ipv6: Ipv6Handling, family: IpFamily, p: Packet, mark: bv32)
    requires Free(n, slot, allocation) && (family == Ipv4 || ipv6.Ipv6Captured?)
    ensures var after := TableOf(TproxyNetwork(n, generation, slot, policy, allocation, port, scope, forwarding, ipv6), family, Mangle);
            && Prerouting in TableOf(n, family, Mangle) && Prerouting in after
            && var before := Traverse(TableOf(n, family, Mangle), Prerouting, p, mark);
               Traverse(after, Prerouting, p, mark) ==
               if before.Continue? then TproxyInput(family, policy, allocation, port, forwarding, p, before.mark) else before
  {
    var owner := LocalOwner(generation);
    var base := TableOf(n, family, Mangle);
    TproxyTable(n, generation, slot, policy, allocation, port, scope, forwarding, ipv6, family, Mangle);
    var s, later := TproxyMangle(generation, slot, policy, allocation, port, scope, forwarding, ipv6, family);
    if family == Ipv4 && forwarding != [] {
      ForwardChainInstalled(base, generation, slot, policy, allocation, port, scope, forwarding, ipv6);
    }
    hide WithSections, AllFit, TproxySectionsOn, TproxyNetwork, Traverse, Free, AllRules, RulesOn, TproxyInput, PreChain, FwdChain, ForwardJumps;
    IncomingOnTable(base, s, later, owner, slot, family, policy, allocation, port, forwarding, ForwardOwner(generation), p, mark);
  }

  lemma ForwardChainInstalled(
    base: Chains, generation: nat, slot: Slot, policy: CapturePolicy, allocation: ResourceCandidate, port: nat,
    scope: Option<seq<string>>, forwarding: seq<string>, ipv6: Ipv6Handling)
    requires forwarding != []
    requires AllFit(base, TproxySectionsOn(generation, slot, policy, allocation, port, scope, forwarding, ipv6, Ipv4, Mangle))
    ensures var table := WithSections(base, TproxySectionsOn(generation, slot, policy, allocation, port, scope, forwarding, ipv6, Ipv4, Mangle));
            Owned(Fwd, slot) in table && table[Owned(Fwd, slot)] == FwdChain(policy, allocation, port)
  {
    hide WithSections, AllFit, OnChain, RulesOn, TproxySection, FwdChain;
    var s := TproxySection(Ipv4, slot, policy, allocation, port, LocalOwner(generation), scope);
    var fwd := FwdSection(slot, policy, allocation, port, forwarding, ForwardOwner(generation));
    assert [s] + [fwd] + [] == [s] + [fwd];
    OwnChain(base, [s], fwd, [], Owned(Fwd, slot));
    SingleChainFacts(Prerouting, ForwardJumps(forwarding, ForwardOwner(generation), Owned(Fwd, slot)), Owned(Fwd, slot),
                     FwdChain(policy, allocation, port));
  }

  /** End-to-end delivery: a packet that the output chain captured and that comes back on the loopback interface with
      its mark is kept by its transparent socket or handed to the listener, if its transport is proxied or it is DNS.
      `q` is the packet as it re-enters. */
  lemma TproxyDelivery(
    n: Network, generation: nat, slot: Slot, policy: CapturePolicy, allocation: ResourceCandidate, port: nat,
    scope: Option<seq<string>>, forwarding: seq<string>, ipv6: Ipv6Handling, family: IpFamily,
    p: Packet, mark: bv32, q: Packet)
    requires Free(n, slot, allocation) && policy.Valid() && allocation.Valid() && (family == Ipv4 || ipv6.Ipv6Captured?)
    requires Output in TableOf(n, family, Mangle) && Prerouting in TableOf(n, family, Mangle)
    requires var left := Traverse(TableOf(n, family, Mangle), Output, p, mark);
             left.Continue? && !Bypasses(policy, allocation, left.mark)
    requires !p.reply && TproxyCaptures(family, policy, scope, p) && (PlainDns(p) || TransportProxied(policy, p))
    requires q.protocol == p.protocol && q.dport == p.dport && !q.reply && q.iif == "lo"
    ensures var base, after := TableOf(n, family, Mangle), TableOf(TproxyNetwork(n, generation, slot, policy, allocation, port, scope, forwarding, ipv6), family, Mangle);
            && Output in after && Prerouting in after
            && var sent := Traverse(after, Output, p, mark);
               && !sent.Decided? && Marked(allocation, sent.mark)
               && sent.mark == XMark(Traverse(base, Output, p, mark).mark, allocation.mark, allocation.mask)
               && var arrived := Traverse(base, Prerouting, q, sent.mark);
                  arrived.Continue? && Marked(allocation, arrived.mark) ==>
                    Traverse(after, Prerouting, q, sent.mark) ==
                    if q.protocol == Tcp && policy.proxyTcp && q.transparentSocket
                    then Decided(Accepted, arrived.mark) else Decided(Proxied(port), arrived.mark)
  {
    hide Traverse, TproxyNetwork, Free, XMark, MarkMatches, TproxyCaptures, Bypasses, TproxyInput;
    TproxyOutgoing(n, generation, slot, policy, allocation, port, scope, forwarding, ipv6, family, p, mark);
    var base := TableOf(n, family, Mangle);
    var sent := XMark(Traverse(base, Output, p, mark).mark, allocation.mark, allocation.mask);
    XMarkSets(Traverse(base, Output, p, mark).mark, allocation.mark, allocation.mask);
    TproxyIncoming(n, generation, slot, policy, allocation, port, scope, forwarding, ipv6, family, q, sent);
    if Marked(allocation, Traverse(base, Prerouting, q, sent).mark) {
      DeliveredInput(family, policy, allocation, port, forwarding, q, Traverse(base, Prerouting, q, sent).mark);
    }
  }

  lemma DeliveredInput(
    family: IpFamily, policy: CapturePolicy, allocation: ResourceCandidate, port: nat, forwarding: seq<string>, q: Packet,
    mark: bv32)
    requires Marked(allocation, mark) && !q.reply && (PlainDns(q) || TransportProxied(policy, q))
    ensures TproxyInput(family, policy, allocation, port, forwarding, q, mark) ==
            if q.protocol == Tcp && policy.proxyTcp && q.transparentSocket
            then Decided(Accepted, mark) else Decided(Proxied(port), mark)
  {
    XMarkFixed(mark, allocation.mark, allocation.mask);
    hide XMark, MarkMatches;
  }

  // ----- name lookups -----

  /** The filter table of a captured family. */
  lemma TproxyFilter(
    generation: nat, slot: Slot, policy: CapturePolicy, allocation: ResourceCandidate, port: nat,
    scope: Option<seq<string>>, forwarding: seq<string>, ipv6: Ipv6Handling, family: IpFamily)
    returns (earlier: seq<Section>, s: Section)
    requires family == Ipv4 || ipv6.Ipv6Captured?
    ensures TproxySectionsOn(generation, slot, policy, allocation, port, scope, forwarding, ipv6, family, Filter) ==
            earlier + [s] + []
    ensures s == DnsSection(family, slot, policy, allocation, LocalOwner(generation), scope)
    ensures AllRules(earlier, Output) == []
  {
    s := DnsSection(family, slot, policy, allocation, LocalOwner(generation), scope);
    var chain := Owned(Fwd6, slot);
    var fwd := Fwd6Section(slot, forwarding, ForwardOwner(generation));
    earlier := if family == Ipv6 && forwarding != [] then [fwd] else [];
    SingleHooks(Forward, ForwardJumps(forwarding, ForwardOwner(generation), chain), chain, [Rule([], Drop)], Output);
    AllCreatesOne(fwd);
    NoRules(Output);
    hide OnChain, RulesOn, AllRules, DnsSection;
  }

  /** The DNS guard on one table: it drops exactly the leaking lookups that other programs' rules let continue. */
  lemma DnsOnTable(
    base: Chains, earlier: seq<Section>, family: IpFamily, slot: Slot, policy: CapturePolicy,
    allocation: ResourceCandidate, owner: Owner, scope: Option<seq<string>>, p: Packet, mark: bv32)
    requires var s := DnsSection(family, slot, policy, allocation, owner, scope);
             AllFit(base, earlier + [s] + []) && Output in base && AllRules(earlier, Output) == []
    ensures var table := WithSections(base, earlier + [DnsSection(family, slot, policy, allocation, owner, scope)] + []);
            && Output in table
            && var before := Traverse(base, Output, p, mark);
               var result := Traverse(table, Output, p, mark);
               if !before.Continue? then result == before
               else if DnsLeak(policy, allocation, scope, p, before.mark) then result == Decided(Dropped, before.mark)
               else Passes(result, before.mark)
  {
    var s := DnsSection(family, slot, policy, allocation, owner, scope);
    var chain := Owned(Dns, slot);
    SingleChainFacts(Output, [HookRule(owner, chain)], chain, DnsChain(policy, allocation, scope));
    SingleHooks(Output, [HookRule(owner, chain)], chain, DnsChain(policy, allocation, scope), Output);
    hide Scan, WithSections, AllFit, DnsChain, Traverse, RulesOn, OnChain, DnsLeak;
    HookedChain(base, earlier, s, [], Output, owner, chain, p, mark);
    var table := WithSections(base, earlier + [s] + []);
    var before := Traverse(base, Output, p, mark);
    DnsChainDropsExactlyLeaks(table - {Output} - {chain}, policy, allocation, scope, p, before.mark);
    var inner := Scan(table - {Output} - {chain}, DnsChain(policy, allocation, scope), p, before.mark);
    NoRules(Output);
    ScanNil(table - {Output}, p, inner.mark);
  }

  /** A lookup that was not dropped is on its way to the proxy or comes from the core itself. */
  ghost predicate NoLeak(policy: CapturePolicy, allocation: ResourceCandidate, foreign: Scanned, result: Scanned) {
    foreign.Continue? && result != Decided(Dropped, foreign.mark) ==>
      Passes(result, foreign.mark) && (Marked(allocation, foreign.mark) || foreign.mark == BypassMark(policy))
  }

  /** A lookup on its way through both OUTPUT tables, `mangle0` and `filter0` before and `mangle` and `filter` with a
      plan installed.  If it survives it carries the capture mark or the bypass mark; while it carries the capture mark
      it is not dropped; and a fresh port-53 lookup that no bypass lets through is given that mark. */
  ghost predicate LookupGuarded(
    mangle0: Chains, mangle: Chains, filter0: Chains, filter: Chains, policy: CapturePolicy, allocation: ResourceCandidate,
    p: Packet, mark: bv32)
  {
    && Output in mangle0 && Output in mangle && Output in filter0 && Output in filter
    && var left, marked := Traverse(mangle0, Output, p, mark), Traverse(mangle, Output, p, mark);
       var foreign := Traverse(filter0, Output, p, marked.mark);
       var result := Traverse(filter, Output, p, marked.mark);
       && NoLeak(policy, allocation, foreign, result)
       && (foreign.Continue? && Marked(allocation, foreign.mark) ==> Passes(result, foreign.mark))
       && (left.Continue? && PlainDns(p) && !p.reply && !Bypasses(policy, allocation, left.mark) ==>
             !marked.Decided? && Marked(allocation, marked.mark))
  }

  /** DNS, TPROXY plan: every lookup on an in-scope interface is guarded. */
  lemma TproxyDns(
    n: Network, generation: nat, slot: Slot, policy: CapturePolicy, allocation: ResourceCandidate, port: nat,
    scope: Option<seq<string>>, forwarding: seq<string>, ipv6: Ipv6Handling, family: IpFamily, p: Packet, mark: bv32)
    requires Free(n, slot, allocation) && policy.Valid() && allocation.Valid() && (family == Ipv4 || ipv6.Ipv6Captured?)
    requires (PlainDns(p) || DnsOverTls(p)) && p.oif != "lo" && InScope(scope, p.oif)
    ensures var installed := TproxyNetwork(n, generation, slot, policy, allocation, port, scope, forwarding, ipv6);
            LookupGuarded(TableOf(n, family, Mangle), TableOf(installed, family, Mangle),
                          TableOf(n, family, Filter), TableOf(installed, family, Filter), policy, allocation, p, mark)
  {
    hide Traverse, TproxyNetwork, Free, XMark, MarkMatches, Bypasses, WithSections, AllFit, TproxySectionsOn, AllRules, DnsSection, InScope;
    TproxyOutgoing(n, generation, slot, policy, allocation, port, scope, forwarding, ipv6, family, p, mark);
    var installed := TproxyNetwork(n, generation, slot, policy, allocation, port, scope, forwarding, ipv6);
    var marked := Traverse(TableOf(installed, family, Mangle), Output, p, mark);
    TproxyTable(n, generation, slot, policy, allocation, port, scope, forwarding, ipv6, family, Filter);
    var earlier, s := TproxyFilter(generation, slot, policy, allocation, port, scope, forwarding, ipv6, family);
    DnsOnTable(TableOf(n, family, Filter), earlier, family, slot, policy, allocation, LocalOwner(generation), scope, p, marked.mark);
    XMarkSets(Traverse(TableOf(n, family, Mangle), Output, p, mark).mark, allocation.mark, allocation.mask);
  }

  // ----- TUN plans -----

  ghost predicate TunOutput(
    policy: CapturePolicy, allocation: ResourceCandidate, scope: Option<seq<string>>, p: Packet, mark: bv32, result: Scanned)
  {
    if Bypasses(policy, allocation, mark) || p.oif == "lo" then Passes(result, mark)
    else if p.reply then result == Decided(Accepted, mark)
    else Passes(result, Remark(allocation, mark, TunCaptures(policy, scope, p)))
  }

  lemma TunOnTable(
    base: Chains, family: IpFamily, slot: Slot, policy: CapturePolicy, allocation: ResourceCandidate, owner: Owner,
    scope: Option<seq<string>>, p: Packet, mark: bv32)
    requires policy.Valid() && allocation.Valid()
    requires AllFit(base, [] + [TunSection(family, slot, policy, allocation, owner, scope)] + []) && Output in base
    ensures var table := WithSections(base, [] + [TunSection(family, slot, policy, allocation, owner, scope)] + []);
            && Output in table
            && var before := Traverse(base, Output, p, mark);
               var result := Traverse(table, Output, p, mark);
               if before.Continue? then TunOutput(policy, allocation, scope, p, before.mark, result) else result == before
  {
    var s := TunSection(family, slot, policy, allocation, owner, scope);
    var chain := Owned(Tun, slot);
    SingleChainFacts(Output, [HookRule(owner, chain)], chain, TunChain(policy, allocation, scope));
    SingleHooks(Output, [HookRule(owner, chain)], chain, TunChain(policy, allocation, scope), Output);
    hide Scan, WithSections, AllFit, TunChain, Traverse, RulesOn, OnChain, Bypasses, TunCaptures;
    NoRules(Output);
    HookedChain(base, [], s, [], Output, owner, chain, p, mark);
    var table := WithSections(base, [] + [s] + []);
    var before := Traverse(base, Output, p, mark);
    TunChainMeetsPolicy(table - {Output} - {chain}, policy, allocation, scope, p, before.mark);
    var inner := Scan(table - {Output} - {chain}, TunChain(policy, allocation, scope), p, before.mark);
    ScanNil(table - {Output}, p, inner.mark);
  }

  /** Compiler correctness on the installed network, outgoing packets of a TUN plan, either family; and its DNS guard. */
  lemma TunOutgoing(
    n: Network, generation: nat, slot: Slot, policy: CapturePolicy, allocation: ResourceCandidate,
    scope: Option<seq<string>>, family: IpFamily, p: Packet, mark: bv32)
    requires Free(n, slot, allocation) && policy.Valid() && allocation.Valid()
    ensures var after := TableOf(TunNetwork(n, generation, slot, policy, allocation, scope), family, Mangle);
            && Output in TableOf(n, family, Mangle) && Output in after
            && var before := Traverse(TableOf(n, family, Mangle), Output, p, mark);
               var result := Traverse(after, Output, p, mark);
               if before.Continue? then TunOutput(policy, allocation, scope, p, before.mark, result) else result == before
  {
    hide Traverse, TunNetwork, Free, WithSections, AllFit, TunSection, TunOutput;
    TunTable(n, generation, slot, policy, allocation, scope, family, Mangle);
    var s := TunSection(family, slot, policy, allocation, TunOwner(generation), scope);
    assert [] + [s] + [] == [s];
    TunOnTable(TableOf(n, family, Mangle), family, slot, policy, allocation, TunOwner(generation), scope, p, mark);
  }

  /** DNS, TUN plan: a lookup on an in-scope interface that survives the guard carries the capture mark or the bypass
      mark. */
  lemma TunDns(
    n: Network, generation: nat, slot: Slot, policy: CapturePolicy, allocation: ResourceCandidate,
    scope: Option<seq<string>>, family: IpFamily, p: Packet, mark: bv32)
    requires Free(n, slot, allocation)
    requires (PlainDns(p) || DnsOverTls(p)) && p.oif != "lo" && InScope(scope, p.oif)
    ensures var after := TableOf(TunNetwork(n, generation, slot, policy, allocation, scope), family, Filter);
            && Output in TableOf(n, family, Filter) && Output in after
            && var foreign := Traverse(TableOf(n, family, Filter), Output, p, mark);
               var result := Traverse(after, Output, p, mark);
               NoLeak(policy, allocation, foreign, result)
  {
    hide Traverse, TunNetwork, Free, WithSections, AllFit, DnsSection, InScope, MarkMatches;
    TunTable(n, generation, slot, policy, allocation, scope, family, Filter);
    var s := DnsSection(family, slot, policy, allocation, TunOwner(generation), scope);
    assert [] + [s] + [] == [s];
    NoRules(Output);
    DnsOnTable(TableOf(n, family, Filter), [], family, slot, policy, allocation, TunOwner(generation), scope, p, mark);
  }

  // ----- the IPv6 guard -----

  /** The guard on one table: two chains that drop captured senders on their way to non-local destinations. */
  lemma GuardOnTable(
    base: Chains, later: seq<Section>, slot: Slot, policy: CapturePolicy, owner: Owner, p: Packet, mark: bv32)
    requires policy.Valid() && Output in base
    requires AllFit(base, [] + [GuardSection(slot, policy, owner)] + later) && AllRules(later, Output) == []
    ensures var table := WithSections(base, [] + [GuardSection(slot, policy, owner)] + later);
            && Output in table
            && var before := Traverse(base, Output, p, mark);
               var result := Traverse(table, Output, p, mark);
               if !before.Continue? then result == before
               else if Selected(policy, p.owner) && !InAny(p.dst, LocalV6()) then result == Decided(Dropped, before.mark)
               else Passes(result, before.mark)
  {
    var s := GuardSection(slot, policy, owner);
    var guard, block := Owned(V6Guard, slot), Owned(V6Block, slot);
    assert s.creates == [guard, block];
    GuardFacts(slot, policy, owner);
    GuardOutputHook(slot, policy, owner);
    hide Scan, WithSections, AllFit, GuardSection, GuardChain, BlockChain, Traverse, RulesOn, OnChain, LocalV6, InAny, Selected, AllRules;
    NoRules(Output);
    HookedChain(base, [], s, later, Output, owner, guard, p, mark);
    OwnChain(base, [], s, later, block);
    var table := WithSections(base, [] + [s] + later);
    var before := Traverse(base, Output, p, mark);
    GuardDropsExactlyCaptured(table - {Output} - {guard}, policy, block, p, before.mark);
    var inner := Scan(table - {Output} - {guard}, GuardChain(policy, block), p, before.mark);
    ScanNil(table - {Output}, p, inner.mark);
  }

  lemma GuardOutputHook(slot: Slot, policy: CapturePolicy, owner: Owner)
    ensures RulesOn(GuardSection(slot, policy, owner).appends, Output) == [HookRule(owner, Owned(V6Guard, slot))]
  {
    var guard, block := Owned(V6Guard, slot), Owned(V6Block, slot);
    hide RulesOn, OnChain, GuardChain, BlockChain;
    TakeBlock(Output, [HookRule(owner, guard)], OnChain(guard, GuardChain(policy, block)) + OnChain(block, BlockChain()), Output);
    TakeBlock(guard, GuardChain(policy, block), OnChain(block, BlockChain()), Output);
    RulesOnOnChain(block, BlockChain(), Output);
  }

  /** IPv6 without TPROXY support: the installed guard drops exactly the packets of captured senders that leave for a
      non-local destination. */
  lemma Ipv6Guard(
    n: Network, generation: nat, slot: Slot, policy: CapturePolicy, allocation: ResourceCandidate, port: nat,
    scope: Option<seq<string>>, forwarding: seq<string>, p: Packet, mark: bv32)
    requires Free(n, slot, allocation) && policy.Valid()
    ensures var after := TproxyNetwork(n, generation, slot, policy, allocation, port, scope, forwarding, Ipv6Guarded).filter6;
            && Output in n.filter6 && Output in after
            && var before := Traverse(n.filter6, Output, p, mark);
               var result := Traverse(after, Output, p, mark);
               if !before.Continue? then result == before
               else if Selected(policy, p.owner) && !InAny(p.dst, LocalV6()) then result == Decided(Dropped, before.mark)
               else Passes(result, before.mark)
  {
    hide Traverse, Free, WithSections, AllFit, GuardSection, LocalV6, InAny, Selected, AllRules, TproxySectionsOn, TproxyNetwork;
    TproxyTable(n, generation, slot, policy, allocation, port, scope, forwarding, Ipv6Guarded, Ipv6, Filter);
    var later := GuardFilter(generation, slot, policy, allocation, port, scope, forwarding);
    GuardOnTable(n.filter6, later, slot, policy, LocalOwner(generation), p, mark);
  }

  lemma GuardFilter(
    generation: nat, slot: Slot, policy: CapturePolicy, allocation: ResourceCandidate, port: nat,
    scope: Option<seq<string>>, forwarding: seq<string>) returns (later: seq<Section>)
    ensures TproxySectionsOn(generation, slot, policy, allocation, port, scope, forwarding, Ipv6Guarded, Ipv6, Filter) ==
            [] + [GuardSection(slot, policy, LocalOwner(generation))] + later
    ensures AllRules(later, Output) == []
  {
    var chain := Owned(Fwd6, slot);
    var fwd := Fwd6Section(slot, forwarding, ForwardOwner(generation));
    SingleHooks(Forward, ForwardJumps(forwarding, ForwardOwner(generation), chain), chain, [Rule([], Drop)], Output);
    AllCreatesOne(fwd);
    NoRules(Output);
    later := if forwarding != [] then [fwd] else [];
    hide RulesOn, AllRules, OnChain, GuardSection, Fwd6Section;
  }
}
