/** Where packets go once they are marked: policy rules, routing tables, and the two pieces a plan adds to them. */
module Routing {
  import opened Wrappers
  import opened Netfilter
  import opened Capture
  import opened Capability
  import opened Plan
  import opened KernelState
  import opened PlanReady
  import opened PacketPaths
  import opened Traffic

  // ----- the kernel's lookup -----

  /** What rules and routes see of a packet besides its mark.  A rule without further conditions holds for every
      packet, and a default route reaches every destination. */
  datatype View = View(selects: string -> bool, reaches: Route -> bool) {
    ghost predicate Valid() {
      selects("") && forall r: Route :: r.DefaultRoute? ==> reaches(r)
    }
  }

  predicate Takes(e: PolicyEntry, mark: bv32, view: View) {
    MarkMatches(mark, e.mark, e.mask) && view.selects(e.selector)
  }

  /** The routes of one table that lead to the packet's destination. */
  function RoutesIn(routes: set<Route>, family: IpFamily, table: nat, view: View): set<Route> {
    set r | r in routes && r.family == family && r.routeTable == table && view.reaches(r)
  }

  /** The first rule that takes the packet and whose table knows a way decides; `{}` if there is none. */
  function Ways(routes: set<Route>, family: IpFamily, rules: seq<PolicyEntry>, mark: bv32, view: View): set<Route> {
    if rules == [] then {}
    else if Takes(rules[0], mark, view) && RoutesIn(routes, family, rules[0].routeTable, view) != {} then
      RoutesIn(routes, family, rules[0].routeTable, view)
    else Ways(routes, family, rules[1..], mark, view)
  }

  /** The ways a packet with a mark may leave a network. */
  function WaysOut(n: Network, family: IpFamily, mark: bv32, view: View): set<Route> {
    Ways(n.routes, family, RulesOf(n, family), mark, view)
  }

  /** The rules that are asked before a rule of the given priority. */
  function Before(rules: seq<PolicyEntry>, priority: nat): seq<PolicyEntry> {
    if rules == [] || rules[0].priority > priority then [] else [rules[0]] + Before(rules[1..], priority)
  }

  /** The rest of them. */
  function Behind(rules: seq<PolicyEntry>, priority: nat): seq<PolicyEntry> {
    if rules == [] || rules[0].priority > priority then rules else Behind(rules[1..], priority)
  }

  lemma {:induction false} InsertBetween(rules: seq<PolicyEntry>, e: PolicyEntry)
    ensures InsertRule(rules, e) == Before(rules, e.priority) + ([e] + Behind(rules, e.priority))
    ensures rules == Before(rules, e.priority) + Behind(rules, e.priority)
  {
    if rules != [] && rules[0].priority <= e.priority {
      InsertBetween(rules[1..], e);
    }
  }

  lemma {:induction false} WaysAppend(
    routes: set<Route>, family: IpFamily, a: seq<PolicyEntry>, b: seq<PolicyEntry>, mark: bv32, view: View)
    ensures Ways(routes, family, a + b, mark, view) ==
            var first := Ways(routes, family, a, mark, view);
            if first != {} then first else Ways(routes, family, b, mark, view)
  {
    if a == [] {
      assert a + b == b;
    } else {
      assert (a + b)[1..] == a[1..] + b;
      WaysAppend(routes, family, a[1..], b, mark, view);
    }
  }

  /** A route in a table that no rule asks for changes nothing. */
  lemma {:induction false} WaysUnasked(
    routes: set<Route>, more: set<Route>, family: IpFamily, rules: seq<PolicyEntry>, mark: bv32, view: View)
    requires forall r, e :: r in more && e in rules ==> r.family != family || r.routeTable != e.routeTable
    ensures Ways(routes + more, family, rules, mark, view) == Ways(routes, family, rules, mark, view)
  {
    if rules != [] {
      WaysUnasked(routes, more, family, rules[1..], mark, view);
      assert rules[0] in rules;
      assert RoutesIn(routes + more, family, rules[0].routeTable, view) == RoutesIn(routes, family, rules[0].routeTable, view);
    }
  }

  // ----- allocations -----

  /** Two masked marks that agree where both masks look. */
  predicate Overlaps(a: bv32, aMask: bv32, b: bv32, bMask: bv32) {
    var common := aMask & bMask;
    a & common == b & common
  }

  /** What the probe calls a conflict: the same priority, the same table, or an overlapping mark.  A rule without a mask
      asks for no mark. */
  predicate Conflicts(e: PolicyEntry, candidate: ResourceCandidate) {
    || e.priority == candidate.rulePriority
    || e.routeTable == candidate.routeTable
    || (e.mask != 0 && Overlaps(e.mark, e.mask, candidate.mark, candidate.mask))
  }

  ghost predicate Unclaimed(n: Network, candidate: ResourceCandidate) {
    forall family, e :: e in RulesOf(n, family) ==> !Conflicts(e, candidate)
  }

  /** Marks overlap exactly if some packet would carry both. */
  lemma OverlapMeans(a: bv32, aMask: bv32, b: bv32, bMask: bv32)
    requires Within(a, aMask) && Within(b, bMask)
    ensures Overlaps(a, aMask, b, bMask) <==> exists mark :: MarkMatches(mark, a, aMask) && MarkMatches(mark, b, bMask)
  {
    if Overlaps(a, aMask, b, bMask) {
      JointMark(a, aMask, b, bMask);
      assert MarkMatches(a | b, a, aMask) && MarkMatches(a | b, b, bMask);
    }
    forall mark | MarkMatches(mark, a, aMask) && MarkMatches(mark, b, bMask)
      ensures Overlaps(a, aMask, b, bMask)
    {
      BothOverlap(mark, a, aMask, b, bMask);
    }
  }

  lemma JointMark(a: bv32, aMask: bv32, b: bv32, bMask: bv32)
    requires Within(a, aMask) && Within(b, bMask) && Overlaps(a, aMask, b, bMask)
    ensures MarkMatches(a | b, a, aMask) && MarkMatches(a | b, b, bMask)
  {
  }

  lemma BothOverlap(mark: bv32, a: bv32, aMask: bv32, b: bv32, bMask: bv32)
    requires MarkMatches(mark, a, aMask) && MarkMatches(mark, b, bMask)
    ensures Overlaps(a, aMask, b, bMask)
  {
  }

  /** Of the rules of other programs only those that ask for no mark can take a captured packet. */
  lemma OnlyMarklessTake(n: Network, candidate: ResourceCandidate, family: IpFamily, e: PolicyEntry, mark: bv32, view: View)
    requires Unclaimed(n, candidate) && e in RulesOf(n, family)
    requires Marked(candidate, mark) && Takes(e, mark, view)
    ensures e.mask == 0
  {
    hide MarkMatches, Overlaps;
    assert !Conflicts(e, candidate);
    BothOverlap(mark, e.mark, e.mask, candidate.mark, candidate.mask);
  }

  // ----- what a plan adds -----

  function OwnRoute(family: IpFamily, allocation: ResourceCandidate, device: string, local: bool): Route {
    DefaultRoute(family, allocation.routeTable, device, local)
  }

  function OwnRule(allocation: ResourceCandidate): PolicyEntry {
    PolicyEntry(allocation.rulePriority, allocation.mark, allocation.mask, allocation.routeTable, "")
  }

  ghost predicate OnlySections(pieces: seq<Piece>) {
    forall p :: p in pieces ==> p.SectionPiece?
  }

  lemma {:induction false} SectionsAddNothing(pieces: seq<Piece>, family: IpFamily)
    requires OnlySections(pieces)
    ensures EntriesOn(pieces, family) == [] && RoutesOf(pieces) == {}
  {
    if pieces != [] {
      assert pieces[0] in pieces;
      SectionsAddNothing(pieces[1..], family);
    }
  }

  lemma PolicyAdds(f: IpFamily, allocation: ResourceCandidate, device: string, local: bool, family: IpFamily)
    ensures EntriesOn(PolicyPieces(f, allocation, device, local), family) == if f == family then [OwnRule(allocation)] else []
    ensures RoutesOf(PolicyPieces(f, allocation, device, local)) == {OwnRoute(f, allocation, device, local)}
  {
    var pieces := PolicyPieces(f, allocation, device, local);
    assert pieces[1..] == [pieces[1]] && pieces[1..][1..] == [];
    assert EntriesOn(pieces[1..], family) == OwnEntries(pieces[1], family) + EntriesOn([], family);
    assert pieces[0] in pieces;
  }

  lemma RoutesConcat(a: seq<Piece>, b: seq<Piece>)
    ensures RoutesOf(a + b) == RoutesOf(a) + RoutesOf(b)
  {
  }

  /** The beginning of a plan adds one rule for each family that is captured, and its route. */
  lemma BeginningAdds(
    slot: Slot, policy: CapturePolicy, allocation: ResourceCandidate, owner: Owner, ipv6: Ipv6Handling, device: string,
    local: bool, family: IpFamily)
    ensures var pieces := Beginning(slot, policy, allocation, owner, ipv6, device, local);
      && EntriesOn(pieces, family) == (if family == Ipv4 || ipv6.Ipv6Captured? then [OwnRule(allocation)] else [])
      && RoutesOf(pieces) == {OwnRoute(Ipv4, allocation, device, local)}
                             + if ipv6.Ipv6Captured? then {OwnRoute(Ipv6, allocation, device, local)} else {}
  {
    hide PolicyPieces, RoutesOf, EntriesOn, GuardSection;
    var guard := if ipv6.Ipv6Guarded? then [SectionPiece(GuardSection(slot, policy, owner))] else [];
    var policy4 := PolicyPieces(Ipv4, allocation, device, local);
    var policy6 := if ipv6.Ipv6Captured? then PolicyPieces(Ipv6, allocation, device, local) else [];
    EntriesConcat(guard + policy4, policy6, family);
    EntriesConcat(guard, policy4, family);
    RoutesConcat(guard + policy4, policy6);
    RoutesConcat(guard, policy4);
    SectionsAddNothing(guard, family);
    SectionsAddNothing([], family);
    PolicyAdds(Ipv4, allocation, device, local, family);
    PolicyAdds(Ipv6, allocation, device, local, family);
  }

  /** The network with a whole plan on it, as far as routing is concerned. */
  ghost predicate Routes(
    n: Network, m: Network, allocation: ResourceCandidate, ipv6: Ipv6Handling, device: string, local: bool)
  {
    && m.routes == n.routes + ({OwnRoute(Ipv4, allocation, device, local)}
                               + if ipv6.Ipv6Captured? then {OwnRoute(Ipv6, allocation, device, local)} else {})
    && m.rules4 == InsertRule(n.rules4, OwnRule(allocation))
    && m.rules6 == if ipv6.Ipv6Captured? then InsertRule(n.rules6, OwnRule(allocation)) else n.rules6
  }

  lemma PlanRoutes(
    n: Network, slot: Slot, policy: CapturePolicy, allocation: ResourceCandidate, owner: Owner, ipv6: Ipv6Handling,
    device: string, local: bool, sections: seq<Piece>)
    requires OnlySections(sections)
    ensures Routes(n, Installed(n, Beginning(slot, policy, allocation, owner, ipv6, device, local) + sections), allocation,
                   ipv6, device, local)
  {
    hide RoutesOf, EntriesOn, InstalledTable, InsertRule, Beginning;
    var start := Beginning(slot, policy, allocation, owner, ipv6, device, local);
    RoutesConcat(start, sections);
    EntriesConcat(start, sections, Ipv4);
    EntriesConcat(start, sections, Ipv6);
    SectionsAddNothing(sections, Ipv4);
    SectionsAddNothing(sections, Ipv6);
    BeginningAdds(slot, policy, allocation, owner, ipv6, device, local, Ipv4);
    BeginningAdds(slot, policy, allocation, owner, ipv6, device, local, Ipv6);
    InsertOne(n.rules4, OwnRule(allocation));
    InsertOne(n.rules6, OwnRule(allocation));
  }

  lemma InsertOne(rules: seq<PolicyEntry>, e: PolicyEntry)
    ensures InsertRules(rules, [e] + []) == InsertRule(rules, e) && InsertRules(rules, [] + []) == rules
  {
    assert [e][1..] == [] && [e] + [] == [e];
    assert InsertRules(InsertRule(rules, e), []) == InsertRule(rules, e);
  }

  lemma TproxyRoutes(
    n: Network, generation: nat, slot: Slot, policy: CapturePolicy, allocation: ResourceCandidate, port: nat,
    scope: Option<seq<string>>, forwarding: seq<string>, ipv6: Ipv6Handling)
    ensures Routes(n, TproxyNetwork(n, generation, slot, policy, allocation, port, scope, forwarding, ipv6), allocation, ipv6,
                   "lo", true)
  {
    hide Installed, Beginning, TproxySection, DnsSection, FwdSection, Fwd6Section, Routes;
    var owner, forwardOwner := LocalOwner(generation), ForwardOwner(generation);
    var start := Beginning(slot, policy, allocation, owner, ipv6, "lo", true);
    var four := [SectionPiece(TproxySection(Ipv4, slot, policy, allocation, port, owner, scope)),
                 SectionPiece(DnsSection(Ipv4, slot, policy, allocation, owner, scope))];
    var forward := if forwarding != [] then
                     [SectionPiece(FwdSection(slot, policy, allocation, port, forwarding, forwardOwner)),
                      SectionPiece(Fwd6Section(slot, forwarding, forwardOwner))]
                   else [];
    var six := if ipv6.Ipv6Captured? then
                 [SectionPiece(TproxySection(Ipv6, slot, policy, allocation, port, owner, scope)),
                  SectionPiece(DnsSection(Ipv6, slot, policy, allocation, owner, scope))]
               else [];
    assert start + four + forward + six == start + (four + forward + six);
    PlanRoutes(n, slot, policy, allocation, owner, ipv6, "lo", true, four + forward + six);
  }

  lemma TunRoutes(
    n: Network, generation: nat, slot: Slot, policy: CapturePolicy, allocation: ResourceCandidate,
    scope: Option<seq<string>>)
    ensures Routes(n, TunNetwork(n, generation, slot, policy, allocation, scope), allocation, Ipv6Captured, "nethop0", false)
  {
    hide Installed, Beginning, TunSection, DnsSection, Routes;
    var owner := TunOwner(generation);
    var start := Beginning(slot, policy, allocation, owner, Ipv6Captured, "nethop0", false);
    var four := [SectionPiece(TunSection(Ipv4, slot, policy, allocation, owner, scope)),
                 SectionPiece(DnsSection(Ipv4, slot, policy, allocation, owner, scope))];
    var six := [SectionPiece(TunSection(Ipv6, slot, policy, allocation, owner, scope)),
                SectionPiece(DnsSection(Ipv6, slot, policy, allocation, owner, scope))];
    assert start + four + six == start + (four + six);
    PlanRoutes(n, slot, policy, allocation, owner, Ipv6Captured, "nethop0", false, four + six);
  }

  // ----- the routing law -----

  /** A rule of another program that asks for no mark, and that comes first, knows a way already. */
  ghost predicate Preempted(n: Network, family: IpFamily, allocation: ResourceCandidate, mark: bv32, view: View) {
    Ways(n.routes, family, Before(RulesOf(n, family), allocation.rulePriority), mark, view) != {}
  }

  /** Where packets go with a plan installed, compared with where they went before. */
  ghost predicate Steers(
    n: Network, m: Network, family: IpFamily, captured: bool, allocation: ResourceCandidate, device: string, local: bool,
    mark: bv32, view: View)
  {
    WaysOut(m, family, mark, view) ==
    if captured && Marked(allocation, mark) && !Preempted(n, family, allocation, mark, view)
    then {DefaultRoute(family, allocation.routeTable, device, local)}
    else WaysOut(n, family, mark, view)
  }

  lemma Unasked(
    n: Network, allocation: ResourceCandidate, more: set<Route>, family: IpFamily, rules: seq<PolicyEntry>, mark: bv32,
    view: View)
    requires Unclaimed(n, allocation) && (forall e :: e in rules ==> e in RulesOf(n, family))
    requires forall r :: r in more ==> r.routeTable == allocation.routeTable
    ensures Ways(n.routes + more, family, rules, mark, view) == Ways(n.routes, family, rules, mark, view)
  {
    hide Overlaps;
    forall e | e in rules
      ensures e.routeTable != allocation.routeTable
    {
      assert !Conflicts(e, allocation);
    }
    WaysUnasked(n.routes, more, family, rules, mark, view);
  }

  lemma {:induction false} PartsOf(rules: seq<PolicyEntry>, priority: nat)
    ensures forall e :: e in Before(rules, priority) || e in Behind(rules, priority) ==> e in rules
  {
    if rules != [] {
      PartsOf(rules[1..], priority);
      assert rules == [rules[0]] + rules[1..];
    }
  }

  /** The table of the allocation holds the plan's own route and no other. */
  lemma OwnTable(
    n: Network, slot: Slot, allocation: ResourceCandidate, more: set<Route>, family: IpFamily, device: string, local: bool,
    view: View)
    requires Free(n, slot, allocation) && view.Valid()
    requires OwnRoute(family, allocation, device, local) in more
    requires forall r :: r in more && r.family == family ==> r == OwnRoute(family, allocation, device, local)
    ensures RoutesIn(n.routes + more, family, allocation.routeTable, view) == {OwnRoute(family, allocation, device, local)}
  {
    hide FreeTable;
    var own := OwnRoute(family, allocation, device, local);
    forall r
      ensures r in RoutesIn(n.routes + more, family, allocation.routeTable, view) <==> r == own
    {
    }
  }

  /** What the plan's own rule does, and what the rules behind it do. */
  lemma WaysFromOwn(
    routes: set<Route>, family: IpFamily, allocation: ResourceCandidate, behind: seq<PolicyEntry>, mark: bv32, view: View,
    own: Route)
    requires view.Valid() && RoutesIn(routes, family, allocation.routeTable, view) == {own}
    ensures Ways(routes, family, [OwnRule(allocation)] + behind, mark, view) ==
            if Marked(allocation, mark) then {own} else Ways(routes, family, behind, mark, view)
  {
    hide MarkMatches, RoutesIn;
    assert ([OwnRule(allocation)] + behind)[1..] == behind;
    assert own in RoutesIn(routes, family, allocation.routeTable, view);
  }

  lemma SteersCaptured(
    n: Network, m: Network, slot: Slot, family: IpFamily, allocation: ResourceCandidate, more: set<Route>, device: string,
    local: bool, mark: bv32, view: View)
    requires Free(n, slot, allocation) && Unclaimed(n, allocation) && view.Valid()
    requires m.routes == n.routes + more && RulesOf(m, family) == InsertRule(RulesOf(n, family), OwnRule(allocation))
    requires OwnRoute(family, allocation, device, local) in more
    requires forall r :: r in more ==> r.routeTable == allocation.routeTable
    requires forall r :: r in more && r.family == family ==> r == OwnRoute(family, allocation, device, local)
    ensures Steers(n, m, family, true, allocation, device, local, mark, view)
  {
    var rules, own, priority := RulesOf(n, family), OwnRoute(family, allocation, device, local), allocation.rulePriority;
    var before, behind := Before(rules, priority), Behind(rules, priority);
    OwnTable(n, slot, allocation, more, family, device, local, view);
    InsertBetween(rules, OwnRule(allocation));
    PartsOf(rules, priority);
    hide Ways, RoutesIn, Free, Unclaimed, MarkMatches, InsertRule, Before, Behind;
    WaysAppend(m.routes, family, before, [OwnRule(allocation)] + behind, mark, view);
    WaysAppend(n.routes, family, before, behind, mark, view);
    WaysFromOwn(m.routes, family, allocation, behind, mark, view, own);
    Unasked(n, allocation, more, family, before, mark, view);
    Unasked(n, allocation, more, family, behind, mark, view);
  }

  lemma SteersUncaptured(
    n: Network, m: Network, family: IpFamily, allocation: ResourceCandidate, more: set<Route>, device: string, local: bool,
    mark: bv32, view: View)
    requires Unclaimed(n, allocation)
    requires m.routes == n.routes + more && RulesOf(m, family) == RulesOf(n, family)
    requires forall r :: r in more ==> r.routeTable == allocation.routeTable
    ensures Steers(n, m, family, false, allocation, device, local, mark, view)
  {
    hide Ways, Unclaimed;
    Unasked(n, allocation, more, family, RulesOf(n, family), mark, view);
  }

  lemma PlanSteers(
    n: Network, m: Network, slot: Slot, allocation: ResourceCandidate, ipv6: Ipv6Handling, device: string, local: bool,
    family: IpFamily, mark: bv32, view: View)
    requires Free(n, slot, allocation) && Unclaimed(n, allocation) && view.Valid()
    requires Routes(n, m, allocation, ipv6, device, local)
    ensures Steers(n, m, family, family == Ipv4 || ipv6.Ipv6Captured?, allocation, device, local, mark, view)
  {
    hide Steers, Free, Unclaimed, InsertRule, View.Valid;
    var more := {OwnRoute(Ipv4, allocation, device, local)}
                + if ipv6.Ipv6Captured? then {OwnRoute(Ipv6, allocation, device, local)} else {};
    if family == Ipv4 || ipv6.Ipv6Captured? {
      SteersCaptured(n, m, slot, family, allocation, more, device, local, mark, view);
    } else {
      SteersUncaptured(n, m, family, allocation, more, device, local, mark, view);
    }
  }

  /**
   * Under a TPROXY plan, packets with the capture mark come back through loopback, unless a rule without mark of
   * another program, asked before, knows a way; all other packets leave as they did.
   */
  lemma TproxySteers(
    n: Network, generation: nat, slot: Slot, policy: CapturePolicy, allocation: ResourceCandidate, port: nat,
    scope: Option<seq<string>>, forwarding: seq<string>, ipv6: Ipv6Handling, family: IpFamily, mark: bv32, view: View)
    requires Free(n, slot, allocation) && Unclaimed(n, allocation) && view.Valid()
    ensures Steers(n, TproxyNetwork(n, generation, slot, policy, allocation, port, scope, forwarding, ipv6), family,
                   family == Ipv4 || ipv6.Ipv6Captured?, allocation, "lo", true, mark, view)
  {
    hide Steers, Free, Unclaimed, Routes, TproxyNetwork, View.Valid;
    TproxyRoutes(n, generation, slot, policy, allocation, port, scope, forwarding, ipv6);
    PlanSteers(n, TproxyNetwork(n, generation, slot, policy, allocation, port, scope, forwarding, ipv6), slot, allocation, ipv6,
               "lo", true, family, mark, view);
  }

  /** Under a TUN plan they leave through the tunnel device. */
  lemma TunSteers(
    n: Network, generation: nat, slot: Slot, policy: CapturePolicy, allocation: ResourceCandidate,
    scope: Option<seq<string>>, family: IpFamily, mark: bv32, view: View)
    requires Free(n, slot, allocation) && Unclaimed(n, allocation) && view.Valid()
    ensures Steers(n, TunNetwork(n, generation, slot, policy, allocation, scope), family, true, allocation, "nethop0", false,
                   mark, view)
  {
    hide Steers, Free, Unclaimed, Routes, TunNetwork, View.Valid;
    TunRoutes(n, generation, slot, policy, allocation, scope);
    PlanSteers(n, TunNetwork(n, generation, slot, policy, allocation, scope), slot, allocation, Ipv6Captured,
               "nethop0", false, family, mark, view);
  }

  // ----- marking and routing together -----

  /** A captured packet of a TPROXY plan is marked on its way out and therefore comes back through loopback. */
  lemma TproxyCarries(
    n: Network, generation: nat, slot: Slot, policy: CapturePolicy, allocation: ResourceCandidate, port: nat,
    scope: Option<seq<string>>, forwarding: seq<string>, ipv6: Ipv6Handling, family: IpFamily, p: Packet, mark: bv32,
    view: View)
    requires Free(n, slot, allocation) && Unclaimed(n, allocation) && view.Valid()
    requires policy.Valid() && allocation.Valid() && (family == Ipv4 || ipv6.Ipv6Captured?)
    requires Output in TableOf(n, family, Mangle)
    requires var left := Traverse(TableOf(n, family, Mangle), Output, p, mark);
             left.Continue? && !Bypasses(policy, allocation, left.mark)
    requires !p.reply && TproxyCaptures(family, policy, scope, p)
    ensures var m := TproxyNetwork(n, generation, slot, policy, allocation, port, scope, forwarding, ipv6);
      && Output in TableOf(m, family, Mangle)
      && var sent := Traverse(TableOf(m, family, Mangle), Output, p, mark);
         && !sent.Decided?
         && (!Preempted(n, family, allocation, sent.mark, view) ==>
               WaysOut(m, family, sent.mark, view) == {DefaultRoute(family, allocation.routeTable, "lo", true)})
  {
    hide Traverse, TproxyNetwork, Free, Unclaimed, View.Valid, XMark, MarkMatches, TproxyCaptures, Bypasses, Preempted, WaysOut;
    TproxyOutgoing(n, generation, slot, policy, allocation, port, scope, forwarding, ipv6, family, p, mark);
    var left := Traverse(TableOf(n, family, Mangle), Output, p, mark);
    XMarkSets(left.mark, allocation.mark, allocation.mask);
    TproxySteers(n, generation, slot, policy, allocation, port, scope, forwarding, ipv6, family,
                 XMark(left.mark, allocation.mark, allocation.mask), view);
  }

  /** A captured packet of a TUN plan is marked on its way out and therefore leaves through the tunnel. */
  lemma TunCarries(
    n: Network, generation: nat, slot: Slot, policy: CapturePolicy, allocation: ResourceCandidate,
    scope: Option<seq<string>>, family: IpFamily, p: Packet, mark: bv32, view: View)
    requires Free(n, slot, allocation) && Unclaimed(n, allocation) && view.Valid() && policy.Valid() && allocation.Valid()
    requires Output in TableOf(n, family, Mangle)
    requires var left := Traverse(TableOf(n, family, Mangle), Output, p, mark);
             left.Continue? && !Bypasses(policy, allocation, left.mark)
    requires !p.reply && p.oif != "lo" && TunCaptures(policy, scope, p)
    ensures var m := TunNetwork(n, generation, slot, policy, allocation, scope);
      && Output in TableOf(m, family, Mangle)
      && var sent := Traverse(TableOf(m, family, Mangle), Output, p, mark);
         && !sent.Decided?
         && (!Preempted(n, family, allocation, sent.mark, view) ==>
               WaysOut(m, family, sent.mark, view) == {DefaultRoute(family, allocation.routeTable, "nethop0", false)})
  {
    hide Traverse, TunNetwork, Free, Unclaimed, View.Valid, XMark, MarkMatches, TunCaptures, Bypasses, Preempted, WaysOut;
    TunOutgoing(n, generation, slot, policy, allocation, scope, family, p, mark);
    var left := Traverse(TableOf(n, family, Mangle), Output, p, mark);
    XMarkSets(left.mark, allocation.mark, allocation.mask);
    TunSteers(n, generation, slot, policy, allocation, scope, family,
              XMark(left.mark, allocation.mark, allocation.mask), view);
  }
}
