/** The whole kernel state that a plan changes: four netfilter tables, routes and policy rules.

    `Installed` is the state once a list of pieces has been added; `UndoPiece` says that every step of a plan is undone
    exactly by the step paired with it. */
module KernelState {
  import opened Wrappers
  import opened Netfilter
  import opened Plan
  import opened Tables

  // ----- routes and policy rules -----

  datatype Route =
    | DefaultRoute(family: IpFamily, routeTable: nat, device: string, local: bool)
    | OtherRoute(family: IpFamily, routeTable: nat, text: string)

  /** A policy rule; `selector` holds conditions that NetHop's own rules do not use. */
  datatype PolicyEntry = PolicyEntry(priority: nat, mark: bv32, mask: bv32, routeTable: nat, selector: string)

  datatype Network = Network(
    filter4: Chains, mangle4: Chains, filter6: Chains, mangle6: Chains,
    routes: set<Route>, rules4: seq<PolicyEntry>, rules6: seq<PolicyEntry>)

  function TableOf(n: Network, family: IpFamily, table: Table): Chains {
    match (family, table)
    case (Ipv4, Filter) => n.filter4
    case (Ipv4, Mangle) => n.mangle4
    case (Ipv6, Filter) => n.filter6
    case (Ipv6, Mangle) => n.mangle6
  }

  function WithTable(n: Network, family: IpFamily, table: Table, chains: Chains): Network {
    match (family, table)
    case (Ipv4, Filter) => n.(filter4 := chains)
    case (Ipv4, Mangle) => n.(mangle4 := chains)
    case (Ipv6, Filter) => n.(filter6 := chains)
    case (Ipv6, Mangle) => n.(mangle6 := chains)
  }

  function RulesOf(n: Network, family: IpFamily): seq<PolicyEntry> {
    if family == Ipv4 then n.rules4 else n.rules6
  }

  function WithRules(n: Network, family: IpFamily, rules: seq<PolicyEntry>): Network {
    if family == Ipv4 then n.(rules4 := rules) else n.(rules6 := rules)
  }

  /** The rule list is ordered by priority; a new rule goes behind the rules of the same priority. */
  function InsertRule(rules: seq<PolicyEntry>, e: PolicyEntry): seq<PolicyEntry> {
    if rules == [] || rules[0].priority > e.priority then [e] + rules
    else [rules[0]] + InsertRule(rules[1..], e)
  }

  /** Deletion looks only at the attributes it names. */
  predicate SameRule(a: PolicyEntry, b: PolicyEntry) {
    a.priority == b.priority && a.mark == b.mark && a.mask == b.mask && a.routeTable == b.routeTable
  }

  function RemoveRule(rules: seq<PolicyEntry>, e: PolicyEntry): Option<seq<PolicyEntry>> {
    if rules == [] then None
    else if SameRule(rules[0], e) then Some(rules[1..])
    else
      var rest := RemoveRule(rules[1..], e);
      if rest.None? then None else Some([rules[0]] + rest.value)
  }

  predicate HasDefault(routes: set<Route>, family: IpFamily, table: nat) {
    exists r :: r in routes && r.DefaultRoute? && r.family == family && r.routeTable == table
  }

  /** What a command does when the kernel accepts it. */
  function Perform(n: Network, op: Operation): Option<Network> {
    match op
    case Restore(family, table, commands) =>
      var r := RunCommands(TableOf(n, family, table), commands);
      if r.None? then None else Some(WithTable(n, family, table, r.value))
    case PolicyRoute(Add, family, table, device, local) =>
      if HasDefault(n.routes, family, table) then None
      else Some(n.(routes := n.routes + {DefaultRoute(family, table, device, local)}))
    case PolicyRoute(Remove, family, table, device, local) =>
      if DefaultRoute(family, table, device, local) !in n.routes then None
      else Some(n.(routes := n.routes - {DefaultRoute(family, table, device, local)}))
    case PolicyRule(Add, family, mark, mask, table, priority) =>
      var e := PolicyEntry(priority, mark, mask, table, "");
      if e in RulesOf(n, family) then None else Some(WithRules(n, family, InsertRule(RulesOf(n, family), e)))
    case PolicyRule(Remove, family, mark, mask, table, priority) =>
      var r := RemoveRule(RulesOf(n, family), PolicyEntry(priority, mark, mask, table, ""));
      if r.None? then None else Some(WithRules(n, family, r.value))
  }

  // ----- a network with pieces installed -----

  function SectionsOn(pieces: seq<Piece>, family: IpFamily, table: Table): seq<Section> {
    if pieces == [] then []
    else
      (match pieces[0]
       case SectionPiece(s) => if s.family == family && s.table == table then [s] else []
       case _ => [])
      + SectionsOn(pieces[1..], family, table)
  }

  function RoutesOf(pieces: seq<Piece>): set<Route> {
    set p | p in pieces && p.RoutePiece? :: DefaultRoute(p.family, p.routeTable, p.device, p.local)
  }

  function OwnEntries(p: Piece, family: IpFamily): seq<PolicyEntry> {
    if p.RulePiece? && p.family == family then [PolicyEntry(p.priority, p.mark, p.mask, p.routeTable, "")] else []
  }

  function EntriesOn(pieces: seq<Piece>, family: IpFamily): seq<PolicyEntry> {
    if pieces == [] then [] else OwnEntries(pieces[0], family) + EntriesOn(pieces[1..], family)
  }

  function InsertRules(rules: seq<PolicyEntry>, entries: seq<PolicyEntry>): seq<PolicyEntry>
    decreases |entries|
  {
    if entries == [] then rules else InsertRules(InsertRule(rules, entries[0]), entries[1..])
  }

  function InstalledTable(n: Network, pieces: seq<Piece>, family: IpFamily, table: Table): Chains {
    WithSections(TableOf(n, family, table), SectionsOn(pieces, family, table))
  }

  function InstalledRules(n: Network, pieces: seq<Piece>, family: IpFamily): seq<PolicyEntry> {
    InsertRules(RulesOf(n, family), EntriesOn(pieces, family))
  }

  /** The network with the pieces added to it. */
  function Installed(n: Network, pieces: seq<Piece>): Network {
    Network(InstalledTable(n, pieces, Ipv4, Filter), InstalledTable(n, pieces, Ipv4, Mangle),
            InstalledTable(n, pieces, Ipv6, Filter), InstalledTable(n, pieces, Ipv6, Mangle),
            n.routes + RoutesOf(pieces), InstalledRules(n, pieces, Ipv4), InstalledRules(n, pieces, Ipv6))
  }

  /** The pieces can be added to `n` and taken away again: they claim chains, route tables and rule priorities that
      neither `n` nor another piece uses. */
  ghost predicate Ready(n: Network, pieces: seq<Piece>) {
    && (forall family, table :: AllFit(TableOf(n, family, table), SectionsOn(pieces, family, table)))
    && (forall p, r :: p in pieces && p.RoutePiece? && r in n.routes && r.family == p.family ==> r.routeTable != p.routeTable)
    && (forall i, j :: 0 <= i < |pieces| && 0 <= j < |pieces| && i != j && pieces[i].RoutePiece? && pieces[j].RoutePiece? ==>
          pieces[i].family != pieces[j].family)
    && (forall p, e :: p in pieces && p.RulePiece? && e in RulesOf(n, p.family) ==> e.priority != p.priority)
    && (forall i, j :: 0 <= i < |pieces| && 0 <= j < |pieces| && i != j && pieces[i].RulePiece? && pieces[j].RulePiece? ==>
          pieces[i].family != pieces[j].family)
  }

  lemma {:induction false} SectionsConcat(a: seq<Piece>, b: seq<Piece>, family: IpFamily, table: Table)
    ensures SectionsOn(a + b, family, table) == SectionsOn(a, family, table) + SectionsOn(b, family, table)
  {
    if a == [] {
      assert a + b == b;
    } else {
      assert (a + b)[1..] == a[1..] + b;
      SectionsConcat(a[1..], b, family, table);
    }
  }

  lemma {:induction false} EntriesConcat(a: seq<Piece>, b: seq<Piece>, family: IpFamily)
    ensures EntriesOn(a + b, family) == EntriesOn(a, family) + EntriesOn(b, family)
  {
    if a == [] {
      assert a + b == b;
    } else {
      assert (a + b)[1..] == a[1..] + b;
      EntriesConcat(a[1..], b, family);
    }
  }

  /** The sections of `a`, `p` and `b` on one table. */
  lemma SectionsAround(a: seq<Piece>, p: Piece, b: seq<Piece>, family: IpFamily, table: Table)
    ensures var own := if p.SectionPiece? && p.section.family == family && p.section.table == table then [p.section] else [];
            SectionsOn(a + [p] + b, family, table) == SectionsOn(a, family, table) + own + SectionsOn(b, family, table)
    ensures SectionsOn(a + b, family, table) == SectionsOn(a, family, table) + SectionsOn(b, family, table)
  {
    SectionsConcat(a, [p], family, table);
    SectionsConcat(a + [p], b, family, table);
    SectionsConcat(a, b, family, table);
    assert [p][1..] == [];
    assert SectionsOn([p][1..], family, table) == [];
  }

  lemma AllFitDrop(chains: Chains, a: seq<Section>, own: seq<Section>, b: seq<Section>)
    requires AllFit(chains, a + own + b)
    ensures AllFit(chains, a + b)
  {
    var all, kept := a + own + b, a + b;
    assert forall i :: 0 <= i < |a| ==> kept[i] == all[i];
    assert forall i :: |a| <= i < |kept| ==> kept[i] == all[i + |own|];
  }

  /** Leaving one piece out keeps the rest ready. */
  lemma ReadyDrop(n: Network, a: seq<Piece>, p: Piece, b: seq<Piece>)
    requires Ready(n, a + [p] + b)
    ensures Ready(n, a + b)
  {
    hide AllFit, SectionsOn;
    var all, kept := a + [p] + b, a + b;
    forall family, table ensures AllFit(TableOf(n, family, table), SectionsOn(kept, family, table)) {
      SectionsAround(a, p, b, family, table);
      var own := if p.SectionPiece? && p.section.family == family && p.section.table == table then [p.section] else [];
      AllFitDrop(TableOf(n, family, table), SectionsOn(a, family, table), own, SectionsOn(b, family, table));
    }
    assert forall i :: 0 <= i < |a| ==> kept[i] == all[i];
    assert forall i :: |a| <= i < |kept| ==> kept[i] == all[i + 1];
    assert forall x :: x in kept ==> x in all;
  }

  lemma {:induction false} InsertThenRemove(rules: seq<PolicyEntry>, e: PolicyEntry)
    requires forall r :: r in rules ==> r.priority != e.priority
    ensures RemoveRule(InsertRule(rules, e), e) == Some(rules)
    ensures e in InsertRule(rules, e)
  {
    if rules == [] || rules[0].priority > e.priority {
      assert ([e] + rules)[1..] == rules;
    } else {
      assert rules[0] in rules;
      var inserted := [rules[0]] + InsertRule(rules[1..], e);
      assert inserted[1..] == InsertRule(rules[1..], e);
      InsertThenRemove(rules[1..], e);
      assert [rules[0]] + rules[1..] == rules;
    }
  }

  lemma {:induction false} NothingToRemove(rules: seq<PolicyEntry>, e: PolicyEntry)
    requires forall r :: r in rules ==> r.priority != e.priority
    ensures RemoveRule(rules, e) == None
  {
    if rules != [] {
      assert rules[0] in rules;
      NothingToRemove(rules[1..], e);
    }
  }

  /** A family has at most one rule piece, so the entries around it are none. */
  lemma {:induction false} NoEntries(pieces: seq<Piece>, family: IpFamily)
    requires forall p :: p in pieces && p.RulePiece? ==> p.family != family
    ensures EntriesOn(pieces, family) == []
  {
    if pieces != [] {
      assert pieces[0] in pieces;
      NoEntries(pieces[1..], family);
    }
  }

  lemma EntriesAround(a: seq<Piece>, p: Piece, b: seq<Piece>, family: IpFamily)
    ensures EntriesOn(a + [p] + b, family) == EntriesOn(a, family) + OwnEntries(p, family) + EntriesOn(b, family)
    ensures EntriesOn(a + b, family) == EntriesOn(a, family) + EntriesOn(b, family)
  {
    hide OwnEntries;
    EntriesConcat(a, [p], family);
    EntriesConcat(a + [p], b, family);
    EntriesConcat(a, b, family);
    assert [p][1..] == [];
    assert EntriesOn([p], family) == OwnEntries(p, family) + EntriesOn([p][1..], family);
    assert OwnEntries(p, family) + [] == OwnEntries(p, family);
  }

  // ----- each piece: what its step adds, its rollback takes away -----

  predicate OnTable(p: Piece, family: IpFamily, table: Table) {
    p.SectionPiece? && p.section.family == family && p.section.table == table
  }

  /** A piece leaves every table alone but its own. */
  lemma OtherTables(n: Network, a: seq<Piece>, p: Piece, b: seq<Piece>, family: IpFamily, table: Table)
    requires !OnTable(p, family, table)
    ensures InstalledTable(n, a + [p] + b, family, table) == InstalledTable(n, a + b, family, table)
  {
    SectionsAround(a, p, b, family, table);
    assert SectionsOn(a, family, table) + [] == SectionsOn(a, family, table);
  }

  lemma OtherRules(n: Network, a: seq<Piece>, p: Piece, b: seq<Piece>, family: IpFamily)
    requires p.RulePiece? ==> p.family != family
    ensures InstalledRules(n, a + [p] + b, family) == InstalledRules(n, a + b, family)
  {
    EntriesAround(a, p, b, family);
    assert EntriesOn(a, family) + [] == EntriesOn(a, family);
  }

  lemma RoutesAround(a: seq<Piece>, p: Piece, b: seq<Piece>)
    ensures RoutesOf(a + [p] + b) ==
            RoutesOf(a + b) + if p.RoutePiece? then {DefaultRoute(p.family, p.routeTable, p.device, p.local)} else {}
  {
    assert forall x :: x in a + [p] + b <==> x in a + b || x == p;
  }

  /** Everything but a section's own table is untouched by it. */
  lemma AroundSection(n: Network, a: seq<Piece>, p: Piece, b: seq<Piece>)
    requires p.SectionPiece?
    ensures Installed(n, a + [p] + b) ==
            WithTable(Installed(n, a + b), p.section.family, p.section.table,
                      InstalledTable(n, a + [p] + b, p.section.family, p.section.table))
    ensures Installed(n, a + b) ==
            WithTable(Installed(n, a + [p] + b), p.section.family, p.section.table,
                      InstalledTable(n, a + b, p.section.family, p.section.table))
  {
    hide InstalledTable, InstalledRules, RoutesOf;
    forall family, table | !OnTable(p, family, table)
      ensures InstalledTable(n, a + [p] + b, family, table) == InstalledTable(n, a + b, family, table)
    {
      OtherTables(n, a, p, b, family, table);
    }
    OtherRules(n, a, p, b, Ipv4);
    OtherRules(n, a, p, b, Ipv6);
    RoutesAround(a, p, b);
  }

  lemma UndoSection(n: Network, a: seq<Piece>, p: Piece, b: seq<Piece>)
    requires p.SectionPiece? && Ready(n, a + [p] + b)
    ensures Perform(Installed(n, a + [p] + b), StepOf(p).rollback) == Some(Installed(n, a + b))
    ensures b == [] ==> Perform(Installed(n, a), StepOf(p).apply) == Some(Installed(n, a + [p]))
    ensures Perform(Installed(n, a + b), StepOf(p).rollback) == None
  {
    hide AllFit, SectionsOn, WithSections, RunCommands, RollbackCommands, ApplyCommands, InstalledRules, RoutesOf;
    var s := p.section;
    var base := TableOf(n, s.family, s.table);
    var before, after := SectionsOn(a, s.family, s.table), SectionsOn(b, s.family, s.table);
    SectionsAround(a, p, b, s.family, s.table);
    assert AllFit(base, before + [s] + after);
    RollbackSection(base, before, s, after);
    AroundSection(n, a, p, b);
    if b == [] {
      assert a + b == a && a + [p] + b == a + [p] && before + [s] + [] == before + [s] && before + [] == before;
      assert after == [] by { NoSections(s.family, s.table); }
      ApplySection(base, before, s);
    }
    AbsentSection(base, before, s, after);
  }

  lemma NoSections(family: IpFamily, table: Table)
    ensures SectionsOn([], family, table) == []
  {
  }

  lemma AbsentSection(chains: Chains, a: seq<Section>, s: Section, b: seq<Section>)
    requires AllFit(chains, a + [s] + b)
    ensures RunCommands(WithSections(chains, a + b), RollbackCommands(s)) == None
  {
    assert (a + [s] + b)[|a|] == s && Fits(chains, s);
    SplitKeys(chains, a, s, b);
    assert s.creates[0] in Elements(s.creates);
    RollbackAbsentSection(WithSections(chains, a + b), s);
  }

  lemma AroundOther(n: Network, a: seq<Piece>, p: Piece, b: seq<Piece>)
    requires !p.SectionPiece?
    ensures forall family, table :: InstalledTable(n, a + [p] + b, family, table) == InstalledTable(n, a + b, family, table)
  {
    forall family, table ensures InstalledTable(n, a + [p] + b, family, table) == InstalledTable(n, a + b, family, table) {
      OtherTables(n, a, p, b, family, table);
    }
  }

  /** Another route piece belongs to another family. */
  lemma RoutesElsewhere(n: Network, a: seq<Piece>, p: Piece, b: seq<Piece>)
    requires p.RoutePiece? && Ready(n, a + [p] + b)
    ensures forall r :: r in n.routes + RoutesOf(a + b) && r.family == p.family ==> r.routeTable != p.routeTable
  {
    var all := a + [p] + b;
    assert all[|a|] == p && p in all;
    forall q | q in a + b && q.RoutePiece? ensures q.family != p.family {
      if q in a { var i :| 0 <= i < |a| && a[i] == q; assert all[i] == q; }
      else { var i :| 0 <= i < |b| && b[i] == q; assert all[|a| + 1 + i] == q; }
    }
  }

  lemma UndoRoute(n: Network, a: seq<Piece>, p: Piece, b: seq<Piece>)
    requires p.RoutePiece? && Ready(n, a + [p] + b)
    ensures Perform(Installed(n, a + [p] + b), StepOf(p).rollback) == Some(Installed(n, a + b))
    ensures b == [] ==> Perform(Installed(n, a), StepOf(p).apply) == Some(Installed(n, a + [p]))
    ensures Perform(Installed(n, a + b), StepOf(p).rollback) == None
  {
    RoutesElsewhere(n, a, p, b);
    hide Ready, InstalledTable, InstalledRules, RoutesOf;
    AroundOther(n, a, p, b);
    OtherRules(n, a, p, b, Ipv4);
    OtherRules(n, a, p, b, Ipv6);
    RoutesAround(a, p, b);
    var own := DefaultRoute(p.family, p.routeTable, p.device, p.local);
    assert own !in n.routes + RoutesOf(a + b);
    assert (n.routes + (RoutesOf(a + b) + {own})) - {own} == n.routes + RoutesOf(a + b);
    if b == [] {
      assert a + b == a && a + [p] + b == a + [p];
      assert n.routes + RoutesOf(a) + {own} == n.routes + (RoutesOf(a) + {own});
    }
  }

  /** The only entry of its family: nothing else was inserted there. */
  lemma RulesElsewhere(n: Network, a: seq<Piece>, p: Piece, b: seq<Piece>)
    requires p.RulePiece? && Ready(n, a + [p] + b)
    ensures InstalledRules(n, a + b, p.family) == RulesOf(n, p.family)
    ensures InstalledRules(n, a + [p] + b, p.family) ==
            InsertRule(RulesOf(n, p.family), PolicyEntry(p.priority, p.mark, p.mask, p.routeTable, ""))
    ensures forall e :: e in RulesOf(n, p.family) ==> e.priority != p.priority
  {
    var all := a + [p] + b;
    assert all[|a|] == p && p in all;
    forall q | q in a && q.RulePiece? ensures q.family != p.family {
      var i :| 0 <= i < |a| && a[i] == q;
      assert all[i] == q;
    }
    forall q | q in b && q.RulePiece? ensures q.family != p.family {
      var i :| 0 <= i < |b| && b[i] == q;
      assert all[|a| + 1 + i] == q;
    }
    NoEntries(a, p.family);
    NoEntries(b, p.family);
    EntriesAround(a, p, b, p.family);
    var e := PolicyEntry(p.priority, p.mark, p.mask, p.routeTable, "");
    assert [] + [e] + [] == [e] && [e][1..] == [];
    assert InsertRules(RulesOf(n, p.family), [e]) == InsertRules(InsertRule(RulesOf(n, p.family), e), [e][1..]);
  }

  /** Everything but the rules of its family is untouched by a rule piece. */
  lemma AroundRule(n: Network, a: seq<Piece>, p: Piece, b: seq<Piece>)
    requires p.RulePiece?
    ensures Installed(n, a + [p] + b) ==
            WithRules(Installed(n, a + b), p.family, InstalledRules(n, a + [p] + b, p.family))
    ensures Installed(n, a + b) == WithRules(Installed(n, a + [p] + b), p.family, InstalledRules(n, a + b, p.family))
    ensures RulesOf(Installed(n, a + b), p.family) == InstalledRules(n, a + b, p.family)
    ensures RulesOf(Installed(n, a + [p] + b), p.family) == InstalledRules(n, a + [p] + b, p.family)
  {
    hide InstalledTable, InstalledRules, RoutesOf;
    AroundOther(n, a, p, b);
    RoutesAround(a, p, b);
    OtherRules(n, a, p, b, if p.family == Ipv4 then Ipv6 else Ipv4);
  }

  lemma UndoRule(n: Network, a: seq<Piece>, p: Piece, b: seq<Piece>)
    requires p.RulePiece? && Ready(n, a + [p] + b)
    ensures Perform(Installed(n, a + [p] + b), StepOf(p).rollback) == Some(Installed(n, a + b))
    ensures b == [] ==> Perform(Installed(n, a), StepOf(p).apply) == Some(Installed(n, a + [p]))
    ensures Perform(Installed(n, a + b), StepOf(p).rollback) == None
  {
    hide Ready, Installed, InstalledRules, WithRules, RulesOf, InsertRule, RemoveRule;
    RulesElsewhere(n, a, p, b);
    var e := PolicyEntry(p.priority, p.mark, p.mask, p.routeTable, "");
    AroundRule(n, a, p, b);
    InsertThenRemove(RulesOf(n, p.family), e);
    NothingToRemove(RulesOf(n, p.family), e);
    assert e !in RulesOf(n, p.family);
    if b == [] { assert a + b == a && a + [p] + b == a + [p]; }
  }

  /** Exact undo of one piece, wherever it stands among the installed ones: its rollback leaves the others exactly as
      they would be without it, its apply puts it last, and rolling it back when it is not there is refused. */
  lemma UndoPiece(n: Network, a: seq<Piece>, p: Piece, b: seq<Piece>)
    requires Ready(n, a + [p] + b)
    ensures Perform(Installed(n, a + [p] + b), StepOf(p).rollback) == Some(Installed(n, a + b))
    ensures b == [] ==> Perform(Installed(n, a), StepOf(p).apply) == Some(Installed(n, a + [p]))
    ensures Perform(Installed(n, a + b), StepOf(p).rollback) == None
  {
    match p
    case SectionPiece(_) => UndoSection(n, a, p, b);
    case RoutePiece(_, _, _, _) => UndoRoute(n, a, p, b);
    case RulePiece(_, _, _, _, _) => UndoRule(n, a, p, b);
  }

  lemma InstalledNothing(n: Network)
    ensures Installed(n, []) == n
  {
    forall family, table ensures InstalledTable(n, [], family, table) == TableOf(n, family, table) {
      var chains := TableOf(n, family, table);
      assert AllCreates([]) == {};
      forall c | c in chains ensures WithSections(chains, [])[c] == chains[c] {
        assert chains[c] + [] == chains[c];
      }
    }
    assert InstalledTable(n, [], Ipv4, Filter) == n.filter4 && InstalledTable(n, [], Ipv4, Mangle) == n.mangle4;
    assert InstalledTable(n, [], Ipv6, Filter) == n.filter6 && InstalledTable(n, [], Ipv6, Mangle) == n.mangle6;
    assert RoutesOf([]) == {};
  }
}
