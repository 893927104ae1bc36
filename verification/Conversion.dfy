/** Converting parsed sources: filtering, the per-item report, the capped diagnostics and the summary. */
module Conversion {
  import opened Wrappers
  import opened Dedup
  import opened DedupLaws
  import opened Sequences

  datatype Diagnostic = Diagnostic(code: string, protocol: Option<string>, detail: string)

  /** What an adapter made of one item. */
  datatype Item<N> = Parsed(index: nat, arrival: Arrival<N>, warnings: seq<Diagnostic>)
                   | Refused(index: nat, diagnostic: Diagnostic)

  /** A parsed source with the filter that applies to it. */
  datatype Input<!N> = Input(
    sourceId: string, format: string, items: seq<Item<N>>, diagnostics: seq<Diagnostic>, accepts: Arrival<N> -> bool)

  datatype Status = Accepted | Rejected

  datatype ItemReport<F> = ItemReport(
    index: nat, status: Status, protocol: Option<string>, fingerprint: Option<F>, codes: seq<string>)

  datatype Limits = Limits(maxSourceRefs: nat, maxDetailed: nat, maxWarningsPerNode: nat)

  const FILTERED_OUT := "NodeFilteredOut"
  const SOURCE_FILTERED_EMPTY := Diagnostic("SourceFilteredEmpty", None, "")

  function Take<T>(xs: seq<T>, n: nat): seq<T> {
    if |xs| <= n then xs else xs[..n]
  }

  function Codes(diagnostics: seq<Diagnostic>): seq<string> {
    seq(|diagnostics|, i requires 0 <= i < |diagnostics| => diagnostics[i].code)
  }

  // ---- The counts of diagnostics by code ----

  type Tally = seq<(string, nat)>

  function Bump(tally: Tally, code: string): Tally {
    if tally == [] then [(code, 1)]
    else if tally[0].0 == code then [(code, tally[0].1 + 1)] + tally[1..]
    else [tally[0]] + Bump(tally[1..], code)
  }

  function Count(tally: Tally, code: string): nat {
    if tally == [] then 0 else if tally[0].0 == code then tally[0].1 else Count(tally[1..], code)
  }

  function Sum(tally: Tally): nat {
    if tally == [] then 0 else tally[0].1 + Sum(tally[1..])
  }

  function Occurrences(diagnostics: seq<Diagnostic>, code: string): nat {
    if diagnostics == [] then 0
    else
      Occurrences(diagnostics[..|diagnostics| - 1], code)
      + if diagnostics[|diagnostics| - 1].code == code then 1 else 0
  }

  lemma {:induction false} BumpCounts(tally: Tally, code: string, other: string)
    ensures Sum(Bump(tally, code)) == Sum(tally) + 1
    ensures Count(Bump(tally, code), other) == Count(tally, other) + if other == code then 1 else 0
  {
    if tally == [] {
      assert [(code, 1)][1..] == [];
    } else if tally[0].0 == code {
      assert Bump(tally, code)[1..] == tally[1..];
    } else {
      BumpCounts(tally[1..], code, other);
      assert Bump(tally, code)[1..] == Bump(tally[1..], code);
    }
  }

  /** The first diagnostics are kept, all are counted, and truncation is owned up to. */
  ghost predicate Tells(kept: seq<Diagnostic>, counts: Tally, truncated: bool, pushed: seq<Diagnostic>, max: nat) {
    && kept == Take(pushed, max)
    && truncated == (|pushed| > max)
    && Sum(counts) == |pushed|
    && forall code :: Count(counts, code) == Occurrences(pushed, code)
  }

  /** What pushing one more diagnostic does keeps the report honest. */
  lemma TellsNext(kept: seq<Diagnostic>, counts: Tally, truncated: bool, pushed: seq<Diagnostic>, max: nat, d: Diagnostic)
    requires Tells(kept, counts, truncated, pushed, max)
    ensures Tells(
      if |kept| < max then kept + [d] else kept, Bump(counts, d.code), truncated || |kept| >= max, pushed + [d], max)
  {
    assert (pushed + [d])[..|pushed|] == pushed;
    assert |pushed| >= max ==> (pushed + [d])[..max] == Take(pushed, max);
    BumpCounts(counts, d.code, d.code);
    forall code
      ensures Count(Bump(counts, d.code), code) == Occurrences(pushed + [d], code)
    {
      BumpCounts(counts, d.code, code);
    }
  }

  /** The report as it grows; `pushed` is everything that was ever reported. */
  class Report<F(==)> {
    var items: seq<ItemReport<F>>
    var diagnostics: seq<Diagnostic>
    var counts: Tally
    var truncated: bool
    var warnings: nat
    const maxDetailed: nat
    ghost var pushed: seq<Diagnostic>

    ghost predicate Faithful()
      reads this
    {
      Tells(diagnostics, counts, truncated, pushed, maxDetailed)
    }

    constructor (maxDetailed: nat)
      ensures Faithful() && pushed == [] && items == [] && warnings == 0 && this.maxDetailed == maxDetailed
    {
      items, diagnostics, counts, truncated, warnings, pushed := [], [], [], false, 0, [];
      this.maxDetailed := maxDetailed;
    }

    method PushDiagnostic(d: Diagnostic)
      requires Faithful()
      modifies this`diagnostics, this`counts, this`truncated, this`pushed
      ensures Faithful() && pushed == old(pushed) + [d]
    {
      TellsNext(diagnostics, counts, truncated, pushed, maxDetailed, d);
      hide Tells, Bump;
      counts := Bump(counts, d.code);
      if |diagnostics| < maxDetailed {
        diagnostics := diagnostics + [d];
      } else {
        truncated := true;
      }
      pushed := pushed + [d];
    }

    method PushWarnings(ds: seq<Diagnostic>)
      requires Faithful()
      modifies this`diagnostics, this`counts, this`truncated, this`warnings, this`pushed
      ensures Faithful() && pushed == old(pushed) + ds && warnings == old(warnings) + |ds|
    {
      hide Tells;
      assert old(pushed) + ds[..0] == old(pushed);
      for i := 0 to |ds|
        invariant Faithful() && pushed == old(pushed) + ds[..i] && warnings == old(warnings) + i
      {
        warnings := warnings + 1;
        PushDiagnostic(ds[i]);
        assert old(pushed) + ds[..i + 1] == (old(pushed) + ds[..i]) + [ds[i]];
      }
      assert ds[..|ds|] == ds;
    }
  }

  // ---- What each source contributes ----

  function ReportOf<N, F(==)>(fp: N -> F, limits: Limits, input: Input<N>, item: Item<N>): ItemReport<F> {
    match item
    case Refused(index, d) => ItemReport(index, Rejected, d.protocol, None, [d.code])
    case Parsed(index, arrival, warnings) =>
      if !input.accepts(arrival) then
        ItemReport(index, Rejected, Some(arrival.protocol), None, [FILTERED_OUT])
      else
        ItemReport(index, Accepted, Some(arrival.protocol), Some(fp(arrival.node)),
                   Codes(Take(warnings, limits.maxWarningsPerNode)))
  }

  function DiagnosticsOf<N>(limits: Limits, input: Input<N>, item: Item<N>): seq<Diagnostic> {
    match item
    case Refused(_, d) => [d]
    case Parsed(_, arrival, warnings) =>
      if input.accepts(arrival) then Take(warnings, limits.maxWarningsPerNode) else []
  }

  /** How many warnings an item adds to the summary. */
  function WarningsOf<N>(limits: Limits, input: Input<N>, item: Item<N>): nat {
    if Passes(input, item) then |Take(item.warnings, limits.maxWarningsPerNode)| else 0
  }

  predicate Passes<N>(input: Input<N>, item: Item<N>) {
    item.Parsed? && input.accepts(item.arrival)
  }

  function Reports<N, F(==)>(fp: N -> F, limits: Limits, input: Input<N>, items: seq<Item<N>>): seq<ItemReport<F>> {
    if items == [] then []
    else Reports(fp, limits, input, items[..|items| - 1]) + [ReportOf(fp, limits, input, items[|items| - 1])]
  }

  function ItemDiagnostics<N>(limits: Limits, input: Input<N>, items: seq<Item<N>>): seq<Diagnostic> {
    if items == [] then []
    else ItemDiagnostics(limits, input, items[..|items| - 1]) + DiagnosticsOf(limits, input, items[|items| - 1])
  }

  function ItemWarnings<N>(limits: Limits, input: Input<N>, items: seq<Item<N>>): nat {
    if items == [] then 0
    else ItemWarnings(limits, input, items[..|items| - 1]) + WarningsOf(limits, input, items[|items| - 1])
  }

  function Passing<N>(input: Input<N>, items: seq<Item<N>>): seq<Arrival<N>> {
    if items == [] then []
    else
      Passing(input, items[..|items| - 1])
      + if Passes(input, items[|items| - 1]) then [items[|items| - 1].arrival] else []
  }

  predicate AnyParsed<N>(items: seq<Item<N>>) {
    exists i :: 0 <= i < |items| && items[i].Parsed?
  }

  /** Everything reported about one source, in order. */
  function SourceDiagnostics<N>(limits: Limits, input: Input<N>): seq<Diagnostic> {
    ItemDiagnostics(limits, input, input.items) + input.diagnostics
    + if AnyParsed(input.items) && Passing(input, input.items) == [] then [SOURCE_FILTERED_EMPTY] else []
  }

  /** The batch a source sends on: what passed, and how many items did not. */
  function BatchOf<N>(input: Input<N>): (b: Batch<N>)
    ensures |b.nodes| + b.rejected == |input.items|
  {
    PassingFits(input, input.items);
    Batch(input.sourceId, Passing(input, input.items), |input.items| - |Passing(input, input.items)|, |input.diagnostics|)
  }

  lemma {:induction false} PassingFits<N>(input: Input<N>, items: seq<Item<N>>)
    ensures |Passing(input, items)| <= |items|
  {
    if items != [] {
      PassingFits(input, items[..|items| - 1]);
    }
  }

  function BatchesOf<N>(inputs: seq<Input<N>>): (bs: seq<Batch<N>>)
    ensures |bs| == |inputs|
  {
    if inputs == [] then [] else BatchesOf(inputs[..|inputs| - 1]) + [BatchOf(inputs[|inputs| - 1])]
  }

  function AllReports<N, F(==)>(fp: N -> F, limits: Limits, inputs: seq<Input<N>>): seq<ItemReport<F>> {
    if inputs == [] then []
    else
      var last := inputs[|inputs| - 1];
      AllReports(fp, limits, inputs[..|inputs| - 1]) + Reports(fp, limits, last, last.items)
  }

  function AllDiagnostics<N>(limits: Limits, inputs: seq<Input<N>>): seq<Diagnostic> {
    if inputs == [] then []
    else AllDiagnostics(limits, inputs[..|inputs| - 1]) + SourceDiagnostics(limits, inputs[|inputs| - 1])
  }

  function AllWarnings<N>(limits: Limits, inputs: seq<Input<N>>): nat {
    if inputs == [] then 0
    else
      var last := inputs[|inputs| - 1];
      AllWarnings(limits, inputs[..|inputs| - 1]) + ItemWarnings(limits, last, last.items) + |last.diagnostics|
  }

  // ---- The conversion ----

  method ConvertItem<N, F(==)>(fp: N -> F, limits: Limits, input: Input<N>, item: Item<N>, report: Report<F>)
    returns (kept: seq<Arrival<N>>, refused: nat)
    requires report.Faithful()
    modifies report
    ensures report.Faithful()
    ensures report.items == old(report.items) + [ReportOf(fp, limits, input, item)]
    ensures report.pushed == old(report.pushed) + DiagnosticsOf(limits, input, item)
    ensures report.warnings == old(report.warnings) + WarningsOf(limits, input, item)
    ensures kept == (if Passes(input, item) then [item.arrival] else [])
    ensures refused == if Passes(input, item) then 0 else 1
  {
    hide Tells, Take, Codes;
    kept, refused := [], 1;
    match item {
      case Refused(index, d) =>
        report.items := report.items + [ItemReport(index, Rejected, d.protocol, None, [d.code])];
        report.PushDiagnostic(d);
      case Parsed(index, arrival, warnings) =>
        if !input.accepts(arrival) {
          report.items := report.items + [ItemReport(index, Rejected, Some(arrival.protocol), None, [FILTERED_OUT])];
          return;
        }
        var shown := Take(warnings, limits.maxWarningsPerNode);
        report.items :=
          report.items + [ItemReport(index, Accepted, Some(arrival.protocol), Some(fp(arrival.node)), Codes(shown))];
        report.PushWarnings(shown);
        kept, refused := [arrival], 0;
    }
  }

  method ConvertItems<N, F(==)>(fp: N -> F, limits: Limits, input: Input<N>, report: Report<F>)
    returns (nodes: seq<Arrival<N>>, rejected: nat, parsed: bool)
    requires report.Faithful()
    modifies report
    ensures report.Faithful()
    ensures report.items == old(report.items) + Reports(fp, limits, input, input.items)
    ensures report.pushed == old(report.pushed) + ItemDiagnostics(limits, input, input.items)
    ensures report.warnings == old(report.warnings) + ItemWarnings(limits, input, input.items)
    ensures nodes == Passing(input, input.items) && |nodes| + rejected == |input.items|
    ensures parsed == AnyParsed(input.items)
  {
    var items := input.items;
    nodes, rejected, parsed := [], 0, false;
    assert items[..0] == [];
    assert Reports(fp, limits, input, items[..0]) == [] && ItemDiagnostics(limits, input, items[..0]) == [];
    assert Passing(input, items[..0]) == [] && !AnyParsed(items[..0]) && ItemWarnings(limits, input, items[..0]) == 0;
    hide Reports, ItemDiagnostics, ItemWarnings, WarningsOf, Passing, AnyParsed, ReportOf, DiagnosticsOf, Passes, Tells;
    for i := 0 to |items|
      invariant report.Faithful()
      invariant report.items == old(report.items) + Reports(fp, limits, input, items[..i])
      invariant report.pushed == old(report.pushed) + ItemDiagnostics(limits, input, items[..i])
      invariant report.warnings == old(report.warnings) + ItemWarnings(limits, input, items[..i])
      invariant nodes == Passing(input, items[..i]) && |nodes| + rejected == i
      invariant parsed == AnyParsed(items[..i])
    {
      var kept, refused := ConvertItem(fp, limits, input, items[i], report);
      NextItem(fp, limits, input, items, i);
      Regroup(old(report.items), Reports(fp, limits, input, items[..i]), [ReportOf(fp, limits, input, items[i])]);
      Regroup(old(report.pushed), ItemDiagnostics(limits, input, items[..i]), DiagnosticsOf(limits, input, items[i]));
      nodes, rejected, parsed := nodes + kept, rejected + refused, parsed || items[i].Parsed?;
    }
    assert items[..|items|] == items;
  }

  method ConvertSource<N, F(==)>(fp: N -> F, limits: Limits, input: Input<N>, report: Report<F>)
    returns (batch: Batch<N>)
    requires report.Faithful()
    modifies report
    ensures report.Faithful()
    ensures report.items == old(report.items) + Reports(fp, limits, input, input.items)
    ensures report.pushed == old(report.pushed) + SourceDiagnostics(limits, input)
    ensures report.warnings == old(report.warnings) + ItemWarnings(limits, input, input.items) + |input.diagnostics|
    ensures batch == BatchOf(input)
  {
    hide Reports, ItemDiagnostics, ItemWarnings, Passing, AnyParsed, Tells;
    var nodes, rejected, parsed := ConvertItems(fp, limits, input, report);
    report.PushWarnings(input.diagnostics);
    ghost var itemised := ItemDiagnostics(limits, input, input.items);
    Regroup(old(report.pushed), itemised, input.diagnostics);
    if parsed && nodes == [] {
      report.PushDiagnostic(SOURCE_FILTERED_EMPTY);
      Regroup(old(report.pushed), itemised + input.diagnostics, [SOURCE_FILTERED_EMPTY]);
    } else {
      assert itemised + input.diagnostics + [] == itemised + input.diagnostics;
    }
    batch := Batch(input.sourceId, nodes, rejected, |input.diagnostics|);
  }

  /** One more item, for each of the functions that go through the items of a source. */
  lemma NextItem<N, F>(fp: N -> F, limits: Limits, input: Input<N>, items: seq<Item<N>>, i: nat)
    requires i < |items|
    ensures Reports(fp, limits, input, items[..i + 1])
         == Reports(fp, limits, input, items[..i]) + [ReportOf(fp, limits, input, items[i])]
    ensures ItemDiagnostics(limits, input, items[..i + 1])
         == ItemDiagnostics(limits, input, items[..i]) + DiagnosticsOf(limits, input, items[i])
    ensures ItemWarnings(limits, input, items[..i + 1])
         == ItemWarnings(limits, input, items[..i]) + WarningsOf(limits, input, items[i])
    ensures Passing(input, items[..i + 1])
         == Passing(input, items[..i]) + if Passes(input, items[i]) then [items[i].arrival] else []
    ensures AnyParsed(items[..i + 1]) == (AnyParsed(items[..i]) || items[i].Parsed?)
  {
    hide ReportOf, DiagnosticsOf, WarningsOf, Passes, AnyParsed;
    assert items[..i + 1][..i] == items[..i] && items[..i + 1][i] == items[i];
    NextParsed(items, i);
  }

  lemma NextParsed<N>(items: seq<Item<N>>, i: nat)
    requires i < |items|
    ensures AnyParsed(items[..i + 1]) == (AnyParsed(items[..i]) || items[i].Parsed?)
  {
    assert forall k :: 0 <= k < i ==> items[..i + 1][k] == items[..i][k];
    assert items[..i + 1][i] == items[i];
  }

  /** The format hint of the last source, which the summary calls the detected one. */
  function LastFormat<N>(inputs: seq<Input<N>>): string {
    if inputs == [] then "Auto" else inputs[|inputs| - 1].format
  }

  datatype Summary = Summary(format: string, accepted: nat, rejected: nat, duplicate: nat, warnings: nat, success: bool)

  method ConvertSources<N, F(==,!new)>(
    fp: N -> F, display: F -> string, infer: seq<string> -> Option<string>, inputs: seq<Input<N>>, limits: Limits)
    returns (nodes: seq<Deduped<N, F>>, outcomes: Ledger, summary: Summary, report: Report<F>)
    requires limits.maxSourceRefs > 0
    ensures fresh(report) && report.Faithful() && report.maxDetailed == limits.maxDetailed
    ensures report.items == AllReports(fp, limits, inputs) && report.pushed == AllDiagnostics(limits, inputs)
    ensures nodes == Deduplicated(fp, display, infer, limits.maxSourceRefs, Flat(BatchesOf(inputs)))
    ensures outcomes == LedgerOf(fp, BatchesOf(inputs))
    ensures summary.accepted == |nodes| && summary.duplicate == Total(Duplicates, outcomes)
    ensures summary.rejected == Total(Rejections, outcomes)
    ensures summary.success == (summary.accepted + summary.duplicate > 0)
    ensures summary.warnings == AllWarnings(limits, inputs) && summary.format == LastFormat(inputs)
  {
    hide Tells, Reports, SourceDiagnostics, BatchOf, ItemWarnings;
    var detected := "Auto";
    report := new Report<F>(limits.maxDetailed);
    var batches: seq<Batch<N>> := [];
    assert inputs[..0] == [];
    for i := 0 to |inputs|
      invariant fresh(report) && report.Faithful() && report.maxDetailed == limits.maxDetailed
      invariant report.items == AllReports(fp, limits, inputs[..i])
      invariant report.pushed == AllDiagnostics(limits, inputs[..i])
      invariant batches == BatchesOf(inputs[..i])
      invariant report.warnings == AllWarnings(limits, inputs[..i]) && detected == LastFormat(inputs[..i])
    {
      assert inputs[..i + 1][..i] == inputs[..i] && inputs[..i + 1][i] == inputs[i];
      var batch := ConvertSource(fp, limits, inputs[i], report);
      batches := batches + [batch];
      detected := inputs[i].format;
    }
    assert inputs[..|inputs|] == inputs;
    nodes, outcomes := DedupeSources(fp, display, infer, batches, limits.maxSourceRefs);
    var duplicate := Total(Duplicates, outcomes);
    summary :=
      Summary(detected, |nodes|, Total(Rejections, outcomes), duplicate, report.warnings, |nodes| + duplicate > 0);
  }

  // ---- Conservation ----

  function Tallied<F>(reports: seq<ItemReport<F>>, status: Status): nat {
    if reports == [] then 0
    else Tallied(reports[..|reports| - 1], status) + if reports[|reports| - 1].status == status then 1 else 0
  }

  lemma {:induction false} TalliedAppend<F>(a: seq<ItemReport<F>>, b: seq<ItemReport<F>>, status: Status)
    ensures Tallied(a + b, status) == Tallied(a, status) + Tallied(b, status)
  {
    if b == [] {
      assert a + b == a;
    } else {
      var n := |b| - 1;
      TalliedAppend(a, b[..n], status);
      assert (a + b)[..|a + b| - 1] == a + b[..n];
    }
  }

  lemma {:induction false} SourceTallies<N, F>(fp: N -> F, limits: Limits, input: Input<N>, items: seq<Item<N>>)
    ensures Tallied(Reports(fp, limits, input, items), Accepted) == |Passing(input, items)|
    ensures Tallied(Reports(fp, limits, input, items), Rejected) + |Passing(input, items)| == |items|
  {
    if items != [] {
      var n := |items| - 1;
      SourceTallies(fp, limits, input, items[..n]);
      var last := [ReportOf(fp, limits, input, items[n])];
      TalliedAppend(Reports(fp, limits, input, items[..n]), last, Accepted);
      TalliedAppend(Reports(fp, limits, input, items[..n]), last, Rejected);
      assert last[..0] == [];
    }
  }

  lemma {:induction false} AllTallies<N, F>(fp: N -> F, limits: Limits, inputs: seq<Input<N>>)
    ensures Tallied(AllReports(fp, limits, inputs), Accepted) == |Flat(BatchesOf(inputs))|
    ensures Tallied(AllReports(fp, limits, inputs), Rejected) == AllRejected(BatchesOf(inputs))
  {
    if inputs != [] {
      var n := |inputs| - 1;
      var front, last := inputs[..n], inputs[n];
      AllTallies(fp, limits, front);
      SourceTallies(fp, limits, last, last.items);
      TalliedAppend(AllReports(fp, limits, front), Reports(fp, limits, last, last.items), Accepted);
      TalliedAppend(AllReports(fp, limits, front), Reports(fp, limits, last, last.items), Rejected);
      assert BatchesOf(inputs)[..n] == BatchesOf(front) && BatchesOf(inputs)[n] == BatchOf(last);
    }
  }

  /** Some later source has the same id. */
  ghost predicate Repeated<N>(inputs: seq<Input<N>>, i: nat)
    requires i < |inputs|
  {
    exists j :: i < j < |inputs| && inputs[j].sourceId == inputs[i].sourceId
  }

  ghost predicate AllPass<N>(input: Input<N>, items: seq<Item<N>>) {
    forall i :: 0 <= i < |items| ==> Passes(input, items[i])
  }

  lemma {:induction false} PassingAll<N>(input: Input<N>, items: seq<Item<N>>)
    ensures |Passing(input, items)| == |items| <==> AllPass(input, items)
  {
    if items != [] {
      var n := |items| - 1;
      PassingAll(input, items[..n]);
      PassingFits(input, items[..n]);
      assert forall i :: 0 <= i < n ==> items[..n][i] == items[i];
    }
  }

  lemma {:induction false} BatchAt<N>(inputs: seq<Input<N>>, i: nat)
    requires i < |inputs|
    ensures BatchesOf(inputs)[i] == BatchOf(inputs[i])
  {
    if i < |inputs| - 1 {
      BatchAt(inputs[..|inputs| - 1], i);
    }
  }

  /** Whatever source is repeated, has only items that pass. */
  ghost predicate RepeatedPass<N>(inputs: seq<Input<N>>) {
    forall i :: 0 <= i < |inputs| && Repeated(inputs, i) ==> AllPass(inputs[i], inputs[i].items)
  }

  lemma RejectionsKeptMeans<N>(inputs: seq<Input<N>>)
    ensures RejectionsKept(BatchesOf(inputs)) <==> RepeatedPass(inputs)
  {
    hide AllPass, BatchesOf;
    var batches := BatchesOf(inputs);
    forall i | 0 <= i < |inputs|
      ensures batches[i].sourceId == inputs[i].sourceId
      ensures batches[i].rejected == 0 <==> AllPass(inputs[i], inputs[i].items)
    {
      BatchAt(inputs, i);
      PassingAll(inputs[i], inputs[i].items);
    }
    assert forall i :: 0 <= i < |inputs| ==> (Replaced(batches, i) <==> Repeated(inputs, i));
  }

  /**
   * The summary agrees with the items exactly when a source whose id is repeated has nothing to lose: accepted
   * items are the nodes plus the duplicates if it brought no duplicate, and rejected items are the rejections if
   * all its items passed.
   */
  lemma SummaryAgreesExactly<N, F>(
    fp: N -> F, display: F -> string, infer: seq<string> -> Option<string>, limits: Limits, inputs: seq<Input<N>>)
    ensures var batches := BatchesOf(inputs);
      var nodes := Deduplicated(fp, display, infer, limits.maxSourceRefs, Flat(batches));
      var reports := AllReports(fp, limits, inputs);
      && (Tallied(reports, Accepted) == |nodes| + Total(Duplicates, LedgerOf(fp, batches))
          <==> DuplicatesKept(fp, batches))
      && (Tallied(reports, Rejected) == Total(Rejections, LedgerOf(fp, batches)) <==> RepeatedPass(inputs))
  {
    hide Tallied, AllReports, BatchesOf, Flat, LedgerOf, Total, Deduplicated, DuplicatesKept, RejectionsKept, RepeatedPass,
         Keys, AllRejected;
    var batches := BatchesOf(inputs);
    AllTallies(fp, limits, inputs);
    ConservedExactly(fp, batches);
    RejectionsKeptMeans(inputs);
    DeduplicatedLength(fp, display, infer, limits.maxSourceRefs, Flat(batches));
  }

  /** With distinct source ids nothing is ever lost. */
  lemma SummaryAgrees<N, F>(
    fp: N -> F, display: F -> string, infer: seq<string> -> Option<string>, limits: Limits, inputs: seq<Input<N>>)
    requires forall i, j :: 0 <= i < j < |inputs| ==> inputs[i].sourceId != inputs[j].sourceId
    ensures var batches := BatchesOf(inputs);
      var nodes := Deduplicated(fp, display, infer, limits.maxSourceRefs, Flat(batches));
      var reports := AllReports(fp, limits, inputs);
      && Tallied(reports, Accepted) == |nodes| + Total(Duplicates, LedgerOf(fp, batches))
      && Tallied(reports, Rejected) == Total(Rejections, LedgerOf(fp, batches))
  {
    hide Tallied, AllReports, BatchesOf, Flat, LedgerOf, Total, Deduplicated, AllNew, AllPass;
    var batches := BatchesOf(inputs);
    forall i | 0 <= i < |batches|
      ensures batches[i].sourceId == inputs[i].sourceId
    {
      BatchAt(inputs, i);
    }
    SummaryAgreesExactly(fp, display, infer, limits, inputs);
  }

  // ---- A source that is repeated ----

  /** One item, refused. */
  function OneRefused<N>(accepts: Arrival<N> -> bool): Input<N> {
    Input("source", "Auto", [Refused(0, Diagnostic("InvalidEndpoint", None, ""))], [], accepts)
  }

  lemma RefusedBatches<N>(accepts: Arrival<N> -> bool)
    ensures var one := OneRefused(accepts);
      BatchesOf([one, one]) == [Batch("source", [], 1, 0), Batch("source", [], 1, 0)]
  {
    var one := OneRefused(accepts);
    assert one.items[..0] == [];
    assert Passing(one, one.items) == [];
    var batch: Batch<N> := Batch("source", [], 1, 0);
    assert BatchOf(one) == batch;
    BatchAt([one, one], 0);
    BatchAt([one, one], 1);
    assert BatchesOf([one, one]) == [batch, batch];
  }

  lemma LedgerTwice<N, F>(fp: N -> F, batch: Batch<N>)
    ensures LedgerOf(fp, [batch, batch]) == [(batch.sourceId, BatchOutcome(fp, [batch, batch]))]
  {
    hide BatchOutcome;
    assert [batch, batch][..1] == [batch] && [batch][..0] == [];
    assert LedgerOf(fp, [batch]) == [(batch.sourceId, BatchOutcome(fp, [batch]))];
  }

  /** The same source twice, each time with one refused item: two items are rejected, and the summary says one. */
  lemma RepeatedSourceMiscounted<N, F>(fp: N -> F, limits: Limits, accepts: Arrival<N> -> bool)
    ensures var inputs := [OneRefused(accepts), OneRefused(accepts)];
      && Tallied(AllReports(fp, limits, inputs), Rejected) == 2
      && Total(Rejections, LedgerOf(fp, BatchesOf(inputs))) == 1
  {
    hide Tallied, AllReports, LedgerOf, BatchesOf;
    var inputs := [OneRefused(accepts), OneRefused(accepts)];
    var batch: Batch<N> := Batch("source", [], 1, 0);
    RefusedBatches(accepts);
    AllTallies(fp, limits, inputs);
    assert [batch, batch][..1] == [batch] && [batch][..0] == [];
    assert AllRejected([batch]) == 1;
    LedgerTwice(fp, batch);
    var ledger := LedgerOf(fp, [batch, batch]);
    assert ledger[0].1.rejected == 1;
    assert ledger[1..] == [];
  }
}
