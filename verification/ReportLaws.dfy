/** What a conversion report says about every single item. */
module ReportLaws {
  import opened Wrappers
  import opened Dedup
  import opened Conversion

  // ---- Each item has its line ----

  /** The line of an item: its own index and protocol; accepted with its fingerprint, or rejected with the reason. */
  ghost predicate Describes<N, F>(line: ItemReport<F>, fp: N -> F, limits: Limits, input: Input<N>, item: Item<N>) {
    && line.index == item.index
    && (item.Refused? ==>
          && line.status == Rejected && line.fingerprint == None
          && line.protocol == item.diagnostic.protocol && line.codes == [item.diagnostic.code])
    && (item.Parsed? ==> line.protocol == Some(item.arrival.protocol))
    && (item.Parsed? && !input.accepts(item.arrival) ==>
          line.status == Rejected && line.fingerprint == None && line.codes == ["NodeFilteredOut"])
    && (item.Parsed? && input.accepts(item.arrival) ==>
          && line.status == Accepted && line.fingerprint == Some(fp(item.arrival.node))
          && |line.codes| == (if |item.warnings| < limits.maxWarningsPerNode then |item.warnings| else limits.maxWarningsPerNode)
          && forall i :: 0 <= i < |line.codes| ==> line.codes[i] == item.warnings[i].code)
  }

  lemma LineDescribes<N, F>(fp: N -> F, limits: Limits, input: Input<N>, item: Item<N>)
    ensures Describes(ReportOf(fp, limits, input, item), fp, limits, input, item)
  {
  }

  /** A source has one line for each item, in order. */
  lemma {:induction false} ReportsDescribe<N, F>(fp: N -> F, limits: Limits, input: Input<N>, items: seq<Item<N>>)
    ensures |Reports(fp, limits, input, items)| == |items|
    ensures forall i :: 0 <= i < |items| ==> Describes(Reports(fp, limits, input, items)[i], fp, limits, input, items[i])
  {
    hide ReportOf, Describes;
    if items != [] {
      var n := |items| - 1;
      ReportsDescribe(fp, limits, input, items[..n]);
      LineDescribes(fp, limits, input, items[n]);
    }
  }

  // ---- Each refusal is counted ----

  predicate RefusedFor<N>(item: Item<N>, code: string) {
    item.Refused? && item.diagnostic.code == code
  }

  /** How many items were refused with a code. */
  function RefusedWith<N>(items: seq<Item<N>>, code: string): nat {
    if items == [] then 0
    else
      var last := items[|items| - 1];
      RefusedWith(items[..|items| - 1], code) + if RefusedFor(last, code) then 1 else 0
  }

  function AllRefusedWith<N>(inputs: seq<Input<N>>, code: string): nat {
    if inputs == [] then 0
    else AllRefusedWith(inputs[..|inputs| - 1], code) + RefusedWith(inputs[|inputs| - 1].items, code)
  }

  lemma {:induction false} OccurrencesAppend(a: seq<Diagnostic>, b: seq<Diagnostic>, code: string)
    ensures Occurrences(a + b, code) == Occurrences(a, code) + Occurrences(b, code)
  {
    if b == [] {
      assert a + b == a;
    } else {
      var n := |b| - 1;
      OccurrencesAppend(a, b[..n], code);
      assert (a + b)[..|a + b| - 1] == a + b[..n];
    }
  }

  lemma OccursOnce(d: Diagnostic)
    ensures Occurrences([d], d.code) == 1
  {
    assert [d][..0] == [];
  }

  lemma {:induction false} ItemsCounted<N>(limits: Limits, input: Input<N>, items: seq<Item<N>>, code: string)
    ensures Occurrences(ItemDiagnostics(limits, input, items), code) >= RefusedWith(items, code)
  {
    if items != [] {
      var n := |items| - 1;
      var last := items[n];
      ItemsCounted(limits, input, items[..n], code);
      hide Occurrences;
      OccurrencesAppend(ItemDiagnostics(limits, input, items[..n]), DiagnosticsOf(limits, input, last), code);
      if last.Refused? && last.diagnostic.code == code {
        OccursOnce(last.diagnostic);
      }
    }
  }

  lemma {:induction false} InputsCounted<N>(limits: Limits, inputs: seq<Input<N>>, code: string)
    ensures Occurrences(AllDiagnostics(limits, inputs), code) >= AllRefusedWith(inputs, code)
  {
    if inputs != [] {
      var n := |inputs| - 1;
      var last := inputs[n];
      InputsCounted(limits, inputs[..n], code);
      ItemsCounted(limits, last, last.items, code);
      hide Occurrences, ItemDiagnostics;
      var itemised := ItemDiagnostics(limits, last, last.items);
      var empty := if AnyParsed(last.items) && Passing(last, last.items) == [] then [SOURCE_FILTERED_EMPTY] else [];
      OccurrencesAppend(AllDiagnostics(limits, inputs[..n]), SourceDiagnostics(limits, last), code);
      OccurrencesAppend(itemised + last.diagnostics, empty, code);
      OccurrencesAppend(itemised, last.diagnostics, code);
    }
  }

  lemma {:induction false} SomeRefused<N>(items: seq<Item<N>>, i: nat)
    requires i < |items| && items[i].Refused?
    ensures RefusedWith(items, items[i].diagnostic.code) > 0
  {
    if i < |items| - 1 {
      SomeRefused(items[..|items| - 1], i);
    }
  }

  lemma {:induction false} SomeInputRefused<N>(inputs: seq<Input<N>>, k: nat, code: string)
    requires k < |inputs| && RefusedWith(inputs[k].items, code) > 0
    ensures AllRefusedWith(inputs, code) > 0
  {
    if k < |inputs| - 1 {
      SomeInputRefused(inputs[..|inputs| - 1], k, code);
    }
  }

  /** The counts of an honest report hold every refused item under its code, however many details were dropped. */
  lemma RefusalsCounted<N>(
    limits: Limits, inputs: seq<Input<N>>, kept: seq<Diagnostic>, counts: Tally, truncated: bool, code: string)
    requires Tells(kept, counts, truncated, AllDiagnostics(limits, inputs), limits.maxDetailed)
    ensures Count(counts, code) >= AllRefusedWith(inputs, code)
    ensures forall k, i ::
      0 <= k < |inputs| && 0 <= i < |inputs[k].items| && RefusedFor(inputs[k].items[i], code) ==> Count(counts, code) > 0
  {
    InputsCounted(limits, inputs, code);
    hide Occurrences, AllDiagnostics, AllRefusedWith, RefusedWith;
    forall k, i | 0 <= k < |inputs| && 0 <= i < |inputs[k].items| && RefusedFor(inputs[k].items[i], code)
      ensures Count(counts, code) > 0
    {
      SomeRefused(inputs[k].items, i);
      SomeInputRefused(inputs, k, code);
    }
  }

  /** A source whose items parsed and were then all filtered out is reported as such. */
  lemma EmptySourceReported<N>(limits: Limits, input: Input<N>)
    requires exists i :: 0 <= i < |input.items| && input.items[i].Parsed?
    requires forall i :: 0 <= i < |input.items| && input.items[i].Parsed? ==> !input.accepts(input.items[i].arrival)
    ensures Diagnostic("SourceFilteredEmpty", None, "") in SourceDiagnostics(limits, input)
  {
    NonePass(input, input.items);
    hide ItemDiagnostics, Passing;
  }

  lemma {:induction false} NonePass<N>(input: Input<N>, items: seq<Item<N>>)
    requires forall i :: 0 <= i < |items| && items[i].Parsed? ==> !input.accepts(items[i].arrival)
    ensures Passing(input, items) == []
  {
    if items != [] {
      NonePass(input, items[..|items| - 1]);
    }
  }

  // ---- The warning count ----

  /** How many codes the lines of accepted items show. */
  function Shown<F>(lines: seq<ItemReport<F>>): nat {
    if lines == [] then 0
    else
      var last := lines[|lines| - 1];
      Shown(lines[..|lines| - 1]) + if last.status == Accepted then |last.codes| else 0
  }

  lemma {:induction false} ShownAppend<F>(a: seq<ItemReport<F>>, b: seq<ItemReport<F>>)
    ensures Shown(a + b) == Shown(a) + Shown(b)
  {
    if b == [] {
      assert a + b == a;
    } else {
      var n := |b| - 1;
      ShownAppend(a, b[..n]);
      assert (a + b)[..|a + b| - 1] == a + b[..n];
    }
  }

  lemma {:induction false} ItemWarningsShown<N, F>(fp: N -> F, limits: Limits, input: Input<N>, items: seq<Item<N>>)
    ensures ItemWarnings(limits, input, items) == Shown(Reports(fp, limits, input, items))
  {
    if items != [] {
      var n := |items| - 1;
      ItemWarningsShown(fp, limits, input, items[..n]);
      var front := Reports(fp, limits, input, items[..n]);
      assert (front + [ReportOf(fp, limits, input, items[n])])[..|front|] == front;
    }
  }

  function SourceDiagnosticCount<N>(inputs: seq<Input<N>>): nat {
    if inputs == [] then 0
    else SourceDiagnosticCount(inputs[..|inputs| - 1]) + |inputs[|inputs| - 1].diagnostics|
  }

  /** The summary counts as warnings what the lines of accepted items show and what was said about whole sources. */
  lemma {:induction false} WarningsShown<N, F>(fp: N -> F, limits: Limits, inputs: seq<Input<N>>)
    ensures AllWarnings(limits, inputs) == Shown(AllReports(fp, limits, inputs)) + SourceDiagnosticCount(inputs)
  {
    if inputs != [] {
      var n := |inputs| - 1;
      var last := inputs[n];
      WarningsShown(fp, limits, inputs[..n]);
      ItemWarningsShown(fp, limits, last, last.items);
      hide Shown, Reports, ItemWarnings;
      ShownAppend(AllReports(fp, limits, inputs[..n]), Reports(fp, limits, last, last.items));
    }
  }
}
