/** What deduplication promises: order of first occurrence, and conservation of every source's nodes. */
module DedupLaws {
  import opened Wrappers
  import opened Dedup

  // ---- The final sort changes nothing when items are numbered as they come ----

  function ItemOf<N>(t: Tagged<N>): nat {
    if t.arrival.refs == [] then 0 else t.arrival.refs[0].itemIndex
  }

  predicate Earlier<N>(s: Tagged<N>, t: Tagged<N>) {
    s.order < t.order || (s.order == t.order && ItemOf(s) < ItemOf(t))
  }

  ghost predicate Climbing<N>(flat: seq<Tagged<N>>) {
    forall i, j :: 0 <= i < j < |flat| ==> Earlier(flat[i], flat[j])
  }

  /** Entries appear in the order in which their first nodes do. */
  lemma {:induction false} FirstsClimb<N, F>(fp: N -> F, flat: seq<Tagged<N>>, i: nat, j: nat)
    requires Climbing(flat) && i < j < |Keys(fp, flat)|
    ensures Keys(fp, flat)[i] in Fingerprints(fp, flat) && Keys(fp, flat)[j] in Fingerprints(fp, flat)
    ensures Earlier(FirstWith(fp, Keys(fp, flat)[i], flat), FirstWith(fp, Keys(fp, flat)[j], flat))
    decreases |flat|
  {
    if flat == [] {
      assert false;
    } else {
      var n := |flat| - 1;
      var front, t := flat[..n], flat[n];
      assert flat == front + [t];
      KeysSnoc(fp, front, t);
      KeysAre(fp, flat, Keys(fp, flat)[i]);
      KeysAre(fp, flat, Keys(fp, flat)[j]);
      KeysAre(fp, front, Keys(fp, flat)[i]);
      KeysAre(fp, front, Keys(fp, flat)[j]);
      assert Keys(fp, flat)[i] in Keys(fp, flat) && Keys(fp, flat)[j] in Keys(fp, flat);
      assert Keys(fp, flat)[i] == Keys(fp, front)[i];
      assert Keys(fp, front)[i] in Keys(fp, front);
      if j < |Keys(fp, front)| {
        assert Keys(fp, front)[j] in Keys(fp, front);
        FirstsClimb(fp, front, i, j);
      } else {
        var first := FirstWith(fp, Keys(fp, flat)[i], front);
        var k :| 0 <= k < |front| && front[k] == first;
        assert Earlier(flat[k], flat[n]);
      }
    }
  }

  lemma ClimbingScanInOrder<N, F>(
    fp: N -> F, display: F -> string, infer: seq<string> -> Option<string>, cap: nat, flat: seq<Tagged<N>>)
    requires Climbing(flat)
    ensures Deduplicated(fp, display, infer, cap, flat) == Located(infer, SimpleScan(fp, cap, flat))
  {
    var scan := SimpleScan(fp, cap, flat);
    ScanLength(fp, cap, flat);
    hide SimpleScan, Keys, Sorted;
    forall i, j | 0 <= i < j < |scan| && j == i + 1
      ensures !Before(display, scan[j], scan[i])
    {
      ScanAt(fp, cap, flat, i);
      ScanAt(fp, cap, flat, j);
      FirstsClimb(fp, flat, i, j);
    }
    LocatedInOrder(display, infer, scan);
    SortedFixed(display, Located(infer, scan));
  }

  /** Every node carries a reference, and references are numbered upwards within a source. */
  ghost predicate Numbered<N>(batch: Batch<N>) {
    && (forall i :: 0 <= i < |batch.nodes| ==> batch.nodes[i].refs != [])
    && (forall i, j :: 0 <= i < j < |batch.nodes| ==>
          batch.nodes[i].refs[0].itemIndex < batch.nodes[j].refs[0].itemIndex)
  }

  lemma {:induction false} NumberedClimbs<N>(batches: seq<Batch<N>>)
    requires forall b :: 0 <= b < |batches| ==> Numbered(batches[b])
    ensures Climbing(Flat(batches))
    ensures forall i :: 0 <= i < |Flat(batches)| ==> Flat(batches)[i].order < |batches|
  {
    if batches != [] {
      var n := |batches| - 1;
      NumberedClimbs(batches[..n]);
      var front, last := Flat(batches[..n]), Tag(n, batches[n].nodes);
      assert Numbered(batches[n]);
      forall i, j | 0 <= i < j < |front + last|
        ensures Earlier((front + last)[i], (front + last)[j])
      {
        assert i >= |front| ==> (front + last)[i] == last[i - |front|];
        assert j >= |front| ==> (front + last)[j] == last[j - |front|];
      }
    }
  }

  /** Deduplication then keeps the order of first occurrence. */
  lemma FirstOccurrenceOrder<N, F>(
    fp: N -> F, display: F -> string, infer: seq<string> -> Option<string>, cap: nat, batches: seq<Batch<N>>)
    requires forall b :: 0 <= b < |batches| ==> Numbered(batches[b])
    ensures Deduplicated(fp, display, infer, cap, Flat(batches)) == Located(infer, SimpleScan(fp, cap, Flat(batches)))
  {
    NumberedClimbs(batches);
    ClimbingScanInOrder(fp, display, infer, cap, Flat(batches));
  }

  // ---- Conservation ----

  /** A number read off each outcome, such as how many nodes it accounts for. */
  type Measure = Outcome -> nat

  function Handled(o: Outcome): nat {
    o.accepted + o.duplicate
  }

  function Duplicates(o: Outcome): nat {
    o.duplicate
  }

  function Rejections(o: Outcome): nat {
    o.rejected
  }

  /** The sum over the ledger, as the summary of a conversion takes it. */
  function Total(m: Measure, ledger: Ledger): nat {
    if ledger == [] then 0 else m(ledger[0].1) + Total(m, ledger[1..])
  }

  /** The sum over all batches. */
  function Overall<N, F(==)>(m: Measure, fp: N -> F, batches: seq<Batch<N>>): nat {
    if batches == [] then 0
    else Overall(m, fp, batches[..|batches| - 1]) + m(BatchOutcome(fp, batches))
  }

  function Lookup(ledger: Ledger, id: string): Option<Outcome> {
    if ledger == [] then None
    else if ledger[0].0 == id then Some(ledger[0].1)
    else Lookup(ledger[1..], id)
  }

  lemma {:induction false} RecordLooksUp(ledger: Ledger, id: string, o: Outcome, other: string)
    ensures Lookup(Record(ledger, id, o), other) == if other == id then Some(o) else Lookup(ledger, other)
  {
    if ledger != [] && ledger[0].0 != id {
      RecordLooksUp(ledger[1..], id, o, other);
      assert Record(ledger, id, o)[1..] == Record(ledger[1..], id, o);
    } else if ledger != [] {
      assert Record(ledger, id, o)[1..] == ledger[1..];
    }
  }

  lemma {:induction false} RecordTotals(m: Measure, ledger: Ledger, id: string, o: Outcome)
    ensures Total(m, Record(ledger, id, o)) + (match Lookup(ledger, id) case None => 0 case Some(replaced) => m(replaced))
         == Total(m, ledger) + m(o)
  {
    if ledger != [] && ledger[0].0 != id {
      RecordTotals(m, ledger[1..], id, o);
      assert Record(ledger, id, o)[1..] == Record(ledger[1..], id, o);
    } else if ledger != [] {
      assert Record(ledger, id, o)[1..] == ledger[1..];
    } else {
      assert [(id, o)][1..] == [];
    }
  }

  /** What the last batch of a source accounts for. */
  function LastOf<N, F(==)>(m: Measure, fp: N -> F, batches: seq<Batch<N>>, id: string): nat {
    if batches == [] then 0
    else if batches[|batches| - 1].sourceId == id then m(BatchOutcome(fp, batches))
    else LastOf(m, fp, batches[..|batches| - 1], id)
  }

  lemma {:induction false} LedgerLookup<N, F>(m: Measure, fp: N -> F, batches: seq<Batch<N>>, id: string)
    ensures match Lookup(LedgerOf(fp, batches), id)
      case None => LastOf(m, fp, batches, id) == 0
      case Some(o) => m(o) == LastOf(m, fp, batches, id)
  {
    if batches != [] {
      var n := |batches| - 1;
      LedgerLookup(m, fp, batches[..n], id);
      RecordLooksUp(LedgerOf(fp, batches[..n]), batches[n].sourceId, BatchOutcome(fp, batches), id);
    }
  }

  /** What is lost because a later batch of the same source replaced an outcome. */
  function Forgotten<N, F(==)>(m: Measure, fp: N -> F, batches: seq<Batch<N>>): nat {
    if batches == [] then 0
    else
      var n := |batches| - 1;
      Forgotten(m, fp, batches[..n]) + LastOf(m, fp, batches[..n], batches[n].sourceId)
  }

  lemma {:induction false} LedgerTotal<N, F>(m: Measure, fp: N -> F, batches: seq<Batch<N>>)
    ensures Total(m, LedgerOf(fp, batches)) + Forgotten(m, fp, batches) == Overall(m, fp, batches)
  {
    if batches != [] {
      var n := |batches| - 1;
      LedgerTotal(m, fp, batches[..n]);
      LedgerLookup(m, fp, batches[..n], batches[n].sourceId);
      RecordTotals(m, LedgerOf(fp, batches[..n]), batches[n].sourceId, BatchOutcome(fp, batches));
    }
  }

  /** What one batch accounts for. */
  function Share<N, F(==)>(m: Measure, fp: N -> F, batches: seq<Batch<N>>, b: nat): nat
    requires b < |batches|
  {
    m(BatchOutcome(fp, batches[..b + 1]))
  }

  lemma ShareOfFront<N, F>(m: Measure, fp: N -> F, batches: seq<Batch<N>>, n: nat, b: nat)
    requires b < n <= |batches|
    ensures Share(m, fp, batches[..n], b) == Share(m, fp, batches, b)
  {
    assert batches[..n][..b + 1] == batches[..b + 1];
  }

  lemma ShareOfLast<N, F>(m: Measure, fp: N -> F, batches: seq<Batch<N>>)
    requires batches != []
    ensures Share(m, fp, batches, |batches| - 1) == m(BatchOutcome(fp, batches))
  {
    assert batches[..|batches|] == batches;
  }

  /** A batch that is followed by another of the same source accounts for nothing. */
  ghost predicate Unshadowed<N, F>(m: Measure, fp: N -> F, batches: seq<Batch<N>>) {
    forall b, c :: 0 <= b < c < |batches| && batches[b].sourceId == batches[c].sourceId ==>
      Share(m, fp, batches, b) == 0
  }

  lemma UnshadowedFront<N, F>(m: Measure, fp: N -> F, batches: seq<Batch<N>>)
    requires batches != []
    ensures Unshadowed(m, fp, batches) ==> Unshadowed(m, fp, batches[..|batches| - 1])
  {
    var n := |batches| - 1;
    hide Share;
    forall b | 0 <= b < n
      ensures Share(m, fp, batches[..n], b) == Share(m, fp, batches, b)
    {
      ShareOfFront(m, fp, batches, n, b);
    }
  }

  lemma {:induction false} LastOfZero<N, F>(m: Measure, fp: N -> F, batches: seq<Batch<N>>, id: string)
    requires forall b :: 0 <= b < |batches| && batches[b].sourceId == id ==> Share(m, fp, batches, b) == 0
    ensures LastOf(m, fp, batches, id) == 0
  {
    if batches != [] {
      var n := |batches| - 1;
      ShareOfLast(m, fp, batches);
      hide Share;
      forall b | 0 <= b < n && batches[..n][b].sourceId == id
        ensures Share(m, fp, batches[..n], b) == 0
      {
        ShareOfFront(m, fp, batches, n, b);
      }
      LastOfZero(m, fp, batches[..n], id);
    }
  }

  lemma {:induction false} LastOfCovers<N, F>(m: Measure, fp: N -> F, batches: seq<Batch<N>>, id: string, b: nat)
    requires Unshadowed(m, fp, batches) && LastOf(m, fp, batches, id) == 0
    requires b < |batches| && batches[b].sourceId == id
    ensures Share(m, fp, batches, b) == 0
    decreases batches, 1
  {
    hide Share, BatchOutcome;
    var n := |batches| - 1;
    if b == n {
      ShareOfLast(m, fp, batches);
    } else if batches[n].sourceId != id {
      LastOfCoversFront(m, fp, batches, id, b);
    }
  }

  lemma {:induction false} LastOfCoversFront<N, F>(m: Measure, fp: N -> F, batches: seq<Batch<N>>, id: string, b: nat)
    requires Unshadowed(m, fp, batches) && LastOf(m, fp, batches, id) == 0
    requires b < |batches| - 1 && batches[b].sourceId == id && batches[|batches| - 1].sourceId != id
    ensures Share(m, fp, batches, b) == 0
    decreases batches, 0
  {
    hide Share, Unshadowed;
    var n := |batches| - 1;
    UnshadowedFront(m, fp, batches);
    LastOfCovers(m, fp, batches[..n], id, b);
    ShareOfFront(m, fp, batches, n, b);
  }

  lemma ShadowsLast<N, F>(m: Measure, fp: N -> F, batches: seq<Batch<N>>)
    requires batches != [] && Unshadowed(m, fp, batches)
    ensures LastOf(m, fp, batches[..|batches| - 1], batches[|batches| - 1].sourceId) == 0
  {
    var n := |batches| - 1;
    hide Share;
    forall b | 0 <= b < n && batches[..n][b].sourceId == batches[n].sourceId
      ensures Share(m, fp, batches[..n], b) == 0
    {
      ShareOfFront(m, fp, batches, n, b);
    }
    LastOfZero(m, fp, batches[..n], batches[n].sourceId);
  }

  lemma UnshadowedBy<N, F>(m: Measure, fp: N -> F, batches: seq<Batch<N>>)
    requires batches != [] && Unshadowed(m, fp, batches[..|batches| - 1])
    requires LastOf(m, fp, batches[..|batches| - 1], batches[|batches| - 1].sourceId) == 0
    ensures Unshadowed(m, fp, batches)
  {
    var n := |batches| - 1;
    var front := batches[..n];
    hide Share;
    forall b, c | 0 <= b < c < |batches| && batches[b].sourceId == batches[c].sourceId
      ensures Share(m, fp, batches, b) == 0
    {
      ShareOfFront(m, fp, batches, n, b);
      assert batches[b] == front[b];
      if c < n {
        assert batches[c] == front[c];
      } else {
        LastOfCovers(m, fp, front, batches[n].sourceId, b);
      }
    }
  }

  lemma {:induction false} ForgottenNothing<N, F>(m: Measure, fp: N -> F, batches: seq<Batch<N>>)
    ensures Forgotten(m, fp, batches) == 0 <==> Unshadowed(m, fp, batches)
  {
    if batches != [] {
      ForgottenNothing(m, fp, batches[..|batches| - 1]);
      UnshadowedFront(m, fp, batches);
      if Unshadowed(m, fp, batches) {
        ShadowsLast(m, fp, batches);
      }
      if Forgotten(m, fp, batches) == 0 {
        UnshadowedBy(m, fp, batches);
      }
    }
  }

  lemma {:induction false} OverallNodes<N, F>(fp: N -> F, batches: seq<Batch<N>>)
    ensures Overall(Handled, fp, batches) == |Flat(batches)|
    ensures Overall(Duplicates, fp, batches) + |Keys(fp, Flat(batches))| == |Flat(batches)|
  {
    if batches != [] {
      OverallNodes(fp, batches[..|batches| - 1]);
    }
  }

  // ---- The condition, read off the batches ----

  lemma ShareOfBatch<N, F>(fp: N -> F, batches: seq<Batch<N>>, b: nat)
    requires b < |batches|
    ensures Share(Handled, fp, batches, b) == |batches[b].nodes|
    ensures Share(Rejections, fp, batches, b) == batches[b].rejected
  {
    assert batches[..b + 1][b] == batches[b];
  }

  /** Each of the arrivals is the first with its fingerprint. */
  ghost predicate AllNew<N, F>(fp: N -> F, flat: seq<Tagged<N>>, more: seq<Tagged<N>>) {
    forall i :: 0 <= i < |more| ==> fp(more[i].arrival.node) !in Fingerprints(fp, flat + more[..i])
  }

  lemma AllNewSnoc<N, F>(fp: N -> F, flat: seq<Tagged<N>>, more: seq<Tagged<N>>)
    requires more != []
    ensures var n := |more| - 1;
      AllNew(fp, flat, more) <==>
        AllNew(fp, flat, more[..n]) && fp(more[n].arrival.node) !in Fingerprints(fp, flat + more[..n])
  {
    var n := |more| - 1;
    forall i | 0 <= i < n
      ensures more[..n][i] == more[i] && more[..n][..i] == more[..i]
    {
    }
  }

  /** As many new fingerprints as arrivals, exactly when each arrival is new. */
  lemma {:induction false} AllNewCounts<N, F>(fp: N -> F, flat: seq<Tagged<N>>, more: seq<Tagged<N>>)
    ensures |Keys(fp, flat + more)| == |Keys(fp, flat)| + |more| <==> AllNew(fp, flat, more)
  {
    if more == [] {
      assert flat + more == flat;
    } else {
      var n := |more| - 1;
      AllNewCounts(fp, flat, more[..n]);
      AllNewSnoc(fp, flat, more);
      KeysGrow(fp, flat, more[..n]);
      KeysSnoc(fp, flat + more[..n], more[n]);
      KeysAre(fp, flat + more[..n], fp(more[n].arrival.node));
      assert flat + more == (flat + more[..n]) + [more[n]];
      hide Keys, AllNew;
    }
  }

  lemma ShareOfDuplicates<N, F>(fp: N -> F, batches: seq<Batch<N>>, b: nat)
    requires b < |batches|
    ensures Share(Duplicates, fp, batches, b) == 0 <==>
      AllNew(fp, Flat(batches[..b]), Tag(b, batches[b].nodes))
  {
    var upTo := batches[..b + 1];
    assert upTo[..b] == batches[..b] && upTo[b] == batches[b];
    AllNewCounts(fp, Flat(batches[..b]), Tag(b, batches[b].nodes));
    hide AllNew, Keys;
  }

  /** Some later batch comes from the same source, and its outcome will replace this one's. */
  ghost predicate Replaced<N>(batches: seq<Batch<N>>, b: nat)
    requires b < |batches|
  {
    exists c :: b < c < |batches| && batches[c].sourceId == batches[b].sourceId
  }

  /** Whatever batch is replaced, had no nodes. */
  ghost predicate NodesKept<N>(batches: seq<Batch<N>>) {
    forall b :: 0 <= b < |batches| && Replaced(batches, b) ==> batches[b].nodes == []
  }

  /** Whatever batch is replaced, had only nodes that were the first with their fingerprint. */
  ghost predicate DuplicatesKept<N, F>(fp: N -> F, batches: seq<Batch<N>>) {
    forall b :: 0 <= b < |batches| && Replaced(batches, b) ==>
      AllNew(fp, Flat(batches[..b]), Tag(b, batches[b].nodes))
  }

  /** Whatever batch is replaced, had no rejected items. */
  ghost predicate RejectionsKept<N>(batches: seq<Batch<N>>) {
    forall b :: 0 <= b < |batches| && Replaced(batches, b) ==> batches[b].rejected == 0
  }

  lemma UnshadowedMeans<N, F>(fp: N -> F, batches: seq<Batch<N>>)
    ensures Unshadowed(Handled, fp, batches) <==> NodesKept(batches)
    ensures Unshadowed(Duplicates, fp, batches) <==> DuplicatesKept(fp, batches)
    ensures Unshadowed(Rejections, fp, batches) <==> RejectionsKept(batches)
  {
    hide Share, AllNew;
    forall b | 0 <= b < |batches|
      ensures Share(Handled, fp, batches, b) == 0 <==> batches[b].nodes == []
      ensures Share(Rejections, fp, batches, b) == batches[b].rejected
      ensures Share(Duplicates, fp, batches, b) == 0 <==> AllNew(fp, Flat(batches[..b]), Tag(b, batches[b].nodes))
    {
      ShareOfBatch(fp, batches, b);
      ShareOfDuplicates(fp, batches, b);
    }
  }

  lemma {:induction false} OverallRejections<N, F>(fp: N -> F, batches: seq<Batch<N>>)
    ensures Overall(Rejections, fp, batches) == AllRejected(batches)
  {
    if batches != [] {
      OverallRejections(fp, batches[..|batches| - 1]);
    }
  }

  function AllRejected<N>(batches: seq<Batch<N>>): nat {
    if batches == [] then 0 else AllRejected(batches[..|batches| - 1]) + batches[|batches| - 1].rejected
  }

  /**
   * The outcomes account for every node delivered, for every duplicate and for every rejection, each exactly when
   * no batch that has any is followed by another of the same source.
   */
  lemma ConservedExactly<N, F>(fp: N -> F, batches: seq<Batch<N>>)
    ensures Total(Handled, LedgerOf(fp, batches)) == |Flat(batches)| <==> NodesKept(batches)
    ensures |Keys(fp, Flat(batches))| + Total(Duplicates, LedgerOf(fp, batches)) == |Flat(batches)|
       <==> DuplicatesKept(fp, batches)
    ensures Total(Rejections, LedgerOf(fp, batches)) == AllRejected(batches) <==> RejectionsKept(batches)
  {
    hide Overall, Total, LedgerOf, Unshadowed, NodesKept, DuplicatesKept, RejectionsKept, Forgotten;
    UnshadowedMeans(fp, batches);
    OverallNodes(fp, batches);
    OverallRejections(fp, batches);
    LedgerTotal(Handled, fp, batches);
    ForgottenNothing(Handled, fp, batches);
    LedgerTotal(Duplicates, fp, batches);
    ForgottenNothing(Duplicates, fp, batches);
    LedgerTotal(Rejections, fp, batches);
    ForgottenNothing(Rejections, fp, batches);
  }

  // ---- What the entries are ----

  /** `kept` are distinct ones of `all`, all of them unless the cap cut them off. */
  ghost predicate Collects<T(!new)>(kept: seq<T>, all: seq<T>, cap: nat) {
    && |kept| <= cap
    && (forall i, j :: 0 <= i < j < |kept| ==> kept[i] != kept[j])
    && (forall x :: x in kept ==> x in all)
    && (|kept| < cap ==> forall x :: x in all ==> x in kept)
  }

  lemma FirstDistinctCollects<T(!new)>(xs: seq<T>, cap: nat)
    ensures Collects(FirstDistinct(xs, cap), xs, cap)
  {
    DistinctFacts(xs);
  }

  lemma {:induction false} RefsOfMean<N, F>(fp: N -> F, key: F, flat: seq<Tagged<N>>, ref: SourceRef)
    ensures ref in RefsOf(fp, key, flat) <==>
      exists i :: 0 <= i < |flat| && fp(flat[i].arrival.node) == key && ref in flat[i].arrival.refs
  {
    if flat != [] {
      var n := |flat| - 1;
      RefsOfMean(fp, key, flat[..n], ref);
      assert forall i :: 0 <= i < n ==> flat[..n][i] == flat[i];
    }
  }

  lemma {:induction false} NamesOfMean<N, F>(fp: N -> F, key: F, flat: seq<Tagged<N>>, name: string)
    ensures name in NamesOf(fp, key, flat) <==>
      exists i :: 0 <= i < |flat| && fp(flat[i].arrival.node) == key && name == flat[i].arrival.name
  {
    if flat != [] {
      var n := |flat| - 1;
      NamesOfMean(fp, key, flat[..n], name);
      assert forall i :: 0 <= i < n ==> flat[..n][i] == flat[i];
    }
  }

  /** The place of the first node with a fingerprint. */
  ghost predicate FirstAt<N, F>(fp: N -> F, key: F, flat: seq<Tagged<N>>, i: nat) {
    && i < |flat| && fp(flat[i].arrival.node) == key
    && forall j :: 0 <= j < i ==> fp(flat[j].arrival.node) != key
  }

  lemma {:induction false} FirstWithIsFirst<N, F>(fp: N -> F, key: F, flat: seq<Tagged<N>>) returns (i: nat)
    requires key in Fingerprints(fp, flat)
    ensures FirstAt(fp, key, flat, i) && FirstWith(fp, key, flat) == flat[i]
  {
    var n := |flat| - 1;
    if key in Fingerprints(fp, flat[..n]) {
      i := FirstWithIsFirst(fp, key, flat[..n]);
      assert forall j :: 0 <= j < n ==> flat[..n][j] == flat[j];
    } else {
      i := n;
      FingerprintsAre(fp, flat[..n], key);
      assert Fingerprints(fp, flat) == Fingerprints(fp, flat[..n]) + [fp(flat[n].arrival.node)];
      assert forall j :: 0 <= j < n ==> flat[..n][j] == flat[j];
    }
  }

  lemma {:induction false} FingerprintsAre<N, F>(fp: N -> F, flat: seq<Tagged<N>>, key: F)
    ensures key in Fingerprints(fp, flat) <==> exists i :: 0 <= i < |flat| && fp(flat[i].arrival.node) == key
  {
    if flat != [] {
      var n := |flat| - 1;
      FingerprintsAre(fp, flat[..n], key);
      assert forall i :: 0 <= i < n ==> flat[..n][i] == flat[i];
    }
  }

  /** An entry is made of the first node with its fingerprint and of what all nodes with it bring. */
  ghost predicate Represents<N, F>(e: Deduped<N, F>, fp: N -> F, cap: nat, flat: seq<Tagged<N>>) {
    && (exists i: nat :: FirstAt(fp, e.fingerprint, flat, i)
          && e.node == flat[i].arrival.node && e.sourceOrder == flat[i].order
          && e.itemIndex == if flat[i].arrival.refs == [] then 0 else flat[i].arrival.refs[0].itemIndex)
    && Collects(e.refs, RefsOf(fp, e.fingerprint, flat), cap)
    && Collects(e.aliases, NamesOf(fp, e.fingerprint, flat), cap)
  }

  lemma EntryRepresents<N, F>(fp: N -> F, cap: nat, key: F, flat: seq<Tagged<N>>)
    requires key in Fingerprints(fp, flat)
    ensures EntryFor(fp, cap, key, flat).fingerprint == key
    ensures Represents(EntryFor(fp, cap, key, flat), fp, cap, flat)
  {
    var i := FirstWithIsFirst(fp, key, flat);
    FirstDistinctCollects(RefsOf(fp, key, flat), cap);
    FirstDistinctCollects(NamesOf(fp, key, flat), cap);
    hide RefsOf, NamesOf, FirstDistinct, Collects, FirstWith, Fingerprints;
    assert FirstAt(fp, key, flat, i);
  }

  /**
   * Every node is represented by exactly one entry, the one with its fingerprint, and every entry represents the nodes
   * with its fingerprint.
   */
  lemma ScanRepresents<N, F>(fp: N -> F, cap: nat, flat: seq<Tagged<N>>)
    ensures var scan := SimpleScan(fp, cap, flat);
      && (forall k :: 0 <= k < |scan| ==> Represents(scan[k], fp, cap, flat))
      && (forall k, l :: 0 <= k < l < |scan| ==> scan[k].fingerprint != scan[l].fingerprint)
      && (forall i :: 0 <= i < |flat| ==> HasEntry(scan, fp(flat[i].arrival.node)))
  {
    hide EntryFor, SimpleScan, Keys, Fingerprints, Represents;
    var scan, keys := SimpleScan(fp, cap, flat), Keys(fp, flat);
    ScanLength(fp, cap, flat);
    forall k | 0 <= k < |scan|
      ensures scan[k].fingerprint == keys[k] && Represents(scan[k], fp, cap, flat)
    {
      ScanAt(fp, cap, flat, k);
      EntryRepresents(fp, cap, keys[k], flat);
    }
    forall k, l | 0 <= k < l < |scan|
      ensures scan[k].fingerprint != scan[l].fingerprint
    {
      KeysDiffer(fp, flat, k, l);
    }
    forall i | 0 <= i < |flat|
      ensures HasEntry(scan, fp(flat[i].arrival.node))
    {
      var key := fp(flat[i].arrival.node);
      FingerprintsAre(fp, flat, key);
      KeysAre(fp, flat, key);
      var k :| 0 <= k < |keys| && keys[k] == key;
      assert scan[k].fingerprint == key;
    }
  }

  ghost predicate HasEntry<N, F>(scan: seq<Deduped<N, F>>, key: F) {
    exists k :: 0 <= k < |scan| && scan[k].fingerprint == key
  }

  /** The entries returned are those of the scan, each with the territory that its names suggest. */
  lemma DeduplicatedRepresents<N, F>(
    fp: N -> F, display: F -> string, infer: seq<string> -> Option<string>, cap: nat, flat: seq<Tagged<N>>, e: Deduped<N, F>)
    requires e in Deduplicated(fp, display, infer, cap, flat)
    ensures e.territory == infer(e.aliases) && Represents(e, fp, cap, flat)
  {
    var scan := SimpleScan(fp, cap, flat);
    var located := Located(infer, scan);
    ScanRepresents(fp, cap, flat);
    hide SimpleScan, Sorted, FirstAt, Collects, RefsOf, NamesOf;
    SortedKeeps(display, located);
    assert e in multiset(Sorted(display, located));
    assert e in multiset(located);
    var k :| 0 <= k < |located| && located[k] == e;
    assert Represents(scan[k], fp, cap, flat);
  }
}
