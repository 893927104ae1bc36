/** Deduplication of nodes by fingerprint, across the batches of all sources. */
module Dedup {
  import opened Wrappers
  import Ordering

  datatype SourceRef = SourceRef(sourceId: string, itemIndex: nat, format: string, line: Option<nat>)

  /** A parsed node with its protocol, the name it is shown under and where it was found. */
  datatype Arrival<N> = Arrival(node: N, protocol: string, name: string, refs: seq<SourceRef>)

  datatype Batch<N> = Batch(sourceId: string, nodes: seq<Arrival<N>>, rejected: nat, warnings: nat)

  datatype Outcome = Outcome(accepted: nat, duplicate: nat, rejected: nat, warnings: nat)

  datatype Deduped<N, F> = Deduped(
    fingerprint: F,
    node: N,
    refs: seq<SourceRef>,
    aliases: seq<string>,
    territory: Option<string>,
    sourceOrder: nat,
    itemIndex: nat)

  datatype Tagged<N> = Tagged(order: nat, arrival: Arrival<N>)

  // ---- The simple scan: what one would write without an index ----

  /** The elements of a list without repetitions, in order of first occurrence. */
  function Distinct<T(==)>(xs: seq<T>): seq<T> {
    if xs == [] then []
    else
      var before := Distinct(xs[..|xs| - 1]);
      if xs[|xs| - 1] in before then before else before + [xs[|xs| - 1]]
  }

  function FirstDistinct<T(==)>(xs: seq<T>, cap: nat): seq<T> {
    if |Distinct(xs)| <= cap then Distinct(xs) else Distinct(xs)[..cap]
  }

  function Fingerprints<N, F(==)>(fp: N -> F, flat: seq<Tagged<N>>): seq<F> {
    if flat == [] then [] else Fingerprints(fp, flat[..|flat| - 1]) + [fp(flat[|flat| - 1].arrival.node)]
  }

  function RefsOf<N, F(==)>(fp: N -> F, key: F, flat: seq<Tagged<N>>): seq<SourceRef> {
    if flat == [] then []
    else
      var last := flat[|flat| - 1].arrival;
      RefsOf(fp, key, flat[..|flat| - 1]) + (if fp(last.node) == key then last.refs else [])
  }

  function NamesOf<N, F(==)>(fp: N -> F, key: F, flat: seq<Tagged<N>>): seq<string> {
    if flat == [] then []
    else
      var last := flat[|flat| - 1].arrival;
      NamesOf(fp, key, flat[..|flat| - 1]) + (if fp(last.node) == key then [last.name] else [])
  }

  function FirstWith<N, F(==)>(fp: N -> F, key: F, flat: seq<Tagged<N>>): (first: Tagged<N>)
    requires key in Fingerprints(fp, flat)
    ensures first in flat && fp(first.arrival.node) == key
  {
    if key in Fingerprints(fp, flat[..|flat| - 1])
    then FirstWith(fp, key, flat[..|flat| - 1])
    else flat[|flat| - 1]
  }

  /** All there is to say about one fingerprint: its first node, and the refs and names of every node that has it. */
  function EntryFor<N, F(==)>(fp: N -> F, cap: nat, key: F, flat: seq<Tagged<N>>): Deduped<N, F>
    requires key in Fingerprints(fp, flat)
  {
    var first := FirstWith(fp, key, flat);
    Deduped(
      key,
      first.arrival.node,
      FirstDistinct(RefsOf(fp, key, flat), cap),
      FirstDistinct(NamesOf(fp, key, flat), cap),
      None,
      first.order,
      if first.arrival.refs == [] then 0 else first.arrival.refs[0].itemIndex)
  }

  function Keys<N, F(==)>(fp: N -> F, flat: seq<Tagged<N>>): seq<F> {
    Distinct(Fingerprints(fp, flat))
  }

  lemma {:induction false} DistinctFacts<T>(xs: seq<T>)
    ensures forall x :: x in Distinct(xs) <==> x in xs
    ensures forall i, j :: 0 <= i < j < |Distinct(xs)| ==> Distinct(xs)[i] != Distinct(xs)[j]
  {
    if xs != [] {
      var n := |xs| - 1;
      DistinctFacts(xs[..n]);
      assert xs == xs[..n] + [xs[n]];
    }
  }

  function EntriesFor<N, F(==)>(fp: N -> F, cap: nat, keys: seq<F>, flat: seq<Tagged<N>>): (r: seq<Deduped<N, F>>)
    requires forall i :: 0 <= i < |keys| ==> keys[i] in Fingerprints(fp, flat)
  {
    seq(|keys|, i requires 0 <= i < |keys| => EntryFor(fp, cap, keys[i], flat))
  }

  /** The entry of each fingerprint, in the order the fingerprints first occur. */
  function SimpleScan<N, F(==)>(fp: N -> F, cap: nat, flat: seq<Tagged<N>>): (r: seq<Deduped<N, F>>) {
    DistinctFacts(Fingerprints(fp, flat));
    EntriesFor(fp, cap, Keys(fp, flat), flat)
  }

  lemma ScanAt<N, F>(fp: N -> F, cap: nat, flat: seq<Tagged<N>>, i: nat)
    requires i < |Keys(fp, flat)|
    ensures |SimpleScan(fp, cap, flat)| == |Keys(fp, flat)|
    ensures Keys(fp, flat)[i] in Fingerprints(fp, flat)
    ensures SimpleScan(fp, cap, flat)[i] == EntryFor(fp, cap, Keys(fp, flat)[i], flat)
  {
    DistinctFacts(Fingerprints(fp, flat));
    assert Keys(fp, flat)[i] in Keys(fp, flat);
  }

  lemma ScanLength<N, F>(fp: N -> F, cap: nat, flat: seq<Tagged<N>>)
    ensures |SimpleScan(fp, cap, flat)| == |Keys(fp, flat)|
  {
  }

  // ---- What one more arrival does to the scan ----

  lemma DistinctSnoc<T>(xs: seq<T>, x: T)
    ensures Distinct(xs + [x]) == if x in xs then Distinct(xs) else Distinct(xs) + [x]
  {
    DistinctFacts(xs);
    assert (xs + [x])[..|xs|] == xs;
  }

  lemma FirstDistinctSnoc<T>(xs: seq<T>, x: T, cap: nat)
    ensures var before := FirstDistinct(xs, cap);
      FirstDistinct(xs + [x], cap) == if |before| >= cap || x in before then before else before + [x]
  {
    DistinctFacts(xs);
    DistinctSnoc(xs, x);
  }

  lemma {:induction false} FirstDistinctFull<T>(xs: seq<T>, more: seq<T>, cap: nat)
    requires |FirstDistinct(xs, cap)| >= cap
    ensures FirstDistinct(xs + more, cap) == FirstDistinct(xs, cap)
  {
    if more == [] {
      assert xs + more == xs;
    } else {
      var n := |more| - 1;
      FirstDistinctFull(xs, more[..n], cap);
      FirstDistinctSnoc(xs + more[..n], more[n], cap);
      assert xs + more == (xs + more[..n]) + [more[n]];
    }
  }

  lemma {:induction false} FingerprintsSnoc<N, F>(fp: N -> F, flat: seq<Tagged<N>>, t: Tagged<N>, key: F)
    ensures Fingerprints(fp, flat + [t]) == Fingerprints(fp, flat) + [fp(t.arrival.node)]
    ensures RefsOf(fp, key, flat + [t])
         == RefsOf(fp, key, flat) + if fp(t.arrival.node) == key then t.arrival.refs else []
    ensures NamesOf(fp, key, flat + [t])
         == NamesOf(fp, key, flat) + if fp(t.arrival.node) == key then [t.arrival.name] else []
  {
    assert (flat + [t])[..|flat|] == flat;
  }

  lemma {:induction false} AbsentKey<N, F>(fp: N -> F, key: F, flat: seq<Tagged<N>>)
    requires key !in Fingerprints(fp, flat)
    ensures RefsOf(fp, key, flat) == [] && NamesOf(fp, key, flat) == []
  {
    if flat != [] {
      assert Fingerprints(fp, flat)[|Fingerprints(fp, flat)| - 1] == fp(flat[|flat| - 1].arrival.node);
      AbsentKey(fp, key, flat[..|flat| - 1]);
    }
  }

  /** `merge_refs`: push what is not there yet until the cap is reached. */
  method MergeRefs(target: seq<SourceRef>, refs: seq<SourceRef>, cap: nat, ghost sofar: seq<SourceRef>)
    returns (merged: seq<SourceRef>)
    requires target == FirstDistinct(sofar, cap)
    ensures merged == FirstDistinct(sofar + refs, cap)
  {
    merged := target;
    assert sofar + refs[..0] == sofar;
    for i := 0 to |refs|
      invariant merged == FirstDistinct(sofar + refs[..i], cap)
    {
      if |merged| >= cap {
        FirstDistinctFull(sofar + refs[..i], refs[i..], cap);
        assert (sofar + refs[..i]) + refs[i..] == sofar + refs;
        return;
      }
      FirstDistinctSnoc(sofar + refs[..i], refs[i], cap);
      assert sofar + refs[..i + 1] == (sofar + refs[..i]) + [refs[i]];
      if refs[i] !in merged {
        merged := merged + [refs[i]];
      }
    }
    assert refs[..|refs|] == refs;
  }

  /** An entry for one fingerprint is not affected by an arrival with another. */
  lemma OtherEntry<N, F>(fp: N -> F, cap: nat, key: F, flat: seq<Tagged<N>>, t: Tagged<N>)
    requires key in Fingerprints(fp, flat) && key != fp(t.arrival.node)
    ensures key in Fingerprints(fp, flat + [t])
    ensures EntryFor(fp, cap, key, flat + [t]) == EntryFor(fp, cap, key, flat)
  {
    FingerprintsSnoc(fp, flat, t, key);
    assert (flat + [t])[..|flat|] == flat;
    assert RefsOf(fp, key, flat) + [] == RefsOf(fp, key, flat);
    assert NamesOf(fp, key, flat) + [] == NamesOf(fp, key, flat);
  }

  lemma KnownEntry<N, F>(fp: N -> F, cap: nat, flat: seq<Tagged<N>>, t: Tagged<N>)
    requires fp(t.arrival.node) in Fingerprints(fp, flat)
    ensures var key := fp(t.arrival.node);
      && key in Fingerprints(fp, flat + [t])
      && EntryFor(fp, cap, key, flat + [t]) == EntryFor(fp, cap, key, flat).(
           refs := FirstDistinct(RefsOf(fp, key, flat) + t.arrival.refs, cap),
           aliases := FirstDistinct(NamesOf(fp, key, flat) + [t.arrival.name], cap))
  {
    FingerprintsSnoc(fp, flat, t, fp(t.arrival.node));
    assert (flat + [t])[..|flat|] == flat;
  }

  lemma NewEntry<N, F>(fp: N -> F, cap: nat, flat: seq<Tagged<N>>, t: Tagged<N>)
    requires cap > 0 && fp(t.arrival.node) !in Fingerprints(fp, flat)
    ensures var key := fp(t.arrival.node);
      && key in Fingerprints(fp, flat + [t])
      && EntryFor(fp, cap, key, flat + [t]) == Deduped(
           key, t.arrival.node, FirstDistinct(t.arrival.refs, cap), [t.arrival.name], None, t.order,
           if t.arrival.refs == [] then 0 else t.arrival.refs[0].itemIndex)
  {
    var key := fp(t.arrival.node);
    FingerprintsSnoc(fp, flat, t, key);
    AbsentKey(fp, key, flat);
    assert (flat + [t])[..|flat|] == flat;
    assert [] + t.arrival.refs == t.arrival.refs && [] + [t.arrival.name] == [t.arrival.name];
    assert Fingerprints(fp, flat + [t])[|Fingerprints(fp, flat)|] == key;
    var one := [t.arrival.name];
    assert one[..0] == [] && Distinct(one) == one;
  }

  // ---- The scan with an index ----

  /** The index sends every fingerprint met so far to the place of its entry. */
  ghost predicate Indexes<F(!new)>(index: map<F, nat>, keys: seq<F>) {
    && (forall k :: k in index <==> k in keys)
    && (forall k :: k in index ==> index[k] < |keys| && keys[index[k]] == k)
  }

  lemma IndexesSnoc<F(!new)>(index: map<F, nat>, keys: seq<F>, key: F)
    requires Indexes(index, keys) && key !in keys
    ensures Indexes(index[key := |keys|], keys + [key])
  {
    forall k | k in index[key := |keys|]
      ensures k in keys + [key]
      ensures index[key := |keys|][k] < |keys + [key]| && (keys + [key])[index[key := |keys|][k]] == k
    {
    }
  }

  lemma KnownStep<N, F>(fp: N -> F, cap: nat, flat: seq<Tagged<N>>, t: Tagged<N>, place: nat)
    requires place < |Keys(fp, flat)| && Keys(fp, flat)[place] == fp(t.arrival.node)
    ensures Keys(fp, flat + [t]) == Keys(fp, flat)
    ensures SimpleScan(fp, cap, flat + [t]) == SimpleScan(fp, cap, flat)[place := SimpleScan(fp, cap, flat)[place].(
        refs := FirstDistinct(RefsOf(fp, fp(t.arrival.node), flat) + t.arrival.refs, cap),
        aliases := FirstDistinct(NamesOf(fp, fp(t.arrival.node), flat) + [t.arrival.name], cap))]
  {
    var keys, key := Keys(fp, flat), fp(t.arrival.node);
    assert keys[place] in keys;
    KeysSnoc(fp, flat, t);
    ScanLength(fp, cap, flat);
    ScanLength(fp, cap, flat + [t]);
    ScanAt(fp, cap, flat, place);
    ScanAt(fp, cap, flat + [t], place);
    KnownEntry(fp, cap, flat, t);
    hide EntryFor, SimpleScan, Keys, Fingerprints;
    forall i | 0 <= i < |keys| && i != place
      ensures SimpleScan(fp, cap, flat + [t])[i] == SimpleScan(fp, cap, flat)[i]
    {
      KeysDiffer(fp, flat, i, place);
      ScanAt(fp, cap, flat, i);
      ScanAt(fp, cap, flat + [t], i);
      OtherEntry(fp, cap, keys[i], flat, t);
    }
  }

  lemma KeysSnoc<N, F>(fp: N -> F, flat: seq<Tagged<N>>, t: Tagged<N>)
    ensures var key := fp(t.arrival.node);
      Keys(fp, flat + [t]) == if key in Keys(fp, flat) then Keys(fp, flat) else Keys(fp, flat) + [key]
  {
    DistinctFacts(Fingerprints(fp, flat));
    FingerprintsSnoc(fp, flat, t, fp(t.arrival.node));
    DistinctSnoc(Fingerprints(fp, flat), fp(t.arrival.node));
  }

  lemma KeysAre<N, F>(fp: N -> F, flat: seq<Tagged<N>>, key: F)
    ensures key in Keys(fp, flat) <==> key in Fingerprints(fp, flat)
  {
    DistinctFacts(Fingerprints(fp, flat));
  }

  lemma KeysDiffer<N, F>(fp: N -> F, flat: seq<Tagged<N>>, i: nat, j: nat)
    requires i < |Keys(fp, flat)| && j < |Keys(fp, flat)| && i != j
    ensures Keys(fp, flat)[i] != Keys(fp, flat)[j]
  {
    DistinctFacts(Fingerprints(fp, flat));
  }

  lemma NewStep<N, F>(fp: N -> F, cap: nat, flat: seq<Tagged<N>>, t: Tagged<N>)
    requires cap > 0 && fp(t.arrival.node) !in Keys(fp, flat)
    ensures Keys(fp, flat + [t]) == Keys(fp, flat) + [fp(t.arrival.node)]
    ensures SimpleScan(fp, cap, flat + [t]) == SimpleScan(fp, cap, flat) + [Deduped(
        fp(t.arrival.node), t.arrival.node, FirstDistinct(t.arrival.refs, cap), [t.arrival.name], None, t.order,
        if t.arrival.refs == [] then 0 else t.arrival.refs[0].itemIndex)]
  {
    var keys, key := Keys(fp, flat), fp(t.arrival.node);
    KeysSnoc(fp, flat, t);
    ScanLength(fp, cap, flat);
    ScanLength(fp, cap, flat + [t]);
    ScanAt(fp, cap, flat + [t], |keys|);
    KeysAre(fp, flat, key);
    NewEntry(fp, cap, flat, t);
    hide EntryFor, SimpleScan, Keys, Fingerprints;
    forall i | 0 <= i < |keys|
      ensures SimpleScan(fp, cap, flat + [t])[i] == SimpleScan(fp, cap, flat)[i]
    {
      assert keys[i] in keys;
      ScanAt(fp, cap, flat, i);
      ScanAt(fp, cap, flat + [t], i);
      OtherEntry(fp, cap, keys[i], flat, t);
    }
  }

  function Tag<N>(order: nat, nodes: seq<Arrival<N>>): seq<Tagged<N>> {
    seq(|nodes|, i requires 0 <= i < |nodes| => Tagged(order, nodes[i]))
  }

  /** All arrivals, in the order the batches deliver them. */
  function Flat<N>(batches: seq<Batch<N>>): seq<Tagged<N>> {
    if batches == [] then []
    else Flat(batches[..|batches| - 1]) + Tag(|batches| - 1, batches[|batches| - 1].nodes)
  }

  lemma FlatSnoc<N>(batches: seq<Batch<N>>, b: nat)
    requires b < |batches|
    ensures Flat(batches[..b + 1]) == Flat(batches[..b]) + Tag(b, batches[b].nodes)
  {
    assert batches[..b + 1][..b] == batches[..b];
  }

  lemma {:induction false} KeysGrow<N, F>(fp: N -> F, flat: seq<Tagged<N>>, more: seq<Tagged<N>>)
    ensures |Keys(fp, flat)| <= |Keys(fp, flat + more)| <= |Keys(fp, flat)| + |more|
  {
    if more == [] {
      assert flat + more == flat;
    } else {
      var n := |more| - 1;
      KeysGrow(fp, flat, more[..n]);
      KeysSnoc(fp, flat + more[..n], more[n]);
      assert flat + more == (flat + more[..n]) + [more[n]];
    }
  }

  /** A batch accepts as many nodes as it brings new fingerprints; its other nodes are duplicates. */
  function BatchOutcome<N, F(==)>(fp: N -> F, batches: seq<Batch<N>>): (o: Outcome)
    requires batches != []
    ensures o.accepted + o.duplicate == |batches[|batches| - 1].nodes|
  {
    var last := batches[|batches| - 1];
    var before := Flat(batches[..|batches| - 1]);
    KeysGrow(fp, before, Tag(|batches| - 1, last.nodes));
    var accepted := |Keys(fp, Flat(batches))| - |Keys(fp, before)|;
    Outcome(accepted, |last.nodes| - accepted, last.rejected, last.warnings)
  }

  type Ledger = seq<(string, Outcome)>

  /** Inserting into the map of outcomes: a source that is there already is replaced. */
  function Record(ledger: Ledger, id: string, o: Outcome): Ledger {
    if ledger == [] then [(id, o)]
    else if ledger[0].0 == id then [(id, o)] + ledger[1..]
    else [ledger[0]] + Record(ledger[1..], id, o)
  }

  function LedgerOf<N, F(==)>(fp: N -> F, batches: seq<Batch<N>>): Ledger {
    if batches == [] then []
    else
      var n := |batches| - 1;
      Record(LedgerOf(fp, batches[..n]), batches[n].sourceId, BatchOutcome(fp, batches))
  }

  // ---- The final sort ----

  predicate Before<N, F>(display: F -> string, a: Deduped<N, F>, b: Deduped<N, F>) {
    a.sourceOrder < b.sourceOrder
    || (a.sourceOrder == b.sourceOrder
        && (a.itemIndex < b.itemIndex
            || (a.itemIndex == b.itemIndex && Ordering.LexLess(display(a.fingerprint), display(b.fingerprint)))))
  }

  /** No element comes before the one it follows. */
  ghost predicate InOrder<N, F>(display: F -> string, s: seq<Deduped<N, F>>) {
    forall i, j :: 0 <= i < j < |s| && j == i + 1 ==> !Before(display, s[j], s[i])
  }

  function Place<N, F>(display: F -> string, x: Deduped<N, F>, s: seq<Deduped<N, F>>): seq<Deduped<N, F>> {
    if s != [] && Before(display, x, s[|s| - 1])
    then Place(display, x, s[..|s| - 1]) + [s[|s| - 1]]
    else s + [x]
  }

  /** A stable sort by first source, first item and displayed id. */
  function Sorted<N, F>(display: F -> string, s: seq<Deduped<N, F>>): seq<Deduped<N, F>> {
    if s == [] then [] else Place(display, s[|s| - 1], Sorted(display, s[..|s| - 1]))
  }

  lemma BeforeIsAsymmetric<N, F>(display: F -> string, a: Deduped<N, F>, b: Deduped<N, F>)
    requires Before(display, a, b)
    ensures !Before(display, b, a)
  {
    var x, y := display(a.fingerprint), display(b.fingerprint);
    if Ordering.LexLess(x, y) && Ordering.LexLess(y, x) {
      Ordering.LexLessTransitive(x, y, x);
      Ordering.LexLessIrreflexive(x);
    }
  }

  lemma {:induction false} PlaceInOrder<N, F>(display: F -> string, x: Deduped<N, F>, s: seq<Deduped<N, F>>)
    requires InOrder(display, s)
    ensures InOrder(display, Place(display, x, s))
    ensures var r := Place(display, x, s); r[|r| - 1] == x || (s != [] && r[|r| - 1] == s[|s| - 1])
  {
    if s != [] && Before(display, x, s[|s| - 1]) {
      var n := |s| - 1;
      PlaceInOrder(display, x, s[..n]);
      BeforeIsAsymmetric(display, x, s[n]);
      hide Before;
    }
  }

  lemma {:induction false} PlaceKeeps<N, F>(display: F -> string, x: Deduped<N, F>, s: seq<Deduped<N, F>>)
    ensures multiset(Place(display, x, s)) == multiset(s) + multiset{x}
  {
    if s != [] && Before(display, x, s[|s| - 1]) {
      var n := |s| - 1;
      PlaceKeeps(display, x, s[..n]);
      assert s == s[..n] + [s[n]];
    }
  }

  lemma {:induction false} SortedInOrder<N, F>(display: F -> string, s: seq<Deduped<N, F>>)
    ensures InOrder(display, Sorted(display, s))
  {
    if s != [] {
      SortedInOrder(display, s[..|s| - 1]);
      PlaceInOrder(display, s[|s| - 1], Sorted(display, s[..|s| - 1]));
    }
  }

  lemma {:induction false} SortedKeeps<N, F>(display: F -> string, s: seq<Deduped<N, F>>)
    ensures multiset(Sorted(display, s)) == multiset(s)
  {
    if s != [] {
      var n := |s| - 1;
      SortedKeeps(display, s[..n]);
      PlaceKeeps(display, s[n], Sorted(display, s[..n]));
      hide Place;
      SnocKeeps(s);
    }
  }

  lemma SnocKeeps<T>(s: seq<T>)
    requires s != []
    ensures multiset(s) == multiset(s[..|s| - 1]) + multiset{s[|s| - 1]}
  {
    assert s == s[..|s| - 1] + [s[|s| - 1]];
  }

  lemma {:induction false} SortedFixed<N, F>(display: F -> string, s: seq<Deduped<N, F>>)
    requires InOrder(display, s)
    ensures Sorted(display, s) == s
  {
    if s != [] {
      var n := |s| - 1;
      SortedFixed(display, s[..n]);
      assert s == s[..n] + [s[n]];
    }
  }

  /** Every entry with the territory that its names suggest. */
  function Located<N, F>(infer: seq<string> -> Option<string>, s: seq<Deduped<N, F>>): (r: seq<Deduped<N, F>>)
    ensures |r| == |s|
  {
    seq(|s|, i requires 0 <= i < |s| => s[i].(territory := infer(s[i].aliases)))
  }

  lemma LocatedInOrder<N, F>(display: F -> string, infer: seq<string> -> Option<string>, s: seq<Deduped<N, F>>)
    requires InOrder(display, s)
    ensures InOrder(display, Located(infer, s))
  {
    var located := Located(infer, s);
    forall i, j | 0 <= i < j < |s| && j == i + 1
      ensures !Before(display, located[j], located[i])
    {
      assert !Before(display, s[j], s[i]);
    }
  }

  /** What deduplication is to return: the scan, with territories, in order of first occurrence. */
  function Deduplicated<N, F(==)>(
    fp: N -> F, display: F -> string, infer: seq<string> -> Option<string>, cap: nat, flat: seq<Tagged<N>>)
    : seq<Deduped<N, F>>
  {
    Sorted(display, Located(infer, SimpleScan(fp, cap, flat)))
  }

  lemma DeduplicatedLength<N, F>(
    fp: N -> F, display: F -> string, infer: seq<string> -> Option<string>, cap: nat, flat: seq<Tagged<N>>)
    ensures |Deduplicated(fp, display, infer, cap, flat)| == |Keys(fp, flat)|
  {
    hide Sorted, SimpleScan, Keys;
    var located := Located(infer, SimpleScan(fp, cap, flat));
    ScanLength(fp, cap, flat);
    SortedKeeps(display, located);
    assert |Sorted(display, located)| == |multiset(Sorted(display, located))| == |multiset(located)| == |located|;
  }

  // ---- The loop ----

  method Admit<N, F(==,!new)>(
    fp: N -> F, cap: nat, index: map<F, nat>, nodes: seq<Deduped<N, F>>, t: Tagged<N>, ghost flat: seq<Tagged<N>>)
    returns (index': map<F, nat>, nodes': seq<Deduped<N, F>>, fresh': bool)
    requires cap > 0
    requires Indexes(index, Keys(fp, flat)) && nodes == SimpleScan(fp, cap, flat)
    ensures Indexes(index', Keys(fp, flat + [t])) && nodes' == SimpleScan(fp, cap, flat + [t])
    ensures |Keys(fp, flat + [t])| == |Keys(fp, flat)| + if fresh' then 1 else 0
  {
    hide SimpleScan, Keys, RefsOf, NamesOf, FirstDistinct;
    var key := fp(t.arrival.node);
    ScanLength(fp, cap, flat);
    if key in index {
      var place := index[key];
      KnownStep(fp, cap, flat, t, place);
      ScanAt(fp, cap, flat, place);
      var existing := nodes[place];
      var refs := MergeRefs(existing.refs, t.arrival.refs, cap, RefsOf(fp, key, flat));
      FirstDistinctSnoc(NamesOf(fp, key, flat), t.arrival.name, cap);
      var aliases := existing.aliases;
      if t.arrival.name !in aliases && |aliases| < cap {
        aliases := aliases + [t.arrival.name];
      }
      nodes' := nodes[place := existing.(refs := refs, aliases := aliases)];
      index', fresh' := index, false;
    } else {
      NewStep(fp, cap, flat, t);
      IndexesSnoc(index, Keys(fp, flat), key);
      EmptyFirst(cap);
      var refs := MergeRefs([], t.arrival.refs, cap, []);
      assert [] + t.arrival.refs == t.arrival.refs;
      FirstOfFirst(t.arrival.refs, cap);
      var item := if refs == [] then 0 else refs[0].itemIndex;
      nodes' := nodes + [Deduped(key, t.arrival.node, refs, [t.arrival.name], None, t.order, item)];
      index', fresh' := index[key := |nodes|], true;
    }
  }

  lemma EmptyFirst(cap: nat)
    ensures FirstDistinct<SourceRef>([], cap) == []
  {
  }

  lemma {:induction false} FirstOfFirst(refs: seq<SourceRef>, cap: nat)
    requires cap > 0
    ensures (FirstDistinct(refs, cap) == []) == (refs == [])
    ensures refs != [] ==> FirstDistinct(refs, cap)[0] == refs[0]
  {
    if refs != [] {
      var n := |refs| - 1;
      FirstOfFirst(refs[..n], cap);
      FirstDistinctSnoc(refs[..n], refs[n], cap);
      assert refs == refs[..n] + [refs[n]];
    }
  }

  method AdmitBatch<N, F(==,!new)>(
    fp: N -> F, cap: nat, index: map<F, nat>, nodes: seq<Deduped<N, F>>, order: nat, arrivals: seq<Arrival<N>>,
    ghost start: seq<Tagged<N>>)
    returns (index': map<F, nat>, nodes': seq<Deduped<N, F>>, accepted: nat, duplicate: nat)
    requires cap > 0
    requires Indexes(index, Keys(fp, start)) && nodes == SimpleScan(fp, cap, start)
    ensures Indexes(index', Keys(fp, start + Tag(order, arrivals)))
    ensures nodes' == SimpleScan(fp, cap, start + Tag(order, arrivals))
    ensures accepted + duplicate == |arrivals|
    ensures |Keys(fp, start)| + accepted == |Keys(fp, start + Tag(order, arrivals))|
  {
    hide SimpleScan, Keys, Indexes;
    index', nodes', accepted, duplicate := index, nodes, 0, 0;
    ghost var tagged := Tag(order, arrivals);
    assert start + tagged[..0] == start;
    for i := 0 to |arrivals|
      invariant Indexes(index', Keys(fp, start + tagged[..i]))
      invariant nodes' == SimpleScan(fp, cap, start + tagged[..i])
      invariant accepted + duplicate == i
      invariant |Keys(fp, start)| + accepted == |Keys(fp, start + tagged[..i])|
    {
      var added;
      index', nodes', added := Admit(fp, cap, index', nodes', Tagged(order, arrivals[i]), start + tagged[..i]);
      assert start + tagged[..i + 1] == (start + tagged[..i]) + [Tagged(order, arrivals[i])];
      if added {
        accepted := accepted + 1;
      } else {
        duplicate := duplicate + 1;
      }
    }
    assert tagged[..|arrivals|] == tagged;
  }

  /**
   * The indexed loop gives what the simple scan gives, sorted by where each node was first met, and a ledger
   * of what each source contributed.
   */
  method DedupeSources<N, F(==,!new)>(
    fp: N -> F, display: F -> string, infer: seq<string> -> Option<string>, batches: seq<Batch<N>>, cap: nat)
    returns (nodes: seq<Deduped<N, F>>, outcomes: Ledger)
    requires cap > 0
    ensures nodes == Deduplicated(fp, display, infer, cap, Flat(batches))
    ensures outcomes == LedgerOf(fp, batches)
  {
    var index: map<F, nat> := map[];
    nodes, outcomes := [], [];
    assert SimpleScan(fp, cap, []) == [] && Keys(fp, []) == [] && Indexes(index, []);
    assert batches[..0] == [];
    hide SimpleScan, Keys, Indexes, Record;
    for b := 0 to |batches|
      invariant Indexes(index, Keys(fp, Flat(batches[..b]))) && nodes == SimpleScan(fp, cap, Flat(batches[..b]))
      invariant outcomes == LedgerOf(fp, batches[..b])
    {
      var batch := batches[b];
      var accepted, duplicate;
      index, nodes, accepted, duplicate :=
        AdmitBatch(fp, cap, index, nodes, b, batch.nodes, Flat(batches[..b]));
      FlatSnoc(batches, b);
      assert batches[..b + 1][..b] == batches[..b] && batches[..b + 1][b] == batch;
      outcomes := Record(outcomes, batch.sourceId, Outcome(accepted, duplicate, batch.rejected, batch.warnings));
    }
    assert batches[..|batches|] == batches;
    nodes := Sorted(display, Located(infer, nodes));
  }
}
