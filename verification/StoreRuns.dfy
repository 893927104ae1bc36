/** Whole runs of the store: any calls, by any processes, with any faults and crashes in between. */
module StoreRuns {
  import opened Wrappers
  import opened Generation
  import opened Disk
  import opened StoreSpec
  import opened StoreLaws

  // ---- One call ----

  /** The constructors of candidates only make coherent ones. */
  ghost predicate Proper(codec: Codec, call: Call) {
    (call.ToPrepare? || call.ToPublish?) ==> Coherent(codec, call.candidate)
  }

  /** The call drops the active generation without having seen that it is active. */
  predicate Blind(o: Owner, w: World, call: Call) {
    match call
    case ToDiscardSealed(sealed) => BlindDrop(o, w, sealed)
    case ToPublish(candidate, accepted) => BlindPublish(o, w, candidate, accepted)
    case _ => false
  }

  /** Every call keeps `current` verified, exactly unless it is blind. */
  lemma CallExactly(o: Owner, w: World, call: Call)
    requires Sound(o.codec, w) && Faithful(o.codec) && Proper(o.codec, call)
    ensures var after := Served(o, w, call);
      Tidy(o.codec, after.dirs) && (Consistent(o.codec, after) <==> !Blind(o, w, call))
  {
    hide Prepare, Seal, RollBackTo, DiscardPrepared, DiscardSealed, Publish, Consistent, Tidy, Coherent, BlindDrop,
         BlindPublish, Shrunk, Elsewhere, Framed;
    match call
    case ToPrepare(candidate) =>
      PrepareKeeps(o, w, candidate);
      PrepareTidy(o, w, candidate);
    case ToSeal(prepared) => SealKeeps(o, w, prepared);
    case ToCommit(sealed) =>
      RollBackFacts(o, w, sealed.generation);
      RollBackKeeps(o, w, sealed.generation);
    case ToDiscardPrepared(prepared) => DiscardPreparedKeeps(o, w, prepared);
    case ToDiscardSealed(sealed) =>
      DiscardSealedExactly(o, w, sealed);
      DiscardSealedFacts(o, w, sealed);
      ShrunkTidy(o.codec, w.dirs, DiscardSealed(o, w, sealed).world.dirs, Sealed(sealed.generation));
    case ToRollBack(g) =>
      RollBackFacts(o, w, g);
      RollBackKeeps(o, w, g);
    case ToPublish(candidate, accepted) => PublishExactly(o, w, candidate, accepted);
    case Restart => SameConsistent(o.codec, w, w.(running := true));
  }

  lemma SameConsistent(codec: Codec, v: World, w: World)
    requires v.dirs == w.dirs && v.current == w.current
    ensures Consistent(codec, v) == Consistent(codec, w)
  {
  }

  predicate Drops(call: Call, g: GenerationId) {
    call.ToDiscardSealed? && call.sealed.generation == g
  }

  /** The sealed generation holds files, the same in both. */
  ghost predicate Intact(before: Dirs, after: Dirs, g: GenerationId) {
    !Vacant(before, Sealed(g)) ==> Sealed(g) in after && after[Sealed(g)] == before[Sealed(g)]
  }

  /** No call alters a sealed generation unless it names it to be discarded. */
  lemma CallKeeps(o: Owner, w: World, call: Call, g: GenerationId)
    requires !Drops(call, g)
    ensures Intact(w.dirs, Served(o, w, call).dirs, g)
  {
    hide Prepare, Seal, RollBackTo, DiscardPrepared, DiscardSealed, TryPublish;
    match call
    case ToPrepare(candidate) => PrepareFacts(o, w, candidate);
    case ToSeal(prepared) => SealFacts(o, w, prepared);
    case ToCommit(sealed) => RollBackFacts(o, w, sealed.generation);
    case ToDiscardPrepared(prepared) => DiscardPreparedKeeps(o, w, prepared);
    case ToDiscardSealed(sealed) => DiscardSealedFacts(o, w, sealed);
    case ToRollBack(h) => RollBackFacts(o, w, h);
    case ToPublish(candidate, accepted) => PublishKeeps(o, w, candidate, accepted, g);
    case Restart =>
  }

  lemma PublishKeeps(o: Owner, w: World, candidate: Candidate, accepted: bool, g: GenerationId)
    ensures Intact(w.dirs, Publish(o, w, candidate, accepted).world.dirs, g)
  {
    hide TryPublish, DiscardSealed, FilesOf, PointerText;
    TryPublishFacts(o, w, candidate, accepted);
    var (tried, token) := TryPublish(o, w, candidate, accepted);
    if token.Some? {
      DiscardSealedFacts(o, tried.world, token.value);
    }
  }

  // ---- Runs ----

  /** A call, and the process that makes it. */
  datatype Request = Request(pid: nat, call: Call)

  function After(codec: Codec, root: string, w: World, requests: seq<Request>): World {
    if requests == [] then w
    else
      var n := |requests| - 1;
      Served(Owner(codec, root, requests[n].pid), After(codec, root, w, requests[..n]), requests[n].call)
  }

  /** The request at `k` is blind when its turn comes. */
  predicate BlindAt(codec: Codec, root: string, w: World, requests: seq<Request>, k: nat)
    requires k < |requests|
  {
    Blind(Owner(codec, root, requests[k].pid), After(codec, root, w, requests[..k]), requests[k].call)
  }

  ghost predicate NeverBlind(codec: Codec, root: string, w: World, requests: seq<Request>) {
    forall k :: 0 <= k < |requests| ==> !BlindAt(codec, root, w, requests, k)
  }

  /** At every point of the run `current` is absent or names a generation that verifies. */
  ghost predicate AlwaysConsistent(codec: Codec, root: string, w: World, requests: seq<Request>) {
    forall k :: 0 <= k <= |requests| ==> Consistent(codec, After(codec, root, w, requests[..k]))
  }

  lemma AfterNext(codec: Codec, root: string, w: World, requests: seq<Request>, k: nat)
    requires k < |requests|
    ensures After(codec, root, w, requests[..k + 1])
         == Served(Owner(codec, root, requests[k].pid), After(codec, root, w, requests[..k]), requests[k].call)
  {
    assert requests[..k + 1][..k] == requests[..k];
  }

  lemma {:induction false} SoundUpTo(codec: Codec, root: string, w: World, requests: seq<Request>, k: nat)
    requires Sound(codec, w) && Faithful(codec) && k <= |requests|
    requires forall i :: 0 <= i < |requests| ==> Proper(codec, requests[i].call)
    requires forall i :: 0 <= i < k ==> !BlindAt(codec, root, w, requests, i)
    ensures Sound(codec, After(codec, root, w, requests[..k]))
  {
    hide Served, Blind, Consistent, Tidy, Proper;
    if k == 0 {
      assert requests[..0] == [];
    } else {
      SoundUpTo(codec, root, w, requests, k - 1);
      assert !BlindAt(codec, root, w, requests, k - 1);
      AfterNext(codec, root, w, requests, k - 1);
      CallExactly(Owner(codec, root, requests[k - 1].pid), After(codec, root, w, requests[..k - 1]), requests[k - 1].call);
    }
  }

  /**
   * Every run: any calls, in any order, by processes with any identifiers, each filesystem step succeeding,
   * failing part-way or killing the process.  `current` is absent or names a generation that verifies at every
   * point of the run, exactly if no call of it is blind.
   */
  lemma RunExactly(codec: Codec, root: string, w: World, requests: seq<Request>)
    requires Sound(codec, w) && Faithful(codec)
    requires forall i :: 0 <= i < |requests| ==> Proper(codec, requests[i].call)
    ensures AlwaysConsistent(codec, root, w, requests) <==> NeverBlind(codec, root, w, requests)
  {
    hide Served, Blind, Consistent, Tidy, Proper, After;
    if NeverBlind(codec, root, w, requests) {
      forall k | 0 <= k <= |requests|
        ensures Consistent(codec, After(codec, root, w, requests[..k]))
      {
        SoundUpTo(codec, root, w, requests, k);
      }
    } else {
      var k := FirstBlind(codec, root, w, requests);
      SoundUpTo(codec, root, w, requests, k);
      AfterNext(codec, root, w, requests, k);
      CallExactly(Owner(codec, root, requests[k].pid), After(codec, root, w, requests[..k]), requests[k].call);
      assert !Consistent(codec, After(codec, root, w, requests[..k + 1]));
    }
  }

  lemma FirstBlind(codec: Codec, root: string, w: World, requests: seq<Request>) returns (k: nat)
    requires !NeverBlind(codec, root, w, requests)
    ensures k < |requests| && BlindAt(codec, root, w, requests, k)
    ensures forall i :: 0 <= i < k ==> !BlindAt(codec, root, w, requests, i)
  {
    hide BlindAt;
    var last :| 0 <= last < |requests| && BlindAt(codec, root, w, requests, last);
    k := 0;
    while !BlindAt(codec, root, w, requests, k)
      invariant k <= last
      invariant forall i :: 0 <= i < k ==> !BlindAt(codec, root, w, requests, i)
      decreases last - k
    {
      k := k + 1;
    }
  }

  /** Whatever happens, a sealed generation stays byte for byte until some call names it to be discarded. */
  lemma {:induction false} RunKeeps(codec: Codec, root: string, w: World, requests: seq<Request>, g: GenerationId)
    requires forall i :: 0 <= i < |requests| ==> !Drops(requests[i].call, g)
    ensures Intact(w.dirs, After(codec, root, w, requests).dirs, g)
  {
    hide Served;
    if requests != [] {
      var n := |requests| - 1;
      RunKeeps(codec, root, w, requests[..n], g);
      CallKeeps(Owner(codec, root, requests[n].pid), After(codec, root, w, requests[..n]), requests[n].call, g);
    }
  }
}
