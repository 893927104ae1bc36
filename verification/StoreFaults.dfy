/** The store without faults, and the faults that make it lose the active generation. */
module StoreFaults {
  import opened Wrappers
  import opened Generation
  import opened Disk
  import opened StoreSpec
  import opened StoreLaws

  // ---- Without faults ----

  lemma EnsureRegistryQuiet(codec: Codec, w: World, files: Files, manifest: Manifest)
    requires w.Quiet()
    ensures var r := EnsureRegistry(codec, w, files, manifest);
      && r.world.Quiet()
      && (r.value.Ok? <==>
            match manifest.registryDigest
            case None => NodesFile !in files
            case Some(expected) =>
              && NodesFile in files && codec.readRegistry(files[NodesFile]).Some?
              && expected == codec.sha256(files[NodesFile])
              && codec.readRegistry(files[NodesFile]).value.schema == NODE_REGISTRY_SCHEMA
              && |codec.readRegistry(files[NodesFile]).value.records| == manifest.nodeCount)
  {
    PassedFacts(w);
    PassedFacts(w.Passed());
  }

  /** Without faults, exactly what verifies is accepted. */
  lemma EnsureSealedQuiet(codec: Codec, w: World, g: GenerationId)
    requires w.Quiet()
    ensures var r := EnsureSealed(codec, w, g);
      r.world.Quiet() && (r.value.Ok? <==> Sealed(g) in w.dirs && Verify(codec, w.dirs[Sealed(g)], g).Ok?)
  {
    var w1 := w.Passed();
    var w2 := w1.Passed();
    var w3 := w2.Passed();
    var w4 := w3.Passed();
    var w5 := w4.Passed();
    PassedFacts(w);
    PassedFacts(w1);
    PassedFacts(w2);
    PassedFacts(w3);
    PassedFacts(w4);
    hide EnsureRegistry, World.Passed, World.Fate, World.Quiet;
    if Sealed(g) in w.dirs && ManifestFile in w.dirs[Sealed(g)] && codec.readManifest(w.dirs[Sealed(g)][ManifestFile]).Some? {
      EnsureRegistryQuiet(codec, w5, w.dirs[Sealed(g)], codec.readManifest(w.dirs[Sealed(g)][ManifestFile]).value);
    }
  }

  lemma RollBackQuiet(o: Owner, w: World, g: GenerationId)
    requires w.Quiet()
    ensures var r := RollBackTo(o, w, g);
      r.world.Quiet() && (r.value.Ok? <==> Sealed(g) in w.dirs && Verify(o.codec, w.dirs[Sealed(g)], g).Ok?)
  {
    hide EnsureSealed, WriteCurrent, Verify, World.Quiet;
    EnsureSealedQuiet(o.codec, w, g);
    WriteCurrentFacts(EnsureSealed(o.codec, w, g).world, g);
  }

  /** Without faults, the active generation is refused and any other is taken away. */
  lemma DiscardSealedQuiet(o: Owner, w: World, sealed: SealedGeneration)
    requires w.Quiet() && (w.current.Some? ==> Pointed(w.current.value).Some?)
    ensures var r := DiscardSealed(o, w, sealed);
      && (r.value.Ok? <==> sealed.root == o.root && !Active(w, sealed.generation))
      && (r.value.Ok? ==> Sealed(sealed.generation) !in r.world.dirs)
      && (Active(w, sealed.generation) ==> r.world.dirs == w.dirs)
  {
    PassedFacts(w);
    PassedFacts(w.Passed());
    var d := Sealed(sealed.generation);
    RemoveFacts(w.Passed(), d);
    RemoveFacts(w.Passed().Passed(), d);
    PassedFacts(RemoveIfPresent(w.Passed(), d).world);
    PassedFacts(RemoveIfPresent(w.Passed().Passed(), d).world);
    hide RemoveIfPresent, Pointed, World.Passed, World.Fate, World.Quiet;
  }

  /** Without faults, `current` is what the last switch made it. */
  lemma CurrentQuiet(o: Owner, w: World, g: GenerationId)
    requires w.Quiet() && RollBackTo(o, w, g).value.Ok?
    ensures CurrentOf(RollBackTo(o, w, g).world).value == Ok(Some(g))
  {
    hide EnsureSealed, WriteCurrent, Verify, World.Fate, World.Passed, World.Quiet, Pointed, PointerText;
    EnsureSealedQuiet(o.codec, w, g);
    WriteCurrentFacts(EnsureSealed(o.codec, w, g).world, g);
    var after := RollBackTo(o, w, g).world;
    PassedFacts(after);
    PassedFacts(after.Passed());
    PointedText(g);
  }

  lemma RemoveQuiet(w: World, d: DirName)
    requires w.Quiet()
    ensures var r := RemoveIfPresent(w, d);
      r.world.Quiet() && r.value == Ok(()) && r.world.dirs == w.dirs - {d} && r.world.current == w.current
  {
    RemoveFacts(w, d);
    hide World.Quiet;
    assert RemoveIfPresent(w, d).world.dirs == w.dirs - {d};
  }

  /** Without faults, a prepared candidate is taken away as a whole; a token of another store changes nothing. */
  lemma DiscardPreparedQuiet(o: Owner, w: World, prepared: PreparedCandidate)
    requires w.Quiet()
    ensures var r := DiscardPrepared(o, w, prepared);
      if prepared.root == o.root
      then r.world.Quiet() && r.value == Ok(()) && r.world.dirs == w.dirs - {prepared.Directory()} && r.world.current == w.current
      else r == Step(w, Err(ForeignToken))
  {
    RemoveQuiet(w, prepared.Directory());
  }

  /** Without faults, a candidate is staged exactly if its number is new, and nothing else changes. */
  lemma PrepareQuiet(o: Owner, w: World, candidate: Candidate)
    requires w.Quiet()
    ensures var r, d := Prepare(o, w, candidate), Staging(candidate.generation, o.pid);
      && r.world.Quiet() && r.world.current == w.current
      && if Sealed(candidate.generation) in w.dirs
         then r.value == Err(AlreadyExists) && r.world.dirs == w.dirs
         else r.value == Ok(PreparedCandidate(o.root, candidate.generation, o.pid))
              && r.world.dirs == w.dirs[d := FilesOf(o.codec, candidate)]
  {
    PrepareFacts(o, w, candidate);
    PassedFacts(w);
    hide FilesOf, Stage, World.Quiet, World.Fate, World.Passed;
    var r, d := Prepare(o, w, candidate), Staging(candidate.generation, o.pid);
    if Sealed(candidate.generation) !in w.dirs {
      assert r.world.dirs == w.dirs[d := FilesOf(o.codec, candidate)];
    }
  }

  /**
   * Without faults, a coherent candidate is published exactly if it was accepted and its number is new.  Then the disk
   * holds its files under its number and `current` names it; otherwise only a staging directory of its own is gone,
   * and if the number is taken nothing at all has changed.
   */
  lemma PublishQuiet(o: Owner, w: World, candidate: Candidate, accepted: bool)
    requires w.Quiet() && o.codec.Lawful() && Coherent(o.codec, candidate)
    ensures Publish(o, w, candidate, accepted).value.Ok? <==> accepted && Sealed(candidate.generation) !in w.dirs
    ensures var r, g := Publish(o, w, candidate, accepted), candidate.generation;
      var staging := Staging(g, o.pid);
      if Sealed(g) in w.dirs then r.value == Err(AlreadyExists) && r.world.dirs == w.dirs && r.world.current == w.current
      else if !accepted then r.value == Err(Rejected) && r.world.dirs == w.dirs - {staging} && r.world.current == w.current
      else
        && r.world.dirs == (w.dirs - {staging})[Sealed(g) := FilesOf(o.codec, candidate)]
        && r.world.current == Some(PointerText(g))
  {
    hide Prepare, Seal, RollBackTo, DiscardPrepared, DiscardSealed, Coherent, Verify, FilesOf, World.Quiet, OnlyDir, PointerText;
    var g := candidate.generation;
    var token, staging := PreparedCandidate(o.root, g, o.pid), Staging(g, o.pid);
    var prepared := Prepare(o, w, candidate);
    PrepareQuiet(o, w, candidate);
    if Sealed(g) !in w.dirs {
      if accepted {
        SealFacts(o, prepared.world, token);
        var sealed := Seal(o, prepared.world, token);
        RollBackQuiet(o, sealed.world, g);
        RollBackFacts(o, sealed.world, g);
        CoherentVerifies(o.codec, candidate);
        assert prepared.world.dirs - {staging} == w.dirs - {staging};
      } else {
        DiscardPreparedQuiet(o, prepared.world, token);
        assert prepared.world.dirs - {staging} == w.dirs - {staging};
      }
    }
  }

  // ---- Cleaning up after a fault ----

  /** A write that failed leaves no staging directory, if nothing fails after it. */
  lemma StageCleansUp(o: Owner, w: World, candidate: Candidate)
    ensures var d := Staging(candidate.generation, o.pid);
      var created := CreateDir(w, d);
      var written := WriteCandidate(o.codec, created.world, candidate, d);
      created.value && !written.value && written.world.Quiet() ==>
        Stage(o, w, candidate).value == Err(Io) && d !in Stage(o, w, candidate).world.dirs
  {
    var d := Staging(candidate.generation, o.pid);
    var written := WriteCandidate(o.codec, CreateDir(w, d).world, candidate, d);
    hide WriteCandidate, World.Quiet, World.Fate, World.Passed;
    RemoveTreeFacts(written.world, d);
  }

  /**
   * A publish that fails cleans up after itself, if nothing fails after the call that made it fail: neither a candidate
   * that was refused nor one that could not be sealed stays in its staging directory, and a generation that could not
   * be committed is taken away unless `current` names it.
   */
  lemma PublishCleansUp(o: Owner, w: World, candidate: Candidate, accepted: bool)
    ensures var r, g := Publish(o, w, candidate, accepted), candidate.generation;
      var prepared := Prepare(o, w, candidate);
      prepared.value.Ok? ==>
        var sealed := Seal(o, prepared.world, prepared.value.value);
        && (!accepted && prepared.world.Quiet() ==> r.value == Err(Rejected) && Staging(g, o.pid) !in r.world.dirs)
        && (accepted && sealed.value.Err? && sealed.world.Quiet() ==>
              r.value == Err(sealed.value.error) && Staging(g, o.pid) !in r.world.dirs)
        && (accepted && sealed.value.Ok? ==>
              var committed := Commit(o, sealed.world, sealed.value.value);
              var readable := committed.world.current.Some? ==> Pointed(committed.world.current.value).Some?;
              committed.value.Err? && committed.world.Quiet() && readable && !Active(committed.world, g) ==>
                r.value == committed.value && Sealed(g) !in r.world.dirs)
  {
    hide Prepare, Seal, Commit, DiscardPrepared, DiscardSealed, World.Quiet, FilesOf, Pointed, OnlyDir, Vacant;
    PrepareFacts(o, w, candidate);
    var prepared, token := Prepare(o, w, candidate), PreparedCandidate(o.root, candidate.generation, o.pid);
    if prepared.value.Ok? {
      SealFacts(o, prepared.world, token);
      var sealed := Seal(o, prepared.world, token);
      if !accepted {
        if prepared.world.Quiet() { DiscardPreparedQuiet(o, prepared.world, token); }
      } else if sealed.value.Err? {
        if sealed.world.Quiet() { DiscardPreparedQuiet(o, sealed.world, token); }
      } else {
        var committed := Commit(o, sealed.world, sealed.value.value);
        if committed.world.Quiet() && (committed.world.current.Some? ==> Pointed(committed.world.current.value).Some?) {
          DiscardSealedQuiet(o, committed.world, sealed.value.value);
        }
      }
    }
  }

  // ---- Success is flushed ----

  /** The fate of the call after `k` others. */
  function FateAfter(w: World, k: nat): Fate
    decreases k
  {
    if k == 0 then w.Fate() else FateAfter(w.Passed(), k - 1)
  }

  lemma FateAfterThree(w: World)
    ensures FateAfter(w, 0) == w.Fate() && FateAfter(w, 1) == w.Passed().Fate()
    ensures FateAfter(w, 2) == w.Passed().Passed().Fate()
  {
    assert FateAfter(w.Passed(), 1) == FateAfter(w.Passed().Passed(), 0);
  }

  /** Sealing and switching report success only if the flush that ends them went through, as did all before it. */
  lemma SuccessIsFlushed(o: Owner, w: World, prepared: PreparedCandidate, g: GenerationId)
    ensures Seal(o, w, prepared).value.Ok? ==> FateAfter(w, 1) == Proceeds && FateAfter(w, 2) == Proceeds
    ensures WriteCurrent(w, g).value.Ok? ==>
      FateAfter(w, 0) == Proceeds && FateAfter(w, 1) == Proceeds && FateAfter(w, 2) == Proceeds
  {
    hide PointerText, FateAfter;
    FateAfterThree(w);
    var from, to := prepared.Directory(), Sealed(prepared.generation);
    var renamed := RenameDir(w.Passed(), from, to).world;
    assert renamed.fates == w.Passed().Passed().fates && renamed.running == w.Passed().Passed().running;
    var written := WriteTemp(w, g, PointerText(g)).world;
    assert written.fates == w.Passed().fates && written.running == w.Passed().running;
    var switched := RenameTemp(written, g).world;
    assert switched.fates == w.Passed().Passed().fates && switched.running == w.Passed().Passed().running;
  }

  /** So do the writing of a candidate, which is flushed once all files are written, and the removal of a generation. */
  lemma ChangesAreFlushed(o: Owner, w: World, candidate: Candidate, d: DirName, sealed: SealedGeneration)
    ensures WriteCandidate(o.codec, w, candidate, d).value ==>
      forall k :: 0 <= k < (if candidate.registry.None? then 3 else 4) ==> FateAfter(w, k) == Proceeds
    ensures DiscardSealed(o, w, sealed).value.Ok? ==>
      FateAfter(RemoveIfPresent(CurrentOf(w).world, Sealed(sealed.generation)).world, 0) == Proceeds
  {
    WriteCandidateFlushed(o.codec, w, candidate, d);
    hide WriteCandidate, RemoveIfPresent, CurrentOf, World.Fate, World.Passed;
  }

  lemma WriteCandidateFlushed(codec: Codec, w: World, candidate: Candidate, d: DirName)
    ensures WriteCandidate(codec, w, candidate, d).value ==>
      forall k :: 0 <= k < (if candidate.registry.None? then 3 else 4) ==> FateAfter(w, k) == Proceeds
  {
    var config := WriteFile(w, d, ConfigFile, candidate.config.bytes);
    WriteFileFate(w, d, ConfigFile, candidate.config.bytes);
    var nodes :=
      if candidate.registry.None? then config
      else WriteFile(config.world, d, NodesFile, codec.registryBytes(candidate.registry.value));
    if candidate.registry.Some? {
      WriteFileFate(config.world, d, NodesFile, codec.registryBytes(candidate.registry.value));
    }
    WriteFileFate(nodes.world, d, ManifestFile, codec.manifestBytes(candidate.manifest));
    hide WriteFile, World.Passed, World.Fate;
    var manifest := WriteFile(nodes.world, d, ManifestFile, codec.manifestBytes(candidate.manifest));
    FatesShift(w, config.world, 0);
    FatesShift(w, config.world, 1);
    FatesShift(w, config.world, 2);
    if candidate.registry.Some? {
      FatesShift(config.world, nodes.world, 0);
      FatesShift(config.world, nodes.world, 1);
    }
    FatesShift(nodes.world, manifest.world, 0);
  }

  /** The fates ahead of `v` are those ahead of `w` but for the first. */
  ghost predicate Follows(w: World, v: World) {
    v.fates == w.Passed().fates && v.running == w.Passed().running
  }

  lemma WriteFileFate(w: World, d: DirName, f: FileName, bytes: Bytes)
    ensures var r := WriteFile(w, d, f, bytes); Follows(w, r.world) && (r.value ==> w.Fate() == Proceeds)
  {
  }

  lemma {:induction false} FatesShift(w: World, v: World, k: nat)
    ensures Follows(w, v) ==> FateAfter(w, k + 1) == FateAfter(v, k)
    ensures FateAfter(w, 0) == w.Fate()
  {
    if Follows(w, v) {
      SameFates(w.Passed(), v, k);
    }
  }

  lemma {:induction false} SameFates(w: World, v: World, k: nat)
    requires w.fates == v.fates && w.running == v.running
    ensures FateAfter(w, k) == FateAfter(v, k)
    decreases k
  {
    if k > 0 {
      SameFates(w.Passed(), v.Passed(), k - 1);
    }
  }

  // ---- Losing the active generation ----

  const MISSED := Fails(NOTHING)

  /** One existence test that fails is enough: a discard of the active generation then succeeds. */
  lemma BlindDiscardLosesCurrent(o: Owner, files: Files, g: GenerationId)
    requires Verify(o.codec, files, g).Ok?
    ensures var w := World(map[Sealed(g) := files], map[], Some(PointerText(g)), [MISSED], true);
      var r := DiscardSealed(o, w, SealedGeneration(o.root, g));
      && Consistent(o.codec, w)
      && r.value.Ok? && Active(r.world, g) && Sealed(g) !in r.world.dirs && !Consistent(o.codec, r.world)
  {
    PointedText(g);
    hide Pointed, PointerText, Verify;
    var w := World(map[Sealed(g) := files], map[], Some(PointerText(g)), [MISSED], true);
    assert w.fates[1..] == [];
    assert w.Passed() == w.(fates := []) && w.Passed().Passed() == w.Passed();
  }

  /** `n` calls that proceed, and then `tail`. */
  function Calm(n: nat, tail: seq<Fate>): seq<Fate> {
    if n == 0 then tail else [Proceeds] + Calm(n - 1, tail)
  }

  function Becalmed(w: World, n: nat, tail: seq<Fate>): World {
    w.(fates := Calm(n, tail), running := true)
  }

  lemma CalmStep(w: World, n: nat, tail: seq<Fate>)
    requires n > 0
    ensures var v := Becalmed(w, n, tail); v.Fate() == Proceeds && v.Passed() == Becalmed(w, n - 1, tail)
  {
  }

  lemma WriteCalm(w: World, n: nat, tail: seq<Fate>, d: DirName, f: FileName, bytes: Bytes)
    requires n > 0 && d in w.dirs
    ensures WriteFile(Becalmed(w, n, tail), d, f, bytes)
         == Step(Becalmed(w.(dirs := w.dirs[d := w.dirs[d][f := bytes]]), n - 1, tail), true)
  {
    CalmStep(w, n, tail);
  }

  lemma WriteCandidateCalm(codec: Codec, w: World, n: nat, tail: seq<Fate>, candidate: Candidate, d: DirName)
    requires n >= 3 && candidate.registry.None? && d in w.dirs && w.dirs[d] == map[]
    ensures WriteCandidate(codec, Becalmed(w, n, tail), candidate, d)
         == Step(Becalmed(w.(dirs := w.dirs[d := FilesOf(codec, candidate)]), n - 3, tail), true)
  {
    var configured: Files := map[ConfigFile := candidate.config.bytes];
    var w1 := w.(dirs := w.dirs[d := configured]);
    var text := codec.manifestBytes(candidate.manifest);
    var w2 := w1.(dirs := w1.dirs[d := configured[ManifestFile := text]]);
    WriteCalm(w, n, tail, d, ConfigFile, candidate.config.bytes);
    assert w.dirs[d][ConfigFile := candidate.config.bytes] == configured;
    WriteCalm(w1, n - 1, tail, d, ManifestFile, text);
    CalmStep(w2, n - 2, tail);
    assert configured[ManifestFile := text] == FilesOf(codec, candidate);
    assert w2.dirs == w.dirs[d := FilesOf(codec, candidate)];
    hide WriteFile, FilesOf, World.Passed, World.Fate, Calm;
  }

  lemma PrepareCalm(o: Owner, w: World, n: nat, tail: seq<Fate>, candidate: Candidate)
    requires n >= 6 && candidate.registry.None?
    requires Sealed(candidate.generation) !in w.dirs && Staging(candidate.generation, o.pid) !in w.dirs
    ensures var d := Staging(candidate.generation, o.pid);
      Prepare(o, Becalmed(w, n, tail), candidate)
      == Step(Becalmed(w.(dirs := w.dirs[d := FilesOf(o.codec, candidate)]), n - 6, tail),
              Ok(PreparedCandidate(o.root, candidate.generation, o.pid)))
  {
    var d := Staging(candidate.generation, o.pid);
    var made := w.(dirs := w.dirs[d := map[]]);
    CalmStep(w, n, tail);
    CalmStep(w, n - 1, tail);
    CalmStep(w, n - 2, tail);
    WriteCandidateCalm(o.codec, made, n - 3, tail, candidate, d);
    assert made.dirs[d := FilesOf(o.codec, candidate)] == w.dirs[d := FilesOf(o.codec, candidate)];
    hide WriteCandidate, FilesOf, World.Passed, World.Fate, Calm;
  }

  lemma SealCalm(o: Owner, w: World, n: nat, tail: seq<Fate>, prepared: PreparedCandidate)
    requires n >= 3 && prepared.root == o.root
    requires Sealed(prepared.generation) !in w.dirs && prepared.Directory() in w.dirs
    ensures var from, to := prepared.Directory(), Sealed(prepared.generation);
      Seal(o, Becalmed(w, n, tail), prepared)
      == Step(Becalmed(w.(dirs := (w.dirs - {from})[to := w.dirs[from]]), n - 3, tail),
              Ok(SealedGeneration(o.root, prepared.generation)))
  {
    var from, to := prepared.Directory(), Sealed(prepared.generation);
    CalmStep(w, n, tail);
    CalmStep(w, n - 1, tail);
    CalmStep(w.(dirs := (w.dirs - {from})[to := w.dirs[from]]), n - 2, tail);
    hide World.Passed, World.Fate, Calm;
  }

  lemma EnsureCalm(codec: Codec, w: World, n: nat, tail: seq<Fate>, g: GenerationId)
    requires n >= 6 && Sealed(g) in w.dirs && Verify(codec, w.dirs[Sealed(g)], g).Ok?
    requires Verify(codec, w.dirs[Sealed(g)], g).value.registryDigest.None?
    ensures EnsureSealed(codec, Becalmed(w, n, tail), g) == Step(Becalmed(w, n - 6, tail), Ok(()))
  {
    CalmStep(w, n, tail);
    CalmStep(w, n - 1, tail);
    CalmStep(w, n - 2, tail);
    CalmStep(w, n - 3, tail);
    CalmStep(w, n - 4, tail);
    CalmStep(w, n - 5, tail);
    hide World.Passed, World.Fate, Calm;
  }

  /** A registry file that the manifest does not bind passes if the test whether it exists fails. */
  lemma UnboundSlips(codec: Codec, w: World, g: GenerationId)
    requires Sealed(g) in w.dirs && Verify(codec, w.dirs[Sealed(g)], g) == Err(RegistryUnbound)
    ensures EnsureSealed(codec, Becalmed(w, 5, [MISSED]), g).value == Ok(())
    ensures !Tidy(codec, w.dirs)
  {
    CalmStep(w, 5, [MISSED]);
    CalmStep(w, 4, [MISSED]);
    CalmStep(w, 3, [MISSED]);
    CalmStep(w, 2, [MISSED]);
    CalmStep(w, 1, [MISSED]);
    assert Becalmed(w, 0, [MISSED]).Fate() == MISSED;
    assert !TidyFiles(codec, w.dirs[Sealed(g)]);
    hide World.Passed, World.Fate, Calm;
  }

  /** The rename over `current` takes place, and the flush after it fails. */
  lemma SwitchUnflushed(w: World, g: GenerationId)
    ensures var r := WriteCurrent(Becalmed(w, 2, [MISSED, MISSED]), g);
      && r.value == Err(Io) && r.world.dirs == w.dirs && r.world.current == Some(PointerText(g))
      && r.world.fates == [MISSED] && r.world.running
  {
    hide PointerText;
    var v := w.(temps := w.temps[g := PointerText(g)]);
    var u := v.(current := Some(PointerText(g)), temps := v.temps - {g});
    CalmStep(w, 2, [MISSED, MISSED]);
    CalmStep(v, 1, [MISSED, MISSED]);
    var last := Becalmed(u, 0, [MISSED, MISSED]);
    assert last.fates == [MISSED, MISSED] && last.fates[1..] == [MISSED];
    assert last.Fate() == MISSED && last.Passed().fates == [MISSED];
  }

  const TWO_MISSED := [MISSED, MISSED]

  function Holding(dirs: Dirs): World {
    World(dirs, map[], None, [], true)
  }

  /** The world in which a first generation is published and lost again: two faults, after seventeen calls. */
  function Unlucky(): World {
    Becalmed(Holding(map[]), 17, TWO_MISSED)
  }

  lemma UnluckyPrepare(o: Owner, candidate: Candidate)
    requires candidate.registry.None?
    ensures var d := Staging(candidate.generation, o.pid);
      Prepare(o, Unlucky(), candidate)
      == Step(Becalmed(Holding(map[d := FilesOf(o.codec, candidate)]), 11, TWO_MISSED),
              Ok(PreparedCandidate(o.root, candidate.generation, o.pid)))
  {
    hide Prepare, FilesOf, Calm;
    PrepareCalm(o, Holding(map[]), 17, TWO_MISSED, candidate);
  }

  lemma UnluckySeal(o: Owner, g: GenerationId, files: Files)
    ensures Seal(o, Becalmed(Holding(map[Staging(g, o.pid) := files]), 11, TWO_MISSED), PreparedCandidate(o.root, g, o.pid))
         == Step(Becalmed(Holding(map[Sealed(g) := files]), 8, TWO_MISSED), Ok(SealedGeneration(o.root, g)))
  {
    hide Seal, Calm;
    var staged := Holding(map[Staging(g, o.pid) := files]);
    SealCalm(o, staged, 11, TWO_MISSED, PreparedCandidate(o.root, g, o.pid));
    assert (staged.dirs - {Staging(g, o.pid)})[Sealed(g) := files] == map[Sealed(g) := files];
  }

  lemma UnluckySwitch(o: Owner, g: GenerationId, files: Files)
    requires Verify(o.codec, files, g).Ok? && Verify(o.codec, files, g).value.registryDigest.None?
    ensures var r := RollBackTo(o, Becalmed(Holding(map[Sealed(g) := files]), 8, TWO_MISSED), g);
      && r.value == Err(Io) && Sealed(g) in r.world.dirs && r.world.current == Some(PointerText(g))
      && r.world.fates == [MISSED] && r.world.running
  {
    hide EnsureSealed, WriteCurrent, Verify, PointerText, Calm;
    EnsureCalm(o.codec, Holding(map[Sealed(g) := files]), 8, TWO_MISSED, g);
    SwitchUnflushed(Holding(map[Sealed(g) := files]), g);
  }

  lemma UnluckyCommit(o: Owner, candidate: Candidate)
    requires o.codec.Lawful() && Coherent(o.codec, candidate) && candidate.registry.None?
    ensures var (tried, token) := TryPublish(o, Unlucky(), candidate, true);
      && tried.value == Err(Io) && token == Some(SealedGeneration(o.root, candidate.generation))
      && Sealed(candidate.generation) in tried.world.dirs
      && tried.world.current == Some(PointerText(candidate.generation))
      && tried.world.fates == [MISSED] && tried.world.running
  {
    CoherentVerifies(o.codec, candidate);
    UnluckyPrepare(o, candidate);
    UnluckySeal(o, candidate.generation, FilesOf(o.codec, candidate));
    UnluckySwitch(o, candidate.generation, FilesOf(o.codec, candidate));
    hide Prepare, Seal, RollBackTo, Verify, FilesOf, PointerText, Calm, DiscardPrepared, Unlucky, Becalmed, Holding;
  }

  /**
   * Publishing can leave `current` naming a generation that is gone: the switch took place, its flush failed, and
   * the test whether `current` exists failed when the generation was taken back.
   */
  lemma BlindPublishLosesCurrent(o: Owner, candidate: Candidate)
    requires o.codec.Lawful() && Coherent(o.codec, candidate) && candidate.registry.None?
    ensures var r := Publish(o, Unlucky(), candidate, true);
      && r.value == Err(Io) && Active(r.world, candidate.generation)
      && Sealed(candidate.generation) !in r.world.dirs && !Consistent(o.codec, r.world)
  {
    hide TryPublish, DiscardSealed, PointerText, Pointed, Coherent, Unlucky, Verify;
    UnluckyCommit(o, candidate);
    PointedText(candidate.generation);
    DroppedBlindly(o, TryPublish(o, Unlucky(), candidate, true).0.world, SealedGeneration(o.root, candidate.generation));
  }

  lemma DroppedBlindly(o: Owner, w: World, sealed: SealedGeneration)
    requires sealed.root == o.root && Active(w, sealed.generation) && Sealed(sealed.generation) in w.dirs
    requires w.fates == [MISSED] && w.running
    ensures var after := DiscardSealed(o, w, sealed).world;
      after.current == w.current && Sealed(sealed.generation) !in after.dirs
  {
    hide Pointed;
    assert w.fates[1..] == [];
    assert w.Passed() == w.(fates := []) && w.Passed().Passed() == w.Passed();
  }
}
