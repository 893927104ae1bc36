/** What the store promises over all faults, crashes and runs, and the one fault that breaks the promise. */
module StoreLaws {
  import opened Wrappers
  import opened Generation
  import opened Disk
  import opened StoreSpec

  // ---- What is to be kept ----

  predicate Active(w: World, g: GenerationId) {
    w.current.Some? && Pointed(w.current.value) == Some(g)
  }

  /** `current` is absent, or names a sealed generation that passes verification. */
  ghost predicate Consistent(codec: Codec, w: World) {
    w.current.Some? ==>
      && Pointed(w.current.value).Some?
      && var g := Pointed(w.current.value).value;
         Sealed(g) in w.dirs && Verify(codec, w.dirs[Sealed(g)], g).Ok?
  }

  /** A manifest that can be read beside a node registry binds it. */
  ghost predicate TidyFiles(codec: Codec, files: Files) {
    NodesFile in files && ManifestFile in files && codec.readManifest(files[ManifestFile]).Some? ==>
      codec.readManifest(files[ManifestFile]).value.registryDigest.Some?
  }

  ghost predicate Tidy(codec: Codec, dirs: Dirs) {
    forall d :: d in dirs ==> TidyFiles(codec, dirs[d])
  }

  /** No directory but `d` differs. */
  ghost predicate OnlyDir(before: Dirs, after: Dirs, d: DirName) {
    forall e: DirName :: e != d ==> (e in before <==> e in after) && (e in before ==> before[e] == after[e])
  }

  /** `d` has lost files, at most. */
  ghost predicate Shrunk(before: Dirs, after: Dirs, d: DirName) {
    && OnlyDir(before, after, d)
    && (d in after ==> d in before && forall f :: f in after[d] ==> f in before[d] && before[d][f] == after[d][f])
  }

  lemma ShrunkTidy(codec: Codec, before: Dirs, after: Dirs, d: DirName)
    requires Tidy(codec, before) && Shrunk(before, after, d)
    ensures Tidy(codec, after)
  {
    forall e | e in after
      ensures TidyFiles(codec, after[e])
    {
      assert TidyFiles(codec, before[e]);
    }
  }

  lemma PassedFacts(w: World)
    ensures SameDisk(w, w.Passed())
    ensures w.Quiet() ==> w.Fate() == Proceeds && w.Passed().Quiet()
    ensures !w.running ==> w.Passed() == w && !w.Fate().Proceeds?
  {
  }

  // ---- Verification ----

  lemma EnsureRegistryFacts(codec: Codec, w: World, files: Files, manifest: Manifest)
    ensures var r := EnsureRegistry(codec, w, files, manifest);
      && SameDisk(w, r.world)
      && (r.value.Ok? ==>
            match manifest.registryDigest
            case None => true
            case Some(expected) =>
              && NodesFile in files && codec.readRegistry(files[NodesFile]).Some?
              && expected == codec.sha256(files[NodesFile])
              && codec.readRegistry(files[NodesFile]).value.schema == NODE_REGISTRY_SCHEMA
              && |codec.readRegistry(files[NodesFile]).value.records| == manifest.nodeCount)
  {
  }

  /** Verification accepts only what verifies, up to a registry file it failed to see. */
  lemma EnsureSealedFacts(codec: Codec, w: World, g: GenerationId)
    ensures var r := EnsureSealed(codec, w, g);
      && SameDisk(w, r.world)
      && (r.value.Ok? ==>
            && Sealed(g) in w.dirs
            && (Verify(codec, w.dirs[Sealed(g)], g).Ok? || Verify(codec, w.dirs[Sealed(g)], g) == Err(RegistryUnbound)))
  {
    hide EnsureRegistry, World.Passed, World.Fate;
    if Sealed(g) in w.dirs && ManifestFile in w.dirs[Sealed(g)] && codec.readManifest(w.dirs[Sealed(g)][ManifestFile]).Some? {
      EnsureRegistryFacts(codec, w.Passed().Passed().Passed().Passed().Passed(), w.dirs[Sealed(g)],
                          codec.readManifest(w.dirs[Sealed(g)][ManifestFile]).value);
    }
  }

  lemma EnsureSealedTidy(codec: Codec, w: World, g: GenerationId)
    requires Tidy(codec, w.dirs) && EnsureSealed(codec, w, g).value.Ok?
    ensures Sealed(g) in w.dirs && Verify(codec, w.dirs[Sealed(g)], g).Ok?
  {
    EnsureSealedFacts(codec, w, g);
    assert TidyFiles(codec, w.dirs[Sealed(g)]);
    hide EnsureSealed;
  }

  // ---- Switching `current` ----

  lemma WriteCurrentFacts(w: World, g: GenerationId)
    ensures var r := WriteCurrent(w, g);
      && r.world.dirs == w.dirs
      && (r.world.current == w.current || r.world.current == Some(PointerText(g)))
      && (r.value.Ok? ==> r.world.current == Some(PointerText(g)))
      && (w.Quiet() ==> r.world.Quiet() && r.value.Ok?)
  {
    hide PointerText;
    PassedFacts(w);
    PassedFacts(w.Passed());
  }

  lemma RollBackFacts(o: Owner, w: World, g: GenerationId)
    ensures var r := RollBackTo(o, w, g);
      && r.world.dirs == w.dirs
      && (r.world.current == w.current || r.world.current == Some(PointerText(g)))
      && (r.value.Ok? ==> r.world.current == Some(PointerText(g)))
  {
    hide EnsureSealed, WriteCurrent, PointerText, Verify;
    EnsureSealedFacts(o.codec, w, g);
    WriteCurrentFacts(EnsureSealed(o.codec, w, g).world, g);
  }

  lemma RollBackKeeps(o: Owner, w: World, g: GenerationId)
    requires Consistent(o.codec, w) && Tidy(o.codec, w.dirs)
    ensures Consistent(o.codec, RollBackTo(o, w, g).world)
  {
    hide EnsureSealed, WriteCurrent, PointerText, Verify, Pointed;
    var ensured := EnsureSealed(o.codec, w, g);
    EnsureSealedFacts(o.codec, w, g);
    PointedText(g);
    if ensured.value.Ok? {
      EnsureSealedTidy(o.codec, w, g);
      WriteCurrentFacts(ensured.world, g);
    }
  }

  // ---- Taking directories away ----

  lemma RemoveFacts(w: World, d: DirName)
    ensures var r := RemoveIfPresent(w, d);
      && Shrunk(w.dirs, r.world.dirs, d) && r.world.temps == w.temps && r.world.current == w.current
      && (w.Quiet() ==> r.world.Quiet() && r.value.Ok? && d !in r.world.dirs)
  {
    PassedFacts(w);
    PassedFacts(w.Passed());
  }

  /** The fate of a removal takes something from a directory with these files. */
  predicate Damages(fate: Fate, files: Files) {
    Took(fate) || fate.extent.gone * files.Keys != {}
  }

  /**
   * The one fault the store does not survive: the test whether `current` exists fails, which is taken for there
   * being none, while the generation to be discarded is the active one and its removal then gets somewhere.
   */
  predicate BlindDrop(o: Owner, w: World, sealed: SealedGeneration) {
    && sealed.root == o.root && Active(w, sealed.generation) && Sealed(sealed.generation) in w.dirs
    && w.Fate().Fails?
    && w.Passed().Fate().Proceeds?
    && Damages(w.Passed().Passed().Fate(), w.dirs[Sealed(sealed.generation)])
  }

  /** A verified directory can spare no file. */
  lemma VerifyNeedsAll(codec: Codec, files: Files, gone: set<FileName>, g: GenerationId)
    requires Verify(codec, files, g).Ok? && gone * files.Keys != {}
    ensures !Verify(codec, files - gone, g).Ok?
  {
    var left := files - gone;
    var f :| f in gone && f in files;
    assert f !in left;
    assert ManifestFile in left ==> left[ManifestFile] == files[ManifestFile];
    match f
    case ConfigFile => assert Verify(codec, left, g) == Err(Incomplete);
    case ManifestFile => assert Verify(codec, left, g) == Err(Incomplete);
    case NodesFile =>
      var manifest := codec.readManifest(files[ManifestFile]).value;
      assert manifest.registryDigest.Some?;
      if ConfigFile in left && ManifestFile in left {
        assert left[ConfigFile] == files[ConfigFile];
        assert Verify(codec, left, g) == Err(RegistryMissing);
      }
  }

  lemma RemoveExactly(w: World, d: DirName)
    requires d in w.dirs
    ensures var after := RemoveIfPresent(w, d).world.dirs;
      var fate := w.Passed().Fate();
      if w.Fate().Proceeds? && Damages(fate, w.dirs[d])
      then after == (if Took(fate) then w.dirs - {d} else w.dirs[d := w.dirs[d] - fate.extent.gone])
      else after == w.dirs
  {
    var fate := w.Passed().Fate();
    if w.Fate().Proceeds? && !Damages(fate, w.dirs[d]) {
      assert forall f :: f in w.dirs[d] ==> f !in fate.extent.gone by {
        assert forall f :: f in w.dirs[d] && f in fate.extent.gone ==> f in fate.extent.gone * w.dirs[d].Keys;
      }
      assert w.dirs[d] - fate.extent.gone == w.dirs[d];
      assert w.dirs[d := w.dirs[d]] == w.dirs;
    }
  }

  lemma DiscardSealedFacts(o: Owner, w: World, sealed: SealedGeneration)
    ensures var r := DiscardSealed(o, w, sealed);
      Shrunk(w.dirs, r.world.dirs, Sealed(sealed.generation)) && r.world.temps == w.temps && r.world.current == w.current
  {
    hide RemoveIfPresent, World.Passed, World.Fate, Pointed;
    RemoveFacts(CurrentOf(w).world, Sealed(sealed.generation));
  }

  /** Discarding the active generation changes the disk exactly under a blind drop. */
  lemma DiscardActive(o: Owner, w: World, sealed: SealedGeneration)
    requires Active(w, sealed.generation) && Sealed(sealed.generation) in w.dirs
    ensures var after := DiscardSealed(o, w, sealed).world.dirs;
      var fate := w.Passed().Passed().Fate();
      var d := Sealed(sealed.generation);
      if BlindDrop(o, w, sealed)
      then after == (if Took(fate) then w.dirs - {d} else w.dirs[d := w.dirs[d] - fate.extent.gone])
      else after == w.dirs
  {
    PassedFacts(w);
    PassedFacts(w.Passed());
    RemoveExactly(w.Passed(), Sealed(sealed.generation));
    hide RemoveIfPresent, Pointed, Damages;
    if w.Fate().Halts? {
      assert w.running && w.fates != [];
      assert !w.Passed().running;
    }
  }

  /** A discard keeps the store consistent exactly if it is not a blind drop. */
  lemma DiscardSealedExactly(o: Owner, w: World, sealed: SealedGeneration)
    requires Consistent(o.codec, w)
    ensures Consistent(o.codec, DiscardSealed(o, w, sealed).world) <==> !BlindDrop(o, w, sealed)
  {
    var d := Sealed(sealed.generation);
    DiscardSealedFacts(o, w, sealed);
    if Active(w, sealed.generation) {
      DiscardActive(o, w, sealed);
      var fate := w.Passed().Passed().Fate();
      if BlindDrop(o, w, sealed) && !Took(fate) {
        VerifyNeedsAll(o.codec, w.dirs[d], fate.extent.gone, sealed.generation);
      }
    }
    hide DiscardSealed, Verify, Pointed;
  }

  // ---- Preparing ----

  /** Nothing on disk but the directory `d` differs. */
  ghost predicate Framed(v: World, w: World, d: DirName) {
    OnlyDir(v.dirs, w.dirs, d) && v.temps == w.temps && v.current == w.current
  }

  lemma FramedOn(u: World, v: World, w: World, d: DirName)
    requires Framed(u, v, d) && Framed(v, w, d)
    ensures Framed(u, w, d)
  {
  }

  lemma WriteFileFacts(w: World, d: DirName, f: FileName, bytes: Bytes)
    requires d in w.dirs
    ensures var r := WriteFile(w, d, f, bytes);
      && Framed(w, r.world, d) && d in r.world.dirs
      && (r.value ==> r.world.dirs[d] == w.dirs[d][f := bytes])
      && (w.Quiet() ==> r.world.Quiet() && r.value)
  {
    PassedFacts(w);
  }

  /** The three writes, in the order they are made, add up to the candidate's files. */
  lemma WrittenInOrder(codec: Codec, candidate: Candidate)
    ensures var started: Files := map[][ConfigFile := candidate.config.bytes];
      var registered :=
        if candidate.registry.None? then started
        else started[NodesFile := codec.registryBytes(candidate.registry.value)];
      registered[ManifestFile := codec.manifestBytes(candidate.manifest)] == FilesOf(codec, candidate)
  {
  }

  lemma WriteCandidateFacts(codec: Codec, w: World, candidate: Candidate, d: DirName)
    requires d in w.dirs && w.dirs[d] == map[]
    ensures var r := WriteCandidate(codec, w, candidate, d);
      && Framed(w, r.world, d) && d in r.world.dirs
      && (r.value ==> r.world.dirs[d] == FilesOf(codec, candidate))
      && (w.Quiet() ==> r.world.Quiet() && r.value)
  {
    var config := WriteFile(w, d, ConfigFile, candidate.config.bytes);
    WriteFileFacts(w, d, ConfigFile, candidate.config.bytes);
    WrittenInOrder(codec, candidate);
    var nodes := config;
    if candidate.registry.Some? {
      nodes := WriteFile(config.world, d, NodesFile, codec.registryBytes(candidate.registry.value));
      WriteFileFacts(config.world, d, NodesFile, codec.registryBytes(candidate.registry.value));
      FramedOn(w, config.world, nodes.world, d);
    }
    var manifest := WriteFile(nodes.world, d, ManifestFile, codec.manifestBytes(candidate.manifest));
    WriteFileFacts(nodes.world, d, ManifestFile, codec.manifestBytes(candidate.manifest));
    FramedOn(w, nodes.world, manifest.world, d);
    PassedFacts(manifest.world);
    hide WriteFile, FilesOf, World.Passed, World.Fate, World.Quiet, OnlyDir;
  }

  /** What a directory may hold while a candidate is being written into it or taken away again. */
  ghost predicate Unfinished(codec: Codec, candidate: Candidate, files: Files) {
    && (NodesFile in files ==> candidate.registry.Some?)
    && (ManifestFile in files ==> Cut(files[ManifestFile], codec.manifestBytes(candidate.manifest)))
  }

  ghost predicate Cut(text: Bytes, whole: Bytes) {
    exists n: nat :: text == Beginning(whole, n)
  }

  lemma UnfinishedIsTidy(codec: Codec, candidate: Candidate, files: Files)
    requires codec.Lawful() && codec.RefusesCutManifests() && Coherent(codec, candidate)
    requires Unfinished(codec, candidate, files)
    ensures TidyFiles(codec, files)
  {
    if ManifestFile in files {
      var text := codec.manifestBytes(candidate.manifest);
      var n: nat :| files[ManifestFile] == Beginning(text, n);
      if n < |text| {
        assert codec.readManifest(text[..n]) == None;
      } else {
        assert codec.readManifest(text) == Some(candidate.manifest);
      }
    }
  }

  /** Writing one of the candidate's files keeps a directory one that is being written. */
  lemma WriteUnfinished(codec: Codec, candidate: Candidate, w: World, d: DirName, f: FileName, bytes: Bytes)
    requires d in w.dirs && Unfinished(codec, candidate, w.dirs[d])
    requires f == NodesFile ==> candidate.registry.Some?
    requires f == ManifestFile ==> bytes == codec.manifestBytes(candidate.manifest)
    ensures var after := WriteFile(w, d, f, bytes).world.dirs; d in after && Unfinished(codec, candidate, after[d])
  {
    var fate := w.Fate();
    hide World.Passed, World.Fate;
    if fate.Proceeds? {
      assert bytes == Beginning(bytes, |bytes|);
    } else if fate.extent.kept.Some? {
      assert Cut(Beginning(bytes, fate.extent.kept.value), bytes);
    }
  }

  lemma CandidateUnfinished(codec: Codec, w: World, candidate: Candidate, d: DirName)
    requires d in w.dirs && w.dirs[d] == map[]
    ensures var after := WriteCandidate(codec, w, candidate, d).world.dirs;
      d in after && Unfinished(codec, candidate, after[d])
  {
    var config := WriteFile(w, d, ConfigFile, candidate.config.bytes);
    WriteUnfinished(codec, candidate, w, d, ConfigFile, candidate.config.bytes);
    var nodes := config;
    if candidate.registry.Some? {
      nodes := WriteFile(config.world, d, NodesFile, codec.registryBytes(candidate.registry.value));
      WriteUnfinished(codec, candidate, config.world, d, NodesFile, codec.registryBytes(candidate.registry.value));
    }
    WriteUnfinished(codec, candidate, nodes.world, d, ManifestFile, codec.manifestBytes(candidate.manifest));
    hide WriteFile, World.Passed, World.Fate, Unfinished;
  }

  lemma RemoveTreeFacts(w: World, d: DirName)
    ensures var r := RemoveTree(w, d);
      && Framed(w, r.world, d) && Shrunk(w.dirs, r.world.dirs, d)
      && (r.value ==> d !in r.world.dirs)
      && (w.Quiet() ==> r.world.Quiet() && r.value == (d in w.dirs))
  {
    PassedFacts(w);
  }

  lemma StageFacts(o: Owner, w: World, candidate: Candidate)
    ensures var r := Stage(o, w, candidate);
      var d := Staging(candidate.generation, o.pid);
      && Framed(w, r.world, d)
      && (r.value.Ok? ==>
            && r.value.value == PreparedCandidate(o.root, candidate.generation, o.pid)
            && d in r.world.dirs && r.world.dirs[d] == FilesOf(o.codec, candidate))
      && (w.Quiet() && d !in w.dirs ==> r.world.Quiet() && r.value.Ok?)
  {
    var d := Staging(candidate.generation, o.pid);
    var created := CreateDir(w, d);
    PassedFacts(w);
    assert Framed(w, created.world, d);
    if created.value {
      var written := WriteCandidate(o.codec, created.world, candidate, d);
      WriteCandidateFacts(o.codec, created.world, candidate, d);
      FramedOn(w, created.world, written.world, d);
      RemoveTreeFacts(written.world, d);
      FramedOn(w, written.world, RemoveTree(written.world, d).world, d);
    }
    hide WriteCandidate, FilesOf, RemoveTree, OnlyDir;
  }

  lemma StageTidy(o: Owner, w: World, candidate: Candidate)
    requires o.codec.Lawful() && o.codec.RefusesCutManifests() && Coherent(o.codec, candidate)
    requires Tidy(o.codec, w.dirs)
    ensures Tidy(o.codec, Stage(o, w, candidate).world.dirs)
  {
    var d := Staging(candidate.generation, o.pid);
    var created := CreateDir(w, d);
    if created.value {
      var written := WriteCandidate(o.codec, created.world, candidate, d);
      WriteCandidateFacts(o.codec, created.world, candidate, d);
      CandidateUnfinished(o.codec, created.world, candidate, d);
      UnfinishedIsTidy(o.codec, candidate, written.world.dirs[d]);
      assert Tidy(o.codec, written.world.dirs);
      RemoveTreeFacts(written.world, d);
      ShrunkTidy(o.codec, written.world.dirs, RemoveTree(written.world, d).world.dirs, d);
    }
    hide WriteCandidate, RemoveTree, Coherent, Unfinished;
  }

  lemma PrepareFacts(o: Owner, w: World, candidate: Candidate)
    ensures var r := Prepare(o, w, candidate);
      var d := Staging(candidate.generation, o.pid);
      && Framed(w, r.world, d)
      && (r.value.Ok? ==>
            && r.value.value == PreparedCandidate(o.root, candidate.generation, o.pid)
            && d in r.world.dirs && r.world.dirs[d] == FilesOf(o.codec, candidate))
      && (w.Quiet() ==> r.world.Quiet() && r.value.Ok? == (Sealed(candidate.generation) !in w.dirs))
  {
    var d := Staging(candidate.generation, o.pid);
    var stale := w.Passed().Passed();
    PassedFacts(w);
    PassedFacts(w.Passed());
    RemoveTreeFacts(stale, d);
    var removed := RemoveTree(stale, d);
    StageFacts(o, stale, candidate);
    StageFacts(o, removed.world, candidate);
    FramedOn(w, stale, Stage(o, stale, candidate).world, d);
    FramedOn(w, stale, removed.world, d);
    FramedOn(w, removed.world, Stage(o, removed.world, candidate).world, d);
    hide Stage, RemoveTree, FilesOf, OnlyDir, World.Passed, World.Fate, World.Quiet;
  }

  lemma PrepareTidy(o: Owner, w: World, candidate: Candidate)
    requires o.codec.Lawful() && o.codec.RefusesCutManifests() && Coherent(o.codec, candidate)
    requires Tidy(o.codec, w.dirs)
    ensures Tidy(o.codec, Prepare(o, w, candidate).world.dirs)
  {
    var d := Staging(candidate.generation, o.pid);
    var stale := w.Passed().Passed();
    RemoveTreeFacts(stale, d);
    ShrunkTidy(o.codec, stale.dirs, RemoveTree(stale, d).world.dirs, d);
    StageTidy(o, stale, candidate);
    StageTidy(o, RemoveTree(stale, d).world, candidate);
    hide Stage, RemoveTree, Tidy, Coherent;
  }

  // ---- Sealing ----

  /** A directory that may be renamed onto: there is none, or an empty one. */
  predicate Vacant(dirs: Dirs, d: DirName) {
    d !in dirs || dirs[d] == map[]
  }

  lemma SealFacts(o: Owner, w: World, prepared: PreparedCandidate)
    ensures var r := Seal(o, w, prepared);
      var from, to := prepared.Directory(), Sealed(prepared.generation);
      && r.world.temps == w.temps && r.world.current == w.current
      && (r.world.dirs == w.dirs
          || (from in w.dirs && Vacant(w.dirs, to) && r.world.dirs == (w.dirs - {from})[to := w.dirs[from]]))
      && (r.value.Ok? ==>
            && r.value.value == SealedGeneration(o.root, prepared.generation) && prepared.root == o.root
            && from in w.dirs && Vacant(w.dirs, to) && r.world.dirs == (w.dirs - {from})[to := w.dirs[from]])
      && (w.Quiet() ==>
            r.world.Quiet() && (r.value.Ok? <==> prepared.root == o.root && to !in w.dirs && from in w.dirs))
  {
    PassedFacts(w);
    PassedFacts(w.Passed());
    PassedFacts(w.Passed().Passed());
  }

  lemma SealKeeps(o: Owner, w: World, prepared: PreparedCandidate)
    requires Tidy(o.codec, w.dirs)
    ensures var after := Seal(o, w, prepared).world;
      Tidy(o.codec, after.dirs) && (Consistent(o.codec, w) ==> Consistent(o.codec, after))
  {
    SealFacts(o, w, prepared);
    hide Seal, Pointed;
  }

  // ---- Publishing ----

  /** Nothing but the generation's own two directories differs. */
  ghost predicate Elsewhere(before: Dirs, after: Dirs, g: GenerationId, pid: nat) {
    forall e: DirName :: e != Sealed(g) && e != Staging(g, pid) ==>
      (e in before <==> e in after) && (e in before ==> before[e] == after[e])
  }

  /** The store is as it should be. */
  ghost predicate Sound(codec: Codec, w: World) {
    Consistent(codec, w) && Tidy(codec, w.dirs)
  }

  /** What the record formats guarantee. */
  ghost predicate Faithful(codec: Codec) {
    codec.Lawful() && codec.RefusesCutManifests()
  }

  lemma DiscardPreparedKeeps(o: Owner, w: World, prepared: PreparedCandidate)
    ensures var after := DiscardPrepared(o, w, prepared).world;
      && Framed(w, after, prepared.Directory())
      && (Tidy(o.codec, w.dirs) ==> Tidy(o.codec, after.dirs))
      && (Consistent(o.codec, w) ==> Consistent(o.codec, after))
  {
    RemoveFacts(w, prepared.Directory());
    var after := RemoveIfPresent(w, prepared.Directory()).world;
    if Tidy(o.codec, w.dirs) {
      ShrunkTidy(o.codec, w.dirs, after.dirs, prepared.Directory());
    }
    hide RemoveIfPresent, Verify, Pointed;
  }

  lemma PrepareKeeps(o: Owner, w: World, candidate: Candidate)
    requires Consistent(o.codec, w)
    ensures Consistent(o.codec, Prepare(o, w, candidate).world)
  {
    PrepareFacts(o, w, candidate);
    hide Prepare, Verify, Pointed;
  }

  /** The generation was not there before a commit was tried for it, and is there with all its files after. */
  ghost predicate Arrived(o: Owner, w: World, candidate: Candidate, tried: World, token: SealedGeneration) {
    var to := Sealed(candidate.generation);
    && token == SealedGeneration(o.root, candidate.generation)
    && Vacant(w.dirs, to) && to in tried.dirs && tried.dirs[to] == FilesOf(o.codec, candidate)
  }

  lemma TryPublishSound(o: Owner, w: World, candidate: Candidate, accepted: bool)
    requires Sound(o.codec, w) && Faithful(o.codec) && Coherent(o.codec, candidate)
    ensures Sound(o.codec, TryPublish(o, w, candidate, accepted).0.world)
  {
    hide Prepare, Seal, DiscardPrepared, RollBackTo, Coherent, Consistent, Tidy, Framed;
    var token := PreparedCandidate(o.root, candidate.generation, o.pid);
    var prepared := Prepare(o, w, candidate);
    PrepareFacts(o, w, candidate);
    PrepareKeeps(o, w, candidate);
    PrepareTidy(o, w, candidate);
    DiscardPreparedKeeps(o, prepared.world, token);
    var sealed := Seal(o, prepared.world, token);
    SealFacts(o, prepared.world, token);
    SealKeeps(o, prepared.world, token);
    DiscardPreparedKeeps(o, sealed.world, token);
    RollBackFacts(o, sealed.world, candidate.generation);
    RollBackKeeps(o, sealed.world, candidate.generation);
  }

  /** What the renames of sealing do to the directories around them. */
  lemma MovedDirs(before: Dirs, staged: Dirs, after: Dirs, g: GenerationId, pid: nat)
    requires OnlyDir(before, staged, Staging(g, pid))
    requires Staging(g, pid) in staged && Vacant(staged, Sealed(g))
    requires after == (staged - {Staging(g, pid)})[Sealed(g) := staged[Staging(g, pid)]]
    ensures Elsewhere(before, after, g, pid) && Vacant(before, Sealed(g))
    ensures after[Sealed(g)] == staged[Staging(g, pid)]
  {
  }

  lemma StagedElsewhere(before: Dirs, middle: Dirs, after: Dirs, g: GenerationId, pid: nat)
    requires Elsewhere(before, middle, g, pid) && OnlyDir(middle, after, Staging(g, pid))
    ensures Elsewhere(before, after, g, pid)
    ensures Sealed(g) in middle <==> Sealed(g) in after
    ensures Sealed(g) in middle ==> middle[Sealed(g)] == after[Sealed(g)]
  {
  }

  lemma TryPublishFacts(o: Owner, w: World, candidate: Candidate, accepted: bool)
    ensures var (tried, token) := TryPublish(o, w, candidate, accepted);
      var to := Sealed(candidate.generation);
      && Elsewhere(w.dirs, tried.world.dirs, candidate.generation, o.pid)
      && (token.Some? ==> Arrived(o, w, candidate, tried.world, token.value))
      && (!Vacant(w.dirs, to) ==> to in tried.world.dirs && tried.world.dirs[to] == w.dirs[to])
      && (tried.world.current == w.current || (token.Some? && tried.world.current == Some(PointerText(candidate.generation))))
      && (tried.value.Ok? ==> accepted && token.Some? && tried.world.current == Some(PointerText(candidate.generation)))
  {
    hide Prepare, Seal, DiscardPrepared, RollBackTo, Coherent, Consistent, Tidy, FilesOf, PointerText, OnlyDir, Elsewhere,
         Vacant;
    var g, pid := candidate.generation, o.pid;
    var token := PreparedCandidate(o.root, g, pid);
    var prepared := Prepare(o, w, candidate);
    PrepareFacts(o, w, candidate);
    NothingElsewhere(w.dirs, g, pid);
    StagedElsewhere(w.dirs, w.dirs, prepared.world.dirs, g, pid);
    DiscardPreparedKeeps(o, prepared.world, token);
    StagedElsewhere(w.dirs, prepared.world.dirs, DiscardPrepared(o, prepared.world, token).world.dirs, g, pid);
    VacantSame(w.dirs, prepared.world.dirs, Sealed(g));
    var sealed := Seal(o, prepared.world, token);
    SealFacts(o, prepared.world, token);
    if sealed.world.dirs != prepared.world.dirs {
      MovedDirs(w.dirs, prepared.world.dirs, sealed.world.dirs, g, pid);
    }
    DiscardPreparedKeeps(o, sealed.world, token);
    StagedElsewhere(w.dirs, sealed.world.dirs, DiscardPrepared(o, sealed.world, token).world.dirs, g, pid);
    RollBackFacts(o, sealed.world, g);
    if sealed.value.Ok? {
      MovedDirs(w.dirs, prepared.world.dirs, sealed.world.dirs, g, pid);
    }
  }

  lemma NothingElsewhere(dirs: Dirs, g: GenerationId, pid: nat)
    ensures Elsewhere(dirs, dirs, g, pid)
  {
  }

  lemma VacantSame(before: Dirs, after: Dirs, d: DirName)
    requires d in before <==> d in after
    requires d in before ==> before[d] == after[d]
    ensures Vacant(before, d) == Vacant(after, d) && (!Vacant(before, d) ==> d in after)
  {
  }

  /** Publishing fails blindly: the commit did not report success, and taking the generation back is a blind drop. */
  predicate BlindPublish(o: Owner, w: World, candidate: Candidate, accepted: bool) {
    var (tried, token) := TryPublish(o, w, candidate, accepted);
    token.Some? && tried.value.Err? && BlindDrop(o, tried.world, token.value)
  }

  /**
   * Publishing is atomic.  When it succeeds `current` names the new generation and its directory holds exactly
   * the candidate's files.  When it fails, or the process dies at any point, `current` is untouched or already
   * names the new generation, complete.  A generation that was there before is never touched.  All of this
   * exactly unless it fails blindly.
   */
  lemma PublishExactly(o: Owner, w: World, candidate: Candidate, accepted: bool)
    requires Sound(o.codec, w) && Faithful(o.codec) && Coherent(o.codec, candidate)
    ensures var r := Publish(o, w, candidate, accepted);
      var g, to, blind := candidate.generation, Sealed(candidate.generation), BlindPublish(o, w, candidate, accepted);
      && Tidy(o.codec, r.world.dirs)
      && (Consistent(o.codec, r.world) <==> !blind)
      && Elsewhere(w.dirs, r.world.dirs, g, o.pid)
      && (!Vacant(w.dirs, to) ==> r.value.Err? && to in r.world.dirs && r.world.dirs[to] == w.dirs[to])
      && (r.value.Ok? ==> accepted && r.world.current == Some(PointerText(g)))
      && (r.world.current == w.current || r.world.current == Some(PointerText(g)))
      && (r.value.Ok? || r.world.current != w.current ==>
            (to in r.world.dirs && r.world.dirs[to] == FilesOf(o.codec, candidate) <==> !blind))
  {
    hide TryPublish, DiscardSealed, Coherent, FilesOf, PointerText, Tidy, BlindDrop, Consistent, Shrunk, Elsewhere, Pointed,
         Active, OnlyDir;
    var g := candidate.generation;
    var (tried, token) := TryPublish(o, w, candidate, accepted);
    TryPublishFacts(o, w, candidate, accepted);
    TryPublishSound(o, w, candidate, accepted);
    if token.Some? && tried.value.Err? {
      TakenBack(o, w, candidate, tried.world);
    }
  }

  /** After a failed commit: what taking the generation back does. */
  lemma TakenBack(o: Owner, w: World, candidate: Candidate, tried: World)
    requires Sound(o.codec, tried) && Elsewhere(w.dirs, tried.dirs, candidate.generation, o.pid)
    requires Arrived(o, w, candidate, tried, SealedGeneration(o.root, candidate.generation))
    requires tried.current == w.current || tried.current == Some(PointerText(candidate.generation))
    requires Sound(o.codec, w)
    ensures var token := SealedGeneration(o.root, candidate.generation);
      var after := DiscardSealed(o, tried, token).world;
      var g, to := candidate.generation, Sealed(candidate.generation);
      && Tidy(o.codec, after.dirs) && (Consistent(o.codec, after) <==> !BlindDrop(o, tried, token))
      && Elsewhere(w.dirs, after.dirs, g, o.pid) && after.current == tried.current
      && (after.current != w.current ==>
            (to in after.dirs && after.dirs[to] == FilesOf(o.codec, candidate) <==> !BlindDrop(o, tried, token)))
  {
    hide FilesOf, PointerText, Tidy, Verify, Pointed, Elsewhere, DiscardSealed;
    var g := candidate.generation;
    var token := SealedGeneration(o.root, g);
    var after := DiscardSealed(o, tried, token).world;
    DiscardSealedFacts(o, tried, token);
    DiscardSealedExactly(o, tried, token);
    ShrunkTidy(o.codec, tried.dirs, after.dirs, Sealed(g));
    SealedElsewhere(w.dirs, tried.dirs, after.dirs, g, o.pid);
    if after.current != w.current {
      PointedText(g);
      DroppedFiles(o, tried, token);
    }
  }

  lemma SealedElsewhere(before: Dirs, middle: Dirs, after: Dirs, g: GenerationId, pid: nat)
    requires Elsewhere(before, middle, g, pid) && OnlyDir(middle, after, Sealed(g))
    ensures Elsewhere(before, after, g, pid)
  {
  }

  /** The active generation keeps its files exactly if it is not dropped blindly. */
  lemma DroppedFiles(o: Owner, w: World, sealed: SealedGeneration)
    requires Active(w, sealed.generation) && Sealed(sealed.generation) in w.dirs
    ensures var d, after := Sealed(sealed.generation), DiscardSealed(o, w, sealed).world.dirs;
      d in after && after[d] == w.dirs[d] <==> !BlindDrop(o, w, sealed)
  {
    hide DiscardSealed, Pointed;
    DiscardActive(o, w, sealed);
    var fate, d := w.Passed().Passed().Fate(), Sealed(sealed.generation);
    if BlindDrop(o, w, sealed) && !Took(fate) {
      var f :| f in fate.extent.gone * w.dirs[d].Keys;
      assert f !in w.dirs[d] - fate.extent.gone;
    }
  }
}
