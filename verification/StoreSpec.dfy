/** What each operation of the generation store does, as a function of the disk it finds. */
module StoreSpec {
  import opened Wrappers
  import opened Generation
  import opened Disk
  import Decimal

  predicate IsSpace(c: char) {
    c in " \t\n\r"
  }

  function TrimEnd(s: string): string {
    if s != [] && IsSpace(s[|s| - 1]) then TrimEnd(s[..|s| - 1]) else s
  }

  function TrimStart(s: string): string {
    if s != [] && IsSpace(s[0]) then TrimStart(s[1..]) else s
  }

  /** The generation the text of `current` names, if it names one. */
  function Pointed(text: string): Option<GenerationId> {
    match Decimal.Parse(TrimEnd(TrimStart(text)), Decimal.MAX_U64)
    case None => None
    case Some(value) => if value == 0 then None else Some(value)
  }

  function PointerText(g: GenerationId): string {
    Decimal.Text(g) + "\n"
  }

  lemma PointedText(g: GenerationId)
    ensures Pointed(PointerText(g)) == Some(g)
  {
    var text := Decimal.Text(g);
    assert Decimal.IsDigit(text[0]) && Decimal.IsDigit(text[|text| - 1]);
    assert TrimStart(text + "\n") == text + "\n";
    assert (text + "\n")[..|text + "\n"| - 1] == text;
    assert TrimEnd(text) == text;
    assert TrimEnd(text + "\n") == text;
    Decimal.ParseText(g, Decimal.MAX_U64);
  }

  datatype StoreError = AlreadyExists | Io | Rejected | ForeignToken | InvalidPointer | ActiveGeneration
                      | Missing | Unverified(reason: VerifyError)

  datatype PreparedCandidate = PreparedCandidate(root: string, generation: GenerationId, pid: nat) {
    function Directory(): DirName {
      Staging(generation, pid)
    }
  }

  datatype SealedGeneration = SealedGeneration(root: string, generation: GenerationId) {
    function Directory(): DirName {
      Sealed(generation)
    }
  }

  /** A store: where it is, which process uses it, and how it reads and writes records. */
  datatype Owner = Owner(codec: Codec, root: string, pid: nat)

  type Outcome<T> = Step<Result<T, StoreError>>

  /** `current_generation`. */
  function CurrentOf(w: World): Outcome<Option<GenerationId>> {
    var seen := Exists(w, w.current.Some?);
    if !seen.value then Step(seen.world, Ok(None))
    else
      var read := Touch(seen.world);
      if !read.value then Step(read.world, Err(Io))
      else
        match Pointed(w.current.value)
        case None => Step(read.world, Err(InvalidPointer))
        case Some(g) => Step(read.world, Ok(Some(g)))
  }

  /** The part of `ensure_sealed_exists` that deals with the node registry. */
  function EnsureRegistry(codec: Codec, w: World, files: Files, manifest: Manifest): Outcome<()> {
    var seen := Exists(w, NodesFile in files);
    match manifest.registryDigest
    case None => Step(seen.world, if seen.value then Err(Unverified(RegistryUnbound)) else Ok(()))
    case Some(expected) =>
      if !seen.value then Step(seen.world, Err(Unverified(RegistryMissing)))
      else
        var read := Touch(seen.world);
        if !read.value then Step(read.world, Err(Io))
        else
          match codec.readRegistry(files[NodesFile])
          case None => Step(read.world, Err(Unverified(RegistryInvalid)))
          case Some(registry) =>
            if expected != codec.sha256(files[NodesFile]) || registry.schema != NODE_REGISTRY_SCHEMA
               || |registry.records| != manifest.nodeCount then
              Step(read.world, Err(Unverified(RegistryMismatch)))
            else
              Step(read.world, Ok(()))
  }

  /** `ensure_sealed_exists`. */
  function EnsureSealed(codec: Codec, w: World, g: GenerationId): Outcome<()> {
    var directory := Exists(w, Sealed(g) in w.dirs);
    if !directory.value then Step(directory.world, Err(Missing))
    else
      var files := w.dirs[Sealed(g)];
      var config := Exists(directory.world, ConfigFile in files);
      if !config.value then Step(config.world, Err(Missing))
      else
        var manifest := Exists(config.world, ManifestFile in files);
        if !manifest.value then Step(manifest.world, Err(Missing))
        else
          var readManifest := Touch(manifest.world);
          if !readManifest.value then Step(readManifest.world, Err(Io))
          else
            match codec.readManifest(files[ManifestFile])
            case None => Step(readManifest.world, Err(Unverified(ManifestInvalid)))
            case Some(m) =>
              var readConfig := Touch(readManifest.world);
              if !readConfig.value then Step(readConfig.world, Err(Io))
              else if m.schema != MANIFEST_SCHEMA || m.generation != g
                      || m.configDigest != codec.sha256(files[ConfigFile]) then
                Step(readConfig.world, Err(Unverified(ManifestMismatch)))
              else
                EnsureRegistry(codec, readConfig.world, files, m)
  }

  /** `write_candidate`. */
  function WriteCandidate(codec: Codec, w: World, candidate: Candidate, d: DirName): Step<bool> {
    var config := WriteFile(w, d, ConfigFile, candidate.config.bytes);
    if !config.value then config
    else
      var nodes :=
        if candidate.registry.None? then config
        else WriteFile(config.world, d, NodesFile, codec.registryBytes(candidate.registry.value));
      if !nodes.value then nodes
      else
        var manifest := WriteFile(nodes.world, d, ManifestFile, codec.manifestBytes(candidate.manifest));
        if !manifest.value then manifest else Touch(manifest.world)
  }

  /** The end of `prepare_candidate`, once the way is clear. */
  function Stage(o: Owner, w: World, candidate: Candidate): Outcome<PreparedCandidate> {
    var d := Staging(candidate.generation, o.pid);
    var created := CreateDir(w, d);
    if !created.value then Step(created.world, Err(Io))
    else
      var written := WriteCandidate(o.codec, created.world, candidate, d);
      if !written.value then Step(RemoveTree(written.world, d).world, Err(Io))
      else Step(written.world, Ok(PreparedCandidate(o.root, candidate.generation, o.pid)))
  }

  /** `prepare_candidate`. */
  function Prepare(o: Owner, w: World, candidate: Candidate): Outcome<PreparedCandidate> {
    var taken := Exists(w, Sealed(candidate.generation) in w.dirs);
    if taken.value then Step(taken.world, Err(AlreadyExists))
    else
      var d := Staging(candidate.generation, o.pid);
      var stale := Exists(taken.world, d in w.dirs);
      if !stale.value then Stage(o, stale.world, candidate)
      else
        var removed := RemoveTree(stale.world, d);
        if !removed.value then Step(removed.world, Err(Io)) else Stage(o, removed.world, candidate)
  }

  /** `seal_candidate`. */
  function Seal(o: Owner, w: World, prepared: PreparedCandidate): Outcome<SealedGeneration> {
    if prepared.root != o.root then Step(w, Err(ForeignToken))
    else
      var taken := Exists(w, Sealed(prepared.generation) in w.dirs);
      if taken.value then Step(taken.world, Err(AlreadyExists))
      else
        var renamed := RenameDir(taken.world, prepared.Directory(), Sealed(prepared.generation));
        if !renamed.value then Step(renamed.world, Err(Io))
        else
          var synced := Touch(renamed.world);
          Step(synced.world, if synced.value then Ok(SealedGeneration(o.root, prepared.generation)) else Err(Io))
  }

  /** `write_current`. */
  function WriteCurrent(w: World, g: GenerationId): Outcome<()> {
    var written := WriteTemp(w, g, PointerText(g));
    if !written.value then Step(written.world, Err(Io))
    else
      var renamed := RenameTemp(written.world, g);
      if !renamed.value then Step(renamed.world, Err(Io))
      else
        var synced := Touch(renamed.world);
        Step(synced.world, if synced.value then Ok(()) else Err(Io))
  }

  /** `rollback_to`. */
  function RollBackTo(o: Owner, w: World, g: GenerationId): Outcome<()> {
    var ensured := EnsureSealed(o.codec, w, g);
    if ensured.value.Err? then ensured else WriteCurrent(ensured.world, g)
  }

  /** `commit_generation`. */
  function Commit(o: Owner, w: World, sealed: SealedGeneration): Outcome<()> {
    if sealed.root != o.root then Step(w, Err(ForeignToken)) else RollBackTo(o, w, sealed.generation)
  }

  /** `remove_directory_if_present`. */
  function RemoveIfPresent(w: World, d: DirName): Outcome<()> {
    var seen := Exists(w, d in w.dirs);
    if !seen.value then Step(seen.world, Ok(()))
    else
      var removed := RemoveTree(seen.world, d);
      Step(removed.world, if removed.value then Ok(()) else Err(Io))
  }

  /** `discard_prepared`. */
  function DiscardPrepared(o: Owner, w: World, prepared: PreparedCandidate): Outcome<()> {
    if prepared.root != o.root then Step(w, Err(ForeignToken)) else RemoveIfPresent(w, prepared.Directory())
  }

  /** `discard_sealed`. */
  function DiscardSealed(o: Owner, w: World, sealed: SealedGeneration): Outcome<()> {
    if sealed.root != o.root then Step(w, Err(ForeignToken))
    else
      var active := CurrentOf(w);
      if active.value.Err? then Step(active.world, Err(active.value.error))
      else if active.value.value == Some(sealed.generation) then Step(active.world, Err(ActiveGeneration))
      else
        var removed := RemoveIfPresent(active.world, sealed.Directory());
        if removed.value.Err? then removed
        else
          var synced := Touch(removed.world);
          Step(synced.world, if synced.value then Ok(()) else Err(Io))
  }

  /** `publish_with_path` up to the point where a commit has been tried: the token it was tried for, if it got there. */
  function TryPublish(o: Owner, w: World, candidate: Candidate, accepted: bool)
    : (Outcome<()>, Option<SealedGeneration>)
  {
    var prepared := Prepare(o, w, candidate);
    if prepared.value.Err? then (Step(prepared.world, Err(prepared.value.error)), None)
    else if !accepted then
      (Step(DiscardPrepared(o, prepared.world, prepared.value.value).world, Err(Rejected)), None)
    else
      var sealed := Seal(o, prepared.world, prepared.value.value);
      if sealed.value.Err? then
        (Step(DiscardPrepared(o, sealed.world, prepared.value.value).world, Err(sealed.value.error)), None)
      else
        (Commit(o, sealed.world, sealed.value.value), Some(sealed.value.value))
  }

  /** `publish_with_path`. */
  function Publish(o: Owner, w: World, candidate: Candidate, accepted: bool): Outcome<()> {
    var (tried, token) := TryPublish(o, w, candidate, accepted);
    if token.Some? && tried.value.Err?
    then Step(DiscardSealed(o, tried.world, token.value).world, tried.value)
    else tried
  }

  /** What a process may ask of the store; a token is any value, whether or not the store handed it out. */
  datatype Call =
    | ToPrepare(candidate: Candidate)
    | ToSeal(prepared: PreparedCandidate)
    | ToCommit(sealed: SealedGeneration)
    | ToDiscardPrepared(prepared: PreparedCandidate)
    | ToDiscardSealed(sealed: SealedGeneration)
    | ToRollBack(generation: GenerationId)
    | ToPublish(candidate: Candidate, accepted: bool)
    | Restart

  /** The disk after a call. */
  function Served(o: Owner, w: World, call: Call): World {
    match call
    case ToPrepare(candidate) => Prepare(o, w, candidate).world
    case ToSeal(prepared) => Seal(o, w, prepared).world
    case ToCommit(sealed) => Commit(o, w, sealed).world
    case ToDiscardPrepared(prepared) => DiscardPrepared(o, w, prepared).world
    case ToDiscardSealed(sealed) => DiscardSealed(o, w, sealed).world
    case ToRollBack(g) => RollBackTo(o, w, g).world
    case ToPublish(candidate, accepted) => Publish(o, w, candidate, accepted).world
    case Restart => w.(running := true)
  }
}
