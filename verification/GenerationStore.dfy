/** The store of generations, as it works step by step on a filesystem. */
module GenerationStore {
  import opened Wrappers
  import opened Generation
  import opened Disk
  import S = StoreSpec

  class Store {
    const disk: Filesystem
    const owner: S.Owner

    constructor (disk: Filesystem, owner: S.Owner)
      ensures this.disk == disk && this.owner == owner
    {
      this.disk := disk;
      this.owner := owner;
    }

    method CurrentGeneration() returns (r: Result<Option<GenerationId>, S.StoreError>)
      modifies disk
      ensures Step(disk.world, r) == S.CurrentOf(old(disk.world))
    {
      var seen := Exists(disk.world, disk.world.current.Some?);
      disk.world := seen.world;
      if !seen.value {
        return Ok(None);
      }
      var read := Touch(disk.world);
      disk.world := read.world;
      if !read.value {
        return Err(S.Io);
      }
      var named := S.Pointed(disk.world.current.value);
      r := if named.Some? then Ok(named) else Err(S.InvalidPointer);
    }

    method EnsureRegistry(files: Files, manifest: Manifest) returns (r: Result<(), S.StoreError>)
      modifies disk
      ensures Step(disk.world, r) == S.EnsureRegistry(owner.codec, old(disk.world), files, manifest)
    {
      var seen := Exists(disk.world, NodesFile in files);
      disk.world := seen.world;
      if manifest.registryDigest.None? {
        return if seen.value then Err(S.Unverified(RegistryUnbound)) else Ok(());
      }
      if !seen.value {
        return Err(S.Unverified(RegistryMissing));
      }
      var read := Touch(disk.world);
      disk.world := read.world;
      if !read.value {
        return Err(S.Io);
      }
      var registry := owner.codec.readRegistry(files[NodesFile]);
      if registry.None? {
        return Err(S.Unverified(RegistryInvalid));
      }
      if manifest.registryDigest.value != owner.codec.sha256(files[NodesFile])
         || registry.value.schema != NODE_REGISTRY_SCHEMA || |registry.value.records| != manifest.nodeCount {
        return Err(S.Unverified(RegistryMismatch));
      }
      r := Ok(());
    }

    method EnsureSealed(g: GenerationId) returns (r: Result<(), S.StoreError>)
      modifies disk
      ensures Step(disk.world, r) == S.EnsureSealed(owner.codec, old(disk.world), g)
    {
      hide S.EnsureRegistry;
      var there := Exists(disk.world, Sealed(g) in disk.world.dirs);
      disk.world := there.world;
      if !there.value {
        return Err(S.Missing);
      }
      var files := disk.world.dirs[Sealed(g)];
      var config := Exists(disk.world, ConfigFile in files);
      disk.world := config.world;
      if !config.value {
        return Err(S.Missing);
      }
      var manifest := Exists(disk.world, ManifestFile in files);
      disk.world := manifest.world;
      if !manifest.value {
        return Err(S.Missing);
      }
      var readManifest := Touch(disk.world);
      disk.world := readManifest.world;
      if !readManifest.value {
        return Err(S.Io);
      }
      var parsed := owner.codec.readManifest(files[ManifestFile]);
      if parsed.None? {
        return Err(S.Unverified(ManifestInvalid));
      }
      var readConfig := Touch(disk.world);
      disk.world := readConfig.world;
      if !readConfig.value {
        return Err(S.Io);
      }
      if parsed.value.schema != MANIFEST_SCHEMA || parsed.value.generation != g
         || parsed.value.configDigest != owner.codec.sha256(files[ConfigFile]) {
        return Err(S.Unverified(ManifestMismatch));
      }
      r := EnsureRegistry(files, parsed.value);
    }

    method WriteCandidate(candidate: Candidate, d: DirName) returns (ok: bool)
      modifies disk
      ensures Step(disk.world, ok) == S.WriteCandidate(owner.codec, old(disk.world), candidate, d)
    {
      hide WriteFile;
      var config := WriteFile(disk.world, d, ConfigFile, candidate.config.bytes);
      disk.world := config.world;
      if !config.value {
        return false;
      }
      if candidate.registry.Some? {
        var nodes := WriteFile(disk.world, d, NodesFile, owner.codec.registryBytes(candidate.registry.value));
        disk.world := nodes.world;
        if !nodes.value {
          return false;
        }
      }
      var manifest := WriteFile(disk.world, d, ManifestFile, owner.codec.manifestBytes(candidate.manifest));
      disk.world := manifest.world;
      if !manifest.value {
        return false;
      }
      var synced := Touch(disk.world);
      disk.world, ok := synced.world, synced.value;
    }

    method PrepareCandidate(candidate: Candidate) returns (r: Result<S.PreparedCandidate, S.StoreError>)
      modifies disk
      ensures Step(disk.world, r) == S.Prepare(owner, old(disk.world), candidate)
    {
      hide S.WriteCandidate, CreateDir, RemoveTree;
      var taken := Exists(disk.world, Sealed(candidate.generation) in disk.world.dirs);
      disk.world := taken.world;
      if taken.value {
        return Err(S.AlreadyExists);
      }
      var d := Staging(candidate.generation, owner.pid);
      var stale := Exists(disk.world, d in disk.world.dirs);
      disk.world := stale.world;
      if stale.value {
        var removed := RemoveTree(disk.world, d);
        disk.world := removed.world;
        if !removed.value {
          return Err(S.Io);
        }
      }
      var created := CreateDir(disk.world, d);
      disk.world := created.world;
      if !created.value {
        return Err(S.Io);
      }
      var written := WriteCandidate(candidate, d);
      if !written {
        disk.world := RemoveTree(disk.world, d).world;
        return Err(S.Io);
      }
      r := Ok(S.PreparedCandidate(owner.root, candidate.generation, owner.pid));
    }

    method SealCandidate(prepared: S.PreparedCandidate) returns (r: Result<S.SealedGeneration, S.StoreError>)
      modifies disk
      ensures Step(disk.world, r) == S.Seal(owner, old(disk.world), prepared)
    {
      hide RenameDir;
      if prepared.root != owner.root {
        return Err(S.ForeignToken);
      }
      var taken := Exists(disk.world, Sealed(prepared.generation) in disk.world.dirs);
      disk.world := taken.world;
      if taken.value {
        return Err(S.AlreadyExists);
      }
      var renamed := RenameDir(disk.world, prepared.Directory(), Sealed(prepared.generation));
      disk.world := renamed.world;
      if !renamed.value {
        return Err(S.Io);
      }
      var synced := Touch(disk.world);
      disk.world := synced.world;
      r := if synced.value then Ok(S.SealedGeneration(owner.root, prepared.generation)) else Err(S.Io);
    }

    method WriteCurrent(g: GenerationId) returns (r: Result<(), S.StoreError>)
      modifies disk
      ensures Step(disk.world, r) == S.WriteCurrent(old(disk.world), g)
    {
      hide WriteTemp, RenameTemp;
      var written := WriteTemp(disk.world, g, S.PointerText(g));
      disk.world := written.world;
      if !written.value {
        return Err(S.Io);
      }
      var renamed := RenameTemp(disk.world, g);
      disk.world := renamed.world;
      if !renamed.value {
        return Err(S.Io);
      }
      var synced := Touch(disk.world);
      disk.world := synced.world;
      r := if synced.value then Ok(()) else Err(S.Io);
    }

    method RollbackTo(g: GenerationId) returns (r: Result<(), S.StoreError>)
      modifies disk
      ensures Step(disk.world, r) == S.RollBackTo(owner, old(disk.world), g)
    {
      hide S.EnsureSealed, S.WriteCurrent;
      r := EnsureSealed(g);
      if r.Ok? {
        r := WriteCurrent(g);
      }
    }

    method CommitGeneration(sealed: S.SealedGeneration) returns (r: Result<(), S.StoreError>)
      modifies disk
      ensures Step(disk.world, r) == S.Commit(owner, old(disk.world), sealed)
    {
      hide S.EnsureSealed, S.WriteCurrent;
      if sealed.root != owner.root {
        return Err(S.ForeignToken);
      }
      r := EnsureSealed(sealed.generation);
      if r.Ok? {
        r := WriteCurrent(sealed.generation);
      }
    }

    method RemoveIfPresent(d: DirName) returns (r: Result<(), S.StoreError>)
      modifies disk
      ensures Step(disk.world, r) == S.RemoveIfPresent(old(disk.world), d)
    {
      hide RemoveTree;
      var seen := Exists(disk.world, d in disk.world.dirs);
      disk.world := seen.world;
      if !seen.value {
        return Ok(());
      }
      var removed := RemoveTree(disk.world, d);
      disk.world := removed.world;
      r := if removed.value then Ok(()) else Err(S.Io);
    }

    method DiscardPrepared(prepared: S.PreparedCandidate) returns (r: Result<(), S.StoreError>)
      modifies disk
      ensures Step(disk.world, r) == S.DiscardPrepared(owner, old(disk.world), prepared)
    {
      hide S.RemoveIfPresent;
      if prepared.root != owner.root {
        return Err(S.ForeignToken);
      }
      r := RemoveIfPresent(prepared.Directory());
    }

    method DiscardSealed(sealed: S.SealedGeneration) returns (r: Result<(), S.StoreError>)
      modifies disk
      ensures Step(disk.world, r) == S.DiscardSealed(owner, old(disk.world), sealed)
    {
      hide S.RemoveIfPresent, S.CurrentOf;
      if sealed.root != owner.root {
        return Err(S.ForeignToken);
      }
      var active := CurrentGeneration();
      if active.Err? {
        return Err(active.error);
      }
      if active.value == Some(sealed.generation) {
        return Err(S.ActiveGeneration);
      }
      r := RemoveIfPresent(sealed.Directory());
      if r.Ok? {
        var synced := Touch(disk.world);
        disk.world := synced.world;
        r := if synced.value then Ok(()) else Err(S.Io);
      }
    }

    method PublishWithPath(candidate: Candidate, accepted: bool) returns (r: Result<(), S.StoreError>)
      modifies disk
      ensures Step(disk.world, r) == S.Publish(owner, old(disk.world), candidate, accepted)
    {
      hide S.Prepare, S.Seal, S.Commit, S.DiscardPrepared, S.DiscardSealed;
      var prepared := PrepareCandidate(candidate);
      if prepared.Err? {
        return Err(prepared.error);
      }
      if !accepted {
        var _ := DiscardPrepared(prepared.value);
        return Err(S.Rejected);
      }
      var sealed := SealCandidate(prepared.value);
      if sealed.Err? {
        var _ := DiscardPrepared(prepared.value);
        return Err(sealed.error);
      }
      r := CommitGeneration(sealed.value);
      if r.Err? {
        var _ := DiscardSealed(sealed.value);
      }
    }
  }
}
