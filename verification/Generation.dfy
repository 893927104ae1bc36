/** Generations: the configuration a candidate holds, the files it is stored as, and what makes them acceptable. */
module Generation {
  import opened Wrappers
  import Decimal

  type Bytes = seq<bv8>

  type GenerationId = n: nat | 0 < n <= Decimal.MAX_U64 witness 1

  const MANIFEST_SCHEMA := "nethop-generation-v1"
  const NODE_REGISTRY_SCHEMA := "nethop-generation-nodes-v3"
  const MAX_SOURCE_IDS := 16

  datatype Manifest = Manifest(
    schema: string,
    generation: GenerationId,
    configDigest: string,
    nodeCount: nat,
    registryDigest: Option<string>,
    sourceConfigDigest: Option<string>,
    sourceIds: seq<string>)

  datatype NodeRecord = NodeRecord(
    stableNodeId: string,
    internalTag: string,
    displayName: string,
    protocol: string,
    sourceIds: seq<string>,
    autoCandidate: bool)

  datatype NodeRegistry = NodeRegistry(schema: string, autoPool: seq<string>, records: seq<NodeRecord>)

  /** SHA-256 in hexadecimal, and the JSON writers and readers of the two record types. */
  datatype Codec = Codec(
    sha256: Bytes -> string,
    manifestBytes: Manifest -> Bytes,
    readManifest: Bytes -> Option<Manifest>,
    registryBytes: NodeRegistry -> Bytes,
    readRegistry: Bytes -> Option<NodeRegistry>)
  {
    /** Reading back what was written gives it back. */
    ghost predicate Lawful() {
      && (forall m: Manifest :: readManifest(manifestBytes(m)) == Some(m))
      && (forall r: NodeRegistry :: readRegistry(registryBytes(r)) == Some(r))
    }

    /** A manifest that was cut off is not read as one: what is written is a single JSON object. */
    ghost predicate RefusesCutManifests() {
      forall m: Manifest, n: nat :: n < |manifestBytes(m)| ==> readManifest(manifestBytes(m)[..n]) == None
    }
  }

  datatype ManagedConfig = ManagedConfig(bytes: Bytes, digest: string, nodeCount: nat)

  datatype Candidate = Candidate(
    generation: GenerationId,
    config: ManagedConfig,
    manifest: Manifest,
    registry: Option<NodeRegistry>)

  datatype FileName = ConfigFile | NodesFile | ManifestFile

  type Files = map<FileName, Bytes>

  datatype CandidateError = RegistryCountMismatch | InvalidBinding

  function NewCandidate(generation: GenerationId, config: ManagedConfig): Candidate {
    Candidate(
      generation,
      config,
      Manifest(MANIFEST_SCHEMA, generation, config.digest, config.nodeCount, None, None, []),
      None)
  }

  function WithNodeRegistry(codec: Codec, candidate: Candidate, registry: NodeRegistry): Result<Candidate, CandidateError> {
    if |registry.records| != candidate.config.nodeCount then
      Err(RegistryCountMismatch)
    else
      Ok(candidate.(
        manifest := candidate.manifest.(registryDigest := Some(codec.sha256(codec.registryBytes(registry)))),
        registry := Some(registry)))
  }

  predicate LowerHex(s: string) {
    forall i :: 0 <= i < |s| ==> '0' <= s[i] <= '9' || 'a' <= s[i] <= 'f'
  }

  predicate ValidSourceId(id: string) {
    |id| == 36 && id[..4] == "src_" && LowerHex(id[4..])
  }

  function BindSources(candidate: Candidate, digest: string, sourceIds: seq<string>): Result<Candidate, CandidateError> {
    if |digest| == 64 && LowerHex(digest) && 0 < |sourceIds| <= MAX_SOURCE_IDS
       && forall i :: 0 <= i < |sourceIds| ==> ValidSourceId(sourceIds[i])
    then
      Ok(candidate.(manifest := candidate.manifest.(sourceConfigDigest := Some(digest), sourceIds := sourceIds)))
    else
      Err(InvalidBinding)
  }

  /** The three ways a caller outside the module can make a candidate out of a composed configuration. */
  datatype Construction = Fresh | Registered(rest: Construction, registry: NodeRegistry)
                        | Bound(rest: Construction, digest: string, sourceIds: seq<string>)

  function Build(
    codec: Codec, generation: GenerationId, config: ManagedConfig, how: Construction): Result<Candidate, CandidateError>
  {
    match how
    case Fresh => Ok(NewCandidate(generation, config))
    case Registered(rest, registry) =>
      (match Build(codec, generation, config, rest)
       case Err(e) => Err(e)
       case Ok(candidate) => WithNodeRegistry(codec, candidate, registry))
    case Bound(rest, digest, sourceIds) =>
      (match Build(codec, generation, config, rest)
       case Err(e) => Err(e)
       case Ok(candidate) => BindSources(candidate, digest, sourceIds))
  }

  /** The directory contents a candidate is written as. */
  function FilesOf(codec: Codec, candidate: Candidate): Files {
    var base: Files :=
      map[ConfigFile := candidate.config.bytes, ManifestFile := codec.manifestBytes(candidate.manifest)];
    if candidate.registry.Some? then base[NodesFile := codec.registryBytes(candidate.registry.value)] else base
  }

  datatype VerifyError = Incomplete | ManifestInvalid | ManifestMismatch
                       | RegistryMissing | RegistryInvalid | RegistryMismatch | RegistryUnbound

  /** `ensure_sealed_exists` on the contents of a directory that is there. */
  function Verify(codec: Codec, files: Files, generation: GenerationId): Result<Manifest, VerifyError> {
    if ConfigFile !in files || ManifestFile !in files then
      Err(Incomplete)
    else
      match codec.readManifest(files[ManifestFile])
      case None => Err(ManifestInvalid)
      case Some(manifest) =>
        if manifest.schema != MANIFEST_SCHEMA || manifest.generation != generation
           || manifest.configDigest != codec.sha256(files[ConfigFile]) then
          Err(ManifestMismatch)
        else
          match manifest.registryDigest
          case None => if NodesFile in files then Err(RegistryUnbound) else Ok(manifest)
          case Some(expected) =>
            if NodesFile !in files then
              Err(RegistryMissing)
            else
              match codec.readRegistry(files[NodesFile])
              case None => Err(RegistryInvalid)
              case Some(registry) =>
                if expected != codec.sha256(files[NodesFile]) || registry.schema != NODE_REGISTRY_SCHEMA
                   || |registry.records| != manifest.nodeCount then
                  Err(RegistryMismatch)
                else
                  Ok(manifest)
  }

  /** What the digests and counts in a candidate say about its parts. */
  ghost predicate Coherent(codec: Codec, candidate: Candidate) {
    && candidate.config.digest == codec.sha256(candidate.config.bytes)
    && candidate.manifest.schema == MANIFEST_SCHEMA
    && candidate.manifest.generation == candidate.generation
    && candidate.manifest.configDigest == candidate.config.digest
    && candidate.manifest.nodeCount == candidate.config.nodeCount
    && match candidate.registry
       case None => candidate.manifest.registryDigest == None
       case Some(registry) =>
         && candidate.manifest.registryDigest == Some(codec.sha256(codec.registryBytes(registry)))
         && registry.schema == NODE_REGISTRY_SCHEMA
         && |registry.records| == candidate.manifest.nodeCount
  }

  /** A registry is only ever made with the current schema. */
  predicate RegistriesCurrent(how: Construction) {
    match how
    case Fresh => true
    case Registered(rest, registry) => registry.schema == NODE_REGISTRY_SCHEMA && RegistriesCurrent(rest)
    case Bound(rest, _, _) => RegistriesCurrent(rest)
  }

  lemma {:induction false} BuildIsCoherent(
    codec: Codec, generation: GenerationId, config: ManagedConfig, how: Construction)
    requires config.digest == codec.sha256(config.bytes) && RegistriesCurrent(how)
    requires Build(codec, generation, config, how).Ok?
    ensures var candidate := Build(codec, generation, config, how).value;
      Coherent(codec, candidate) && candidate.generation == generation && candidate.config == config
  {
    match how
    case Fresh =>
    case Registered(rest, _) => BuildIsCoherent(codec, generation, config, rest);
    case Bound(rest, _, _) => BuildIsCoherent(codec, generation, config, rest);
  }

  lemma CoherentVerifies(codec: Codec, candidate: Candidate)
    requires codec.Lawful() && Coherent(codec, candidate)
    ensures Verify(codec, FilesOf(codec, candidate), candidate.generation) == Ok(candidate.manifest)
  {
    assert codec.readManifest(codec.manifestBytes(candidate.manifest)) == Some(candidate.manifest);
    if candidate.registry.Some? {
      assert codec.readRegistry(codec.registryBytes(candidate.registry.value)) == candidate.registry;
    }
  }

  /** The writer meets the verifier: whatever was built verifies once written, and its own manifest is read back. */
  lemma BuiltCandidateVerifies(codec: Codec, generation: GenerationId, config: ManagedConfig, how: Construction)
    requires codec.Lawful()
    requires config.digest == codec.sha256(config.bytes) && RegistriesCurrent(how)
    requires Build(codec, generation, config, how).Ok?
    ensures var candidate := Build(codec, generation, config, how).value;
      Verify(codec, FilesOf(codec, candidate), generation) == Ok(candidate.manifest)
  {
    BuildIsCoherent(codec, generation, config, how);
    CoherentVerifies(codec, Build(codec, generation, config, how).value);
  }

  // ---- What verification rules out ----

  /** Other contents of a file that is bound by digest, another number, or a registry that was not bound are refused. */
  lemma VerifyBinds(codec: Codec, files: Files, generation: GenerationId, bytes: Bytes, other: GenerationId)
    requires Verify(codec, files, generation).Ok?
    ensures Verify(codec, files, generation).value.schema == "nethop-generation-v1"
    ensures other != generation ==> !Verify(codec, files, other).Ok?
    ensures codec.sha256(bytes) != codec.sha256(files[ConfigFile]) ==>
              !Verify(codec, files[ConfigFile := bytes], generation).Ok?
    ensures NodesFile !in files || codec.sha256(bytes) != codec.sha256(files[NodesFile]) ==>
              !Verify(codec, files[NodesFile := bytes], generation).Ok?
    ensures codec.readManifest(bytes) == None ==> !Verify(codec, files[ManifestFile := bytes], generation).Ok?
    ensures NodesFile in files ==>
      && codec.readRegistry(files[NodesFile]).Some?
      && var registry := codec.readRegistry(files[NodesFile]).value;
         registry.schema == "nethop-generation-nodes-v3"
         && |registry.records| == Verify(codec, files, generation).value.nodeCount
  {
  }

  /** Two directories that verify with the same manifest agree on the digests of all their files. */
  lemma VerifiedAlike(codec: Codec, a: Files, b: Files, generation: GenerationId)
    requires Verify(codec, a, generation).Ok? && Verify(codec, b, generation).Ok?
    requires ManifestFile in a && ManifestFile in b && a[ManifestFile] == b[ManifestFile]
    ensures a.Keys == b.Keys && forall f :: f in a ==> codec.sha256(a[f]) == codec.sha256(b[f])
  {
    forall f: FileName
      ensures f in a <==> f in b
      ensures f in a ==> codec.sha256(a[f]) == codec.sha256(b[f])
    {
      match f
      case ConfigFile =>
      case NodesFile =>
      case ManifestFile =>
    }
  }

  /** However a candidate was put together, its sources are unbound or validly bound. */
  lemma {:induction false} BuildBindsValidly(codec: Codec, generation: GenerationId, config: ManagedConfig, how: Construction)
    requires Build(codec, generation, config, how).Ok?
    ensures var manifest := Build(codec, generation, config, how).value.manifest;
      if manifest.sourceConfigDigest.None? then manifest.sourceIds == []
      else
        && |manifest.sourceConfigDigest.value| == 64 && LowerHex(manifest.sourceConfigDigest.value)
        && 1 <= |manifest.sourceIds| <= 16
        && forall i :: 0 <= i < |manifest.sourceIds| ==>
             |manifest.sourceIds[i]| == 36 && "src_" <= manifest.sourceIds[i] && LowerHex(manifest.sourceIds[i][4..])
  {
    match how
    case Fresh =>
    case Registered(rest, _) => BuildBindsValidly(codec, generation, config, rest);
    case Bound(rest, _, _) => BuildBindsValidly(codec, generation, config, rest);
  }
}
