/** The catalog registry: works, editions and renditions with a child index and an append-only version history. */
module Registry {
  import opened Wrappers
  import opened Soroban

  /** 32-byte identifiers and digests; 0 is the all-zero value. */
  type Hash = nat

  datatype Kind = Work | Edition | Rendition

  datatype Metadata = Metadata(uri: string, manifest: Hash)

  datatype Content = NoContent | Committed(algorithm: nat, digest: Hash)

  datatype Entry = Entry(kind: Kind, parent: Option<Hash>, version: int, metadata: Metadata, content: Content, custodian: Address)

  datatype Snapshot = Snapshot(version: int, metadata: Metadata, content: Content, custodian: Address,
                               registeredBy: Address, registeredAt: u64)

  datatype Page = Page(ids: seq<Hash>, nextCursor: int, done: bool)

  datatype Error = NotInitialized | NotAdmin | Unsigned | InvalidIdentifier | InvalidHash | InvalidMetadataUri
                 | AlreadyRegistered | EntryNotFound | InvalidParent | InvalidKind | Overflow | VersionNotFound | InvalidLimit

  datatype State = State(
    policyManager: Option<Address>,
    entries: map<Hash, Entry>,
    versionCount: map<Hash, int>,
    versions: map<(Hash, int), Snapshot>,
    childCount: map<Hash, int>,
    childIndex: map<(Hash, int), Hash>)

  const CHILDREN_MAX_PAGE: int := 50
  const METADATA_URI_MAX_LEN: int := 200

  datatype Outcome = Outcome(state: State, result: Result<int, Error>)

  function Initial(): State {
    State(None, map[], map[], map[], map[], map[])
  }

  function Fail(s: State, e: Error): Outcome {
    Outcome(s, Err(e))
  }

  // ---------------------------------------------------------------- checks

  function RoleError(s: State, env: Env, caller: Address): Option<Error> {
    if s.policyManager.None? then Some(NotInitialized)
    else if s.policyManager.value != caller then Some(NotAdmin)
    else if caller !in env.signers then Some(Unsigned)
    else None
  }

  predicate AllowedUri(uri: string) {
    "ipfs://" <= uri || "ipns://" <= uri || "https://" <= uri || "ar://" <= uri
  }

  function MetadataError(m: Metadata): Option<Error> {
    if m.manifest == 0 then Some(InvalidHash)
    else if |m.uri| == 0 || |m.uri| > METADATA_URI_MAX_LEN then Some(InvalidMetadataUri)
    else if !AllowedUri(m.uri) then Some(InvalidMetadataUri)
    else None
  }

  function ContentError(c: Content): Option<Error> {
    if c.Committed? && c.digest == 0 then Some(InvalidHash) else None
  }

  function First(a: Option<Error>, b: Option<Error>): Option<Error> {
    if a.Some? then a else b
  }

  // ---------------------------------------------------------------- storage

  /** None is the overflow of the counter. */
  function AppendVersion(s: State, id: Hash, snapshot: Snapshot): Option<State> {
    var count := Get(s.versionCount, id);
    if count == MAX_U32 then None
    else Some(s.(versions := s.versions[(id, count + 1) := snapshot], versionCount := s.versionCount[id := count + 1]))
  }

  function RecordChild(s: State, parent: Hash, child: Hash): Option<State> {
    var n := Get(s.childCount, parent);
    if n == MAX_U32 then None
    else Some(s.(childIndex := s.childIndex[(parent, n) := child], childCount := s.childCount[parent := n + 1]))
  }

  function SnapshotOf(env: Env, e: Entry, caller: Address): Snapshot {
    Snapshot(e.version, e.metadata, e.content, e.custodian, caller, env.now)
  }

  /** Writes the entry as the current one and appends its version. */
  function Write(s: State, env: Env, caller: Address, id: Hash, e: Entry): Outcome {
    match AppendVersion(s.(entries := s.entries[id := e]), id, SnapshotOf(env, e, caller))
    case None => Fail(s, Overflow)
    case Some(s1) => Outcome(s1, Ok(e.version))
  }

  /** Writes a new entry and lists it under its parent. */
  function WriteChild(s: State, env: Env, caller: Address, parent: Hash, id: Hash, e: Entry): Outcome {
    var o := Write(s, env, caller, id, e);
    if o.result.Err? then o
    else match RecordChild(o.state, parent, id)
      case None => Fail(s, Overflow)
      case Some(s1) => Outcome(s1, o.result)
  }

  // ---------------------------------------------------------------- entry points

  function RegisterWork(s: State, env: Env, caller: Address, id: Hash, metadata: Metadata, custodian: Address): Outcome {
    match First(RoleError(s, env, caller), First(if id == 0 then Some(InvalidIdentifier) else None, MetadataError(metadata)))
    case Some(e) => Fail(s, e)
    case None =>
      if id in s.entries then Fail(s, AlreadyRegistered)
      else Write(s, env, caller, id, Entry(Work, None, 1, metadata, NoContent, custodian))
  }

  function RegisterEdition(s: State, env: Env, caller: Address, parent: Hash, id: Hash, metadata: Metadata, custodian: Address): Outcome {
    match First(RoleError(s, env, caller), First(if id == 0 then Some(InvalidIdentifier) else None, MetadataError(metadata)))
    case Some(e) => Fail(s, e)
    case None =>
      if id in s.entries then Fail(s, AlreadyRegistered)
      else if parent !in s.entries then Fail(s, EntryNotFound)
      else if s.entries[parent].kind != Work then Fail(s, InvalidParent)
      else WriteChild(s, env, caller, parent, id, Entry(Edition, Some(parent), 1, metadata, NoContent, custodian))
  }

  function RegisterRendition(s: State, env: Env, caller: Address, parent: Hash, id: Hash, algorithm: nat, digest: Hash,
                             metadata: Metadata, custodian: Address): Outcome
  {
    match First(RoleError(s, env, caller), First(if id == 0 then Some(InvalidIdentifier) else None,
                First(MetadataError(metadata), ContentError(Committed(algorithm, digest)))))
    case Some(e) => Fail(s, e)
    case None =>
      if id in s.entries then Fail(s, AlreadyRegistered)
      else if parent !in s.entries then Fail(s, EntryNotFound)
      else if s.entries[parent].kind != Edition then Fail(s, InvalidParent)
      else WriteChild(s, env, caller, parent, id,
                      Entry(Rendition, Some(parent), 1, metadata, Committed(algorithm, digest), custodian))
  }

  function UpdateMetadata(s: State, env: Env, caller: Address, id: Hash, metadata: Metadata): Outcome {
    match First(RoleError(s, env, caller), MetadataError(metadata))
    case Some(e) => Fail(s, e)
    case None =>
      if id !in s.entries then Fail(s, EntryNotFound)
      else
        var e := s.entries[id];
        if e.version == MAX_U32 then Fail(s, Overflow)
        else Write(s, env, caller, id, e.(version := e.version + 1, metadata := metadata))
  }

  function UpdateContentHash(s: State, env: Env, caller: Address, id: Hash, algorithm: nat, digest: Hash): Outcome {
    match First(RoleError(s, env, caller), ContentError(Committed(algorithm, digest)))
    case Some(e) => Fail(s, e)
    case None =>
      if id !in s.entries then Fail(s, EntryNotFound)
      else
        var e := s.entries[id];
        if e.kind != Rendition then Fail(s, InvalidKind)
        else if e.version == MAX_U32 then Fail(s, Overflow)
        else Write(s, env, caller, id, e.(version := e.version + 1, content := Committed(algorithm, digest)))
  }

  function GetVersion(s: State, id: Hash, version: int): Result<Snapshot, Error> {
    if version == 0 || version > Get(s.versionCount, id) then Err(VersionNotFound)
    else if (id, version) !in s.versions then Err(VersionNotFound)
    else Ok(s.versions[(id, version)])
  }

  /** At most limit children from position i on, stopping early at a gap. */
  function Collect(s: State, parent: Hash, i: int, limit: int): seq<Hash>
    decreases Get(s.childCount, parent) - i
  {
    if i >= Get(s.childCount, parent) || limit <= 0 || (parent, i) !in s.childIndex then []
    else [s.childIndex[(parent, i)]] + Collect(s, parent, i + 1, limit - 1)
  }

  function Children(s: State, parent: Hash, cursor: int, limit: int): Result<Page, Error> {
    var total := Get(s.childCount, parent);
    if limit <= 0 || limit > CHILDREN_MAX_PAGE || cursor < 0 || cursor > total then Err(InvalidLimit)
    else
      var ids := Collect(s, parent, cursor, limit);
      Ok(Page(ids, cursor + |ids|, cursor + |ids| >= total))
  }

  // ---------------------------------------------------------------- runs

  datatype Call = CallAssignManager(manager: Address)
                | CallRegisterWork(caller: Address, id: Hash, metadata: Metadata, custodian: Address)
                | CallRegisterEdition(caller: Address, parent: Hash, id: Hash, metadata: Metadata, custodian: Address)
                | CallRegisterRendition(caller: Address, parent: Hash, id: Hash, algorithm: nat, digest: Hash,
                                        metadata: Metadata, custodian: Address)
                | CallUpdateMetadata(caller: Address, id: Hash, metadata: Metadata)
                | CallUpdateContentHash(caller: Address, id: Hash, algorithm: nat, digest: Hash)

  function Step(s: State, env: Env, c: Call): State {
    match c
    case CallAssignManager(m) => s.(policyManager := Some(m))
    case CallRegisterWork(a, id, m, o) => RegisterWork(s, env, a, id, m, o).state
    case CallRegisterEdition(a, p, id, m, o) => RegisterEdition(s, env, a, p, id, m, o).state
    case CallRegisterRendition(a, p, id, g, d, m, o) => RegisterRendition(s, env, a, p, id, g, d, m, o).state
    case CallUpdateMetadata(a, id, m) => UpdateMetadata(s, env, a, id, m).state
    case CallUpdateContentHash(a, id, g, d) => UpdateContentHash(s, env, a, id, g, d).state
  }

  function Run(s: State, steps: seq<(Env, Call)>): State {
    if steps == [] then s else Step(Run(s, steps[..|steps| - 1]), steps[|steps| - 1].0, steps[|steps| - 1].1)
  }
}
