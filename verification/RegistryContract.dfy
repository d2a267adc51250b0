/** The registry as it runs: storage maps updated in place, each entry point proved against its transition. */
module RegistryContracts {
  import opened Wrappers
  import opened Soroban
  import Registry
  import Theorems = RegistryTheorems

  type Error = Registry.Error
  type Hash = Registry.Hash

  class RegistryContract {
    var policyManager: Option<Address>
    var entries: map<Hash, Registry.Entry>
    var versionCount: map<Hash, int>
    var versions: map<(Hash, int), Registry.Snapshot>
    var childCount: map<Hash, int>
    var childIndex: map<(Hash, int), Hash>

    ghost function St(): Registry.State
      reads this
    {
      Registry.State(policyManager, entries, versionCount, versions, childCount, childIndex)
    }

    /** The invariant that every run keeps. */
    ghost predicate Valid()
      reads this
    {
      Theorems.Inv(St())
    }

    lemma Kept(env: Env, c: Registry.Call)
      ensures Valid() ==> Theorems.Inv(Registry.Step(St(), env, c))
    {
      if Valid() { Theorems.StepKeeps(St(), env, c); }
    }

    constructor ()
      ensures St() == Registry.Initial()
      ensures Valid()
    {
      policyManager, entries := None, map[];
      versionCount, versions := map[], map[];
      childCount, childIndex := map[], map[];
      new;
      Theorems.Reachable([]);
    }

    method RequireRole(env: Env, caller: Address) returns (r: Result<(), Error>)
      ensures r == match Registry.RoleError(St(), env, caller) { case None => Ok(()) case Some(e) => Err(e) }
    {
      if policyManager.None? { return Err(Registry.NotInitialized); }
      if policyManager.value != caller { return Err(Registry.NotAdmin); }
      if caller !in env.signers { return Err(Registry.Unsigned); }
      return Ok(());
    }

    /** Stores the snapshot under the next version number; false on overflow, with nothing changed. */
    method AppendVersion(id: Hash, snapshot: Registry.Snapshot) returns (ok: bool)
      modifies this`versions, this`versionCount
      ensures ok == Registry.AppendVersion(old(St()), id, snapshot).Some?
      ensures St() == if ok then Registry.AppendVersion(old(St()), id, snapshot).value else old(St())
    {
      var count := Get(versionCount, id);
      if count == MAX_U32 { return false; }
      versions := versions[(id, count + 1) := snapshot];
      versionCount := versionCount[id := count + 1];
      return true;
    }

    method RecordChild(parent: Hash, child: Hash) returns (ok: bool)
      modifies this`childIndex, this`childCount
      ensures ok == Registry.RecordChild(old(St()), parent, child).Some?
      ensures St() == if ok then Registry.RecordChild(old(St()), parent, child).value else old(St())
    {
      var n := Get(childCount, parent);
      if n == MAX_U32 { return false; }
      childIndex := childIndex[(parent, n) := child];
      childCount := childCount[parent := n + 1];
      return true;
    }

    /** Writes the current entry and its snapshot. */
    method Write(env: Env, caller: Address, id: Hash, e: Registry.Entry) returns (r: Result<int, Error>)
      modifies this
      ensures Registry.Outcome(St(), r) == Registry.Write(old(St()), env, caller, id, e)
    {
      var before := entries;
      entries := entries[id := e];
      var ok := AppendVersion(id, Registry.Snapshot(e.version, e.metadata, e.content, e.custodian, caller, env.now));
      if !ok {
        entries := before; // the host rolls back
        return Err(Registry.Overflow);
      }
      return Ok(e.version);
    }

    method WriteChild(env: Env, caller: Address, parent: Hash, id: Hash, e: Registry.Entry) returns (r: Result<int, Error>)
      modifies this
      ensures Registry.Outcome(St(), r) == Registry.WriteChild(old(St()), env, caller, parent, id, e)
    {
      var entries0, counts0, versions0 := entries, versionCount, versions;
      r := Write(env, caller, id, e);
      if r.Err? { return; }
      var ok := RecordChild(parent, id);
      if !ok {
        entries, versionCount, versions := entries0, counts0, versions0; // the host rolls back
        return Err(Registry.Overflow);
      }
    }

    method ValidateMetadata(m: Registry.Metadata) returns (r: Result<(), Error>)
      ensures r == match Registry.MetadataError(m) { case None => Ok(()) case Some(e) => Err(e) }
    {
      if m.manifest == 0 { return Err(Registry.InvalidHash); }
      if |m.uri| == 0 || |m.uri| > Registry.METADATA_URI_MAX_LEN { return Err(Registry.InvalidMetadataUri); }
      if !Registry.AllowedUri(m.uri) { return Err(Registry.InvalidMetadataUri); }
      return Ok(());
    }

    method RegisterWork(env: Env, caller: Address, id: Hash, metadata: Registry.Metadata, custodian: Address)
      returns (r: Result<int, Error>)
      modifies this
      ensures Registry.Outcome(St(), r) == Registry.RegisterWork(old(St()), env, caller, id, metadata, custodian)
      ensures old(Valid()) ==> Valid()
    {
      Kept(env, Registry.CallRegisterWork(caller, id, metadata, custodian));
      var check := RequireRole(env, caller);
      if check.Err? { return Err(check.error); }
      if id == 0 { return Err(Registry.InvalidIdentifier); }
      check := ValidateMetadata(metadata);
      if check.Err? { return Err(check.error); }
      if id in entries { return Err(Registry.AlreadyRegistered); }
      r := Write(env, caller, id, Registry.Entry(Registry.Work, None, 1, metadata, Registry.NoContent, custodian));
    }

    method RegisterEdition(env: Env, caller: Address, parent: Hash, id: Hash, metadata: Registry.Metadata, custodian: Address)
      returns (r: Result<int, Error>)
      modifies this
      ensures Registry.Outcome(St(), r) == Registry.RegisterEdition(old(St()), env, caller, parent, id, metadata, custodian)
      ensures old(Valid()) ==> Valid()
    {
      Kept(env, Registry.CallRegisterEdition(caller, parent, id, metadata, custodian));
      var check := RequireRole(env, caller);
      if check.Err? { return Err(check.error); }
      if id == 0 { return Err(Registry.InvalidIdentifier); }
      check := ValidateMetadata(metadata);
      if check.Err? { return Err(check.error); }
      if id in entries { return Err(Registry.AlreadyRegistered); }
      if parent !in entries { return Err(Registry.EntryNotFound); }
      if entries[parent].kind != Registry.Work { return Err(Registry.InvalidParent); }
      r := WriteChild(env, caller, parent, id,
                      Registry.Entry(Registry.Edition, Some(parent), 1, metadata, Registry.NoContent, custodian));
    }

    method RegisterRendition(env: Env, caller: Address, parent: Hash, id: Hash, algorithm: nat, digest: Hash,
                             metadata: Registry.Metadata, custodian: Address)
      returns (r: Result<int, Error>)
      modifies this
      ensures Registry.Outcome(St(), r)
           == Registry.RegisterRendition(old(St()), env, caller, parent, id, algorithm, digest, metadata, custodian)
      ensures old(Valid()) ==> Valid()
    {
      Kept(env, Registry.CallRegisterRendition(caller, parent, id, algorithm, digest, metadata, custodian));
      var check := RequireRole(env, caller);
      if check.Err? { return Err(check.error); }
      if id == 0 { return Err(Registry.InvalidIdentifier); }
      check := ValidateMetadata(metadata);
      if check.Err? { return Err(check.error); }
      if digest == 0 { return Err(Registry.InvalidHash); }
      if id in entries { return Err(Registry.AlreadyRegistered); }
      if parent !in entries { return Err(Registry.EntryNotFound); }
      if entries[parent].kind != Registry.Edition { return Err(Registry.InvalidParent); }
      r := WriteChild(env, caller, parent, id,
                      Registry.Entry(Registry.Rendition, Some(parent), 1, metadata,
                                     Registry.Committed(algorithm, digest), custodian));
    }

    method UpdateMetadata(env: Env, caller: Address, id: Hash, metadata: Registry.Metadata) returns (r: Result<int, Error>)
      modifies this
      ensures Registry.Outcome(St(), r) == Registry.UpdateMetadata(old(St()), env, caller, id, metadata)
      ensures old(Valid()) ==> Valid()
    {
      Kept(env, Registry.CallUpdateMetadata(caller, id, metadata));
      var check := RequireRole(env, caller);
      if check.Err? { return Err(check.error); }
      check := ValidateMetadata(metadata);
      if check.Err? { return Err(check.error); }
      if id !in entries { return Err(Registry.EntryNotFound); }
      var e := entries[id];
      if e.version == MAX_U32 { return Err(Registry.Overflow); }
      r := Write(env, caller, id, e.(version := e.version + 1, metadata := metadata));
    }

    method UpdateContentHash(env: Env, caller: Address, id: Hash, algorithm: nat, digest: Hash) returns (r: Result<int, Error>)
      modifies this
      ensures Registry.Outcome(St(), r) == Registry.UpdateContentHash(old(St()), env, caller, id, algorithm, digest)
      ensures old(Valid()) ==> Valid()
    {
      Kept(env, Registry.CallUpdateContentHash(caller, id, algorithm, digest));
      var check := RequireRole(env, caller);
      if check.Err? { return Err(check.error); }
      if digest == 0 { return Err(Registry.InvalidHash); }
      if id !in entries { return Err(Registry.EntryNotFound); }
      var e := entries[id];
      if e.kind != Registry.Rendition { return Err(Registry.InvalidKind); }
      if e.version == MAX_U32 { return Err(Registry.Overflow); }
      r := Write(env, caller, id, e.(version := e.version + 1, content := Registry.Committed(algorithm, digest)));
    }

    method Children(parent: Hash, cursor: int, limit: int) returns (r: Result<Registry.Page, Error>)
      requires cursor >= 0
      ensures r == Registry.Children(St(), parent, cursor, limit)
    {
      if limit <= 0 || limit > Registry.CHILDREN_MAX_PAGE { return Err(Registry.InvalidLimit); }
      var total := Get(childCount, parent);
      if cursor > total { return Err(Registry.InvalidLimit); }
      var ids: seq<Hash> := [];
      var idx := cursor;
      while idx < total && |ids| < limit && (parent, idx) in childIndex
        invariant cursor <= idx <= total && |ids| == idx - cursor && |ids| <= limit
        invariant ids + Registry.Collect(St(), parent, idx, limit - |ids|) == Registry.Collect(St(), parent, cursor, limit)
        decreases total - idx
      {
        var child := childIndex[(parent, idx)];
        Joined(ids, child, Registry.Collect(St(), parent, idx + 1, limit - |ids| - 1));
        ids := ids + [child];
        idx := idx + 1;
      }
      assert ids + [] == ids;
      return Ok(Registry.Page(ids, idx, idx >= total));
    }

    static lemma Joined(ids: seq<Hash>, child: Hash, rest: seq<Hash>)
      ensures ids + ([child] + rest) == ids + [child] + rest
    {
    }
  }
}
