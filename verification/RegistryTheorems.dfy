/** What every run of the registry keeps: a forest with an exact child index, and a history that never changes. */
module RegistryTheorems {
  import opened Wrappers
  import opened Soroban
  import opened Registry

  // ---------------------------------------------------------------- the invariant

  /** Works are roots, editions hang off works, renditions off editions, and exactly renditions have content. */
  ghost predicate Rooted(m: map<Hash, Entry>, e: Entry) {
    && (e.kind == Work <==> e.parent.None?)
    && (e.kind == Edition ==> e.parent.value in m && m[e.parent.value].kind == Work)
    && (e.kind == Rendition ==> e.parent.value in m && m[e.parent.value].kind == Edition)
    && (e.content.Committed? <==> e.kind == Rendition)
  }

  /** The history of an entry: its versions are 1 to its current version, and the last one mirrors it. */
  ghost predicate Recorded(s: State, id: Hash) {
    var n := Get(s.versionCount, id);
    && n >= 0
    && (forall v :: (id, v) in s.versions <==> 1 <= v <= n)
    && (forall v :: 1 <= v <= n ==> s.versions[(id, v)].version == v)
    && (id in s.entries <==> n > 0)
    && (id in s.entries ==>
          var e, last := s.entries[id], s.versions[(id, n)];
          e.version == n && last.metadata == e.metadata && last.content == e.content && last.custodian == e.custodian)
  }

  /** The child index of a parent: positions 0 to its count, without duplicates, holding exactly its children. */
  ghost predicate Listed(s: State, p: Hash) {
    var n := Get(s.childCount, p);
    && n >= 0
    && (forall i :: (p, i) in s.childIndex <==> 0 <= i < n)
    && (forall i :: 0 <= i < n ==> IsChild(s, p, s.childIndex[(p, i)]))
    && (forall i, j :: 0 <= i < j < n ==> s.childIndex[(p, i)] != s.childIndex[(p, j)])
    && (forall c :: IsChild(s, p, c) ==> exists i :: 0 <= i < n && s.childIndex[(p, i)] == c)
  }

  ghost predicate IsChild(s: State, p: Hash, c: Hash) {
    c in s.entries && s.entries[c].parent == Some(p)
  }

  ghost predicate Inv(s: State) {
    && 0 !in s.entries
    && (forall id :: id in s.entries ==> Rooted(s.entries, s.entries[id]))
    && (forall id :: Recorded(s, id))
    && (forall p :: Listed(s, p))
  }

  /** What a step never changes: a recorded snapshot, an entry's kind, parent and custodian; versions only grow. */
  ghost predicate Extends(s: State, s': State) {
    && (forall k :: k in s.versions ==> k in s'.versions && s'.versions[k] == s.versions[k])
    && (forall id :: id in s.entries ==>
          && id in s'.entries
          && s'.entries[id] == s.entries[id].(version := s'.entries[id].version, metadata := s'.entries[id].metadata,
                                              content := s'.entries[id].content)
          && s.entries[id].version <= s'.entries[id].version)
    && (forall k :: k in s.childIndex ==> k in s'.childIndex && s'.childIndex[k] == s.childIndex[k])
  }

  // ---------------------------------------------------------------- steps

  /** Writing keeps the history of the written entry and of every other one. */
  lemma WriteRecords(s: State, env: Env, caller: Address, id: Hash, e: Entry)
    requires forall i :: Recorded(s, i)
    requires e.version == (if id in s.entries then s.entries[id].version + 1 else 1)
    requires Write(s, env, caller, id, e).result.Ok?
    ensures forall i :: Recorded(Write(s, env, caller, id, e).state, i)
    ensures var s' := Write(s, env, caller, id, e).state;
            && (forall k :: k in s.versions ==> k in s'.versions && s'.versions[k] == s.versions[k])
            && s'.entries == s.entries[id := e]
  {
    var s' := Write(s, env, caller, id, e).state;
    assert Recorded(s, id);
    forall i ensures Recorded(s', i) {
      assert Recorded(s, i);
    }
  }

  /** Rewriting an entry in place keeps the forest and its index. */
  lemma RewriteKeeps(s: State, env: Env, caller: Address, id: Hash, e: Entry)
    requires Inv(s) && id in s.entries
    requires e.version == s.entries[id].version + 1 && e.kind == s.entries[id].kind && e.parent == s.entries[id].parent
    requires e.custodian == s.entries[id].custodian && (e.content.Committed? <==> e.kind == Rendition)
    requires Write(s, env, caller, id, e).result.Ok?
    ensures Inv(Write(s, env, caller, id, e).state) && Extends(s, Write(s, env, caller, id, e).state)
  {
    var s' := Write(s, env, caller, id, e).state;
    WriteRecords(s, env, caller, id, e);
    forall p ensures Listed(s', p) {
      assert Listed(s, p);
      assert forall c :: IsChild(s', p, c) <==> IsChild(s, p, c);
    }
  }

  lemma WorkKeeps(s: State, env: Env, caller: Address, id: Hash, e: Entry)
    requires Inv(s) && id !in s.entries && id != 0
    requires e.version == 1 && e.kind == Work && e.parent.None? && e.content.NoContent?
    requires Write(s, env, caller, id, e).result.Ok?
    ensures Inv(Write(s, env, caller, id, e).state) && Extends(s, Write(s, env, caller, id, e).state)
  {
    var s' := Write(s, env, caller, id, e).state;
    WriteRecords(s, env, caller, id, e);
    forall p ensures Listed(s', p) {
      assert Listed(s, p);
      assert forall c :: IsChild(s', p, c) <==> IsChild(s, p, c);
    }
  }

  lemma ChildKeeps(s: State, env: Env, caller: Address, parent: Hash, id: Hash, e: Entry)
    requires Inv(s) && id !in s.entries && id != 0 && parent in s.entries
    requires e.version == 1 && e.parent == Some(parent)
    requires (e.kind == Edition && s.entries[parent].kind == Work) || (e.kind == Rendition && s.entries[parent].kind == Edition)
    requires e.content.Committed? <==> e.kind == Rendition
    requires WriteChild(s, env, caller, parent, id, e).result.Ok?
    ensures Inv(WriteChild(s, env, caller, parent, id, e).state) && Extends(s, WriteChild(s, env, caller, parent, id, e).state)
  {
    var s1 := Write(s, env, caller, id, e).state;
    var s' := WriteChild(s, env, caller, parent, id, e).state;
    WriteRecords(s, env, caller, id, e);
    assert Listed(s, parent);
    forall i ensures Recorded(s', i) {
      assert Recorded(s1, i);
    }
    forall p ensures Listed(s', p) {
      ChildListed(s, s', parent, id, p);
    }
  }

  lemma ChildListed(s: State, s': State, parent: Hash, id: Hash, p: Hash)
    requires Listed(s, p) && Listed(s, parent) && id !in s.entries
    requires id in s'.entries && s'.entries[id].parent == Some(parent) && s'.entries == s.entries[id := s'.entries[id]]
    requires var n := Get(s.childCount, parent);
             s'.childIndex == s.childIndex[(parent, n) := id] && s'.childCount == s.childCount[parent := n + 1]
    ensures Listed(s', p)
  {
    assert forall c :: IsChild(s', p, c) <==> IsChild(s, p, c) || (c == id && p == parent);
    if p == parent {
      OwnChildListed(s, s', p, id);
    }
  }

  lemma OwnChildListed(s: State, s': State, p: Hash, id: Hash)
    requires Listed(s, p) && !IsChild(s, p, id)
    requires forall c :: IsChild(s', p, c) <==> IsChild(s, p, c) || c == id
    requires var n := Get(s.childCount, p);
             s'.childIndex == s.childIndex[(p, n) := id] && s'.childCount == s.childCount[p := n + 1]
    ensures Listed(s', p)
  {
    var n := Get(s.childCount, p);
    assert s'.childIndex[(p, n)] == id;
    forall c | IsChild(s, p, c) ensures exists i :: 0 <= i < n + 1 && s'.childIndex[(p, i)] == c {
      var i :| 0 <= i < n && s.childIndex[(p, i)] == c;
      assert s'.childIndex[(p, i)] == c;
    }
  }

  lemma StepKeeps(s: State, env: Env, c: Call)
    requires Inv(s)
    ensures Inv(Step(s, env, c)) && Extends(s, Step(s, env, c))
  {
    if Step(s, env, c) != s {
      match c
      case CallAssignManager(m) => ManagerKeeps(s, m);
      case CallRegisterWork(a, id, m, o) =>
        WorkKeeps(s, env, a, id, Entry(Work, None, 1, m, NoContent, o));
      case CallRegisterEdition(a, p, id, m, o) =>
        ChildKeeps(s, env, a, p, id, Entry(Edition, Some(p), 1, m, NoContent, o));
      case CallRegisterRendition(a, p, id, g, d, m, o) =>
        ChildKeeps(s, env, a, p, id, Entry(Rendition, Some(p), 1, m, Committed(g, d), o));
      case CallUpdateMetadata(a, id, m) =>
        MetadataKeeps(s, env, a, id, m);
      case CallUpdateContentHash(a, id, g, d) =>
        ContentKeeps(s, env, a, id, g, d);
    }
  }

  lemma MetadataKeeps(s: State, env: Env, caller: Address, id: Hash, m: Metadata)
    requires Inv(s) && UpdateMetadata(s, env, caller, id, m).result.Ok?
    ensures Inv(UpdateMetadata(s, env, caller, id, m).state) && Extends(s, UpdateMetadata(s, env, caller, id, m).state)
  {
    RewriteKeeps(s, env, caller, id, s.entries[id].(version := s.entries[id].version + 1, metadata := m));
  }

  lemma ContentKeeps(s: State, env: Env, caller: Address, id: Hash, algorithm: nat, digest: Hash)
    requires Inv(s) && UpdateContentHash(s, env, caller, id, algorithm, digest).result.Ok?
    ensures Inv(UpdateContentHash(s, env, caller, id, algorithm, digest).state)
    ensures Extends(s, UpdateContentHash(s, env, caller, id, algorithm, digest).state)
  {
    assert Rooted(s.entries, s.entries[id]);
    RewriteKeeps(s, env, caller, id, s.entries[id].(version := s.entries[id].version + 1, content := Committed(algorithm, digest)));
  }

  lemma ManagerKeeps(s: State, m: Address)
    requires Inv(s)
    ensures Inv(s.(policyManager := Some(m)))
  {
    var s' := s.(policyManager := Some(m));
    forall id ensures Recorded(s', id) { assert Recorded(s, id); }
    forall p ensures Listed(s', p) {
      assert Listed(s, p);
      assert forall c :: IsChild(s', p, c) <==> IsChild(s, p, c);
    }
  }

  lemma {:induction false} RunKeeps(s: State, steps: seq<(Env, Call)>)
    requires Inv(s)
    ensures Inv(Run(s, steps)) && Extends(s, Run(s, steps))
  {
    var n := |steps| - 1;
    if n >= 0 {
      RunKeeps(s, steps[..n]);
      StepKeeps(Run(s, steps[..n]), steps[n].0, steps[n].1);
    }
  }

  /** Every run from an empty registry keeps the invariant. */
  lemma Reachable(steps: seq<(Env, Call)>)
    ensures Inv(Run(Initial(), steps))
  {
    var s := Initial();
    assert forall id :: Recorded(s, id);
    assert forall p :: Listed(s, p);
    RunKeeps(s, steps);
  }

  // ---------------------------------------------------------------- the forest

  /** The entry k links above id. */
  function Above(s: State, id: Hash, k: nat): Option<Hash>
    decreases k
  {
    if id !in s.entries then None
    else if k == 0 then Some(id)
    else if s.entries[id].parent.None? then None
    else Above(s, s.entries[id].parent.value, k - 1)
  }

  function Depth(k: Kind): nat {
    match k
    case Work => 0
    case Edition => 1
    case Rendition => 2
  }

  /** Following parents from an entry reaches a work after exactly as many links as its kind is deep, then ends: no entry
      is its own ancestor. */
  lemma {:induction false} Forest(s: State, id: Hash, k: nat)
    requires Inv(s) && id in s.entries
    ensures var d := Depth(s.entries[id].kind);
            && (k <= d <==> Above(s, id, k).Some?)
            && (k <= d ==> Above(s, id, k).value in s.entries
                           && Depth(s.entries[Above(s, id, k).value].kind) == d - k)
            && (k > 0 ==> Above(s, id, k) != Some(id))
    decreases k
  {
    var e := s.entries[id];
    assert Rooted(s.entries, e);
    if k > 0 && e.parent.Some? {
      Forest(s, e.parent.value, k - 1);
    }
  }

  /** A recorded version is found at every later time, exactly as it was recorded; no other version is. */
  lemma HistoryStands(s: State, steps: seq<(Env, Call)>, id: Hash, v: int)
    requires Inv(s)
    ensures GetVersion(s, id, v).Ok? <==> id in s.entries && 1 <= v <= s.entries[id].version
    ensures GetVersion(s, id, v).Ok? ==> GetVersion(Run(s, steps), id, v) == GetVersion(s, id, v)
  {
    assert Recorded(s, id);
    RunKeeps(s, steps);
    assert Recorded(Run(s, steps), id);
    assert GetVersion(s, id, v).Ok? ==> (id, v) in s.versions;
  }

  /** An update is durable: every later reader finds it under the version it returned, with everything else unchanged. */
  lemma MetadataRecorded(s: State, env: Env, caller: Address, id: Hash, m: Metadata, steps: seq<(Env, Call)>)
    requires Inv(s) && UpdateMetadata(s, env, caller, id, m).result.Ok?
    ensures var o := UpdateMetadata(s, env, caller, id, m);
            && id in s.entries && o.result.value == s.entries[id].version + 1
            && GetVersion(Run(o.state, steps), id, o.result.value)
               == Ok(Snapshot(o.result.value, m, s.entries[id].content, s.entries[id].custodian, caller, env.now))
  {
    var o := UpdateMetadata(s, env, caller, id, m);
    assert Recorded(s, id);
    StepKeeps(s, env, CallUpdateMetadata(caller, id, m));
    HistoryStands(o.state, steps, id, o.result.value);
  }

  lemma ContentRecorded(s: State, env: Env, caller: Address, id: Hash, algorithm: nat, digest: Hash, steps: seq<(Env, Call)>)
    requires Inv(s) && UpdateContentHash(s, env, caller, id, algorithm, digest).result.Ok?
    ensures var o := UpdateContentHash(s, env, caller, id, algorithm, digest);
            && id in s.entries && s.entries[id].kind == Rendition && o.result.value == s.entries[id].version + 1
            && GetVersion(Run(o.state, steps), id, o.result.value)
               == Ok(Snapshot(o.result.value, s.entries[id].metadata, Committed(algorithm, digest), s.entries[id].custodian,
                              caller, env.now))
  {
    var o := UpdateContentHash(s, env, caller, id, algorithm, digest);
    assert Recorded(s, id);
    StepKeeps(s, env, CallUpdateContentHash(caller, id, algorithm, digest));
    HistoryStands(o.state, steps, id, o.result.value);
  }

  // ---------------------------------------------------------------- what each call does

  /** The signed policy manager. */
  predicate Manages(s: State, env: Env, caller: Address) {
    s.policyManager == Some(caller) && caller in env.signers
  }

  /** A manifest that is not all zero, and a URI of at most 200 characters under one of the four schemes. */
  predicate Acceptable(m: Metadata) {
    && m.manifest != 0 && 0 < |m.uri| <= 200
    && ("ipfs://" <= m.uri || "ipns://" <= m.uri || "https://" <= m.uri || "ar://" <= m.uri)
  }

  /** From s to s' an identifier that was free is taken by an entry in its first version, which the history holds too, and
      which is filed last under its parent if it has one; nothing else changes. */
  ghost predicate Registered(s: State, s': State, env: Env, caller: Address, id: Hash, e: Entry) {
    && id !in s.entries && e.version == 1
    && s' == s.(entries := s.entries[id := e],
                versions := s.versions[(id, 1) := Snapshot(1, e.metadata, e.content, e.custodian, caller, env.now)],
                versionCount := s.versionCount[id := 1],
                childIndex := match e.parent
                              case None => s.childIndex
                              case Some(p) => s.childIndex[(p, Get(s.childCount, p)) := id],
                childCount := match e.parent
                              case None => s.childCount
                              case Some(p) => s.childCount[p := Get(s.childCount, p) + 1])
  }

  /** Why a registration is refused. */
  ghost predicate RegistrationRefused(s: State, env: Env, caller: Address, id: Hash, m: Metadata, error: Error) {
    match error
    case NotInitialized => s.policyManager.None?
    case NotAdmin => s.policyManager.Some? && s.policyManager.value != caller
    case Unsigned => caller !in env.signers
    case InvalidIdentifier => id == 0
    case InvalidHash => m.manifest == 0
    case InvalidMetadataUri => !Acceptable(m)
    case AlreadyRegistered => id in s.entries
    case _ => false
  }

  /** Why a registration under a parent is refused. */
  ghost predicate ChildRefused(s: State, env: Env, caller: Address, parent: Hash, kind: Kind, id: Hash, m: Metadata, error: Error) {
    match error
    case EntryNotFound => parent !in s.entries
    case InvalidParent => parent in s.entries && s.entries[parent].kind != kind
    case Overflow => Get(s.childCount, parent) == MAX_U32
    case _ => RegistrationRefused(s, env, caller, id, m, error)
  }

  /** The policy manager registers a work exactly under a free identifier and with acceptable metadata. */
  lemma WorkExactly(s: State, env: Env, caller: Address, id: Hash, m: Metadata, custodian: Address)
    requires Inv(s)
    ensures RegisterWork(s, env, caller, id, m, custodian).result.Ok?
       <==> Manages(s, env, caller) && id != 0 && Acceptable(m) && id !in s.entries
    ensures var o := RegisterWork(s, env, caller, id, m, custodian);
            && (o.result.Ok? ==> o.result.value == 1
                                 && Registered(s, o.state, env, caller, id, Entry(Work, None, 1, m, NoContent, custodian)))
            && (o.result.Err? ==> o.state == s && RegistrationRefused(s, env, caller, id, m, o.result.error))
  {
    assert Recorded(s, id);
  }

  /** An edition exactly under a work. */
  lemma EditionExactly(s: State, env: Env, caller: Address, parent: Hash, id: Hash, m: Metadata, custodian: Address)
    requires Inv(s)
    ensures RegisterEdition(s, env, caller, parent, id, m, custodian).result.Ok?
       <==> Manages(s, env, caller) && id != 0 && Acceptable(m) && id !in s.entries
            && parent in s.entries && s.entries[parent].kind == Work && Get(s.childCount, parent) != MAX_U32
    ensures var o := RegisterEdition(s, env, caller, parent, id, m, custodian);
            && (o.result.Ok? ==> o.result.value == 1
                                 && Registered(s, o.state, env, caller, id, Entry(Edition, Some(parent), 1, m, NoContent, custodian)))
            && (o.result.Err? ==> o.state == s && ChildRefused(s, env, caller, parent, Work, id, m, o.result.error))
  {
    assert Recorded(s, id);
  }

  /** A rendition exactly under an edition and with a digest that is not all zero, which is stored as it was given. */
  lemma RenditionExactly(s: State, env: Env, caller: Address, parent: Hash, id: Hash, algorithm: nat, digest: Hash,
                         m: Metadata, custodian: Address)
    requires Inv(s)
    ensures RegisterRendition(s, env, caller, parent, id, algorithm, digest, m, custodian).result.Ok?
       <==> Manages(s, env, caller) && id != 0 && Acceptable(m) && digest != 0 && id !in s.entries
            && parent in s.entries && s.entries[parent].kind == Edition && Get(s.childCount, parent) != MAX_U32
    ensures var o := RegisterRendition(s, env, caller, parent, id, algorithm, digest, m, custodian);
            && (o.result.Ok? ==>
                  && o.result.value == 1
                  && Registered(s, o.state, env, caller, id, Entry(Rendition, Some(parent), 1, m, Committed(algorithm, digest), custodian)))
            && (o.result.Err? ==>
                  && o.state == s
                  && (ChildRefused(s, env, caller, parent, Edition, id, m, o.result.error)
                      || (o.result.error == InvalidHash && digest == 0)))
  {
    assert Recorded(s, id);
  }

  /** From s to s' an entry is replaced by its next version, which the history holds too; nothing else changes. */
  ghost predicate Revised(s: State, s': State, env: Env, caller: Address, id: Hash, e: Entry) {
    && id in s.entries && e.version == s.entries[id].version + 1
    && s' == s.(entries := s.entries[id := e],
                versions := s.versions[(id, e.version) := Snapshot(e.version, e.metadata, e.content, e.custodian, caller, env.now)],
                versionCount := s.versionCount[id := e.version])
  }

  /** Why an update is refused. */
  ghost predicate UpdateRefused(s: State, env: Env, caller: Address, id: Hash, error: Error) {
    match error
    case NotInitialized => s.policyManager.None?
    case NotAdmin => s.policyManager.Some? && s.policyManager.value != caller
    case Unsigned => caller !in env.signers
    case EntryNotFound => id !in s.entries
    case Overflow => id in s.entries && s.entries[id].version == MAX_U32
    case _ => false
  }

  /** The policy manager replaces the metadata of any entry, and nothing but its version with it. */
  lemma MetadataExactly(s: State, env: Env, caller: Address, id: Hash, m: Metadata)
    requires Inv(s)
    ensures UpdateMetadata(s, env, caller, id, m).result.Ok?
       <==> Manages(s, env, caller) && Acceptable(m) && id in s.entries && s.entries[id].version != MAX_U32
    ensures var o := UpdateMetadata(s, env, caller, id, m);
            && (o.result.Ok? ==>
                  var e := s.entries[id];
                  && o.result.value == e.version + 1
                  && Revised(s, o.state, env, caller, id, Entry(e.kind, e.parent, e.version + 1, m, e.content, e.custodian)))
            && (o.result.Err? ==>
                  && o.state == s
                  && (UpdateRefused(s, env, caller, id, o.result.error)
                      || (o.result.error == InvalidHash && m.manifest == 0)
                      || (o.result.error == InvalidMetadataUri && !Acceptable(m))))
  {
    assert Recorded(s, id);
  }

  /** And the content of exactly the renditions. */
  lemma ContentExactly(s: State, env: Env, caller: Address, id: Hash, algorithm: nat, digest: Hash)
    requires Inv(s)
    ensures UpdateContentHash(s, env, caller, id, algorithm, digest).result.Ok?
       <==> Manages(s, env, caller) && digest != 0 && id in s.entries && s.entries[id].kind == Rendition
            && s.entries[id].version != MAX_U32
    ensures var o := UpdateContentHash(s, env, caller, id, algorithm, digest);
            && (o.result.Ok? ==>
                  var e := s.entries[id];
                  && o.result.value == e.version + 1
                  && Revised(s, o.state, env, caller, id,
                             Entry(Rendition, e.parent, e.version + 1, e.metadata, Committed(algorithm, digest), e.custodian)))
            && (o.result.Err? ==>
                  && o.state == s
                  && (UpdateRefused(s, env, caller, id, o.result.error)
                      || (o.result.error == InvalidHash && digest == 0)
                      || (o.result.error == InvalidKind && id in s.entries && s.entries[id].kind != Rendition)))
  {
    assert Recorded(s, id);
  }

  /** Whatever happens later, a registered entry keeps its kind, its parent and its custodian, and its first version reads as
      it was registered. */
  lemma RegistrationStands(s: State, s': State, env: Env, caller: Address, id: Hash, e: Entry, steps: seq<(Env, Call)>)
    requires Inv(s') && Registered(s, s', env, caller, id, e)
    ensures GetVersion(Run(s', steps), id, 1) == Ok(Snapshot(1, e.metadata, e.content, e.custodian, caller, env.now))
    ensures id in Run(s', steps).entries
    ensures var now := Run(s', steps).entries[id];
            now.kind == e.kind && now.parent == e.parent && now.custodian == e.custodian
  {
    HistoryStands(s', steps, id, 1);
    RunKeeps(s', steps);
  }

  lemma WorkRecorded(s: State, env: Env, caller: Address, id: Hash, m: Metadata, custodian: Address, steps: seq<(Env, Call)>)
    requires Inv(s) && RegisterWork(s, env, caller, id, m, custodian).result.Ok?
    ensures var s' := Run(RegisterWork(s, env, caller, id, m, custodian).state, steps);
            && GetVersion(s', id, 1) == Ok(Snapshot(1, m, NoContent, custodian, caller, env.now))
            && id in s'.entries && s'.entries[id].kind == Work && s'.entries[id].parent.None?
  {
    WorkExactly(s, env, caller, id, m, custodian);
    StepKeeps(s, env, CallRegisterWork(caller, id, m, custodian));
    RegistrationStands(s, RegisterWork(s, env, caller, id, m, custodian).state, env, caller, id,
                       Entry(Work, None, 1, m, NoContent, custodian), steps);
  }

  lemma EditionRecorded(s: State, env: Env, caller: Address, parent: Hash, id: Hash, m: Metadata, custodian: Address,
                        steps: seq<(Env, Call)>)
    requires Inv(s) && RegisterEdition(s, env, caller, parent, id, m, custodian).result.Ok?
    ensures var s' := Run(RegisterEdition(s, env, caller, parent, id, m, custodian).state, steps);
            && GetVersion(s', id, 1) == Ok(Snapshot(1, m, NoContent, custodian, caller, env.now))
            && id in s'.entries && s'.entries[id].kind == Edition && s'.entries[id].parent == Some(parent)
  {
    EditionExactly(s, env, caller, parent, id, m, custodian);
    StepKeeps(s, env, CallRegisterEdition(caller, parent, id, m, custodian));
    RegistrationStands(s, RegisterEdition(s, env, caller, parent, id, m, custodian).state, env, caller, id,
                       Entry(Edition, Some(parent), 1, m, NoContent, custodian), steps);
  }

  /** Whatever happens later, the first version of a rendition shows every reader the content hash it was registered with. */
  lemma RenditionRecorded(s: State, env: Env, caller: Address, parent: Hash, id: Hash, algorithm: nat, digest: Hash,
                          m: Metadata, custodian: Address, steps: seq<(Env, Call)>)
    requires Inv(s) && RegisterRendition(s, env, caller, parent, id, algorithm, digest, m, custodian).result.Ok?
    ensures var s' := Run(RegisterRendition(s, env, caller, parent, id, algorithm, digest, m, custodian).state, steps);
            && GetVersion(s', id, 1) == Ok(Snapshot(1, m, Committed(algorithm, digest), custodian, caller, env.now))
            && id in s'.entries && s'.entries[id].kind == Rendition && s'.entries[id].parent == Some(parent)
  {
    RenditionExactly(s, env, caller, parent, id, algorithm, digest, m, custodian);
    StepKeeps(s, env, CallRegisterRendition(caller, parent, id, algorithm, digest, m, custodian));
    RegistrationStands(s, RegisterRendition(s, env, caller, parent, id, algorithm, digest, m, custodian).state, env, caller, id,
                       Entry(Rendition, Some(parent), 1, m, Committed(algorithm, digest), custodian), steps);
  }

  // ---------------------------------------------------------------- paging

  /** What an index holds under the positions 0 to n of a key. */
  ghost function Positions(index: map<(Hash, int), Hash>, p: Hash, n: nat): seq<Hash>
    requires forall i :: 0 <= i < n ==> (p, i) in index
  {
    seq(n, i requires 0 <= i < n => index[(p, i)])
  }

  lemma PositionsPush(index: map<(Hash, int), Hash>, p: Hash, n: nat, c: Hash)
    requires forall i :: 0 <= i < n ==> (p, i) in index
    ensures Positions(index[(p, n) := c], p, n + 1) == Positions(index, p, n) + [c]
  {
  }

  lemma PositionsOther(index: map<(Hash, int), Hash>, p: Hash, n: nat, q: Hash, i: int, c: Hash)
    requires p != q && forall i :: 0 <= i < n ==> (p, i) in index
    ensures Positions(index[(q, i) := c], p, n) == Positions(index, p, n)
  {
  }

  /** The children of a parent in the order of their registration. */
  ghost function ChildList(s: State, p: Hash): seq<Hash>
    requires Listed(s, p)
  {
    Positions(s.childIndex, p, Get(s.childCount, p))
  }

  /** The list holds exactly the entries whose parent is p, each once. */
  lemma ChildListExact(s: State, p: Hash)
    requires Listed(s, p)
    ensures forall c :: c in ChildList(s, p) <==> c in s.entries && s.entries[c].parent == Some(p)
    ensures forall i, j :: 0 <= i < j < |ChildList(s, p)| ==> ChildList(s, p)[i] != ChildList(s, p)[j]
  {
    var l := ChildList(s, p);
    forall c | IsChild(s, p, c) ensures c in l {
      var i :| 0 <= i < Get(s.childCount, p) && s.childIndex[(p, i)] == c;
      assert l[i] == c;
    }
    forall c | c in l ensures IsChild(s, p, c) {
    }
  }

  lemma ChildAppended(s: State, env: Env, caller: Address, parent: Hash, id: Hash, e: Entry, p: Hash)
    requires Listed(s, p) && WriteChild(s, env, caller, parent, id, e).result.Ok?
    requires Listed(WriteChild(s, env, caller, parent, id, e).state, p)
    ensures ChildList(WriteChild(s, env, caller, parent, id, e).state, p)
         == ChildList(s, p) + (if p == parent then [id] else [])
  {
    var n := Get(s.childCount, parent);
    ChildWritten(s, env, caller, parent, id, e);
    if p == parent {
      PositionsPush(s.childIndex, p, n, id);
    } else {
      PositionsOther(s.childIndex, p, Get(s.childCount, p), parent, n, id);
    }
  }

  lemma ChildWritten(s: State, env: Env, caller: Address, parent: Hash, id: Hash, e: Entry)
    requires WriteChild(s, env, caller, parent, id, e).result.Ok?
    ensures var s', n := WriteChild(s, env, caller, parent, id, e).state, Get(s.childCount, parent);
            s'.childIndex == s.childIndex[(parent, n) := id] && s'.childCount == s.childCount[parent := n + 1]
  {
  }

  /** A registered edition is the new last element of its work's list, and of no other. */
  lemma EditionAppended(s: State, env: Env, caller: Address, parent: Hash, id: Hash, metadata: Metadata, custodian: Address, p: Hash)
    requires Inv(s) && RegisterEdition(s, env, caller, parent, id, metadata, custodian).result.Ok?
    ensures var s' := RegisterEdition(s, env, caller, parent, id, metadata, custodian).state;
            && Listed(s, p) && Listed(s', p)
            && ChildList(s', p) == ChildList(s, p) + (if p == parent then [id] else [])
  {
    StepKeeps(s, env, CallRegisterEdition(caller, parent, id, metadata, custodian));
    ChildAppended(s, env, caller, parent, id, Entry(Edition, Some(parent), 1, metadata, NoContent, custodian), p);
  }

  /** A registered rendition is the new last element of its edition's list, and of no other. */
  lemma RenditionAppended(s: State, env: Env, caller: Address, parent: Hash, id: Hash, algorithm: nat, digest: Hash,
                          metadata: Metadata, custodian: Address, p: Hash)
    requires Inv(s) && RegisterRendition(s, env, caller, parent, id, algorithm, digest, metadata, custodian).result.Ok?
    ensures var s' := RegisterRendition(s, env, caller, parent, id, algorithm, digest, metadata, custodian).state;
            && Listed(s, p) && Listed(s', p)
            && ChildList(s', p) == ChildList(s, p) + (if p == parent then [id] else [])
  {
    StepKeeps(s, env, CallRegisterRendition(caller, parent, id, algorithm, digest, metadata, custodian));
    ChildAppended(s, env, caller, parent, id, Entry(Rendition, Some(parent), 1, metadata, Committed(algorithm, digest), custodian), p);
  }

  function Min(a: int, b: int): int {
    if a <= b then a else b
  }

  lemma {:induction false} CollectIsSlice(s: State, p: Hash, i: int, limit: int)
    requires Listed(s, p) && 0 <= i <= Get(s.childCount, p) && limit >= 0
    ensures Collect(s, p, i, limit) == ChildList(s, p)[i..Min(i + limit, |ChildList(s, p)|)]
    decreases limit
  {
    if i < Get(s.childCount, p) && limit > 0 {
      CollectIsSlice(s, p, i + 1, limit - 1);
    }
  }

  /** The ids gathered by asking for one page after another, each from the cursor the previous one returned. */
  function Walk(s: State, p: Hash, cursor: int, limits: seq<int>): seq<Hash>
    decreases |limits|
  {
    if limits == [] then []
    else match Children(s, p, cursor, limits[0])
      case Err(_) => []
      case Ok(page) => page.ids + (if page.done then [] else Walk(s, p, page.nextCursor, limits[1..]))
  }

  /** A page is the slice of the child list at its cursor, of its limit or up to the end; it is empty only at the end. */
  lemma PageIsSlice(s: State, p: Hash, cursor: int, limit: int)
    requires Listed(s, p)
    ensures Children(s, p, cursor, limit).Ok? <==> 1 <= limit <= 50 && 0 <= cursor <= |ChildList(s, p)|
    ensures Children(s, p, cursor, limit).Ok? ==>
              var page, n := Children(s, p, cursor, limit).value, |ChildList(s, p)|;
              && page.nextCursor == Min(cursor + limit, n)
              && page.ids == ChildList(s, p)[cursor..page.nextCursor]
              && (page.done <==> page.nextCursor == n)
  {
    if 1 <= limit && 0 <= cursor <= Get(s.childCount, p) {
      CollectIsSlice(s, p, cursor, limit);
    }
  }

  /** Whatever limits a reader chooses, the pages from any cursor on concatenate to the rest of the child list, once
      there are as many as there are children left. */
  lemma {:induction false} WalkRebuilds(s: State, p: Hash, cursor: int, limits: seq<int>)
    requires Listed(s, p) && 0 <= cursor <= |ChildList(s, p)|
    requires forall i :: 0 <= i < |limits| ==> 1 <= limits[i] <= 50
    requires |limits| >= |ChildList(s, p)| - cursor
    ensures Walk(s, p, cursor, limits) == ChildList(s, p)[cursor..]
    decreases |limits|
  {
    var l := ChildList(s, p);
    if limits == [] {
      assert l[cursor..] == [];
    } else {
      PageIsSlice(s, p, cursor, limits[0]);
      var page := Children(s, p, cursor, limits[0]).value;
      if !page.done {
        WalkRebuilds(s, p, page.nextCursor, limits[1..]);
        assert l[cursor..page.nextCursor] + l[page.nextCursor..] == l[cursor..];
      }
    }
  }

  /** What a reader has gathered, where its cursor is, and the registry it now reads. */
  datatype Reading = Reading(ids: seq<Hash>, cursor: int, state: State)

  /** Asks for one page after another, each from the cursor the previous one returned, while other calls run between. */
  function LiveWalk(s: State, p: Hash, cursor: int, rounds: seq<(int, seq<(Env, Call)>)>): Reading
    decreases |rounds|
  {
    if rounds == [] then Reading([], cursor, s)
    else match Children(s, p, cursor, rounds[0].0)
      case Err(_) => Reading([], cursor, s)
      case Ok(page) =>
        var rest := LiveWalk(Run(s, rounds[0].1), p, page.nextCursor, rounds[1..]);
        Reading(page.ids + rest.ids, rest.cursor, rest.state)
  }

  /** Lists only grow at their end. */
  lemma ListGrows(s: State, s': State, p: Hash)
    requires Listed(s, p) && Listed(s', p) && Extends(s, s')
    ensures ChildList(s, p) <= ChildList(s', p)
  {
    var n, n' := Get(s.childCount, p), Get(s'.childCount, p);
    if n > 0 { assert (p, n - 1) in s.childIndex; }
    forall i | 0 <= i < n ensures ChildList(s, p)[i] == ChildList(s', p)[i] {
      assert (p, i) in s.childIndex;
    }
  }

  lemma RunGrows(s: State, steps: seq<(Env, Call)>, p: Hash)
    requires Inv(s)
    ensures Inv(Run(s, steps)) && Listed(s, p) && Listed(Run(s, steps), p) && ChildList(s, p) <= ChildList(Run(s, steps), p)
  {
    RunKeeps(s, steps);
    assert Listed(s, p) && Listed(Run(s, steps), p);
    ListGrows(s, Run(s, steps), p);
  }

  /** Whatever happens between two pages, a reader gathers each child once, in order and without a gap, and after as many
      pages as there were children has seen all of those that were there when it began. */
  lemma {:induction false} LiveWalkExact(s: State, p: Hash, cursor: int, rounds: seq<(int, seq<(Env, Call)>)>)
    requires Inv(s) && Listed(s, p) && 0 <= cursor <= |ChildList(s, p)|
    requires forall i :: 0 <= i < |rounds| ==> 1 <= rounds[i].0 <= 50
    ensures var r := LiveWalk(s, p, cursor, rounds);
            Listed(r.state, p) && Gathered(ChildList(s, p), ChildList(r.state, p), r.ids, cursor, r.cursor, |rounds|)
    decreases |rounds|
  {
    if rounds != [] {
      PageIsSlice(s, p, cursor, rounds[0].0);
      var page := Children(s, p, cursor, rounds[0].0).value;
      var s1 := Run(s, rounds[0].1);
      RunGrows(s, rounds[0].1, p);
      LiveWalkExact(s1, p, page.nextCursor, rounds[1..]);
      var r := LiveWalk(s1, p, page.nextCursor, rounds[1..]);
      GatheredMore(ChildList(s, p), ChildList(s1, p), ChildList(r.state, p), page.ids, r.ids, cursor, page.nextCursor, r.cursor,
                   |rounds| - 1);
    }
  }
}
