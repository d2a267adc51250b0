/** What every run of the licensing contract keeps: nested windows, one-time proofs, bounded uses and seats, and exact
    entitlement and allocation indexes. */
module LicensingTheorems {
  import opened Wrappers
  import opened Soroban
  import opened Bytes
  import opened Hashing
  import opened Licensing

  // ---------------------------------------------------------------- the invariant

  ghost predicate LicenseOk(h: Host, c: Core, id: Id) {
    id in c.licenses ==>
      var l := c.licenses[id];
      l.notBefore < l.expires && l.allocatedSeats <= l.totalSeats && l.totalSeats > 0 && MadeBefore(h.sha, id, c.licenseCount)
  }

  /** A grant lies inside its license's window. */
  ghost predicate GrantOk(h: Host, c: Core, id: Id) {
    id in c.grants ==>
      var g := c.grants[id];
      && MadeBefore(h.sha, id, c.grantCount) && g.license in c.licenses
      && c.licenses[g.license].notBefore <= g.notBefore < g.expires <= c.licenses[g.license].expires
      && g.rendition == c.licenses[g.license].work
  }

  /** A reader session ends within its grant. */
  ghost predicate SessionOk(h: Host, c: Core, id: Id) {
    id in c.sessions ==>
      var s := c.sessions[id];
      && MadeBefore(h.sha, id, c.grantCount) && s.grant in c.grants
      && s.expires <= c.grants[s.grant].expires && s.grantee == c.grants[s.grant].grantee
  }

  /** An offline grant ends within its grant, is never used more often than allowed, and is active while uses are left. */
  ghost predicate OfflineOk(h: Host, c: Core, id: Id) {
    id in c.offline ==>
      var o := c.offline[id];
      && MadeBefore(h.sha, id, c.grantCount) && o.grant in c.grants
      && o.expires <= c.grants[o.grant].expires && o.grantee == c.grants[o.grant].grantee
      && o.uses <= o.maxUses && (o.active <==> o.uses < o.maxUses)
  }

  ghost predicate CoreOk(h: Host, c: Core) {
    && (forall id :: LicenseOk(h, c, id))
    && (forall id :: GrantOk(h, c, id))
    && (forall id :: SessionOk(h, c, id))
    && (forall id :: OfflineOk(h, c, id))
  }

  predicate Distinct(s: seq<(Rendition, Mode)>) {
    forall i, j :: 0 <= i < j < |s| ==> s[i] != s[j]
  }

  /** The key list of a license: every entitlement of it once, and nothing else. */
  ghost predicate RightsOk(r: Rights, license: Id) {
    && Distinct(Keys(r, license)) && |Keys(r, license)| <= MAX_U32
    && (forall k :: k in Keys(r, license) <==> (license, k) in r.entitlements)
  }

  ghost function SeatsOf(license: Id): Allocation -> int {
    (a: Allocation) => if a.license == license && a.active then a.seats as int else 0
  }

  /** The cached total is the sum of the active allocations, within the limit. */
  ghost predicate PoolOk(p: Pools, license: Id) {
    && Get(p.totals, license) == MapTotal(SeatsOf(license), p.allocations)
    && Get(p.totals, license) <= (if license in p.limits then p.limits[license] else 0)
  }

  ghost predicate Inv(h: Host, s: State) {
    && CoreOk(h, s.core)
    && (forall id :: RightsOk(s.rights, id))
    && (forall id :: PoolOk(s.pools, id))
    && (forall a :: a in s.pools.allocations ==> MadeBefore(h.sha, a, s.core.grantCount))
  }

  /** What never changes: a license's terms and a revocation, a grant, a consumed nonce, an offline grant's terms. */
  ghost predicate LicenseLater(l: License, l': License) {
    && l' == l.(status := l'.status, allocatedSeats := l'.allocatedSeats)
    && (l.status == Revoked ==> l'.status == Revoked)
  }

  ghost predicate OfflineLater(o: Offline, o': Offline) {
    o' == o.(uses := o'.uses, active := o'.active) && o.uses <= o'.uses
  }

  ghost predicate Extends(c: Core, c': Core) {
    && c.licenseCount <= c'.licenseCount && c.grantCount <= c'.grantCount
    && (forall id :: id in c.licenses ==> id in c'.licenses && LicenseLater(c.licenses[id], c'.licenses[id]))
    && (forall id :: id in c.grants ==> id in c'.grants && c'.grants[id] == c.grants[id])
    && (forall id :: id in c.sessions ==> id in c'.sessions && c'.sessions[id] == c.sessions[id])
    && (forall id :: id in c.offline ==> id in c'.offline && OfflineLater(c.offline[id], c'.offline[id]))
    && c.nonces <= c'.nonces
  }

  // ---------------------------------------------------------------- fresh identifiers

  /** The counter is hashed first, so the identifiers of different counter values differ. */
  lemma DerivedCounter(h: Host, n: u64, now: u64, salt: seq<Byte>)
    requires CollisionFree(h.sha)
    ensures FirstWord(InputOf(h.sha, DeriveId(h, n, now, salt))) == n
  {
    MadeFromFirst(h.sha, n, ToBE(now, 8) + salt);
    assert ToBE(n, 8) + (ToBE(now, 8) + salt) == ToBE(n, 8) + ToBE(now, 8) + salt;
  }

  // ---------------------------------------------------------------- steps on the core

  /** A core that only grew keeps every record it already had. */
  lemma CoreKept(h: Host, c: Core, c': Core)
    requires CoreOk(h, c) && Extends(c, c')
    requires forall id :: id in c'.licenses && id !in c.licenses ==> LicenseOk(h, c', id)
    requires forall id :: id in c.licenses ==> c'.licenses[id].allocatedSeats <= c'.licenses[id].totalSeats
    requires forall id :: id in c'.grants && id !in c.grants ==> GrantOk(h, c', id)
    requires forall id :: id in c'.sessions && id !in c.sessions ==> SessionOk(h, c', id)
    requires forall id :: id in c'.offline && id !in c.offline ==> OfflineOk(h, c', id)
    requires forall id :: id in c.offline ==>
               c'.offline[id].uses <= c'.offline[id].maxUses && (c'.offline[id].active <==> c'.offline[id].uses < c'.offline[id].maxUses)
    ensures CoreOk(h, c')
  {
    forall id ensures LicenseOk(h, c', id) {
      if id in c.licenses {
        assert LicenseOk(h, c, id);
      }
    }
    forall id ensures GrantOk(h, c', id) {
      if id in c.grants {
        assert GrantOk(h, c, id);
      }
    }
    forall id ensures SessionOk(h, c', id) {
      if id in c.sessions {
        assert SessionOk(h, c, id);
      }
    }
    forall id ensures OfflineOk(h, c', id) {
      if id in c.offline {
        assert OfflineOk(h, c, id);
      }
    }
  }

  /** Whatever is hashed with it, the next value of a counter gives an identifier that no record has. */
  ghost predicate FreshIds(h: Host, c: Core) {
    && (forall n: u64, now: u64, salt: seq<Byte> :: n == c.licenseCount + 1 ==>
          DeriveId(h, n, now, salt) !in c.licenses && MadeBefore(h.sha, DeriveId(h, n, now, salt), n))
    && (forall n: u64, now: u64, salt: seq<Byte> :: n == c.grantCount + 1 ==>
          && DeriveId(h, n, now, salt) !in c.grants && DeriveId(h, n, now, salt) !in c.sessions
          && DeriveId(h, n, now, salt) !in c.offline && MadeBefore(h.sha, DeriveId(h, n, now, salt), n))
  }

  lemma NextIdsFresh(h: Host, c: Core)
    requires CollisionFree(h.sha) && CoreOk(h, c)
    ensures FreshIds(h, c)
  {
    forall n: u64, now: u64, salt: seq<Byte> | n == c.licenseCount + 1
      ensures DeriveId(h, n, now, salt) !in c.licenses && MadeBefore(h.sha, DeriveId(h, n, now, salt), n)
    {
      DerivedCounter(h, n, now, salt);
      assert LicenseOk(h, c, DeriveId(h, n, now, salt));
    }
    forall n: u64, now: u64, salt: seq<Byte> | n == c.grantCount + 1
      ensures && DeriveId(h, n, now, salt) !in c.grants && DeriveId(h, n, now, salt) !in c.sessions
              && DeriveId(h, n, now, salt) !in c.offline && MadeBefore(h.sha, DeriveId(h, n, now, salt), n)
    {
      var id := DeriveId(h, n, now, salt);
      DerivedCounter(h, n, now, salt);
      assert GrantOk(h, c, id) && SessionOk(h, c, id) && OfflineOk(h, c, id);
    }
  }

  lemma NewLicenseKeeps(h: Host, c: Core, n: u64, id: Id, l: License)
    requires CoreOk(h, c) && n >= c.licenseCount && id !in c.licenses && MadeBefore(h.sha, id, n)
    requires l.notBefore < l.expires && l.allocatedSeats == 0 < l.totalSeats
    ensures var c' := c.(licenseCount := n, licenses := c.licenses[id := l]); CoreOk(h, c') && Extends(c, c')
  {
    UnchangedOk(h, c);
    CoreKept(h, c, c.(licenseCount := n, licenses := c.licenses[id := l]));
  }

  lemma NewGrantKeeps(h: Host, c: Core, n: u64, nonces: set<Id>, id: Id, g: Grant)
    requires CoreOk(h, c) && n >= c.grantCount && id !in c.grants && MadeBefore(h.sha, id, n) && c.nonces <= nonces
    requires g.license in c.licenses && g.rendition == c.licenses[g.license].work
    requires c.licenses[g.license].notBefore <= g.notBefore < g.expires <= c.licenses[g.license].expires
    ensures var c' := c.(grantCount := n, nonces := nonces, grants := c.grants[id := g]); CoreOk(h, c') && Extends(c, c')
  {
    UnchangedOk(h, c);
    CoreKept(h, c, c.(grantCount := n, nonces := nonces, grants := c.grants[id := g]));
  }

  lemma NewSessionKeeps(h: Host, c: Core, n: u64, id: Id, s: Session)
    requires CoreOk(h, c) && n >= c.grantCount && id !in c.sessions && MadeBefore(h.sha, id, n)
    requires s.grant in c.grants && s.expires <= c.grants[s.grant].expires && s.grantee == c.grants[s.grant].grantee
    ensures var c' := c.(grantCount := n, sessions := c.sessions[id := s]); CoreOk(h, c') && Extends(c, c')
  {
    UnchangedOk(h, c);
    CoreKept(h, c, c.(grantCount := n, sessions := c.sessions[id := s]));
  }

  lemma NewOfflineKeeps(h: Host, c: Core, n: u64, id: Id, o: Offline)
    requires CoreOk(h, c) && n >= c.grantCount && id !in c.offline && MadeBefore(h.sha, id, n)
    requires o.grant in c.grants && o.expires <= c.grants[o.grant].expires && o.grantee == c.grants[o.grant].grantee
    requires o.uses == 0 < o.maxUses && o.active
    ensures var c' := c.(grantCount := n, offline := c.offline[id := o]); CoreOk(h, c') && Extends(c, c')
  {
    UnchangedOk(h, c);
    CoreKept(h, c, c.(grantCount := n, offline := c.offline[id := o]));
  }

  lemma LicenseChangeKeeps(h: Host, c: Core, id: Id, l: License)
    requires CoreOk(h, c) && id in c.licenses && LicenseLater(c.licenses[id], l) && l.allocatedSeats <= l.totalSeats
    ensures var c' := c.(licenses := c.licenses[id := l]); CoreOk(h, c') && Extends(c, c')
  {
    forall i | i in c.licenses ensures c.licenses[i].allocatedSeats <= c.licenses[i].totalSeats { assert LicenseOk(h, c, i); }
    forall i | i in c.offline ensures c.offline[i].uses <= c.offline[i].maxUses && (c.offline[i].active <==> c.offline[i].uses < c.offline[i].maxUses) {
      assert OfflineOk(h, c, i);
    }
    CoreKept(h, c, c.(licenses := c.licenses[id := l]));
  }

  /** The facts CoreKept asks of records that a step leaves alone. */
  lemma UnchangedOk(h: Host, c: Core)
    requires CoreOk(h, c)
    ensures forall i :: i in c.licenses ==> c.licenses[i].allocatedSeats <= c.licenses[i].totalSeats
    ensures forall i :: i in c.offline ==>
              c.offline[i].uses <= c.offline[i].maxUses && (c.offline[i].active <==> c.offline[i].uses < c.offline[i].maxUses)
  {
    forall i | i in c.licenses ensures c.licenses[i].allocatedSeats <= c.licenses[i].totalSeats { assert LicenseOk(h, c, i); }
    forall i | i in c.offline ensures c.offline[i].uses <= c.offline[i].maxUses && (c.offline[i].active <==> c.offline[i].uses < c.offline[i].maxUses) {
      assert OfflineOk(h, c, i);
    }
  }

  lemma ConsumeKeeps(h: Host, s: State, env: Env, caller: Address, id: Id, commitment: Id)
    requires CoreOk(h, s.core) && ConsumeOffline(s, env, caller, id, commitment).result.Ok?
    ensures var c' := ConsumeOffline(s, env, caller, id, commitment).state.core; CoreOk(h, c') && Extends(s.core, c')
  {
    var c, c' := s.core, ConsumeOffline(s, env, caller, id, commitment).state.core;
    UnchangedOk(h, c);
    assert OfflineOk(h, c, id);
    CoreKept(h, c, c');
  }

  lemma CountKeeps(h: Host, c: Core, n: u64)
    requires CoreOk(h, c) && c.grantCount <= n
    ensures var c' := c.(grantCount := n); CoreOk(h, c') && Extends(c, c')
  {
    UnchangedOk(h, c);
    CoreKept(h, c, c.(grantCount := n));
  }

  lemma RecordsKeep(h: Host, c: Core, enrollments: map<Id, Enrollment>, revocations: map<Id, Revocation>)
    requires CoreOk(h, c)
    ensures var c' := c.(enrollments := enrollments, revocations := revocations); CoreOk(h, c') && Extends(c, c')
  {
    UnchangedOk(h, c);
    CoreKept(h, c, c.(enrollments := enrollments, revocations := revocations));
  }

  lemma ChangeTo(h: Host, s: State, id: Id, l: License)
    requires CoreOk(h, s.core) && id in s.core.licenses && LicenseLater(s.core.licenses[id], l)
    requires l.allocatedSeats <= s.core.licenses[id].allocatedSeats || l.allocatedSeats <= l.totalSeats
    ensures var c := s.core; var c' := c.(licenses := c.licenses[id := l]); CoreOk(h, c') && Extends(c, c')
  {
    assert LicenseOk(h, s.core, id);
    LicenseChangeKeeps(h, s.core, id, l);
  }

  predicate OnLicense(c: Call) {
    c.CallGrantLicense? || c.CallRevokeLicense? || c.CallApplyRevocation? || c.CallScheduleRevocation?
  }

  predicate OnSeat(c: Call) {
    c.CallAllocateSeat? || c.CallReleaseSeat?
  }

  predicate OnGrant(c: Call) {
    c.CallDeriveGrant? || c.CallCreateSession? || c.CallCreateOffline?
  }

  predicate OnRecord(c: Call) {
    c.CallRecordEnrollment? || c.CallConsumeOffline? || c.CallAllocateSeats?
  }

  lemma ExtendsReflexive(c: Core)
    ensures Extends(c, c)
  {
  }

  lemma LicenseIdFresh(h: Host, s: State, now: u64, work: Id, licensee: Address)
    requires FreshIds(h, s.core) && s.core.licenseCount < MAX_U64
    ensures var id := LicenseId(s, h, now, work, licensee); id !in s.core.licenses && MadeBefore(h.sha, id, s.core.licenseCount + 1)
  {
  }

  lemma GrantLicenseKeeps(h: Host, s: State, env: Env, caller: Address, work: Id, licensee: Address, rights: string,
                          notBefore: u64, expires: u64, seats: u32)
    requires CoreOk(h, s.core) && FreshIds(h, s.core)
    requires GrantLicense(s, h, env, caller, work, licensee, rights, notBefore, expires, seats).result.Ok?
    ensures var c' := GrantLicense(s, h, env, caller, work, licensee, rights, notBefore, expires, seats).state.core;
            CoreOk(h, c') && Extends(s.core, c')
  {
    LicenseIdFresh(h, s, env.now, work, licensee);
    NewLicenseKeeps(h, s.core, s.core.licenseCount + 1, LicenseId(s, h, env.now, work, licensee),
                    License(work, licensee, rights, notBefore, expires, Active, seats, 0));
  }

  lemma ApplyKeeps(h: Host, s: State, env: Env, caller: Address, id: Id)
    requires CoreOk(h, s.core) && ApplyRevocation(s, env, caller, id).result.Ok?
    ensures var c' := ApplyRevocation(s, env, caller, id).state.core; CoreOk(h, c') && Extends(s.core, c')
  {
    var c := s.core;
    var c1 := c.(licenses := c.licenses[id := c.licenses[id].(status := Revoked)]);
    ChangeTo(h, s, id, c.licenses[id].(status := Revoked));
    RecordsKeep(h, c1, c.enrollments, c.revocations[id := c.revocations[id].(applied := true)]);
  }

  /** A failing call leaves the state; a successful one keeps the core and only extends it. */
  ghost predicate Kept(h: Host, s: State, s': State) {
    s' == s || (CoreOk(h, s'.core) && Extends(s.core, s'.core))
  }

  lemma LicenseCallKeeps(h: Host, s: State, env: Env, call: Call)
    requires CoreOk(h, s.core) && FreshIds(h, s.core) && OnLicense(call)
    ensures Kept(h, s, Step(s, h, env, call))
  {
    if Step(s, h, env, call) != s {
      match call
      case CallGrantLicense(a, w, l, r, b, x, n) =>
        GrantLicenseKeeps(h, s, env, a, w, l, r, b, x, n);
      case CallRevokeLicense(a, id) => ChangeTo(h, s, id, s.core.licenses[id].(status := Revoked));
      case CallScheduleRevocation(_, id, t, u, r) =>
        RecordsKeep(h, s.core, s.core.enrollments, s.core.revocations[id := Revocation(t, r, u, false)]);
      case CallApplyRevocation(a, id) => ApplyKeeps(h, s, env, a, id);
    }
  }

  lemma SeatCallKeeps(h: Host, s: State, env: Env, call: Call)
    requires CoreOk(h, s.core) && OnSeat(call)
    ensures Kept(h, s, Step(s, h, env, call))
  {
    if Step(s, h, env, call) != s {
      match call
      case CallAllocateSeat(a, id) =>
        ChangeTo(h, s, id, s.core.licenses[id].(allocatedSeats := s.core.licenses[id].allocatedSeats + 1));
      case CallReleaseSeat(a, id) =>
        ChangeTo(h, s, id, s.core.licenses[id].(allocatedSeats := s.core.licenses[id].allocatedSeats - 1));
    }
  }

  lemma GrantIdFresh(h: Host, s: State, now: u64, license: Id, grantee: Address)
    requires FreshIds(h, s.core) && s.core.grantCount < MAX_U64
    ensures var id := GrantId(s, h, now, license, grantee); id !in s.core.grants && MadeBefore(h.sha, id, s.core.grantCount + 1)
  {
  }

  lemma IssueKeeps(h: Host, s: State, id: Id, g: Grant, nonce: Id)
    requires CoreOk(h, s.core) && s.core.grantCount < MAX_U64
    requires id !in s.core.grants && MadeBefore(h.sha, id, s.core.grantCount + 1)
    requires g.license in s.core.licenses && g.rendition == s.core.licenses[g.license].work
    requires s.core.licenses[g.license].notBefore <= g.notBefore < g.expires <= s.core.licenses[g.license].expires
    ensures CoreOk(h, Issue(s, id, g, nonce).state.core) && Extends(s.core, Issue(s, id, g, nonce).state.core)
  {
    NewGrantKeeps(h, s.core, s.core.grantCount + 1, s.core.nonces + {nonce}, id, g);
  }

  /** A derivation succeeds inside the license's window, and its grant ends after the duration or with the license,
      whichever is first. */
  lemma DeriveIsIssue(h: Host, s: State, env: Env, caller: Address, license: Id, grantee: Address, duration: u64, p: Proof)
    returns (g: Grant)
    requires DeriveAccessGrant(s, h, env, caller, license, grantee, duration, p).result.Ok?
    ensures s.core.grantCount < MAX_U64 && license in s.core.licenses && WindowOpen(s.core.licenses[license], env.now)
    ensures g.license == license && g.grantee == grantee && g.rendition == s.core.licenses[license].work
    ensures g.notBefore == env.now < g.expires == Min(env.now + duration, s.core.licenses[license].expires)
    ensures DeriveAccessGrant(s, h, env, caller, license, grantee, duration, p)
         == Issue(s, GrantId(s, h, env.now, license, grantee), g, p.nonce)
  {
    var o := DeriveAccessGrant(s, h, env, caller, license, grantee, duration, p);
    g := o.state.core.grants[o.result.value];
  }

  lemma DeriveKeeps(h: Host, s: State, env: Env, caller: Address, license: Id, grantee: Address, duration: u64, p: Proof)
    requires CoreOk(h, s.core) && FreshIds(h, s.core)
    requires DeriveAccessGrant(s, h, env, caller, license, grantee, duration, p).result.Ok?
    ensures var c' := DeriveAccessGrant(s, h, env, caller, license, grantee, duration, p).state.core;
            CoreOk(h, c') && Extends(s.core, c')
  {
    var g := DeriveIsIssue(h, s, env, caller, license, grantee, duration, p);
    GrantIdFresh(h, s, env.now, license, grantee);
    IssueKeeps(h, s, GrantId(s, h, env.now, license, grantee), g, p.nonce);
  }

  lemma SessionKeeps(h: Host, s: State, env: Env, caller: Address, grant: Id, key: Id, duration: u64)
    requires CoreOk(h, s.core) && FreshIds(h, s.core) && CreateSession(s, h, env, caller, grant, key, duration).result.Ok?
    ensures var c' := CreateSession(s, h, env, caller, grant, key, duration).state.core; CoreOk(h, c') && Extends(s.core, c')
  {
    var o := CreateSession(s, h, env, caller, grant, key, duration);
    NewSessionKeeps(h, s.core, s.core.grantCount + 1, o.result.value, o.state.core.sessions[o.result.value]);
  }

  lemma OfflineKeeps(h: Host, s: State, env: Env, caller: Address, grant: Id, expires: u64, maxUses: u32)
    requires CoreOk(h, s.core) && FreshIds(h, s.core) && CreateOffline(s, h, env, caller, grant, expires, maxUses).result.Ok?
    ensures var c' := CreateOffline(s, h, env, caller, grant, expires, maxUses).state.core; CoreOk(h, c') && Extends(s.core, c')
  {
    var o := CreateOffline(s, h, env, caller, grant, expires, maxUses);
    NewOfflineKeeps(h, s.core, s.core.grantCount + 1, o.result.value, o.state.core.offline[o.result.value]);
  }

  lemma GrantCallKeeps(h: Host, s: State, env: Env, call: Call)
    requires CoreOk(h, s.core) && FreshIds(h, s.core) && OnGrant(call)
    ensures Kept(h, s, Step(s, h, env, call))
  {
    if Step(s, h, env, call) != s {
      match call
      case CallDeriveGrant(a, l, g, d, p) => DeriveKeeps(h, s, env, a, l, g, d, p);
      case CallCreateSession(a, g, k, d) => SessionKeeps(h, s, env, a, g, k, d);
      case CallCreateOffline(a, g, x, n) => OfflineKeeps(h, s, env, a, g, x, n);
    }
  }

  lemma RecordCallKeeps(h: Host, s: State, env: Env, call: Call)
    requires CoreOk(h, s.core) && OnRecord(call)
    ensures Kept(h, s, Step(s, h, env, call))
  {
    if Step(s, h, env, call) != s {
      match call
      case CallRecordEnrollment(_, w, l, x, n) =>
        RecordsKeep(h, s.core, s.core.enrollments[n := Enrollment(w, l, x)], s.core.revocations);
      case CallConsumeOffline(a, id, c) => ConsumeKeeps(h, s, env, a, id, c);
      case CallAllocateSeats(_, _, _, _, _) => CountKeeps(h, s.core, s.core.grantCount + 1);
    }
  }

  lemma OtherCallLeavesCore(h: Host, s: State, env: Env, call: Call)
    requires !OnLicense(call) && !OnSeat(call) && !OnGrant(call) && !OnRecord(call)
    ensures Step(s, h, env, call).core == s.core
  {
    match call
    case CallSetAdmin(_) =>
    case CallSetCapability(_, _, _) =>
    case CallGrantEntitlement(_, _, _, _) =>
    case CallRevokeEntitlement(_, _, _, _) =>
    case CallSetAllocationLimit(_, _, _) =>
    case CallRevokeAllocation(_, _) =>
  }

  /** The core survives every step, which only extends it. */
  lemma StepKeepsCore(h: Host, s: State, env: Env, call: Call)
    requires CollisionFree(h.sha) && CoreOk(h, s.core)
    ensures CoreOk(h, Step(s, h, env, call).core) && Extends(s.core, Step(s, h, env, call).core)
  {
    ExtendsReflexive(s.core);
    NextIdsFresh(h, s.core);
    if OnLicense(call) {
      LicenseCallKeeps(h, s, env, call);
    } else if OnSeat(call) {
      SeatCallKeeps(h, s, env, call);
    } else if OnGrant(call) {
      GrantCallKeeps(h, s, env, call);
    } else if OnRecord(call) {
      RecordCallKeeps(h, s, env, call);
    } else {
      OtherCallLeavesCore(h, s, env, call);
    }
  }

  // ---------------------------------------------------------------- entitlements

  lemma {:induction false} RemoveFirstKeeps(s: seq<(Rendition, Mode)>, k: (Rendition, Mode))
    requires Distinct(s)
    ensures Distinct(RemoveFirst(s, k)) && |RemoveFirst(s, k)| <= |s|
    ensures forall x :: x in RemoveFirst(s, k) <==> x in s && x != k
  {
    if s != [] {
      assert s == [s[0]] + s[1..];
      assert s[0] !in s[1..];
      if s[0] != k { RemoveFirstKeeps(s[1..], k); }
    }
  }

  lemma GrantEntitlementKeeps(s: State, env: Env, caller: Address, license: Id, rendition: Rendition, mode: Mode, id: Id)
    requires RightsOk(s.rights, id) && RightsOk(s.rights, license)
    ensures RightsOk(GrantEntitlement(s, env, caller, license, rendition, mode).state.rights, id)
  {
    var k := (rendition, mode);
    if (license, k) !in s.rights.entitlements { assert k !in Keys(s.rights, license); }
  }

  lemma WithoutKeeps(r: Rights, license: Id, k: (Rendition, Mode), id: Id)
    requires RightsOk(r, id) && RightsOk(r, license)
    ensures RightsOk(Without(r, license, k), id)
  {
    var r' := Without(r, license, k);
    RemoveFirstKeeps(Keys(r, license), k);
    if id == license {
      assert Keys(r', id) == RemoveFirst(Keys(r, license), k);
      forall x ensures x in Keys(r', id) <==> (id, x) in r'.entitlements {
        assert (id, x) in r'.entitlements <==> (id, x) in r.entitlements && x != k;
        assert x in RemoveFirst(Keys(r, license), k) <==> x in Keys(r, license) && x != k;
        assert x in Keys(r, license) <==> (license, x) in r.entitlements;
      }
    } else {
      assert Keys(r', id) == Keys(r, id);
      forall x ensures x in Keys(r', id) <==> (id, x) in r'.entitlements {
        assert (id, x) in r'.entitlements <==> (id, x) in r.entitlements;
      }
    }
  }

  lemma RightsKept(s: State, h: Host, env: Env, call: Call, id: Id)
    requires forall i :: RightsOk(s.rights, i)
    ensures RightsOk(Step(s, h, env, call).rights, id)
  {
    assert RightsOk(s.rights, id);
    match call
    case CallGrantEntitlement(a, l, r, m) =>
      assert RightsOk(s.rights, l);
      GrantEntitlementKeeps(s, env, a, l, r, m, id);
    case CallRevokeEntitlement(a, l, r, m) =>
      assert RightsOk(s.rights, l);
      WithoutKeeps(s.rights, l, (r, m), id);
    case _ => OtherCallLeavesRights(s, h, env, call);
  }

  lemma OtherCallLeavesRights(s: State, h: Host, env: Env, call: Call)
    requires !call.CallGrantEntitlement? && !call.CallRevokeEntitlement?
    ensures Step(s, h, env, call).rights == s.rights
  {
  }

  /** A page is the slice of the key list at its position, each key with its stored entitlement. */
  lemma {:induction false} CollectIsSlice(r: Rights, license: Id, lo: int, hi: int)
    requires RightsOk(r, license) && 0 <= lo <= hi <= |Keys(r, license)|
    ensures |Collect(r, license, lo, hi)| == hi - lo
    ensures forall i :: lo <= i < hi ==> Keys(r, license)[i] in Keys(r, license)
                                         && Collect(r, license, lo, hi)[i - lo]
                                         == (Keys(r, license)[i], r.entitlements[(license, Keys(r, license)[i])])
    decreases hi - lo
  {
    if lo < hi {
      assert Keys(r, license)[lo] in Keys(r, license);
      CollectIsSlice(r, license, lo + 1, hi);
    }
  }

  /** A page of entitlements is the slice of the key list at its offset, each key with the entitlement stored for it. */
  lemma PageIsSlice(h: Host, s: State, license: Id, from: u32, limit: u32)
    requires Inv(h, s)
    ensures var keys := Keys(s.rights, license);
            var page := Entitlements(s, license, from, limit);
            && |page| == (if from >= |keys| then 0 else if from + limit < |keys| then limit else |keys| - from)
            && (forall i :: 0 <= i < |page| ==> page[i].0 == keys[from + i] && (license, page[i].0) in s.rights.entitlements
                                                && page[i].1 == s.rights.entitlements[(license, page[i].0)])
  {
    var keys := Keys(s.rights, license);
    assert RightsOk(s.rights, license);
    if from < |keys| && limit > 0 {
      CollectIsSlice(s.rights, license, from, if from + limit < |keys| then from + limit else |keys|);
      var page := Entitlements(s, license, from, limit);
      forall i | 0 <= i < |page|
        ensures page[i].0 == keys[from + i] && page[i].0 in keys
        ensures page[i].1 == s.rights.entitlements[(license, page[i].0)]
      {
        assert from <= from + i;
      }
    }
  }

  // ---------------------------------------------------------------- allocations

  lemma NewAllocationKeeps(p: Pools, a: Id, alloc: Allocation, l: Id)
    requires PoolOk(p, l) && a !in p.allocations && alloc.active && alloc.license in p.limits
    requires Get(p.totals, alloc.license) + alloc.seats <= p.limits[alloc.license]
    ensures PoolOk(WithAllocation(p, a, alloc), l)
  {
    MapTotalUpdate(SeatsOf(l), p.allocations, a, alloc);
  }

  lemma NextAllocationFresh(h: Host, s: State, now: u64, id: Id, sub: Address)
    requires CollisionFree(h.sha) && Inv(h, s) && s.core.grantCount < MAX_U64
    ensures GrantId(s, h, now, id, sub) !in s.pools.allocations
  {
    DerivedCounter(h, s.core.grantCount + 1, now, h.raw(id) + h.xdr(sub));
  }

  lemma AllocateKeeps(h: Host, s: State, env: Env, caller: Address, id: Id, organization: Address, sub: Address, seats: u32, l: Id)
    requires PoolOk(s.pools, l) && AllocateSeats(s, h, env, caller, id, organization, sub, seats).result.Ok?
    requires s.core.grantCount < MAX_U64 && GrantId(s, h, env.now, id, sub) !in s.pools.allocations
    ensures PoolOk(AllocateSeats(s, h, env, caller, id, organization, sub, seats).state.pools, l)
  {
    NewAllocationKeeps(s.pools, GrantId(s, h, env.now, id, sub), Allocation(id, sub, seats, s.core.licenses[id].expires, true), l);
  }

  /** The saturating subtraction of a revoked allocation never saturates. */
  lemma RevokeAllocationKeeps(h: Host, s: State, env: Env, caller: Address, a: Id, l: Id)
    requires Inv(h, s) && RevokeAllocation(s, env, caller, a).result.Ok?
    ensures PoolOk(RevokeAllocation(s, env, caller, a).state.pools, l)
    ensures var alloc := s.pools.allocations[a];
            && Get(s.pools.totals, alloc.license) >= alloc.seats
            && Get(RevokeAllocation(s, env, caller, a).state.pools.totals, alloc.license) == Get(s.pools.totals, alloc.license) - alloc.seats
  {
    var alloc := s.pools.allocations[a];
    assert PoolOk(s.pools, l) && PoolOk(s.pools, alloc.license);
    MapTotalRemove(SeatsOf(alloc.license), s.pools.allocations, a);
    MapTotalNonnegative(SeatsOf(alloc.license), s.pools.allocations - {a});
    MapTotalUpdate(SeatsOf(l), s.pools.allocations, a, alloc.(active := false));
  }

  lemma PoolsKept(h: Host, s: State, env: Env, call: Call, l: Id)
    requires CollisionFree(h.sha) && Inv(h, s)
    ensures PoolOk(Step(s, h, env, call).pools, l)
  {
    assert PoolOk(s.pools, l);
    match call
    case CallAllocateSeats(a, id, o, u, n) =>
      if AllocateSeats(s, h, env, a, id, o, u, n).result.Ok? {
        NextAllocationFresh(h, s, env.now, id, u);
        AllocateKeeps(h, s, env, a, id, o, u, n, l);
      }
    case CallRevokeAllocation(a, id) =>
      if RevokeAllocation(s, env, a, id).result.Ok? { RevokeAllocationKeeps(h, s, env, a, id, l); }
    case CallSetAllocationLimit(_, _, _) =>
    case _ => OtherCallLeavesPools(s, h, env, call);
  }

  lemma OtherCallLeavesPools(s: State, h: Host, env: Env, call: Call)
    requires !call.CallAllocateSeats? && !call.CallRevokeAllocation? && !call.CallSetAllocationLimit?
    ensures Step(s, h, env, call).pools == s.pools
  {
  }

  lemma AllocateMade(h: Host, s: State, env: Env, caller: Address, id: Id, organization: Address, sub: Address, seats: u32, a: Id)
    requires CollisionFree(h.sha) && a in AllocateSeats(s, h, env, caller, id, organization, sub, seats).state.pools.allocations
    requires a !in s.pools.allocations
    ensures MadeBefore(h.sha, a, AllocateSeats(s, h, env, caller, id, organization, sub, seats).state.core.grantCount)
  {
    DerivedCounter(h, s.core.grantCount + 1, env.now, h.raw(id) + h.xdr(sub));
  }

  lemma AllocationsMade(h: Host, s: State, env: Env, call: Call, a: Id)
    requires CollisionFree(h.sha) && (a in s.pools.allocations ==> MadeBefore(h.sha, a, s.core.grantCount))
    requires s.core.grantCount <= Step(s, h, env, call).core.grantCount
    requires a in Step(s, h, env, call).pools.allocations
    ensures MadeBefore(h.sha, a, Step(s, h, env, call).core.grantCount)
  {
    if a !in s.pools.allocations {
      if call.CallAllocateSeats? {
        AllocateMade(h, s, env, call.caller, call.id, call.organization, call.sub, call.seats, a);
      } else {
        OtherCallKeepsAllocations(s, h, env, call);
      }
    }
  }

  lemma OtherCallKeepsAllocations(s: State, h: Host, env: Env, call: Call)
    requires !call.CallAllocateSeats?
    ensures Step(s, h, env, call).pools.allocations.Keys == s.pools.allocations.Keys
  {
    if !call.CallRevokeAllocation? && !call.CallSetAllocationLimit? { OtherCallLeavesPools(s, h, env, call); }
  }

  // ---------------------------------------------------------------- runs

  lemma StepKeeps(h: Host, s: State, env: Env, call: Call)
    requires CollisionFree(h.sha) && Inv(h, s)
    ensures Inv(h, Step(s, h, env, call)) && Extends(s.core, Step(s, h, env, call).core)
  {
    var s' := Step(s, h, env, call);
    StepKeepsCore(h, s, env, call);
    forall id ensures RightsOk(s'.rights, id) { RightsKept(s, h, env, call, id); }
    forall id ensures PoolOk(s'.pools, id) { PoolsKept(h, s, env, call, id); }
    forall a | a in s'.pools.allocations ensures MadeBefore(h.sha, a, s'.core.grantCount) { AllocationsMade(h, s, env, call, a); }
  }

  lemma ExtendsTransitive(c: Core, c1: Core, c2: Core)
    requires Extends(c, c1) && Extends(c1, c2)
    ensures Extends(c, c2)
  {
  }

  lemma {:induction false} RunKeeps(h: Host, s: State, steps: seq<(Env, Call)>)
    requires CollisionFree(h.sha) && Inv(h, s)
    ensures Inv(h, Run(s, h, steps)) && Extends(s.core, Run(s, h, steps).core)
  {
    var n := |steps| - 1;
    if n >= 0 {
      var s1 := Run(s, h, steps[..n]);
      RunKeeps(h, s, steps[..n]);
      StepKeeps(h, s1, steps[n].0, steps[n].1);
      ExtendsTransitive(s.core, s1.core, Run(s, h, steps).core);
    } else {
      ExtendsReflexive(s.core);
    }
  }

  lemma Reachable(h: Host, steps: seq<(Env, Call)>)
    requires CollisionFree(h.sha)
    ensures Inv(h, Run(InitialState(), h, steps))
  {
    var s := InitialState();
    assert forall id :: RightsOk(s.rights, id);
    assert forall id :: PoolOk(s.pools, id);
    RunKeeps(h, s, steps);
  }

  // ---------------------------------------------------------------- what holders can rely on

  /** An active grant sits inside an active license at the same time. */
  lemma ActiveNested(h: Host, s: State, now: u64, id: Id)
    requires Inv(h, s) && IsGrantActive(s, now, id) == Some(true)
    ensures var g := s.core.grants[id];
            WindowOpen(s.core.licenses[g.license], now)
            && s.core.licenses[g.license].notBefore <= g.notBefore <= now < g.expires <= s.core.licenses[g.license].expires
  {
    assert GrantOk(h, s.core, id);
  }

  /** Once a license is revoked, no grant under it is ever active again, in any run and at any time. */
  lemma NoResurrection(h: Host, s: State, steps: seq<(Env, Call)>, id: Id, now: u64)
    requires CollisionFree(h.sha) && Inv(h, s) && id in s.core.grants
    requires var l := s.core.grants[id].license; l in s.core.licenses && s.core.licenses[l].status == Revoked
    ensures IsGrantActive(Run(s, h, steps), now, id) == Some(false)
  {
    assert GrantOk(h, s.core, id);
    RunKeeps(h, s, steps);
  }

  /** A nonce backs at most one grant: once consumed, it fails in every later state. */
  lemma NonceOnce(h: Host, s: State, env: Env, caller: Address, license: Id, grantee: Address, duration: u64, p: Proof,
                  steps: seq<(Env, Call)>, later: Env, caller': Address, license': Id, grantee': Address, duration': u64, p': Proof)
    requires CollisionFree(h.sha) && Inv(h, s) && p'.nonce == p.nonce
    requires DeriveAccessGrant(s, h, env, caller, license, grantee, duration, p).result.Ok?
    ensures var s' := Run(DeriveAccessGrant(s, h, env, caller, license, grantee, duration, p).state, h, steps);
            DeriveAccessGrant(s', h, later, caller', license', grantee', duration', p').result.Err?
  {
    StepKeeps(h, s, env, CallDeriveGrant(caller, license, grantee, duration, p));
    RunKeeps(h, DeriveAccessGrant(s, h, env, caller, license, grantee, duration, p).state, steps);
  }

  /** How often a run uses an offline grant. */
  function Uses(s: State, h: Host, steps: seq<(Env, Call)>, id: Id): nat {
    if steps == [] then 0
    else
      var n := |steps| - 1;
      var s1, env, c := Run(s, h, steps[..n]), steps[n].0, steps[n].1;
      Uses(s, h, steps[..n], id)
      + (if c.CallConsumeOffline? && c.id == id && ConsumeOffline(s1, env, c.caller, id, c.commitment).result.Ok? then 1 else 0)
  }

  /** Its counter counts exactly the successful uses of every run, so they never exceed the bound. */
  lemma {:induction false} UsesCounted(h: Host, s: State, steps: seq<(Env, Call)>, id: Id)
    requires CollisionFree(h.sha) && Inv(h, s) && id in s.core.offline
    ensures id in Run(s, h, steps).core.offline
    ensures Run(s, h, steps).core.offline[id].uses == s.core.offline[id].uses + Uses(s, h, steps, id)
    ensures s.core.offline[id].uses + Uses(s, h, steps, id) <= s.core.offline[id].maxUses
  {
    var n := |steps| - 1;
    RunKeeps(h, s, steps);
    assert OfflineOk(h, Run(s, h, steps).core, id);
    if n >= 0 {
      UsesCounted(h, s, steps[..n], id);
      RunKeeps(h, s, steps[..n]);
      StepUses(h, Run(s, h, steps[..n]), steps[n].0, steps[n].1, id);
    }
  }

  lemma OtherCallLeavesOffline(s: State, h: Host, env: Env, call: Call)
    requires !call.CallCreateOffline? && !call.CallConsumeOffline?
    ensures Step(s, h, env, call).core.offline == s.core.offline
  {
  }

  lemma CreateLeavesUses(h: Host, s: State, env: Env, caller: Address, grant: Id, expires: u64, maxUses: u32, id: Id)
    requires FreshIds(h, s.core) && id in s.core.offline
    ensures var c' := CreateOffline(s, h, env, caller, grant, expires, maxUses).state.core;
            id in c'.offline && c'.offline[id] == s.core.offline[id]
  {
  }

  lemma StepUses(h: Host, s: State, env: Env, c: Call, id: Id)
    requires CollisionFree(h.sha) && Inv(h, s) && id in s.core.offline
    ensures id in Step(s, h, env, c).core.offline
    ensures Step(s, h, env, c).core.offline[id].uses == s.core.offline[id].uses
            + (if c.CallConsumeOffline? && c.id == id && ConsumeOffline(s, env, c.caller, id, c.commitment).result.Ok? then 1 else 0)
  {
    match c
    case CallCreateOffline(a, g, x, n) =>
      NextIdsFresh(h, s.core);
      CreateLeavesUses(h, s, env, a, g, x, n, id);
    case CallConsumeOffline(_, _, _) =>
    case _ => OtherCallLeavesOffline(s, h, env, c);
  }

  // ---------------------------------------------------------------- what one call undoes

  /** Releasing a seat undoes its allocation. */
  lemma SeatRoundTrip(s: State, env: Env, caller: Address, id: Id, later: Env)
    requires AllocateSeat(s, env, caller, id).result.Ok? && caller in later.signers
    ensures id in s.core.licenses && AllocateSeat(s, env, caller, id).state.core.licenses[id].allocatedSeats
                                  == s.core.licenses[id].allocatedSeats + 1
    ensures ReleaseSeat(AllocateSeat(s, env, caller, id).state, later, caller, id) == Outcome(s, Ok(()))
  {
    var l := s.core.licenses[id];
    assert s.core.licenses[id := l.(allocatedSeats := l.allocatedSeats + 1)][id := l] == s.core.licenses;
  }

  /** A granted entitlement is held exactly while the license's window is open; revoking it ends it. No other entitlement
      is touched. */
  lemma EntitlementRoundTrip(h: Host, s: State, env: Env, caller: Address, license: Id, rendition: Rendition, mode: Mode,
                             later: Env, now: u64, other: Rendition, otherMode: Mode)
    requires Inv(h, s) && GrantEntitlement(s, env, caller, license, rendition, mode).result.Ok? && caller in later.signers
    ensures var s1 := GrantEntitlement(s, env, caller, license, rendition, mode).state;
            var o := RevokeEntitlement(s1, later, caller, license, rendition, mode);
            && license in s.core.licenses && o.result.Ok?
            && IsEntitled(s1, now, license, rendition, mode) == Some(WindowOpen(s.core.licenses[license], now))
            && IsEntitled(o.state, now, license, rendition, mode) == Some(false)
            && ((other, otherMode) != (rendition, mode) ==>
                  IsEntitled(s1, now, license, other, otherMode) == IsEntitled(s, now, license, other, otherMode)
                  == IsEntitled(o.state, now, license, other, otherMode))
  {
  }

  /** A license is granted under an identifier of its own, with the terms asked for and no seat taken; every other license
      stands. */
  lemma LicenseGranted(h: Host, s: State, env: Env, caller: Address, work: Id, licensee: Address, rights: string,
                       notBefore: u64, expires: u64, seats: u32)
    requires CollisionFree(h.sha) && Inv(h, s)
    requires GrantLicense(s, h, env, caller, work, licensee, rights, notBefore, expires, seats).result.Ok?
    ensures var o := GrantLicense(s, h, env, caller, work, licensee, rights, notBefore, expires, seats);
            && o.result.value !in s.core.licenses && notBefore < expires
            && o.state.core.licenses
               == s.core.licenses[o.result.value := License(work, licensee, rights, notBefore, expires, Active, seats, 0)]
  {
    NextIdsFresh(h, s.core);
    LicenseIdFresh(h, s, env.now, work, licensee);
  }
}
