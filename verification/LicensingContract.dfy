/** The licensing contract as it runs: storage updated in place, each entry point proved against its transition. */
module LicensingContracts {
  import opened Wrappers
  import opened Soroban
  import opened Hashing
  import opened Bytes
  import L = Licensing
  import Theorems = LicensingTheorems

  type Error = L.Error

  class LicensingContract {
    const host: L.Host
    var admin: Option<Address>
    var caps: map<(Address, L.Capability), u64>
    var licenseCount: u64
    var grantCount: u64
    var licenses: map<Id, L.License>
    var enrollments: map<Id, L.Enrollment>
    var nonces: set<Id>
    var grants: map<Id, L.Grant>
    var revocations: map<Id, L.Revocation>
    var sessions: map<Id, L.Session>
    var offline: map<Id, L.Offline>
    var entitlements: map<(Id, (L.Rendition, L.Mode)), u64>
    var keys: map<Id, seq<(L.Rendition, L.Mode)>>
    var limits: map<Id, int>
    var totals: map<Id, int>
    var allocations: map<Id, L.Allocation>

    ghost function St(): L.State
      reads this
    {
      L.State(admin, caps,
              L.Core(licenseCount, grantCount, licenses, enrollments, nonces, grants, revocations, sessions, offline),
              L.Rights(entitlements, keys),
              L.Pools(limits, totals, allocations))
    }

    /** The invariant that every run keeps. */
    ghost predicate Valid()
      reads this
    {
      Theorems.Inv(host, St())
    }

    lemma Kept(env: Env, c: L.Call)
      ensures CollisionFree(host.sha) && Valid() ==> Theorems.Inv(host, L.Step(St(), host, env, c))
    {
      if CollisionFree(host.sha) && Valid() { Theorems.StepKeeps(host, St(), env, c); }
    }

    constructor (h: L.Host)
      ensures St() == L.InitialState() && host == h
      ensures CollisionFree(h.sha) ==> Valid()
    {
      host, admin, caps, licenseCount, grantCount, nonces := h, None, map[], 0, 0, {};
      licenses, enrollments, grants, revocations, sessions, offline := map[], map[], map[], map[], map[], map[];
      entitlements, keys, limits, totals, allocations := map[], map[], map[], map[], map[];
      new;
      if CollisionFree(h.sha) { Theorems.Reachable(h, []); }
    }

    method RequireAdmin(env: Env, caller: Address) returns (r: Result<(), Error>)
      ensures r == match L.AdminError(St(), env, caller) { case None => Ok(()) case Some(e) => Err(e) }
    {
      if admin.None? { return Err(L.NotInitialized); }
      if caller != admin.value { return Err(L.Unauthorized); }
      if caller !in env.signers { return Err(L.Aborted); }
      return Ok(());
    }

    method RequireCapability(env: Env, caller: Address, cap: L.Capability) returns (r: Result<(), Error>)
      ensures r == match L.CapabilityError(St(), env, caller, cap) { case None => Ok(()) case Some(e) => Err(e) }
    {
      if admin.None? { return Err(L.NotInitialized); }
      if caller != admin.value {
        if (caller, cap) !in caps { return Err(L.CapabilityNotGranted); }
        var expiry := caps[(caller, cap)];
        if expiry != 0 && env.now >= expiry { return Err(L.CapabilityExpired); }
      }
      if caller !in env.signers { return Err(L.Aborted); }
      return Ok(());
    }

    method SetAdmin(env: Env, newAdmin: Address) returns (r: Result<(), Error>)
      modifies this
      ensures L.Outcome(St(), r) == L.SetAdmin(old(St()), env, newAdmin)
      ensures CollisionFree(host.sha) && old(Valid()) ==> Valid()
    {
      Kept(env, L.CallSetAdmin(newAdmin));
      if admin.Some? { return Err(L.AlreadyInitialized); }
      if newAdmin !in env.signers { return Err(L.Aborted); }
      admin := Some(newAdmin);
      return Ok(());
    }

    method GrantLicense(env: Env, caller: Address, work: Id, licensee: Address, rights: string, notBefore: u64, expires: u64,
                        seats: u32) returns (r: Result<Id, Error>)
      modifies this
      ensures L.Outcome(St(), r) == L.GrantLicense(old(St()), host, env, caller, work, licensee, rights, notBefore, expires, seats)
      ensures CollisionFree(host.sha) && old(Valid()) ==> Valid()
    {
      Kept(env, L.CallGrantLicense(caller, work, licensee, rights, notBefore, expires, seats));
      var check := RequireCapability(env, caller, L.Cataloger);
      if check.Err? { return Err(check.error); }
      if rights == "" { return Err(L.InvalidRights); }
      if notBefore >= expires { return Err(L.InvalidWindow); }
      if seats == 0 { return Err(L.InvalidSeats); }
      if licenseCount == MAX_U64 { return Err(L.WindowOverflow); }
      licenseCount := licenseCount + 1;
      var id := L.DeriveId(host, licenseCount, env.now, host.raw(work) + host.xdr(licensee));
      licenses := licenses[id := L.License(work, licensee, rights, notBefore, expires, L.Active, seats, 0)];
      return Ok(id);
    }

    method RevokeLicense(env: Env, caller: Address, id: Id) returns (r: Result<(), Error>)
      modifies this
      ensures L.Outcome(St(), r) == L.RevokeLicense(old(St()), env, caller, id)
      ensures CollisionFree(host.sha) && old(Valid()) ==> Valid()
    {
      Kept(env, L.CallRevokeLicense(caller, id));
      r := RequireCapability(env, caller, L.Circulation);
      if r.Err? { return; }
      if id !in licenses { return Err(L.NotFound); }
      var l := licenses[id];
      if l.status != L.Active { return Err(L.LicenseRevoked); }
      licenses := licenses[id := l.(status := L.Revoked)];
    }

    method ScheduleRevocation(env: Env, caller: Address, id: Id, effectiveAt: u64, preservedUntil: u64, reason: Id)
      returns (r: Result<(), Error>)
      modifies this
      ensures L.Outcome(St(), r) == L.ScheduleRevocation(old(St()), env, caller, id, effectiveAt, preservedUntil, reason)
      ensures CollisionFree(host.sha) && old(Valid()) ==> Valid()
    {
      Kept(env, L.CallScheduleRevocation(caller, id, effectiveAt, preservedUntil, reason));
      r := RequireCapability(env, caller, L.Circulation);
      if r.Err? { return; }
      if reason == 0 || effectiveAt > preservedUntil { return Err(L.InvalidCommitment); }
      if id !in licenses { return Err(L.NotFound); }
      revocations := revocations[id := L.Revocation(effectiveAt, reason, preservedUntil, false)];
    }

    method ApplyRevocation(env: Env, caller: Address, id: Id) returns (r: Result<(), Error>)
      modifies this
      ensures L.Outcome(St(), r) == L.ApplyRevocation(old(St()), env, caller, id)
      ensures CollisionFree(host.sha) && old(Valid()) ==> Valid()
    {
      Kept(env, L.CallApplyRevocation(caller, id));
      r := RequireCapability(env, caller, L.Circulation);
      if r.Err? { return; }
      if id !in revocations { return Err(L.RevocationNotFound); }
      var record := revocations[id];
      if env.now < record.effectiveAt { return Err(L.RevocationNotEffective); }
      if record.applied { return Err(L.LicenseRevoked); }
      if id !in licenses { return Err(L.NotFound); }
      licenses := licenses[id := licenses[id].(status := L.Revoked)];
      revocations := revocations[id := record.(applied := true)];
    }

    method RecordEnrollment(env: Env, caller: Address, course: Id, learner: Address, expires: u64, nonce: Id)
      returns (r: Result<(), Error>)
      modifies this
      ensures L.Outcome(St(), r) == L.RecordEnrollment(old(St()), env, caller, course, learner, expires, nonce)
      ensures CollisionFree(host.sha) && old(Valid()) ==> Valid()
    {
      Kept(env, L.CallRecordEnrollment(caller, course, learner, expires, nonce));
      r := RequireAdmin(env, caller);
      if r.Ok? { enrollments := enrollments[nonce := L.Enrollment(course, learner, expires)]; }
    }

    method CheckProof(env: Env, caller: Address, l: L.License, p: L.Proof) returns (r: Option<Error>)
      ensures r == L.ProofError(St(), env, caller, l, p)
    {
      if p.learner != caller { return Some(L.ProofLearnerMismatch); }
      if p.course != l.work { return Some(L.ProofCourseMismatch); }
      if p.nonce !in enrollments { return Some(L.EnrollmentRequired); }
      var enrollment := enrollments[p.nonce];
      if enrollment.course != l.work || enrollment.learner != caller { return Some(L.EnrollmentRequired); }
      if p.nonce in nonces { return Some(L.ProofReplayed); }
      if env.now >= p.expires { return Some(L.EnrollmentExpired); }
      return None;
    }

    /** The licensee, or a holder of the circulation capability. */
    method CheckDeriver(env: Env, caller: Address, l: L.License) returns (r: Option<Error>)
      ensures r == L.DeriverError(St(), env, caller, l)
      ensures r.None? ==> caller in env.signers
    {
      if caller == l.licensee {
        return if caller in env.signers then None else Some(L.Aborted);
      }
      var check := RequireCapability(env, caller, L.Circulation);
      return match check { case Ok(_) => None case Err(e) => Some(e) };
    }

    method DeriveAccessGrant(env: Env, caller: Address, license: Id, grantee: Address, duration: u64, p: L.Proof)
      returns (r: Result<Id, Error>)
      modifies this
      ensures L.Outcome(St(), r) == L.DeriveAccessGrant(old(St()), host, env, caller, license, grantee, duration, p)
      ensures CollisionFree(host.sha) && old(Valid()) ==> Valid()
    {
      Kept(env, L.CallDeriveGrant(caller, license, grantee, duration, p));
      r := Derive(env, caller, license, grantee, duration, p);
    }

    method Derive(env: Env, caller: Address, license: Id, grantee: Address, duration: u64, p: L.Proof)
      returns (r: Result<Id, Error>)
      modifies this
      ensures L.Outcome(St(), r) == L.DeriveAccessGrant(old(St()), host, env, caller, license, grantee, duration, p)
    {
      if duration == 0 { return Err(L.InvalidDuration); }
      if license !in licenses { return Err(L.NotFound); }
      var l := licenses[license];
      var failure := CheckDeriver(env, caller, l);
      if failure.Some? { return Err(failure.value); }
      failure := CheckProof(env, caller, l, p);
      if failure.Some? { return Err(failure.value); }
      failure := L.LicenseError(l, env.now);
      if failure.Some? { return Err(failure.value); }
      if env.now + duration > MAX_U64 { return Err(L.WindowOverflow); }
      if grantCount == MAX_U64 { return Err(L.WindowOverflow); }
      var requested: u64 := env.now + duration;
      var expires := if requested < l.expires then requested else l.expires;
      var commitment := L.Commitment(host, license, grantee, l.work, expires);
      var id := L.DeriveId(host, grantCount + 1, env.now, host.raw(license) + host.xdr(grantee));
      r := Issue(id, L.Grant(license, grantee, l.work, env.now, expires, commitment), p.nonce);
    }

    /** Consumes the nonce, advances the counter and files the grant. */
    method Issue(id: Id, g: L.Grant, nonce: Id) returns (r: Result<Id, Error>)
      requires grantCount < MAX_U64
      modifies this
      ensures L.Outcome(St(), r) == L.Issue(old(St()), id, g, nonce)
    {
      nonces := nonces + {nonce};
      grantCount := grantCount + 1;
      grants := grants[id := g];
      return Ok(id);
    }

    function IsGrantActive(now: u64, id: Id): Option<bool>
      reads this
      ensures IsGrantActive(now, id) == L.IsGrantActive(St(), now, id)
    {
      if id !in grants || grants[id].license !in licenses then None
      else
        var g, l := grants[id], licenses[grants[id].license];
        var licenseOk := l.status == L.Active && now >= l.notBefore && now < l.expires;
        var grantOk := now >= g.notBefore && now < g.expires;
        Some(licenseOk && grantOk)
    }

    method CreateSession(env: Env, caller: Address, grant: Id, key: Id, duration: u64) returns (r: Result<Id, Error>)
      modifies this
      ensures L.Outcome(St(), r) == L.CreateSession(old(St()), host, env, caller, grant, key, duration)
      ensures CollisionFree(host.sha) && old(Valid()) ==> Valid()
    {
      Kept(env, L.CallCreateSession(caller, grant, key, duration));
      r := OpenSession(env, caller, grant, key, duration);
    }

    method OpenSession(env: Env, caller: Address, grant: Id, key: Id, duration: u64) returns (r: Result<Id, Error>)
      modifies this
      ensures L.Outcome(St(), r) == L.CreateSession(old(St()), host, env, caller, grant, key, duration)
    {
      if caller !in env.signers { return Err(L.Aborted); }
      if duration == 0 { return Err(L.InvalidDuration); }
      if grant !in grants { return Err(L.NotFound); }
      var g := grants[grant];
      if caller != g.grantee || IsGrantActive(env.now, grant) != Some(true) { return Err(L.Expired); }
      if env.now + duration > MAX_U64 { return Err(L.WindowOverflow); }
      if env.now + duration > g.expires { return Err(L.InvalidWindow); }
      if grantCount == MAX_U64 { return Err(L.WindowOverflow); }
      var id := L.DeriveId(host, grantCount + 1, env.now, host.raw(grant) + host.raw(key));
      FileSession(id, L.Session(grant, caller, key, env.now + duration));
      return Ok(id);
    }

    method FileSession(id: Id, session: L.Session)
      requires grantCount < MAX_U64
      modifies this`grantCount, this`sessions
      ensures grantCount == old(grantCount) + 1 && sessions == old(sessions)[id := session]
    {
      grantCount := grantCount + 1;
      sessions := sessions[id := session];
    }

    method CreateOffline(env: Env, caller: Address, grant: Id, expires: u64, maxUses: u32) returns (r: Result<Id, Error>)
      modifies this
      ensures L.Outcome(St(), r) == L.CreateOffline(old(St()), host, env, caller, grant, expires, maxUses)
      ensures CollisionFree(host.sha) && old(Valid()) ==> Valid()
    {
      Kept(env, L.CallCreateOffline(caller, grant, expires, maxUses));
      r := PrepareOffline(env, caller, grant, expires, maxUses);
    }

    method PrepareOffline(env: Env, caller: Address, grant: Id, expires: u64, maxUses: u32) returns (r: Result<Id, Error>)
      modifies this
      ensures L.Outcome(St(), r) == L.CreateOffline(old(St()), host, env, caller, grant, expires, maxUses)
    {
      if caller !in env.signers { return Err(L.Aborted); }
      if maxUses == 0 { return Err(L.InvalidDuration); }
      if grant !in grants { return Err(L.NotFound); }
      var g := grants[grant];
      if caller != g.grantee || expires <= env.now || expires > g.expires { return Err(L.InvalidWindow); }
      if IsGrantActive(env.now, grant) != Some(true) { return Err(L.Expired); }
      if grantCount == MAX_U64 { return Err(L.WindowOverflow); }
      var input := host.raw(grant) + host.raw(g.license) + host.xdr(caller) + ToBE(expires, 8) + ToBE(maxUses, 4);
      var id := L.DeriveId(host, grantCount + 1, env.now, input);
      FileOffline(id, L.Offline(grant, caller, host.sha(input), expires, maxUses, 0, true));
      return Ok(id);
    }

    method FileOffline(id: Id, o: L.Offline)
      requires grantCount < MAX_U64
      modifies this`grantCount, this`offline
      ensures grantCount == old(grantCount) + 1 && offline == old(offline)[id := o]
    {
      grantCount := grantCount + 1;
      offline := offline[id := o];
    }

    method ConsumeOffline(env: Env, caller: Address, id: Id, commitment: Id) returns (r: Result<(), Error>)
      modifies this
      ensures L.Outcome(St(), r) == L.ConsumeOffline(old(St()), env, caller, id, commitment)
      ensures CollisionFree(host.sha) && old(Valid()) ==> Valid()
    {
      Kept(env, L.CallConsumeOffline(caller, id, commitment));
      if caller !in env.signers { return Err(L.Aborted); }
      if id !in offline { return Err(L.OfflineGrantNotFound); }
      var o := offline[id];
      if o.grantee != caller || !o.active || commitment != o.commitment { return Err(L.Unauthorized); }
      if env.now >= o.expires { return Err(L.OfflineGrantExpired); }
      if o.uses >= o.maxUses { return Err(L.OfflineGrantExhausted); }
      if IsGrantActive(env.now, o.grant) != Some(true) { return Err(L.Expired); }
      o := o.(uses := o.uses + 1);
      if o.uses == o.maxUses {
        o := o.(active := false);
      }
      offline := offline[id := o];
      return Ok(());
    }

    method GrantEntitlement(env: Env, caller: Address, license: Id, rendition: L.Rendition, mode: L.Mode)
      returns (r: Result<(), Error>)
      modifies this
      ensures L.Outcome(St(), r) == L.GrantEntitlement(old(St()), env, caller, license, rendition, mode)
      ensures CollisionFree(host.sha) && old(Valid()) ==> Valid()
    {
      Kept(env, L.CallGrantEntitlement(caller, license, rendition, mode));
      r := RequireAdmin(env, caller);
      if r.Err? { return; }
      if license !in licenses { return Err(L.NotFound); }
      if licenses[license].status != L.Active { return Err(L.LicenseRevoked); }
      var k := (rendition, mode);
      if (license, k) in entitlements { return Ok(()); }
      var list := if license in keys then keys[license] else [];
      if |list| >= MAX_U32 { return Err(L.Overflow); }
      AddEntitlement(license, k, env.now);
    }

    /** Lists the key and stores the entitlement. */
    method AddEntitlement(license: Id, k: (L.Rendition, L.Mode), now: u64)
      modifies this`keys, this`entitlements
      ensures St().rights == L.Rights(old(St().rights.entitlements)[(license, k) := now],
                                      old(St().rights.keys)[license := L.Keys(old(St().rights), license) + [k]])
    {
      var list := if license in keys then keys[license] else [];
      keys := keys[license := list + [k]];
      entitlements := entitlements[(license, k) := now];
    }

    method RevokeEntitlement(env: Env, caller: Address, license: Id, rendition: L.Rendition, mode: L.Mode)
      returns (r: Result<(), Error>)
      modifies this
      ensures L.Outcome(St(), r) == L.RevokeEntitlement(old(St()), env, caller, license, rendition, mode)
      ensures CollisionFree(host.sha) && old(Valid()) ==> Valid()
    {
      Kept(env, L.CallRevokeEntitlement(caller, license, rendition, mode));
      r := RequireAdmin(env, caller);
      if r.Err? { return; }
      var k := (rendition, mode);
      if (license, k) !in entitlements { return Err(L.EntitlementNotFound); }
      RemoveEntitlement(license, k);
    }

    /** Takes one position out of the key list, and the entitlement. */
    method RemoveEntitlement(license: Id, k: (L.Rendition, L.Mode))
      modifies this`keys, this`entitlements
      ensures St().rights == L.Without(old(St().rights), license, k)
    {
      var list := if license in keys then keys[license] else [];
      keys := keys[license := L.RemoveFirst(list, k)];
      entitlements := entitlements - {(license, k)};
    }

    method Entitlements(license: Id, from: u32, limit: u32) returns (page: seq<((L.Rendition, L.Mode), u64)>)
      ensures page == L.Entitlements(St(), license, from, limit)
    {
      var list := if license in keys then keys[license] else [];
      page := [];
      if from >= |list| || limit == 0 { return; }
      var end: int := if from + limit > MAX_U32 then MAX_U32 else from + limit;
      if end > |list| {
        end := |list|;
      }
      assert list == L.Keys(St().rights, license);
      var i: int := from;
      while i < end
        invariant from <= i && (i <= end || i == from)
        invariant page + L.Collect(St().rights, license, i, end) == L.Collect(St().rights, license, from, end)
        decreases end - i
      {
        CollectNext(St().rights, license, i, end, page);
        if (license, list[i]) in entitlements {
          page := page + [(list[i], entitlements[(license, list[i])])];
        }
        i := i + 1;
      }
      assert page + [] == page;
    }

    static lemma CollectNext(r: L.Rights, license: Id, lo: int, hi: int, page: seq<((L.Rendition, L.Mode), u64)>)
      requires 0 <= lo < hi <= |L.Keys(r, license)|
      ensures var k := L.Keys(r, license)[lo];
              page + L.Collect(r, license, lo, hi)
              == (if (license, k) in r.entitlements then page + [(k, r.entitlements[(license, k)])] else page)
               + L.Collect(r, license, lo + 1, hi)
    {
      var k := L.Keys(r, license)[lo];
      if (license, k) in r.entitlements {
        var entry, rest := (k, r.entitlements[(license, k)]), L.Collect(r, license, lo + 1, hi);
        assert page + ([entry] + rest) == page + [entry] + rest;
      }
    }

    method AllocateSeat(env: Env, caller: Address, id: Id) returns (r: Result<(), Error>)
      modifies this
      ensures L.Outcome(St(), r) == L.AllocateSeat(old(St()), env, caller, id)
      ensures CollisionFree(host.sha) && old(Valid()) ==> Valid()
    {
      Kept(env, L.CallAllocateSeat(caller, id));
      if id !in licenses { return Err(L.NotFound); }
      var l := licenses[id];
      if caller != l.licensee { return Err(L.Unauthorized); }
      if caller !in env.signers { return Err(L.Aborted); }
      if env.now < l.notBefore { return Err(L.NotYetActive); }
      if env.now >= l.expires { return Err(L.Expired); }
      if l.status != L.Active { return Err(L.LicenseRevoked); }
      if l.allocatedSeats >= l.totalSeats { return Err(L.NoSeatsAvailable); }
      licenses := licenses[id := l.(allocatedSeats := l.allocatedSeats + 1)];
      return Ok(());
    }

    method ReleaseSeat(env: Env, caller: Address, id: Id) returns (r: Result<(), Error>)
      modifies this
      ensures L.Outcome(St(), r) == L.ReleaseSeat(old(St()), env, caller, id)
      ensures CollisionFree(host.sha) && old(Valid()) ==> Valid()
    {
      Kept(env, L.CallReleaseSeat(caller, id));
      if id !in licenses { return Err(L.NotFound); }
      var l := licenses[id];
      if caller != l.licensee { return Err(L.Unauthorized); }
      if caller !in env.signers { return Err(L.Aborted); }
      if l.allocatedSeats == 0 { return Err(L.NoSeatsAllocated); }
      licenses := licenses[id := l.(allocatedSeats := l.allocatedSeats - 1)];
      return Ok(());
    }

    method SetAllocationLimit(env: Env, caller: Address, id: Id, limit: u32) returns (r: Result<(), Error>)
      modifies this
      ensures L.Outcome(St(), r) == L.SetAllocationLimit(old(St()), env, caller, id, limit)
      ensures CollisionFree(host.sha) && old(Valid()) ==> Valid()
    {
      Kept(env, L.CallSetAllocationLimit(caller, id, limit));
      if limit == 0 { return Err(L.InvalidSeats); }
      if id !in licenses { return Err(L.NotFound); }
      if caller != licenses[id].licensee { return Err(L.Unauthorized); }
      if caller !in env.signers { return Err(L.Aborted); }
      if limit < Get(totals, id) { return Err(L.AllocationExceeded); }
      limits := limits[id := limit];
      return Ok(());
    }

    method AllocateSeats(env: Env, caller: Address, id: Id, organization: Address, sub: Address, seats: u32)
      returns (r: Result<Id, Error>)
      modifies this
      ensures L.Outcome(St(), r) == L.AllocateSeats(old(St()), host, env, caller, id, organization, sub, seats)
      ensures CollisionFree(host.sha) && old(Valid()) ==> Valid()
    {
      Kept(env, L.CallAllocateSeats(caller, id, organization, sub, seats));
      r := AllocateIfAllowed(env, caller, id, organization, sub, seats);
    }

    method AllocateIfAllowed(env: Env, caller: Address, id: Id, organization: Address, sub: Address, seats: u32)
      returns (r: Result<Id, Error>)
      modifies this
      ensures L.Outcome(St(), r) == L.AllocateSeats(old(St()), host, env, caller, id, organization, sub, seats)
    {
      var failure := CheckAllocation(env, caller, id, organization, seats);
      if failure.Some? { return Err(failure.value); }
      var a := L.DeriveId(host, grantCount + 1, env.now, host.raw(id) + host.xdr(sub));
      FileAllocation(a, L.Allocation(id, sub, seats, licenses[id].expires, true));
      return Ok(a);
    }

    method CheckAllocation(env: Env, caller: Address, id: Id, organization: Address, seats: u32) returns (r: Option<Error>)
      ensures r == L.AllocationError(St(), env, caller, id, organization, seats)
    {
      if seats == 0 { return Some(L.InvalidSeats); }
      if id !in licenses { return Some(L.NotFound); }
      var l := licenses[id];
      if caller != l.licensee || organization != l.licensee { return Some(L.Unauthorized); }
      if caller !in env.signers { return Some(L.Aborted); }
      if l.status != L.Active { return Some(L.LicenseRevoked); }
      if env.now < l.notBefore { return Some(L.NotYetActive); }
      if env.now >= l.expires { return Some(L.Expired); }
      if id !in limits { return Some(L.InvalidSeats); }
      var next := Get(totals, id) + seats;
      if next > MAX_U32 || next > limits[id] { return Some(L.AllocationExceeded); }
      if grantCount == MAX_U64 { return Some(L.WindowOverflow); }
      return None;
    }

    method FileAllocation(a: Id, alloc: L.Allocation)
      requires grantCount < MAX_U64
      modifies this`grantCount, this`allocations, this`totals
      ensures grantCount == old(grantCount) + 1 && St().pools == L.WithAllocation(old(St().pools), a, alloc)
    {
      grantCount := grantCount + 1;
      allocations := allocations[a := alloc];
      totals := totals[alloc.license := Get(totals, alloc.license) + alloc.seats];
    }

    method RevokeAllocation(env: Env, caller: Address, a: Id) returns (r: Result<(), Error>)
      modifies this
      ensures L.Outcome(St(), r) == L.RevokeAllocation(old(St()), env, caller, a)
      ensures CollisionFree(host.sha) && old(Valid()) ==> Valid()
    {
      Kept(env, L.CallRevokeAllocation(caller, a));
      r := EndIfAllowed(env, caller, a);
    }

    method EndIfAllowed(env: Env, caller: Address, a: Id) returns (r: Result<(), Error>)
      modifies this
      ensures L.Outcome(St(), r) == L.RevokeAllocation(old(St()), env, caller, a)
    {
      var failure := CheckEnding(env, caller, a);
      if failure.Some? { return Err(failure.value); }
      EndAllocation(a);
      return Ok(());
    }

    method CheckEnding(env: Env, caller: Address, a: Id) returns (r: Option<Error>)
      ensures r == L.EndingError(St(), env, caller, a)
    {
      if a !in allocations { return Some(L.NotFound); }
      var alloc := allocations[a];
      if alloc.license !in licenses { return Some(L.NotFound); }
      if caller != licenses[alloc.license].licensee { return Some(L.Unauthorized); }
      if caller !in env.signers { return Some(L.Aborted); }
      if !alloc.active { return Some(L.NotFound); }
      return None;
    }

    /** Ends the allocation and takes its seats off the total, saturating at zero. */
    method EndAllocation(a: Id)
      requires a in allocations
      modifies this`allocations, this`totals
      ensures St().pools == L.WithoutAllocation(old(St().pools), a)
    {
      var alloc := allocations[a];
      allocations := allocations[a := alloc.(active := false)];
      var total := Get(totals, alloc.license);
      totals := totals[alloc.license := if total < alloc.seats then 0 else total - alloc.seats];
    }
  }
}
