/** Library licensing: licenses, enrollment-gated access grants, reader sessions, offline grants, seats, entitlements and
    institutional allocations. */
module Licensing {
  import opened Wrappers
  import opened Soroban
  import opened Bytes
  import opened Hashing

  /** Nonces and commitments are 32-byte values like identifiers; 0 is the all-zero value. */
  type Rendition = Id

  /** What the host computes: SHA-256, the serialization of an address, and the bytes of an identifier. */
  datatype Host = Host(sha: Sha, xdr: Address -> seq<Byte>, raw: Id -> seq<Byte>)

  datatype Capability = Cataloger | Circulation

  datatype Status = Active | Revoked

  datatype Mode = Borrow | AccessibleAlternative

  datatype License = License(work: Id, licensee: Address, rights: string, notBefore: u64, expires: u64, status: Status,
                             totalSeats: u32, allocatedSeats: u32)

  datatype Enrollment = Enrollment(course: Id, learner: Address, expires: u64)

  datatype Proof = Proof(course: Id, learner: Address, expires: u64, nonce: Id)

  datatype Grant = Grant(license: Id, grantee: Address, rendition: Id, notBefore: u64, expires: u64, commitment: Id)

  datatype Revocation = Revocation(effectiveAt: u64, reason: Id, preservedUntil: u64, applied: bool)

  datatype Session = Session(grant: Id, grantee: Address, key: Id, expires: u64)

  datatype Offline = Offline(grant: Id, grantee: Address, commitment: Id, expires: u64, maxUses: u32, uses: u32, active: bool)

  datatype Allocation = Allocation(license: Id, subAccount: Address, seats: u32, expires: u64, active: bool)

  /** Aborted is a missing authorization. */
  datatype Error = NotInitialized | AlreadyInitialized | Unauthorized | NotFound | InvalidWindow | WindowOverflow
                 | NotYetActive | Expired | LicenseRevoked | InvalidDuration | InvalidRights | InvalidSeats
                 | NoSeatsAvailable | NoSeatsAllocated | EntitlementNotFound | AllocationExceeded | CapabilityNotGranted
                 | CapabilityExpired | ProofLearnerMismatch | ProofCourseMismatch | EnrollmentRequired | ProofReplayed
                 | EnrollmentExpired | RevocationNotFound | RevocationNotEffective | InvalidCommitment
                 | OfflineGrantNotFound | OfflineGrantExpired | OfflineGrantExhausted | Overflow | Aborted

  /** Licenses and everything derived from them. */
  datatype Core = Core(
    licenseCount: u64,
    grantCount: u64,
    licenses: map<Id, License>,
    enrollments: map<Id, Enrollment>,
    nonces: set<Id>,
    grants: map<Id, Grant>,
    revocations: map<Id, Revocation>,
    sessions: map<Id, Session>,
    offline: map<Id, Offline>)

  /** The entitlements of the licenses, with the time they were granted, and their ordered keys. */
  datatype Rights = Rights(entitlements: map<(Id, (Rendition, Mode)), u64>, keys: map<Id, seq<(Rendition, Mode)>>)

  /** The institutional allocations of the licenses. */
  datatype Pools = Pools(limits: map<Id, int>, totals: map<Id, int>, allocations: map<Id, Allocation>)

  datatype State = State(admin: Option<Address>, caps: map<(Address, Capability), u64>, core: Core, rights: Rights, pools: Pools)

  datatype Outcome<+T> = Outcome(state: State, result: Result<T, Error>)

  function InitialState(): State {
    State(None, map[], Core(0, 0, map[], map[], {}, map[], map[], map[], map[]), Rights(map[], map[]), Pools(map[], map[], map[]))
  }

  function Fail<T>(s: State, e: Error): Outcome<T> {
    Outcome(s, Err(e))
  }

  // ---------------------------------------------------------------- authority and identifiers

  function AdminError(s: State, env: Env, caller: Address): Option<Error> {
    if s.admin.None? then Some(NotInitialized)
    else if caller != s.admin.value then Some(Unauthorized)
    else if caller !in env.signers then Some(Aborted)
    else None
  }

  /** The admin holds every capability; an expiry of 0 is no expiry. */
  function CapabilityError(s: State, env: Env, caller: Address, cap: Capability): Option<Error> {
    if s.admin.None? then Some(NotInitialized)
    else if caller != s.admin.value && (caller, cap) !in s.caps then Some(CapabilityNotGranted)
    else if caller != s.admin.value && s.caps[(caller, cap)] != 0 && env.now >= s.caps[(caller, cap)] then Some(CapabilityExpired)
    else if caller !in env.signers then Some(Aborted)
    else None
  }

  /** The identifier of the n-th record of a counter. */
  function DeriveId(h: Host, n: u64, now: u64, salt: seq<Byte>): Id {
    h.sha(ToBE(n, 8) + ToBE(now, 8) + salt)
  }

  function Commitment(h: Host, loan: Id, patron: Address, rendition: Id, expires: u64): Id {
    h.sha(h.raw(loan) + h.xdr(patron) + h.raw(rendition) + ToBE(expires, 8))
  }

  // ---------------------------------------------------------------- licenses

  function SetAdmin(s: State, env: Env, admin: Address): Outcome<()> {
    if s.admin.Some? then Fail(s, AlreadyInitialized)
    else if admin !in env.signers then Fail(s, Aborted)
    else Outcome(s.(admin := Some(admin)), Ok(()))
  }

  function FileLicense(s: State, id: Id, l: License): Outcome<Id>
    requires s.core.licenseCount < MAX_U64
  {
    Outcome(s.(core := s.core.(licenseCount := s.core.licenseCount + 1, licenses := s.core.licenses[id := l])), Ok(id))
  }

  function LicenseId(s: State, h: Host, now: u64, work: Id, licensee: Address): Id
    requires s.core.licenseCount < MAX_U64
  {
    DeriveId(h, s.core.licenseCount + 1, now, h.raw(work) + h.xdr(licensee))
  }

  function GrantLicense(s: State, h: Host, env: Env, caller: Address, work: Id, licensee: Address, rights: string,
                        notBefore: u64, expires: u64, seats: u32): Outcome<Id>
  {
    match CapabilityError(s, env, caller, Cataloger)
    case Some(e) => Fail(s, e)
    case None =>
      if rights == "" then Fail(s, InvalidRights)
      else if notBefore >= expires then Fail(s, InvalidWindow)
      else if seats == 0 then Fail(s, InvalidSeats)
      else if s.core.licenseCount == MAX_U64 then Fail(s, WindowOverflow)
      else
        FileLicense(s, LicenseId(s, h, env.now, work, licensee),
                    License(work, licensee, rights, notBefore, expires, Active, seats, 0))
  }

  function WithLicense(s: State, id: Id, l: License): State {
    s.(core := s.core.(licenses := s.core.licenses[id := l]))
  }

  function RevokeLicense(s: State, env: Env, caller: Address, id: Id): Outcome<()> {
    match CapabilityError(s, env, caller, Circulation)
    case Some(e) => Fail(s, e)
    case None =>
      if id !in s.core.licenses then Fail(s, NotFound)
      else if s.core.licenses[id].status != Active then Fail(s, LicenseRevoked)
      else Outcome(WithLicense(s, id, s.core.licenses[id].(status := Revoked)), Ok(()))
  }

  function ScheduleRevocation(s: State, env: Env, caller: Address, id: Id, effectiveAt: u64, preservedUntil: u64, reason: Id): Outcome<()> {
    match CapabilityError(s, env, caller, Circulation)
    case Some(e) => Fail(s, e)
    case None =>
      if reason == 0 || effectiveAt > preservedUntil then Fail(s, InvalidCommitment)
      else if id !in s.core.licenses then Fail(s, NotFound)
      else Outcome(s.(core := s.core.(revocations :=
                     s.core.revocations[id := Revocation(effectiveAt, reason, preservedUntil, false)])), Ok(()))
  }

  function ApplyRevocation(s: State, env: Env, caller: Address, id: Id): Outcome<()> {
    match CapabilityError(s, env, caller, Circulation)
    case Some(e) => Fail(s, e)
    case None =>
      if id !in s.core.revocations then Fail(s, RevocationNotFound)
      else
        var r := s.core.revocations[id];
        if env.now < r.effectiveAt then Fail(s, RevocationNotEffective)
        else if r.applied then Fail(s, LicenseRevoked)
        else if id !in s.core.licenses then Fail(s, NotFound)
        else Outcome(s.(core := s.core.(licenses := s.core.licenses[id := s.core.licenses[id].(status := Revoked)],
                                        revocations := s.core.revocations[id := r.(applied := true)])), Ok(()))
  }

  predicate WindowOpen(l: License, now: u64) {
    l.status == Active && l.notBefore <= now < l.expires
  }

  // ---------------------------------------------------------------- access grants

  function RecordEnrollment(s: State, env: Env, caller: Address, course: Id, learner: Address, expires: u64, nonce: Id): Outcome<()> {
    match AdminError(s, env, caller)
    case Some(e) => Fail(s, e)
    case None => Outcome(s.(core := s.core.(enrollments := s.core.enrollments[nonce := Enrollment(course, learner, expires)])), Ok(()))
  }

  function DeriverError(s: State, env: Env, caller: Address, l: License): Option<Error> {
    if caller == l.licensee then (if caller !in env.signers then Some(Aborted) else None)
    else CapabilityError(s, env, caller, Circulation)
  }

  /** The enrollment checks in order; the expiry compared is the one the caller supplies. */
  function ProofError(s: State, env: Env, caller: Address, l: License, p: Proof): Option<Error> {
    if p.learner != caller then Some(ProofLearnerMismatch)
    else if p.course != l.work then Some(ProofCourseMismatch)
    else if p.nonce !in s.core.enrollments then Some(EnrollmentRequired)
    else if s.core.enrollments[p.nonce].course != l.work || s.core.enrollments[p.nonce].learner != caller then Some(EnrollmentRequired)
    else if p.nonce in s.core.nonces then Some(ProofReplayed)
    else if env.now >= p.expires then Some(EnrollmentExpired)
    else None
  }

  function LicenseError(l: License, now: u64): Option<Error> {
    if now < l.notBefore then Some(NotYetActive)
    else if now >= l.expires then Some(Expired)
    else if l.status != Active then Some(LicenseRevoked)
    else None
  }

  function First(a: Option<Error>, b: Option<Error>): Option<Error> {
    if a.Some? then a else b
  }

  function Min(a: u64, b: u64): u64 {
    if a < b then a else b
  }

  /** Consumes the nonce and files the grant. */
  function Issue(s: State, id: Id, g: Grant, nonce: Id): Outcome<Id>
    requires s.core.grantCount < MAX_U64
  {
    Outcome(s.(core := s.core.(grantCount := s.core.grantCount + 1, nonces := s.core.nonces + {nonce},
                               grants := s.core.grants[id := g])), Ok(id))
  }

  /** The identifier of the next grant or allocation under a license. */
  function GrantId(s: State, h: Host, now: u64, license: Id, grantee: Address): Id
    requires s.core.grantCount < MAX_U64
  {
    DeriveId(h, s.core.grantCount + 1, now, h.raw(license) + h.xdr(grantee))
  }

  function DeriveAccessGrant(s: State, h: Host, env: Env, caller: Address, license: Id, grantee: Address, duration: u64,
                             p: Proof): Outcome<Id>
  {
    if duration == 0 then Fail(s, InvalidDuration)
    else if license !in s.core.licenses then Fail(s, NotFound)
    else
      var l := s.core.licenses[license];
      match First(DeriverError(s, env, caller, l), First(ProofError(s, env, caller, l, p), LicenseError(l, env.now)))
      case Some(e) => Fail(s, e)
      case None =>
        if env.now + duration > MAX_U64 then Fail(s, WindowOverflow)
        else if s.core.grantCount == MAX_U64 then Fail(s, WindowOverflow)
        else
          var expires := Min(env.now + duration, l.expires);
          Issue(s, GrantId(s, h, env.now, license, grantee),
                Grant(license, grantee, l.work, env.now, expires, Commitment(h, license, grantee, l.work, expires)), p.nonce)
  }

  /** None is NotFound. */
  function IsGrantActive(s: State, now: u64, id: Id): Option<bool> {
    if id !in s.core.grants || s.core.grants[id].license !in s.core.licenses then None
    else
      var g := s.core.grants[id];
      Some(WindowOpen(s.core.licenses[g.license], now) && g.notBefore <= now < g.expires)
  }

  function CreateSession(s: State, h: Host, env: Env, caller: Address, grant: Id, key: Id, duration: u64): Outcome<Id> {
    if caller !in env.signers then Fail(s, Aborted)
    else if duration == 0 then Fail(s, InvalidDuration)
    else if grant !in s.core.grants then Fail(s, NotFound)
    else
      var g := s.core.grants[grant];
      if caller != g.grantee || IsGrantActive(s, env.now, grant) != Some(true) then Fail(s, Expired)
      else if env.now + duration > MAX_U64 then Fail(s, WindowOverflow)
      else if env.now + duration > g.expires then Fail(s, InvalidWindow)
      else if s.core.grantCount == MAX_U64 then Fail(s, WindowOverflow)
      else
        var n: u64 := s.core.grantCount + 1;
        var id := DeriveId(h, n, env.now, h.raw(grant) + h.raw(key));
        Outcome(s.(core := s.core.(grantCount := n,
                     sessions := s.core.sessions[id := Session(grant, caller, key, env.now + duration)])), Ok(id))
  }

  function CreateOffline(s: State, h: Host, env: Env, caller: Address, grant: Id, expires: u64, maxUses: u32): Outcome<Id> {
    if caller !in env.signers then Fail(s, Aborted)
    else if maxUses == 0 then Fail(s, InvalidDuration)
    else if grant !in s.core.grants then Fail(s, NotFound)
    else
      var g := s.core.grants[grant];
      if caller != g.grantee || expires <= env.now || expires > g.expires then Fail(s, InvalidWindow)
      else if IsGrantActive(s, env.now, grant) != Some(true) then Fail(s, Expired)
      else if s.core.grantCount == MAX_U64 then Fail(s, WindowOverflow)
      else
        var input := h.raw(grant) + h.raw(g.license) + h.xdr(caller) + ToBE(expires, 8) + ToBE(maxUses, 4);
        var n: u64 := s.core.grantCount + 1;
        var id := DeriveId(h, n, env.now, input);
        Outcome(s.(core := s.core.(grantCount := n,
                     offline := s.core.offline[id := Offline(grant, caller, h.sha(input), expires, maxUses, 0, true)])), Ok(id))
  }

  function ConsumeOffline(s: State, env: Env, caller: Address, id: Id, commitment: Id): Outcome<()> {
    if caller !in env.signers then Fail(s, Aborted)
    else if id !in s.core.offline then Fail(s, OfflineGrantNotFound)
    else
      var o := s.core.offline[id];
      if o.grantee != caller || !o.active || commitment != o.commitment then Fail(s, Unauthorized)
      else if env.now >= o.expires then Fail(s, OfflineGrantExpired)
      else if o.uses >= o.maxUses then Fail(s, OfflineGrantExhausted)
      else if IsGrantActive(s, env.now, o.grant) != Some(true) then Fail(s, Expired)
      else
        var uses: u32 := o.uses + 1;
        Outcome(s.(core := s.core.(offline := s.core.offline[id := o.(uses := uses, active := if uses == o.maxUses then false else o.active)])),
                Ok(()))
  }

  // ---------------------------------------------------------------- entitlements

  function Keys(r: Rights, license: Id): seq<(Rendition, Mode)> {
    if license in r.keys then r.keys[license] else []
  }

  function GrantEntitlement(s: State, env: Env, caller: Address, license: Id, rendition: Rendition, mode: Mode): Outcome<()> {
    match AdminError(s, env, caller)
    case Some(e) => Fail(s, e)
    case None =>
      var k := (rendition, mode);
      if license !in s.core.licenses then Fail(s, NotFound)
      else if s.core.licenses[license].status != Active then Fail(s, LicenseRevoked)
      else if (license, k) in s.rights.entitlements then Outcome(s, Ok(()))
      else if |Keys(s.rights, license)| >= MAX_U32 then Fail(s, Overflow)
      else Outcome(s.(rights := Rights(s.rights.entitlements[(license, k) := env.now],
                                       s.rights.keys[license := Keys(s.rights, license) + [k]])), Ok(()))
  }

  /** The list without the first occurrence of k. */
  function RemoveFirst(s: seq<(Rendition, Mode)>, k: (Rendition, Mode)): seq<(Rendition, Mode)> {
    if s == [] then []
    else if s[0] == k then s[1..]
    else [s[0]] + RemoveFirst(s[1..], k)
  }

  function Without(r: Rights, license: Id, k: (Rendition, Mode)): Rights {
    Rights(r.entitlements - {(license, k)}, r.keys[license := RemoveFirst(Keys(r, license), k)])
  }

  function RevokeEntitlement(s: State, env: Env, caller: Address, license: Id, rendition: Rendition, mode: Mode): Outcome<()> {
    match AdminError(s, env, caller)
    case Some(e) => Fail(s, e)
    case None =>
      var k := (rendition, mode);
      if (license, k) !in s.rights.entitlements then Fail(s, EntitlementNotFound)
      else Outcome(s.(rights := Without(s.rights, license, k)), Ok(()))
  }

  /** None is NotFound. */
  function IsEntitled(s: State, now: u64, license: Id, rendition: Rendition, mode: Mode): Option<bool> {
    if license !in s.core.licenses then None
    else Some(WindowOpen(s.core.licenses[license], now) && (license, (rendition, mode)) in s.rights.entitlements)
  }

  /** The stored entitlements of the key positions lo to hi - 1. */
  function Collect(r: Rights, license: Id, lo: int, hi: int): seq<((Rendition, Mode), u64)>
    requires 0 <= lo && hi <= |Keys(r, license)|
    decreases hi - lo
  {
    if lo >= hi then []
    else
      var k := Keys(r, license)[lo];
      (if (license, k) in r.entitlements then [(k, r.entitlements[(license, k)])] else []) + Collect(r, license, lo + 1, hi)
  }

  function Entitlements(s: State, license: Id, from: u32, limit: u32): seq<((Rendition, Mode), u64)> {
    var len := |Keys(s.rights, license)|;
    if from >= len || limit == 0 then []
    else
      var end := if from + limit > MAX_U32 then MAX_U32 else from + limit;
      Collect(s.rights, license, from, if end < len then end else len)
  }

  // ---------------------------------------------------------------- seats and allocations

  function AllocateSeat(s: State, env: Env, caller: Address, id: Id): Outcome<()> {
    if id !in s.core.licenses then Fail(s, NotFound)
    else
      var l := s.core.licenses[id];
      if caller != l.licensee then Fail(s, Unauthorized)
      else if caller !in env.signers then Fail(s, Aborted)
      else match LicenseError(l, env.now)
        case Some(e) => Fail(s, e)
        case None =>
          if l.allocatedSeats >= l.totalSeats then Fail(s, NoSeatsAvailable)
          else Outcome(WithLicense(s, id, l.(allocatedSeats := l.allocatedSeats + 1)), Ok(()))
  }

  function ReleaseSeat(s: State, env: Env, caller: Address, id: Id): Outcome<()> {
    if id !in s.core.licenses then Fail(s, NotFound)
    else
      var l := s.core.licenses[id];
      if caller != l.licensee then Fail(s, Unauthorized)
      else if caller !in env.signers then Fail(s, Aborted)
      else if l.allocatedSeats == 0 then Fail(s, NoSeatsAllocated)
      else Outcome(WithLicense(s, id, l.(allocatedSeats := l.allocatedSeats - 1)), Ok(()))
  }

  function SetAllocationLimit(s: State, env: Env, caller: Address, id: Id, limit: u32): Outcome<()> {
    if limit == 0 then Fail(s, InvalidSeats)
    else if id !in s.core.licenses then Fail(s, NotFound)
    else if caller != s.core.licenses[id].licensee then Fail(s, Unauthorized)
    else if caller !in env.signers then Fail(s, Aborted)
    else if limit < Get(s.pools.totals, id) then Fail(s, AllocationExceeded)
    else Outcome(s.(pools := s.pools.(limits := s.pools.limits[id := limit])), Ok(()))
  }

  function WithAllocation(p: Pools, a: Id, alloc: Allocation): Pools {
    p.(totals := p.totals[alloc.license := Get(p.totals, alloc.license) + alloc.seats],
       allocations := p.allocations[a := alloc])
  }

  /** The checks of an allocation in order; None is success. */
  function AllocationError(s: State, env: Env, caller: Address, id: Id, organization: Address, seats: u32): Option<Error> {
    if seats == 0 then Some(InvalidSeats)
    else if id !in s.core.licenses then Some(NotFound)
    else
      var l := s.core.licenses[id];
      if caller != l.licensee || organization != l.licensee then Some(Unauthorized)
      else if caller !in env.signers then Some(Aborted)
      else if l.status != Active then Some(LicenseRevoked)
      else if env.now < l.notBefore then Some(NotYetActive)
      else if env.now >= l.expires then Some(Expired)
      else if id !in s.pools.limits then Some(InvalidSeats)
      else
        var next := Get(s.pools.totals, id) + seats;
        if next > MAX_U32 || next > s.pools.limits[id] then Some(AllocationExceeded)
        else if s.core.grantCount == MAX_U64 then Some(WindowOverflow)
        else None
  }

  function AllocateSeats(s: State, h: Host, env: Env, caller: Address, id: Id, organization: Address, sub: Address,
                         seats: u32): Outcome<Id>
  {
    match AllocationError(s, env, caller, id, organization, seats)
    case Some(e) => Fail(s, e)
    case None =>
      var a := GrantId(s, h, env.now, id, sub);
      Outcome(s.(core := s.core.(grantCount := s.core.grantCount + 1),
                 pools := WithAllocation(s.pools, a, Allocation(id, sub, seats, s.core.licenses[id].expires, true))), Ok(a))
  }

  /** Ends the allocation and takes its seats off the total, saturating at zero. */
  function WithoutAllocation(p: Pools, a: Id): Pools
    requires a in p.allocations
  {
    var alloc, total := p.allocations[a], Get(p.totals, p.allocations[a].license);
    p.(totals := p.totals[alloc.license := if total < alloc.seats then 0 else total - alloc.seats],
       allocations := p.allocations[a := alloc.(active := false)])
  }

  /** Who may end an allocation, and when; None is success. */
  function EndingError(s: State, env: Env, caller: Address, a: Id): Option<Error> {
    if a !in s.pools.allocations || s.pools.allocations[a].license !in s.core.licenses then Some(NotFound)
    else
      var alloc := s.pools.allocations[a];
      if caller != s.core.licenses[alloc.license].licensee then Some(Unauthorized)
      else if caller !in env.signers then Some(Aborted)
      else if !alloc.active then Some(NotFound)
      else None
  }

  function RevokeAllocation(s: State, env: Env, caller: Address, a: Id): Outcome<()> {
    match EndingError(s, env, caller, a)
    case Some(e) => Fail(s, e)
    case None => Outcome(s.(pools := WithoutAllocation(s.pools, a)), Ok(()))
  }

  // ---------------------------------------------------------------- runs

  datatype Call = CallSetAdmin(admin: Address)
                | CallSetCapability(holder: Address, cap: Capability, expiry: u64)
                | CallGrantLicense(caller: Address, work: Id, licensee: Address, rights: string, notBefore: u64, expires: u64, total: u32)
                | CallRevokeLicense(caller: Address, id: Id)
                | CallScheduleRevocation(caller: Address, id: Id, effectiveAt: u64, preservedUntil: u64, reason: Id)
                | CallApplyRevocation(caller: Address, id: Id)
                | CallRecordEnrollment(caller: Address, course: Id, learner: Address, expires: u64, nonce: Id)
                | CallDeriveGrant(caller: Address, license: Id, grantee: Address, duration: u64, proof: Proof)
                | CallCreateSession(caller: Address, grant: Id, key: Id, duration: u64)
                | CallCreateOffline(caller: Address, grant: Id, expires: u64, maxUses: u32)
                | CallConsumeOffline(caller: Address, id: Id, commitment: Id)
                | CallGrantEntitlement(caller: Address, license: Id, rendition: Rendition, mode: Mode)
                | CallRevokeEntitlement(caller: Address, license: Id, rendition: Rendition, mode: Mode)
                | CallAllocateSeat(caller: Address, id: Id)
                | CallReleaseSeat(caller: Address, id: Id)
                | CallSetAllocationLimit(caller: Address, id: Id, limit: u32)
                | CallAllocateSeats(caller: Address, id: Id, organization: Address, sub: Address, seats: u32)
                | CallRevokeAllocation(caller: Address, id: Id)

  function Step(s: State, h: Host, env: Env, c: Call): State {
    match c
    case CallSetAdmin(a) => SetAdmin(s, env, a).state
    case CallSetCapability(a, cap, x) => s.(caps := s.caps[(a, cap) := x])
    case CallGrantLicense(a, w, l, r, b, x, n) => GrantLicense(s, h, env, a, w, l, r, b, x, n).state
    case CallRevokeLicense(a, id) => RevokeLicense(s, env, a, id).state
    case CallScheduleRevocation(a, id, t, u, r) => ScheduleRevocation(s, env, a, id, t, u, r).state
    case CallApplyRevocation(a, id) => ApplyRevocation(s, env, a, id).state
    case CallRecordEnrollment(a, w, l, x, n) => RecordEnrollment(s, env, a, w, l, x, n).state
    case CallDeriveGrant(a, id, g, d, p) => DeriveAccessGrant(s, h, env, a, id, g, d, p).state
    case CallCreateSession(a, g, k, d) => CreateSession(s, h, env, a, g, k, d).state
    case CallCreateOffline(a, g, x, n) => CreateOffline(s, h, env, a, g, x, n).state
    case CallConsumeOffline(a, id, c) => ConsumeOffline(s, env, a, id, c).state
    case CallGrantEntitlement(a, id, r, m) => GrantEntitlement(s, env, a, id, r, m).state
    case CallRevokeEntitlement(a, id, r, m) => RevokeEntitlement(s, env, a, id, r, m).state
    case CallAllocateSeat(a, id) => AllocateSeat(s, env, a, id).state
    case CallReleaseSeat(a, id) => ReleaseSeat(s, env, a, id).state
    case CallSetAllocationLimit(a, id, n) => SetAllocationLimit(s, env, a, id, n).state
    case CallAllocateSeats(a, id, o, u, n) => AllocateSeats(s, h, env, a, id, o, u, n).state
    case CallRevokeAllocation(a, id) => RevokeAllocation(s, env, a, id).state
  }

  function Run(s: State, h: Host, steps: seq<(Env, Call)>): State {
    if steps == [] then s else Step(Run(s, h, steps[..|steps| - 1]), h, steps[|steps| - 1].0, steps[|steps| - 1].1)
  }
}
