/** What each call of the licensing contract does: exactly when it succeeds, all that it then files or changes, and why it is
    refused, which changes nothing. */
module LicensingEffects {
  import opened Wrappers
  import opened Soroban
  import opened Bytes
  import opened Hashing
  import opened Licensing
  import opened LicensingTheorems

  // ---------------------------------------------------------------- authority

  /** The admin, or a librarian whose capability has not expired; an expiry of 0 is none. */
  predicate Holds(s: State, env: Env, caller: Address, cap: Capability) {
    && s.admin.Some? && caller in env.signers
    && (caller == s.admin.value
        || ((caller, cap) in s.caps && (s.caps[(caller, cap)] == 0 || env.now < s.caps[(caller, cap)])))
  }

  ghost predicate CapabilityRefused(s: State, env: Env, caller: Address, cap: Capability, error: Error) {
    match error
    case NotInitialized => s.admin.None?
    case CapabilityNotGranted => s.admin != Some(caller) && (caller, cap) !in s.caps
    case CapabilityExpired => s.admin != Some(caller) && (caller, cap) in s.caps && 0 < s.caps[(caller, cap)] <= env.now
    case Aborted => caller !in env.signers
    case _ => false
  }

  ghost predicate AdminRefused(s: State, env: Env, caller: Address, error: Error) {
    match error
    case NotInitialized => s.admin.None?
    case Unauthorized => s.admin.Some? && s.admin.value != caller
    case Aborted => caller !in env.signers
    case _ => false
  }

  lemma SetAdminExactly(s: State, env: Env, admin: Address)
    ensures var o := SetAdmin(s, env, admin);
            && (o.result.Ok? <==> s.admin.None? && admin in env.signers)
            && (o.result.Ok? ==> o.state == s.(admin := Some(admin)))
            && (o.result.Err? ==> o.state == s && o.result.error == (if s.admin.Some? then AlreadyInitialized else Aborted))
  {
  }

  // ---------------------------------------------------------------- licenses

  /** A cataloger grants a license with rights, a window and seats; it is filed under the hash of its number, the time, its
      work and its licensee, as it was asked for and with no seat taken. */
  lemma GrantLicenseExactly(s: State, h: Host, env: Env, caller: Address, work: Id, licensee: Address, rights: string,
                            notBefore: u64, expires: u64, seats: u32)
    ensures GrantLicense(s, h, env, caller, work, licensee, rights, notBefore, expires, seats).result.Ok?
       <==> Holds(s, env, caller, Cataloger) && rights != "" && notBefore < expires && seats > 0 && s.core.licenseCount < MAX_U64
    ensures GrantLicense(s, h, env, caller, work, licensee, rights, notBefore, expires, seats).result.Ok? ==>
              var o := GrantLicense(s, h, env, caller, work, licensee, rights, notBefore, expires, seats);
              var id, l := o.result.value, License(work, licensee, rights, notBefore, expires, Active, seats, 0);
              && id == h.sha(ToBE(s.core.licenseCount + 1, 8) + ToBE(env.now, 8) + (h.raw(work) + h.xdr(licensee)))
              && o.state == s.(core := s.core.(licenseCount := s.core.licenseCount + 1, licenses := s.core.licenses[id := l]))
    ensures var o := GrantLicense(s, h, env, caller, work, licensee, rights, notBefore, expires, seats);
            o.result.Err? ==>
              && o.state == s
              && (match o.result.error
                  case InvalidRights => rights == ""
                  case InvalidWindow => notBefore >= expires
                  case InvalidSeats => seats == 0
                  case WindowOverflow => s.core.licenseCount == MAX_U64
                  case _ => CapabilityRefused(s, env, caller, Cataloger, o.result.error))
  {
  }

  /** A circulation librarian revokes exactly an active license; nothing else of it changes. */
  lemma RevokeLicenseExactly(s: State, env: Env, caller: Address, id: Id)
    ensures var o := RevokeLicense(s, env, caller, id);
            && (o.result.Ok? <==> Holds(s, env, caller, Circulation) && id in s.core.licenses && s.core.licenses[id].status == Active)
            && (o.result.Ok? ==>
                  o.state == s.(core := s.core.(licenses := s.core.licenses[id := s.core.licenses[id].(status := Revoked)])))
            && (o.result.Err? ==>
                  && o.state == s
                  && (match o.result.error
                      case NotFound => id !in s.core.licenses
                      case LicenseRevoked => id in s.core.licenses && s.core.licenses[id].status == Revoked
                      case _ => CapabilityRefused(s, env, caller, Circulation, o.result.error)))
  {
  }

  /** A revocation is scheduled with a reason and a preservation date that is not before it, for any license; an earlier
      schedule is replaced. */
  lemma ScheduleExactly(s: State, env: Env, caller: Address, id: Id, effectiveAt: u64, preservedUntil: u64, reason: Id)
    ensures var o := ScheduleRevocation(s, env, caller, id, effectiveAt, preservedUntil, reason);
            && (o.result.Ok? <==> Holds(s, env, caller, Circulation) && reason != 0 && effectiveAt <= preservedUntil
                                  && id in s.core.licenses)
            && (o.result.Ok? ==>
                  o.state == s.(core := s.core.(
                    revocations := s.core.revocations[id := Revocation(effectiveAt, reason, preservedUntil, false)])))
            && (o.result.Err? ==>
                  && o.state == s
                  && (match o.result.error
                      case InvalidCommitment => reason == 0 || effectiveAt > preservedUntil
                      case NotFound => id !in s.core.licenses
                      case _ => CapabilityRefused(s, env, caller, Circulation, o.result.error)))
  {
  }

  /** And applied once, from its date on: license and schedule change their status together, whatever the license's was. */
  lemma ApplyExactly(s: State, env: Env, caller: Address, id: Id)
    ensures ApplyRevocation(s, env, caller, id).result.Ok?
       <==> Holds(s, env, caller, Circulation) && id in s.core.licenses && id in s.core.revocations
            && !s.core.revocations[id].applied && s.core.revocations[id].effectiveAt <= env.now
    ensures var o := ApplyRevocation(s, env, caller, id);
            && (o.result.Ok? ==>
                  o.state == s.(core := s.core.(
                    licenses := s.core.licenses[id := s.core.licenses[id].(status := Revoked)],
                    revocations := s.core.revocations[id := s.core.revocations[id].(applied := true)])))
            && (o.result.Err? ==>
                  && o.state == s
                  && (match o.result.error
                      case RevocationNotFound => id !in s.core.revocations
                      case RevocationNotEffective => id in s.core.revocations && env.now < s.core.revocations[id].effectiveAt
                      case LicenseRevoked => id in s.core.revocations && s.core.revocations[id].applied
                      case NotFound => id !in s.core.licenses
                      case _ => CapabilityRefused(s, env, caller, Circulation, o.result.error)))
  {
  }

  // ---------------------------------------------------------------- grants

  /** The admin records an enrollment under its nonce as it is given; an earlier one is replaced. */
  lemma EnrollmentExactly(s: State, env: Env, caller: Address, course: Id, learner: Address, expires: u64, nonce: Id)
    ensures var o := RecordEnrollment(s, env, caller, course, learner, expires, nonce);
            && (o.result.Ok? <==> s.admin == Some(caller) && caller in env.signers)
            && (o.result.Ok? ==>
                  o.state == s.(core := s.core.(
                    enrollments := s.core.enrollments[nonce := Enrollment(course, learner, expires)])))
            && (o.result.Err? ==> o.state == s && AdminRefused(s, env, caller, o.result.error))
  {
  }

  /** A derived grant names its license, its grantee and the license's work, runs from now for the duration or up to the end
      of the license, and carries the hash of all that; it is filed under the hash of its number, the time, the license and
      the grantee, and the proof's nonce is used up. */
  lemma DeriveEffect(s: State, h: Host, env: Env, caller: Address, license: Id, grantee: Address, duration: u64, p: Proof)
    requires DeriveAccessGrant(s, h, env, caller, license, grantee, duration, p).result.Ok?
    ensures s.core.grantCount < MAX_U64 && license in s.core.licenses && env.now + duration <= MAX_U64
    ensures var o, l := DeriveAccessGrant(s, h, env, caller, license, grantee, duration, p), s.core.licenses[license];
            var id, end := o.result.value, if env.now + duration < l.expires then env.now + duration else l.expires;
            && id == h.sha(ToBE(s.core.grantCount + 1, 8) + ToBE(env.now, 8) + (h.raw(license) + h.xdr(grantee)))
            && o.state == s.(core := s.core.(
                 grantCount := s.core.grantCount + 1, nonces := s.core.nonces + {p.nonce},
                 grants := s.core.grants[id := Grant(license, grantee, l.work, env.now, end,
                                                     h.sha(h.raw(license) + h.xdr(grantee) + h.raw(l.work) + ToBE(end, 8)))]))
  {
  }

  /** The license is there, but not open. */
  ghost predicate WindowRefused(s: State, now: u64, id: Id, error: Error) {
    && id in s.core.licenses
    && match error
       case NotYetActive => now < s.core.licenses[id].notBefore
       case Expired => now >= s.core.licenses[id].expires
       case LicenseRevoked => s.core.licenses[id].status == Revoked
       case _ => false
  }

  /** Why a proof is refused for a license. */
  ghost predicate ProofRefused(s: State, now: u64, caller: Address, l: License, p: Proof, error: Error) {
    match error
    case ProofLearnerMismatch => p.learner != caller
    case ProofCourseMismatch => p.course != l.work
    case EnrollmentRequired =>
      || p.nonce !in s.core.enrollments
      || s.core.enrollments[p.nonce].learner != caller || s.core.enrollments[p.nonce].course != l.work
    case ProofReplayed => p.nonce in s.core.nonces
    case EnrollmentExpired => now >= p.expires
    case _ => false
  }

  lemma ProofErrorMeans(s: State, env: Env, caller: Address, l: License, p: Proof)
    ensures ProofError(s, env, caller, l, p).Some? ==> ProofRefused(s, env.now, caller, l, p, ProofError(s, env, caller, l, p).value)
  {
  }

  lemma DeriverErrorMeans(s: State, env: Env, caller: Address, l: License)
    ensures DeriverError(s, env, caller, l).Some? ==>
              CapabilityRefused(s, env, caller, Circulation, DeriverError(s, env, caller, l).value)
  {
  }

  /** Why a derivation is refused, which uses up nothing. */
  lemma DeriveRefused(s: State, h: Host, env: Env, caller: Address, license: Id, grantee: Address, duration: u64, p: Proof)
    requires DeriveAccessGrant(s, h, env, caller, license, grantee, duration, p).result.Err?
    ensures var o := DeriveAccessGrant(s, h, env, caller, license, grantee, duration, p);
            && o.state == s
            && (|| (o.result.error == InvalidDuration && duration == 0)
                || (o.result.error == NotFound && license !in s.core.licenses)
                || (o.result.error == WindowOverflow && (env.now + duration > MAX_U64 || s.core.grantCount == MAX_U64))
                || WindowRefused(s, env.now, license, o.result.error)
                || CapabilityRefused(s, env, caller, Circulation, o.result.error)
                || (license in s.core.licenses && ProofRefused(s, env.now, caller, s.core.licenses[license], p, o.result.error)))
  {
    if license in s.core.licenses {
      ProofErrorMeans(s, env, caller, s.core.licenses[license], p);
      DeriverErrorMeans(s, env, caller, s.core.licenses[license]);
    }
  }

  /** The grant is there, and both its own window and that of its license, which is active, are open. */
  predicate Usable(s: State, now: u64, id: Id) {
    && id in s.core.grants && s.core.grants[id].license in s.core.licenses
    && var g, l := s.core.grants[id], s.core.licenses[s.core.grants[id].license];
       l.status == Active && l.notBefore <= now < l.expires && g.notBefore <= now < g.expires
  }

  /** A session is opened by the grantee of a usable grant and ends with it at the latest; it is filed under the hash of its
      number, the time, the grant and the reader's key. */
  lemma SessionExactly(s: State, h: Host, env: Env, caller: Address, grant: Id, key: Id, duration: u64)
    ensures CreateSession(s, h, env, caller, grant, key, duration).result.Ok?
       <==> caller in env.signers && duration > 0 && Usable(s, env.now, grant) && s.core.grants[grant].grantee == caller
            && env.now + duration <= s.core.grants[grant].expires && s.core.grantCount < MAX_U64
    ensures CreateSession(s, h, env, caller, grant, key, duration).result.Ok? ==>
              var o := CreateSession(s, h, env, caller, grant, key, duration);
              var id := o.result.value;
              && env.now + duration <= MAX_U64
              && id == h.sha(ToBE(s.core.grantCount + 1, 8) + ToBE(env.now, 8) + (h.raw(grant) + h.raw(key)))
              && o.state == s.(core := s.core.(
                   grantCount := s.core.grantCount + 1,
                   sessions := s.core.sessions[id := Session(grant, caller, key, env.now + duration)]))
    ensures var o := CreateSession(s, h, env, caller, grant, key, duration);
            o.result.Err? ==>
              && o.state == s
              && (match o.result.error
                  case Aborted => caller !in env.signers
                  case InvalidDuration => duration == 0
                  case NotFound => grant !in s.core.grants
                  case Expired => grant in s.core.grants && (s.core.grants[grant].grantee != caller || !Usable(s, env.now, grant))
                  case InvalidWindow => grant in s.core.grants && env.now + duration > s.core.grants[grant].expires
                  case WindowOverflow => env.now + duration > MAX_U64 || s.core.grantCount == MAX_U64
                  case _ => false)
  {
  }

  /** So is an offline grant, for a number of uses; it carries the hash of its terms, which is hashed again with its number
      and the time into its identifier. */
  lemma OfflineExactly(s: State, h: Host, env: Env, caller: Address, grant: Id, expires: u64, maxUses: u32)
    ensures CreateOffline(s, h, env, caller, grant, expires, maxUses).result.Ok?
       <==> caller in env.signers && maxUses > 0 && Usable(s, env.now, grant) && s.core.grants[grant].grantee == caller
            && env.now < expires <= s.core.grants[grant].expires && s.core.grantCount < MAX_U64
    ensures CreateOffline(s, h, env, caller, grant, expires, maxUses).result.Ok? ==>
              var o, g := CreateOffline(s, h, env, caller, grant, expires, maxUses), s.core.grants[grant];
              var id, terms := o.result.value, h.raw(grant) + h.raw(g.license) + h.xdr(caller) + ToBE(expires, 8) + ToBE(maxUses, 4);
              && id == h.sha(ToBE(s.core.grantCount + 1, 8) + ToBE(env.now, 8) + terms)
              && o.state == s.(core := s.core.(
                   grantCount := s.core.grantCount + 1,
                   offline := s.core.offline[id := Offline(grant, caller, h.sha(terms), expires, maxUses, 0, true)]))
    ensures var o := CreateOffline(s, h, env, caller, grant, expires, maxUses);
            o.result.Err? ==>
              && o.state == s
              && (match o.result.error
                  case Aborted => caller !in env.signers
                  case InvalidDuration => maxUses == 0
                  case NotFound => grant !in s.core.grants
                  case InvalidWindow => grant in s.core.grants
                                        && (s.core.grants[grant].grantee != caller || expires <= env.now
                                            || expires > s.core.grants[grant].expires)
                  case Expired => !Usable(s, env.now, grant)
                  case WindowOverflow => s.core.grantCount == MAX_U64
                  case _ => false)
  {
  }

  /** One use is taken by the grantee, with the commitment, while uses are left and the grant behind is usable; the last one
      ends the offline grant. */
  lemma ConsumeExactly(h: Host, s: State, env: Env, caller: Address, id: Id, commitment: Id)
    requires Inv(h, s)
    ensures ConsumeOffline(s, env, caller, id, commitment).result.Ok?
       <==> caller in env.signers && id in s.core.offline && s.core.offline[id].grantee == caller
            && s.core.offline[id].commitment == commitment && env.now < s.core.offline[id].expires
            && s.core.offline[id].uses < s.core.offline[id].maxUses && Usable(s, env.now, s.core.offline[id].grant)
    ensures ConsumeOffline(s, env, caller, id, commitment).result.Ok? ==>
              var f := s.core.offline[id];
              && f.uses < f.maxUses
              && ConsumeOffline(s, env, caller, id, commitment).state
                 == s.(core := s.core.(
                      offline := s.core.offline[id := f.(uses := f.uses + 1, active := f.uses + 1 < f.maxUses)]))
    ensures var o := ConsumeOffline(s, env, caller, id, commitment);
            o.result.Err? ==>
              && o.state == s
              && (match o.result.error
                  case Aborted => caller !in env.signers
                  case OfflineGrantNotFound => id !in s.core.offline
                  case Unauthorized => id in s.core.offline
                                       && (s.core.offline[id].grantee != caller || !s.core.offline[id].active
                                           || s.core.offline[id].commitment != commitment)
                  case OfflineGrantExpired => id in s.core.offline && env.now >= s.core.offline[id].expires
                  case Expired => id in s.core.offline && !Usable(s, env.now, s.core.offline[id].grant)
                  case _ => false)
  {
    assert OfflineOk(h, s.core, id);
  }

  // ---------------------------------------------------------------- entitlements

  /** The admin entitles an active license to a rendition in a mode: recorded with the time and last in the license's list,
      once; granting it again changes nothing. */
  lemma GrantEntitlementExactly(s: State, env: Env, caller: Address, license: Id, rendition: Rendition, mode: Mode)
    ensures GrantEntitlement(s, env, caller, license, rendition, mode).result.Ok?
       <==> s.admin == Some(caller) && caller in env.signers
            && license in s.core.licenses && s.core.licenses[license].status == Active
            && ((license, (rendition, mode)) in s.rights.entitlements || |GetSeq(s.rights.keys, license)| < MAX_U32)
    ensures var o, k := GrantEntitlement(s, env, caller, license, rendition, mode), (rendition, mode);
            && (o.result.Ok? ==>
                  o.state == if (license, k) in s.rights.entitlements then s
                             else s.(rights := Rights(s.rights.entitlements[(license, k) := env.now],
                                                      s.rights.keys[license := GetSeq(s.rights.keys, license) + [k]])))
            && (o.result.Err? ==>
                  && o.state == s
                  && (match o.result.error
                      case NotFound => license !in s.core.licenses
                      case LicenseRevoked => license in s.core.licenses && s.core.licenses[license].status == Revoked
                      case Overflow => |GetSeq(s.rights.keys, license)| >= MAX_U32
                      case _ => AdminRefused(s, env, caller, o.result.error)))
  {
  }

  lemma {:induction false} RemoveFirstAt(s: seq<(Rendition, Mode)>, i: nat)
    requires Distinct(s) && i < |s|
    ensures RemoveFirst(s, s[i]) == s[..i] + s[i + 1..]
  {
    if i > 0 {
      assert s[1..][i - 1] == s[i] && s[1..][..i - 1] == s[1..i] && s[1..][i..] == s[i + 1..];
      RemoveFirstAt(s[1..], i - 1);
      assert s[..i] == [s[0]] + s[1..i];
    }
  }

  /** The admin takes exactly a standing entitlement away; the others of the license keep their order. */
  lemma RevokeEntitlementExactly(h: Host, s: State, env: Env, caller: Address, license: Id, rendition: Rendition, mode: Mode)
    requires Inv(h, s)
    ensures RevokeEntitlement(s, env, caller, license, rendition, mode).result.Ok?
       <==> s.admin == Some(caller) && caller in env.signers && (license, (rendition, mode)) in s.rights.entitlements
    ensures var o, k, keys := RevokeEntitlement(s, env, caller, license, rendition, mode), (rendition, mode),
                              GetSeq(s.rights.keys, license);
            && (o.result.Ok? ==>
                  exists i :: 0 <= i < |keys| && keys[i] == k
                    && o.state == s.(rights := Rights(s.rights.entitlements - {(license, k)},
                                                      s.rights.keys[license := keys[..i] + keys[i + 1..]])))
            && (o.result.Err? ==>
                  && o.state == s
                  && (AdminRefused(s, env, caller, o.result.error)
                      || (o.result.error == EntitlementNotFound && (license, k) !in s.rights.entitlements)))
  {
    var k, keys := (rendition, mode), GetSeq(s.rights.keys, license);
    assert RightsOk(s.rights, license) && Keys(s.rights, license) == keys;
    if (license, k) in s.rights.entitlements {
      var i :| 0 <= i < |keys| && keys[i] == k;
      RemoveFirstAt(keys, i);
    }
  }

  // ---------------------------------------------------------------- seats and allocations

  /** Why the licensee's calls are refused. */
  ghost predicate LicenseeRefused(s: State, env: Env, caller: Address, id: Id, error: Error) {
    match error
    case NotFound => id !in s.core.licenses
    case Unauthorized => id in s.core.licenses && s.core.licenses[id].licensee != caller
    case Aborted => caller !in env.signers
    case _ => false
  }

  predicate IsLicensee(s: State, env: Env, caller: Address, id: Id) {
    id in s.core.licenses && s.core.licenses[id].licensee == caller && caller in env.signers
  }

  /** The licensee takes a seat of an active license in its window while one is free. */
  lemma AllocateSeatExactly(s: State, env: Env, caller: Address, id: Id)
    ensures AllocateSeat(s, env, caller, id).result.Ok?
       <==> IsLicensee(s, env, caller, id) && s.core.licenses[id].status == Active
            && s.core.licenses[id].notBefore <= env.now < s.core.licenses[id].expires
            && s.core.licenses[id].allocatedSeats < s.core.licenses[id].totalSeats
    ensures var o := AllocateSeat(s, env, caller, id);
            && (o.result.Ok? ==>
                  var l := s.core.licenses[id];
                  && l.allocatedSeats < l.totalSeats
                  && o.state == s.(core := s.core.(licenses := s.core.licenses[id := l.(allocatedSeats := l.allocatedSeats + 1)])))
            && (o.result.Err? ==>
                  && o.state == s
                  && (LicenseeRefused(s, env, caller, id, o.result.error) || WindowRefused(s, env.now, id, o.result.error)
                      || (o.result.error == NoSeatsAvailable && id in s.core.licenses
                          && s.core.licenses[id].allocatedSeats >= s.core.licenses[id].totalSeats)))
  {
  }

  /** And gives one back at any time. */
  lemma ReleaseSeatExactly(s: State, env: Env, caller: Address, id: Id)
    ensures ReleaseSeat(s, env, caller, id).result.Ok? <==> IsLicensee(s, env, caller, id) && s.core.licenses[id].allocatedSeats > 0
    ensures var o := ReleaseSeat(s, env, caller, id);
            && (o.result.Ok? ==>
                  var l := s.core.licenses[id];
                  && l.allocatedSeats > 0
                  && o.state == s.(core := s.core.(licenses := s.core.licenses[id := l.(allocatedSeats := l.allocatedSeats - 1)])))
            && (o.result.Err? ==>
                  && o.state == s
                  && (LicenseeRefused(s, env, caller, id, o.result.error)
                      || (o.result.error == NoSeatsAllocated && id in s.core.licenses && s.core.licenses[id].allocatedSeats == 0)))
  {
  }

  /** The licensee sets a limit of at least what is allocated, and at least one. */
  lemma SetLimitExactly(s: State, env: Env, caller: Address, id: Id, limit: u32)
    ensures var o := SetAllocationLimit(s, env, caller, id, limit);
            && (o.result.Ok? <==> limit > 0 && IsLicensee(s, env, caller, id) && limit >= Get(s.pools.totals, id))
            && (o.result.Ok? ==> o.state == s.(pools := s.pools.(limits := s.pools.limits[id := limit])))
            && (o.result.Err? ==>
                  && o.state == s
                  && (LicenseeRefused(s, env, caller, id, o.result.error)
                      || (o.result.error == InvalidSeats && limit == 0)
                      || (o.result.error == AllocationExceeded && limit < Get(s.pools.totals, id))))
  {
  }

  /** The licensee allocates seats of its own active license within the limit; the allocation is filed under the hash of its
      number, the time, the license and the account, ends with the license, and counts in the total. */
  lemma AllocateSeatsExactly(h: Host, s: State, env: Env, caller: Address, id: Id, organization: Address, sub: Address, seats: u32)
    ensures AllocateSeats(s, h, env, caller, id, organization, sub, seats).result.Ok?
       <==> seats > 0 && IsLicensee(s, env, caller, id) && organization == caller && s.core.licenses[id].status == Active
            && s.core.licenses[id].notBefore <= env.now < s.core.licenses[id].expires && id in s.pools.limits
            && Get(s.pools.totals, id) + seats <= s.pools.limits[id] && Get(s.pools.totals, id) + seats <= MAX_U32
            && s.core.grantCount < MAX_U64
    ensures AllocateSeats(s, h, env, caller, id, organization, sub, seats).result.Ok? ==>
              var o := AllocateSeats(s, h, env, caller, id, organization, sub, seats);
              var a, alloc := o.result.value, Allocation(id, sub, seats, s.core.licenses[id].expires, true);
              && a == h.sha(ToBE(s.core.grantCount + 1, 8) + ToBE(env.now, 8) + (h.raw(id) + h.xdr(sub)))
              && o.state == s.(core := s.core.(grantCount := s.core.grantCount + 1),
                               pools := s.pools.(allocations := s.pools.allocations[a := alloc],
                                                 totals := s.pools.totals[id := Get(s.pools.totals, id) + seats]))
    ensures var o := AllocateSeats(s, h, env, caller, id, organization, sub, seats);
            o.result.Err? ==>
              && o.state == s
              && (match o.result.error
                  case InvalidSeats => seats == 0 || id !in s.pools.limits
                  case AllocationExceeded =>
                    || Get(s.pools.totals, id) + seats > MAX_U32
                    || (id in s.pools.limits && Get(s.pools.totals, id) + seats > s.pools.limits[id])
                  case Unauthorized => id in s.core.licenses && (s.core.licenses[id].licensee != caller || organization != caller)
                  case WindowOverflow => s.core.grantCount == MAX_U64
                  case _ => LicenseeRefused(s, env, caller, id, o.result.error) || WindowRefused(s, env.now, id, o.result.error))
  {
  }

  /** The licensee ends exactly an active allocation of its own; its seats leave the total. */
  lemma EndAllocationExactly(h: Host, s: State, env: Env, caller: Address, a: Id)
    requires Inv(h, s)
    ensures RevokeAllocation(s, env, caller, a).result.Ok?
       <==> a in s.pools.allocations && s.pools.allocations[a].active && IsLicensee(s, env, caller, s.pools.allocations[a].license)
    ensures RevokeAllocation(s, env, caller, a).result.Ok? ==>
              var alloc := s.pools.allocations[a];
              RevokeAllocation(s, env, caller, a).state
              == s.(pools := s.pools.(
                   allocations := s.pools.allocations[a := alloc.(active := false)],
                   totals := s.pools.totals[alloc.license := Get(s.pools.totals, alloc.license) - alloc.seats]))
    ensures var o := RevokeAllocation(s, env, caller, a);
            o.result.Err? ==>
              && o.state == s
              && (|| (o.result.error == NotFound && (a !in s.pools.allocations || !s.pools.allocations[a].active))
                  || (a in s.pools.allocations && LicenseeRefused(s, env, caller, s.pools.allocations[a].license, o.result.error)))
  {
    if RevokeAllocation(s, env, caller, a).result.Ok? {
      RevokeAllocationKeeps(h, s, env, caller, a, s.pools.allocations[a].license);
    }
  }

  // ---------------------------------------------------------------- what readers are told

  /** A grant is reported active exactly while it is usable, and missing when it or its license is not there; an entitlement
      holds exactly while it stands and the license is open. */
  lemma QueriesExactly(s: State, now: u64, id: Id, license: Id, rendition: Rendition, mode: Mode)
    ensures IsGrantActive(s, now, id)
         == if id in s.core.grants && s.core.grants[id].license in s.core.licenses then Some(Usable(s, now, id)) else None
    ensures IsEntitled(s, now, license, rendition, mode)
         == if license !in s.core.licenses then None
            else var l := s.core.licenses[license];
                 Some(l.status == Active && l.notBefore <= now < l.expires && (license, (rendition, mode)) in s.rights.entitlements)
  {
  }
}
