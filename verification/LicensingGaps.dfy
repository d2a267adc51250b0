/** Two promises of the licensing contract that its code does not keep: when each holds all the same, and a run in which it
    does not. */
module LicensingGaps {
  import opened Wrappers
  import opened Soroban
  import opened Bytes
  import opened Hashing
  import opened Licensing

  function Later(a: u64, b: u64): u64 {
    if a >= b then a else b
  }

  // ---------------------------------------------------------------- the recorded expiry of an enrollment

  /** The expiry recorded with an enrollment is not what limits a derivation: changing it never changes the outcome. */
  lemma RecordedExpiryUnused(s: State, h: Host, env: Env, caller: Address, license: Id, grantee: Address, duration: u64, p: Proof, x: u64)
    requires p.nonce in s.core.enrollments
    ensures var e := s.core.enrollments[p.nonce];
            var s' := s.(core := s.core.(enrollments := s.core.enrollments[p.nonce := e.(expires := x)]));
            DeriveAccessGrant(s', h, env, caller, license, grantee, duration, p).result
            == DeriveAccessGrant(s, h, env, caller, license, grantee, duration, p).result
  {
  }

  /** Until when the caller may derive grants under the license: for ever as its licensee or as the admin, up to the expiry
      of the capability as a librarian, never as anybody else. */
  function AuthorityEnd(s: State, caller: Address, l: License): int {
    if caller == l.licensee then MAX_U64 + 1
    else if s.admin.None? then 0
    else if caller == s.admin.value then MAX_U64 + 1
    else if (caller, Circulation) !in s.caps then 0
    else if s.caps[(caller, Circulation)] == 0 then MAX_U64 + 1
    else s.caps[(caller, Circulation)]
  }

  /** What a derivation needs apart from its time and its signature. */
  ghost predicate MayDerive(s: State, caller: Address, license: Id, duration: u64, p: Proof) {
    && duration > 0 && license in s.core.licenses && s.core.grantCount < MAX_U64
    && var l := s.core.licenses[license];
    && l.status == Active && p.learner == caller && p.course == l.work
    && p.nonce in s.core.enrollments && p.nonce !in s.core.nonces
    && s.core.enrollments[p.nonce].course == l.work && s.core.enrollments[p.nonce].learner == caller
  }

  /** A derivation succeeds exactly with these, within the license's window and the caller's authority, and before the
      expiry that the caller supplies. */
  lemma DerivedWhen(s: State, h: Host, env: Env, caller: Address, license: Id, grantee: Address, duration: u64, p: Proof)
    ensures DeriveAccessGrant(s, h, env, caller, license, grantee, duration, p).result.Ok?
       <==> MayDerive(s, caller, license, duration, p) && caller in env.signers
            && var l := s.core.licenses[license];
            && l.notBefore <= env.now < l.expires && env.now < p.expires && env.now < AuthorityEnd(s, caller, l)
            && env.now + duration <= MAX_U64
  {
  }

  /** No grant is derived from an enrollment at or after its recorded expiry, by anybody, exactly when something else
      forbids it at the first moment the license could be used by then: what is missing at any time, the expiry the caller
      supplies, the end of the license, of the caller's authority or of the clock. */
  lemma RecordedExpiryHonoured(s: State, h: Host, caller: Address, license: Id, grantee: Address, duration: u64, p: Proof)
    requires p.nonce in s.core.enrollments
    ensures var recorded := s.core.enrollments[p.nonce].expires;
            (forall env: Env ::
               DeriveAccessGrant(s, h, env, caller, license, grantee, duration, p).result.Ok? ==> env.now < recorded)
            <==> || !MayDerive(s, caller, license, duration, p)
                 || var l := s.core.licenses[license];
                    var first := Later(recorded, l.notBefore);
                    first >= p.expires || first >= l.expires || first >= AuthorityEnd(s, caller, l) || first + duration > MAX_U64
  {
    if MayDerive(s, caller, license, duration, p) {
      var l, recorded := s.core.licenses[license], s.core.enrollments[p.nonce].expires;
      var first := Later(recorded, l.notBefore);
      DerivedWhen(s, h, Env(first, {caller}), caller, license, grantee, duration, p);
      forall env: Env | DeriveAccessGrant(s, h, env, caller, license, grantee, duration, p).result.Ok?
        ensures l.notBefore <= env.now < l.expires && env.now < p.expires && env.now < AuthorityEnd(s, caller, l)
        ensures env.now + duration <= MAX_U64
      {
        DerivedWhen(s, h, env, caller, license, grantee, duration, p);
      }
    } else {
      forall env: Env ensures DeriveAccessGrant(s, h, env, caller, license, grantee, duration, p).result.Err? {
        DerivedWhen(s, h, env, caller, license, grantee, duration, p);
      }
    }
  }

  // ---------------------------------------------------------------- the preservation date of a revocation

  /** Applying a scheduled revocation ends every grant of the license at once. */
  lemma PreservationNotHonoured(s: State, env: Env, caller: Address, license: Id, id: Id, now: u64)
    requires ApplyRevocation(s, env, caller, license).result.Ok?
    requires id in s.core.grants && s.core.grants[id].license == license
    ensures IsGrantActive(ApplyRevocation(s, env, caller, license).state, now, id) == Some(false)
  {
  }

  /** A grant stays active up to the preservation date of an applied revocation, at every time it would have been, exactly
      when there is no such time: the license was not active, or from now and the start of grant and license on, the date,
      the grant or the license has already ended. */
  lemma PreservationExactly(s: State, env: Env, caller: Address, license: Id, id: Id)
    requires ApplyRevocation(s, env, caller, license).result.Ok?
    requires id in s.core.grants && s.core.grants[id].license == license
    ensures var s' := ApplyRevocation(s, env, caller, license).state;
            var l, g, until := s.core.licenses[license], s.core.grants[id], s.core.revocations[license].preservedUntil;
            var first := Later(env.now, Later(g.notBefore, l.notBefore));
            (forall t: u64 :: env.now <= t < until && IsGrantActive(s, t, id) == Some(true) ==> IsGrantActive(s', t, id) == Some(true))
            <==> l.status != Active || first >= until || first >= g.expires || first >= l.expires
  {
    var s' := ApplyRevocation(s, env, caller, license).state;
    var l, g := s.core.licenses[license], s.core.grants[id];
    var first := Later(env.now, Later(g.notBefore, l.notBefore));
    forall t: u64 ensures IsGrantActive(s', t, id) == Some(false) {
      PreservationNotHonoured(s, env, caller, license, id, t);
    }
    assert IsGrantActive(s, first, id) == Some(l.status == Active && first < g.expires && first < l.expires);
  }

  // ---------------------------------------------------------------- a run that shows both

  lemma RunPush(h: Host, steps: seq<(Env, Call)>, env: Env, c: Call)
    ensures Run(InitialState(), h, steps + [(env, c)]) == Step(Run(InitialState(), h, steps), h, env, c)
  {
    assert (steps + [(env, c)])[..|steps|] == steps;
  }

  /** The admin is 1, the licensee and learner 2, the work and course 7. The enrollment with the nonce 5 expires at 10. */
  const LICENSE: License := License(7, 2, "read", 0, 1000, Active, 1, 0)
  const ENROLLMENT: Enrollment := Enrollment(7, 2, 10)
  const PROOF: Proof := Proof(7, 2, 500, 5)

  function Governed(): State {
    InitialState().(admin := Some(1))
  }

  function Enrolled(license: Id): State {
    Governed().(core := Governed().core.(licenseCount := 1, licenses := map[license := LICENSE],
                                         enrollments := map[5 := ENROLLMENT]))
  }

  function TheLicense(h: Host): Id {
    LicenseId(Governed(), h, 0, 7, 2)
  }

  function Enrolling(h: Host): seq<(Env, Call)> {
    [(Env(0, {1}), CallSetAdmin(1))] + [(Env(0, {1}), CallGrantLicense(1, 7, 2, "read", 0, 1000, 1))]
    + [(Env(0, {1}), CallRecordEnrollment(1, 7, 2, 10, 5))]
  }

  lemma EnrollingRun(h: Host)
    ensures Run(InitialState(), h, Enrolling(h)) == Enrolled(TheLicense(h))
  {
    var env := Env(0, {1});
    var first := [(env, CallSetAdmin(1))];
    var second := first + [(env, CallGrantLicense(1, 7, 2, "read", 0, 1000, 1))];
    RunPush(h, [], env, CallSetAdmin(1));
    assert [] + first == first;
    RunPush(h, first, env, CallGrantLicense(1, 7, 2, "read", 0, 1000, 1));
    RunPush(h, second, env, CallRecordEnrollment(1, 7, 2, 10, 5));
  }

  /** Forty seconds after the enrollment expired the learner still derives a grant from it. */
  lemma ExpiredEnrollmentAccepted(h: Host)
    ensures var s := Run(InitialState(), h, Enrolling(h));
            && 5 in s.core.enrollments && s.core.enrollments[5].expires == 10
            && DeriveAccessGrant(s, h, Env(50, {2}), 2, TheLicense(h), 2, 100, PROOF).result.Ok?
  {
    EnrollingRun(h);
  }

  function TheGrant(h: Host): Id {
    GrantId(Enrolled(TheLicense(h)), h, 50, TheLicense(h), 2)
  }

  function Granted(h: Host): State {
    var s, l := Enrolled(TheLicense(h)), TheLicense(h);
    s.(core := s.core.(grantCount := 1, nonces := {5},
                       grants := map[TheGrant(h) := Grant(l, 2, 7, 50, 150, Commitment(h, l, 2, 7, 150))]))
  }

  lemma GrantDerived(h: Host)
    ensures DeriveAccessGrant(Enrolled(TheLicense(h)), h, Env(50, {2}), 2, TheLicense(h), 2, 100, PROOF).state == Granted(h)
  {
  }

  function Deriving(h: Host): seq<(Env, Call)> {
    Enrolling(h) + [(Env(50, {2}), CallDeriveGrant(2, TheLicense(h), 2, 100, PROOF))]
  }

  lemma DerivingRun(h: Host)
    ensures Run(InitialState(), h, Deriving(h)) == Granted(h)
  {
    EnrollingRun(h);
    GrantDerived(h);
    RunPush(h, Enrolling(h), Env(50, {2}), CallDeriveGrant(2, TheLicense(h), 2, 100, PROOF));
  }

  function Scheduled(h: Host): State {
    Granted(h).(core := Granted(h).core.(revocations := map[TheLicense(h) := Revocation(60, 1, 100, false)]))
  }

  lemma RevocationScheduled(h: Host)
    ensures ScheduleRevocation(Granted(h), Env(50, {1}), 1, TheLicense(h), 60, 100, 1).state == Scheduled(h)
  {
  }

  /** The grant derived at 50 runs to 150; at 50 a revocation is scheduled for 60 that preserves loans until 100. */
  function Scheduling(h: Host): seq<(Env, Call)> {
    Deriving(h) + [(Env(50, {1}), CallScheduleRevocation(1, TheLicense(h), 60, 100, 1))]
  }

  lemma SchedulingRun(h: Host)
    ensures Run(InitialState(), h, Scheduling(h)) == Scheduled(h)
  {
    DerivingRun(h);
    RevocationScheduled(h);
    RunPush(h, Deriving(h), Env(50, {1}), CallScheduleRevocation(1, TheLicense(h), 60, 100, 1));
  }

  /** Applied at 60, the revocation ends the grant forty seconds before the preservation date and ninety before its own
      expiry. */
  lemma PreservedGrantLost(h: Host)
    ensures var s := Run(InitialState(), h, Scheduling(h));
            var o := ApplyRevocation(s, Env(60, {1}), 1, TheLicense(h));
            && o.result.Ok? && s.core.revocations[TheLicense(h)].preservedUntil == 100
            && IsGrantActive(s, 60, TheGrant(h)) == Some(true)
            && IsGrantActive(o.state, 60, TheGrant(h)) == Some(false)
  {
    SchedulingRun(h);
    LostWhenApplied(h);
  }

  lemma LostWhenApplied(h: Host)
    ensures var s, o := Scheduled(h), ApplyRevocation(Scheduled(h), Env(60, {1}), 1, TheLicense(h));
            && o.result.Ok? && s.core.revocations[TheLicense(h)].preservedUntil == 100
            && IsGrantActive(s, 60, TheGrant(h)) == Some(true)
            && IsGrantActive(o.state, 60, TheGrant(h)) == Some(false)
  {
  }
}
