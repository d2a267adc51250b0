/** What every run of the signed fine contract keeps, and why a signed payload can create only one fine. */
module SignedFinesTheorems {
  import opened Wrappers
  import opened Soroban
  import opened NumberTheory
  import opened Bytes
  import opened Hashing
  import opened SignedFines

  // ---------------------------------------------------------------- the payload

  function Signed(n: nat): int {
    if n > MAX_I128 then n - MAX_U128 - 1 else n
  }

  /** Every payload is 148 bytes long, with each field at its own place. */
  lemma PayloadFields(a: Assessment)
    ensures var p := Payload(a);
            && |p| == 148
            && p[..16] == TAG
            && p[16..48] == a.loan && p[48..80] == a.policy && p[108..140] == a.nonce
            && FromBE(p[80..84]) == a.ruleVersion && Signed(FromBE(p[84..100])) == a.amount
            && FromBE(p[100..108]) == a.loanStart && FromBE(p[140..148]) == a.expiry
  {
    WordSizes();
    FromToBE(a.ruleVersion, 4);
    FromToBE(Unsigned(a.amount), 16);
    FromToBE(a.loanStart, 8);
    FromToBE(a.expiry, 8);
    PartsInPlace(TAG, a.loan, a.policy, ToBE(a.ruleVersion, 4), ToBE(Unsigned(a.amount), 16), ToBE(a.loanStart, 8), a.nonce,
                 ToBE(a.expiry, 8));
  }

  /** What is signed starts with the domain of the contract. */
  lemma TagText(i: nat)
    requires i < 16
    ensures |TAG| == |"CHAINVERSE_FINE:"| == 16 && TAG[i] == "CHAINVERSE_FINE:"[i] as int
  {
    assert forall k | 0 <= k < 16 :: TAG[k] == "CHAINVERSE_FINE:"[k] as int;
  }

  lemma PartsInPlace(tag: seq<Byte>, loan: seq<Byte>, policy: seq<Byte>, version: seq<Byte>, amount: seq<Byte>,
                     start: seq<Byte>, nonce: seq<Byte>, expiry: seq<Byte>)
    requires |tag| == |amount| == 16 && |loan| == |policy| == |nonce| == 32 && |version| == 4 && |start| == |expiry| == 8
    ensures var p := tag + loan + policy + version + amount + start + nonce + expiry;
            && |p| == 148 && p[..16] == tag && p[16..48] == loan && p[48..80] == policy && p[80..84] == version && p[84..100] == amount
            && p[100..108] == start && p[108..140] == nonce && p[140..148] == expiry
  {
  }

  /** A signature commits to every field: no two assessments have the same payload. */
  lemma PayloadInjective(a: Assessment, b: Assessment)
    requires Payload(a) == Payload(b)
    ensures a == b
  {
    PayloadFields(a);
    PayloadFields(b);
  }

  /** The counter alone keeps identifiers apart. */
  lemma PreimagesDiffer(k: u64, now: u64, loan: Bytes32, nonce: Bytes32, k': u64, now': u64, loan': Bytes32, nonce': Bytes32)
    requires k != k'
    ensures IdPreimage(k, now, loan, nonce) != IdPreimage(k', now', loan', nonce')
  {
    WordSizes();
    FromToBE(k, 8);
    FromToBE(k', 8);
    assert IdPreimage(k, now, loan, nonce)[..8] == ToBE(k, 8);
    assert IdPreimage(k', now', loan', nonce')[..8] == ToBE(k', 8);
  }

  // ---------------------------------------------------------------- the invariant

  ghost function AmountOf(loan: Bytes32): Fine -> int {
    (f: Fine) => if f.loan == loan then f.amount as int else 0
  }

  ghost predicate DebtAgrees(loan: Bytes32, s: State) {
    Debt(s, loan) == MapTotal(AmountOf(loan), s.fines)
  }

  ghost predicate FineOk(f: Fine) {
    0 <= f.amount && f.status == (if f.amount == 0 then Waived else Active)
  }

  ghost predicate Inv(sha: Sha, s: State) {
    && (forall loan :: DebtAgrees(loan, s))
    && (forall id :: id in s.fines ==> FineOk(s.fines[id]) && MadeBefore(sha, id, s.fineCount))
  }

  /** The counter is hashed first, so no fine has the identifier the next one gets. */
  lemma NextIdFresh(sha: Sha, s: State, now: u64, loan: Bytes32, nonce: Bytes32)
    requires CollisionFree(sha) && Inv(sha, s) && s.fineCount < MAX_U64
    ensures var id := sha(IdPreimage(s.fineCount + 1, now, loan, nonce));
            id !in s.fines && MadeBefore(sha, id, s.fineCount + 1)
  {
    var n: u64 := s.fineCount + 1;
    var rest := ToBE(now, 8) + loan + nonce;
    MadeFromFirst(sha, n, rest);
    assert ToBE(n, 8) + rest == IdPreimage(n, now, loan, nonce);
  }

  lemma AssessKeeps(sha: Sha, valid: Verifier, s: State, env: Env, a: Assessment, sig: seq<Byte>)
    requires CollisionFree(sha) && Inv(sha, s) && AssessFine(s, env, sha, valid, a, sig).result.Ok?
    ensures Inv(sha, AssessFine(s, env, sha, valid, a, sig).state)
    ensures AssessFine(s, env, sha, valid, a, sig).result.value !in s.fines
  {
    var s' := AssessFine(s, env, sha, valid, a, sig).state;
    var n: u64 := s.fineCount + 1;
    var id := sha(IdPreimage(n, env.now, a.loan, a.nonce));
    NextIdFresh(sha, s, env.now, a.loan, a.nonce);
    forall loan ensures DebtAgrees(loan, s') {
      assert DebtAgrees(loan, s);
      MapTotalUpdate(AmountOf(loan), s.fines, id, s'.fines[id]);
    }
    forall i | i in s'.fines ensures MadeBefore(sha, i, s'.fineCount) {
      assert i != id ==> MadeBefore(sha, i, s.fineCount);
    }
  }

  lemma WaiveKeeps(sha: Sha, s: State, env: Env, caller: Address, id: Id, amount: i128)
    requires Inv(sha, s) && WaiveFine(s, env, caller, id, amount).result.Ok?
    ensures Inv(sha, WaiveFine(s, env, caller, id, amount).state)
  {
    var s' := WaiveFine(s, env, caller, id, amount).state;
    forall loan ensures DebtAgrees(loan, s') {
      assert DebtAgrees(loan, s);
      MapTotalUpdate(AmountOf(loan), s.fines, id, s'.fines[id]);
    }
  }

  lemma StepKeeps(sha: Sha, valid: Verifier, s: State, env: Env, c: Call)
    requires CollisionFree(sha) && Inv(sha, s)
    ensures Inv(sha, Step(s, env, sha, valid, c))
    ensures s.nonces <= Step(s, env, sha, valid, c).nonces
  {
    var s' := Step(s, env, sha, valid, c);
    match c
    case CallAssess(a, sig) =>
      if AssessFine(s, env, sha, valid, a, sig).result.Ok? { AssessKeeps(sha, valid, s, env, a, sig); }
    case CallWaive(a, id, n) =>
      if WaiveFine(s, env, a, id, n).result.Ok? { WaiveKeeps(sha, s, env, a, id, n); }
    case _ => BooksUntouched(sha, s, s');
  }

  lemma BooksUntouched(sha: Sha, s: State, s': State)
    requires Inv(sha, s) && s'.fines == s.fines && s'.debts == s.debts && s'.fineCount == s.fineCount
    ensures Inv(sha, s')
  {
    forall loan ensures DebtAgrees(loan, s') { assert DebtAgrees(loan, s); }
  }

  lemma {:induction false} RunKeeps(sha: Sha, valid: Verifier, s: State, steps: seq<(Env, Call)>)
    requires CollisionFree(sha) && Inv(sha, s)
    ensures Inv(sha, Run(s, sha, valid, steps)) && s.nonces <= Run(s, sha, valid, steps).nonces
  {
    var n := |steps| - 1;
    if n >= 0 {
      RunKeeps(sha, valid, s, steps[..n]);
      StepKeeps(sha, valid, Run(s, sha, valid, steps[..n]), steps[n].0, steps[n].1);
    }
  }

  /** Over every run a loan's debt is the sum of what its fines still amount to. */
  lemma Reachable(sha: Sha, valid: Verifier, steps: seq<(Env, Call)>)
    requires CollisionFree(sha)
    ensures Inv(sha, Run(InitialState(), sha, valid, steps))
  {
    assert forall loan :: DebtAgrees(loan, InitialState());
    RunKeeps(sha, valid, InitialState(), steps);
  }

  /** Hence the unguarded subtraction of a waiver cannot make a debt negative. */
  lemma DebtCoversFine(sha: Sha, s: State, id: Id)
    requires Inv(sha, s) && id in s.fines
    ensures s.fines[id].amount <= Debt(s, s.fines[id].loan)
  {
    var loan := s.fines[id].loan;
    assert DebtAgrees(loan, s);
    MapTotalRemove(AmountOf(loan), s.fines, id);
    MapTotalNonnegative(AmountOf(loan), s.fines - {id});
  }

  lemma DebtNonnegative(sha: Sha, s: State, loan: Bytes32)
    requires Inv(sha, s)
    ensures Debt(s, loan) >= 0
  {
    assert DebtAgrees(loan, s);
    MapTotalNonnegative(AmountOf(loan), s.fines);
  }

  // ---------------------------------------------------------------- replay and caps

  /** Once an assessment has created a fine, neither it nor any other with its nonce creates one, under any key and after
      any run. */
  lemma NoReplay(sha: Sha, valid: Verifier, s: State, env: Env, a: Assessment, sig: seq<Byte>,
                 steps: seq<(Env, Call)>, later: Env, b: Assessment, sig': seq<Byte>)
    requires CollisionFree(sha) && Inv(sha, s) && AssessFine(s, env, sha, valid, a, sig).result.Ok?
    requires b.nonce == a.nonce || Payload(b) == Payload(a)
    ensures var s' := Run(AssessFine(s, env, sha, valid, a, sig).state, sha, valid, steps);
            AssessFine(s', later, sha, valid, b, sig').result.Err?
  {
    var s1 := AssessFine(s, env, sha, valid, a, sig).state;
    AssessKeeps(sha, valid, s, env, a, sig);
    RunKeeps(sha, valid, s1, steps);
    if Payload(b) == Payload(a) { PayloadInjective(a, b); }
  }

  function Max(a: int, b: int): int {
    if a >= b then a else b
  }

  /** The largest cumulative cap under which a run assessed the loan. */
  function CapApplied(s: State, sha: Sha, valid: Verifier, steps: seq<(Env, Call)>, loan: Bytes32): int {
    if steps == [] then 0
    else
      var n := |steps| - 1;
      var before, c := CapApplied(s, sha, valid, steps[..n], loan), steps[n].1;
      var s1 := Run(s, sha, valid, steps[..n]);
      if c.CallAssess? && c.assessment.loan == loan && AssessFine(s1, steps[n].0, sha, valid, c.assessment, c.sig).result.Ok?
      then Max(before, s1.policies[c.assessment.policy].cumulativeCap) else before
  }

  /** A loan's debt never exceeds the largest cumulative cap applied to it. */
  lemma {:induction false} DebtCapped(sha: Sha, valid: Verifier, steps: seq<(Env, Call)>, loan: Bytes32)
    requires CollisionFree(sha)
    ensures Debt(Run(InitialState(), sha, valid, steps), loan) <= CapApplied(InitialState(), sha, valid, steps, loan)
  {
    var n := |steps| - 1;
    if n >= 0 {
      DebtCapped(sha, valid, steps[..n], loan);
    }
  }

  /** Anybody who signs for the admin initializes the contract, once. */
  lemma InitializeExactly(s: State, env: Env, admin: Address, pubkey: Bytes32)
    ensures var o := Initialize(s, env, admin, pubkey);
            && (o.result.Ok? <==> s.admin.None? && admin in env.signers)
            && (o.result.Ok? ==> o.state == s.(admin := Some(admin), pubkey := Some(pubkey)))
            && (o.result.Err? ==> o.state == s && o.result.error == (if s.admin.Some? then AlreadyInitialized else Aborted))
  {
  }

  /** Why a caller is not the admin. */
  ghost predicate AdminRefused(s: State, env: Env, caller: Address, error: Error) {
    match error
    case NotInitialized => s.admin.None?
    case Unauthorized => s.admin.Some? && s.admin.value != caller
    case Aborted => caller !in env.signers
    case _ => false
  }

  /** The admin, having signed, replaces the institution's key, and stores a policy with positive caps as it is given. */
  lemma ConfigurationExactly(s: State, env: Env, caller: Address, pubkey: Bytes32, id: Bytes32, p: Policy)
    ensures var may, key, policy := s.admin == Some(caller) && caller in env.signers,
                                    RotateKey(s, env, caller, pubkey), SetPolicy(s, env, caller, id, p);
            && (key.result.Ok? <==> may)
            && (key.result.Ok? ==> key.state == s.(pubkey := Some(pubkey)))
            && (key.result.Err? ==> key.state == s && AdminRefused(s, env, caller, key.result.error))
            && (policy.result.Ok? <==> may && p.perAssessmentCap > 0 && p.cumulativeCap > 0)
            && (policy.result.Ok? ==> policy.state == s.(policies := s.policies[id := p]))
            && (policy.result.Err? ==>
                  && policy.state == s
                  && (AdminRefused(s, env, caller, policy.result.error)
                      || (policy.result.error == InvalidAmount && (p.perAssessmentCap <= 0 || p.cumulativeCap <= 0))))
  {
  }

  /** The institution has a key and signed the assessment. */
  predicate Authentic(s: State, valid: Verifier, a: Assessment, sig: seq<Byte>) {
    s.pubkey.Some? && valid(s.pubkey.value, Payload(a), sig)
  }

  /** And it is neither stale nor a replay. */
  predicate Current(s: State, env: Env, valid: Verifier, a: Assessment, sig: seq<Byte>) {
    Authentic(s, valid, a, sig) && env.now < a.expiry && a.nonce !in s.nonces
  }

  /** And its policy is known and past the grace period. */
  predicate Accruing(s: State, env: Env, valid: Verifier, a: Assessment, sig: seq<Byte>) {
    Current(s, env, valid, a, sig) && a.policy in s.policies && a.loanStart + s.policies[a.policy].gracePeriod <= env.now
  }

  /** Why an assessment is refused, in the documented order: signature, expiry, nonce, grace period, cap, cumulative cap. */
  ghost predicate AssessmentRefused(s: State, env: Env, valid: Verifier, a: Assessment, sig: seq<Byte>, error: Error) {
    match error
    case InvalidAmount => a.amount <= 0
    case NotInitialized => a.amount > 0 && s.pubkey.None?
    case InvalidSignature => a.amount > 0 && s.pubkey.Some? && !Authentic(s, valid, a, sig)
    case AssessmentExpired => Authentic(s, valid, a, sig) && env.now >= a.expiry
    case NonceAlreadyUsed => Authentic(s, valid, a, sig) && env.now < a.expiry && a.nonce in s.nonces
    case PolicyNotFound => Current(s, env, valid, a, sig) && a.policy !in s.policies
    case GracePeriodActive => && Current(s, env, valid, a, sig) && a.policy in s.policies
                              && env.now < a.loanStart + s.policies[a.policy].gracePeriod
    case CapExceeded => Accruing(s, env, valid, a, sig) && a.amount > s.policies[a.policy].perAssessmentCap
    case CumulativeCapExceeded =>
      && Accruing(s, env, valid, a, sig) && a.amount <= s.policies[a.policy].perAssessmentCap
      && Debt(s, a.loan) + a.amount > s.policies[a.policy].cumulativeCap
    case Overflow =>
      && Current(s, env, valid, a, sig) && a.policy in s.policies
      && (|| a.loanStart + s.policies[a.policy].gracePeriod > MAX_U64
          || Debt(s, a.loan) + a.amount > MAX_I128 || s.fineCount == MAX_U64)
    case _ => false
  }

  /** A fine stands only on a valid signature of the institution, before its expiry, after the grace period and within
      the caps; it is then filed under the hash of its number, the time, its loan and its nonce, which is used up, and adds
      its amount to the debt of its loan alone. */
  lemma AssessExactly(sha: Sha, valid: Verifier, s: State, env: Env, a: Assessment, sig: seq<Byte>)
    ensures AssessFine(s, env, sha, valid, a, sig).result.Ok?
       <==> s.pubkey.Some? && valid(s.pubkey.value, Payload(a), sig) && a.nonce !in s.nonces && env.now < a.expiry
            && a.policy in s.policies && var p := s.policies[a.policy];
            a.loanStart + p.gracePeriod <= env.now && 0 < a.amount <= p.perAssessmentCap
            && Debt(s, a.loan) + a.amount <= p.cumulativeCap && s.fineCount < MAX_U64
    ensures AssessFine(s, env, sha, valid, a, sig).result.Ok? ==>
              var s', id := AssessFine(s, env, sha, valid, a, sig).state, AssessFine(s, env, sha, valid, a, sig).result.value;
              && id == sha(ToBE(s.fineCount + 1, 8) + ToBE(env.now, 8) + a.loan + a.nonce)
              && s' == s.(nonces := s.nonces + {a.nonce}, fineCount := s.fineCount + 1, debts := s'.debts,
                          fines := s.fines[id := Fine(a.loan, a.policy, a.ruleVersion, a.amount, env.now, Active)])
              && forall l :: Debt(s', l) == Debt(s, l) + (if l == a.loan then a.amount as int else 0)
    ensures var o := AssessFine(s, env, sha, valid, a, sig);
            o.result.Err? ==> o.state == s && AssessmentRefused(s, env, valid, a, sig, o.result.error)
  {
  }

  /** The admin can waive any part of what a fine still amounts to, and no more; the debt of its loan falls by as much, and
      the fine is marked as waived exactly when nothing is left of it. */
  lemma WaiveExactly(sha: Sha, s: State, env: Env, caller: Address, id: Id, amount: i128)
    requires Inv(sha, s)
    ensures WaiveFine(s, env, caller, id, amount).result.Ok?
       <==> s.admin == Some(caller) && caller in env.signers && id in s.fines && 0 < amount <= s.fines[id].amount
    ensures WaiveFine(s, env, caller, id, amount).result.Ok? ==>
              var s', f := WaiveFine(s, env, caller, id, amount).state, s.fines[id];
              && s' == s.(debts := s'.debts,
                          fines := s.fines[id := f.(amount := f.amount - amount,
                                                    status := if amount == f.amount then Waived else Active)])
              && forall l :: Debt(s', l) == Debt(s, l) - (if l == f.loan then amount as int else 0)
    ensures var o := WaiveFine(s, env, caller, id, amount);
            o.result.Err? ==>
              && o.state == s
              && (match o.result.error
                  case InvalidAmount => amount <= 0
                  case NotFound => id !in s.fines
                  case WaiverExceedsDebt => id in s.fines && amount > s.fines[id].amount
                  case _ => AdminRefused(s, env, caller, o.result.error))
  {
    if id in s.fines { DebtCoversFine(sha, s, id); }
  }
}
