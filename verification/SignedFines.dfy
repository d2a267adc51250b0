/** Signed fine assessments: the signed payload, one-time nonces, caps, and a cached debt per loan. */
module SignedFines {
  import opened Wrappers
  import opened Soroban
  import opened Bytes
  import opened Hashing

  type Bytes32 = s: seq<Byte> | |s| == 32 witness seq(32, _ => 0)

  /** The strict Ed25519 check of a signature on a payload under a public key; it comes from outside. */
  type Verifier = (Bytes32, seq<Byte>, seq<Byte>) -> bool

  datatype Policy = Policy(perAssessmentCap: i128, cumulativeCap: i128, gracePeriod: u64)

  /** Settled is declared by the contract but no entry point assigns it. */
  datatype Status = Active | Waived | Settled

  datatype Fine = Fine(loan: Bytes32, policy: Bytes32, ruleVersion: u32, amount: i128, accruedAt: u64, status: Status)

  /** What the institution signs. */
  datatype Assessment = Assessment(loan: Bytes32, policy: Bytes32, ruleVersion: u32, amount: i128, loanStart: u64,
                                   nonce: Bytes32, expiry: u64)

  /** Aborted is a missing authorization. */
  datatype Error = NotInitialized | AlreadyInitialized | Unauthorized | NotFound | InvalidSignature | NonceAlreadyUsed
                 | AssessmentExpired | CapExceeded | CumulativeCapExceeded | GracePeriodActive | WaiverExceedsDebt
                 | InvalidAmount | Overflow | PolicyNotFound | Aborted

  datatype State = State(
    admin: Option<Address>,
    pubkey: Option<Bytes32>,
    fineCount: u64,
    policies: map<Bytes32, Policy>,
    fines: map<Id, Fine>,
    nonces: set<Bytes32>,
    debts: map<Bytes32, int>)

  datatype Outcome<+T> = Outcome(state: State, result: Result<T, Error>)

  function InitialState(): State {
    State(None, None, 0, map[], map[], {}, map[])
  }

  function Fail<T>(s: State, e: Error): Outcome<T> {
    Outcome(s, Err(e))
  }

  // ---------------------------------------------------------------- the payload

  /** The ASCII bytes of CHAINVERSE_FINE: */
  const TAG: seq<Byte> := [67, 72, 65, 73, 78, 86, 69, 82, 83, 69, 95, 70, 73, 78, 69, 58]

  /** A signed 128-bit number in two's complement. */
  function Unsigned(n: i128): nat {
    if n < 0 then n + MAX_U128 + 1 else n
  }

  function Payload(a: Assessment): seq<Byte> {
    TAG + a.loan + a.policy + ToBE(a.ruleVersion, 4) + ToBE(Unsigned(a.amount), 16) + ToBE(a.loanStart, 8) + a.nonce
    + ToBE(a.expiry, 8)
  }

  /** What is hashed into the identifier of the k-th fine. */
  function IdPreimage(k: u64, now: u64, loan: Bytes32, nonce: Bytes32): seq<Byte> {
    ToBE(k, 8) + ToBE(now, 8) + loan + nonce
  }

  // ---------------------------------------------------------------- entry points

  function Debt(s: State, loan: Bytes32): int {
    if loan in s.debts then s.debts[loan] else 0
  }

  function AdminError(s: State, env: Env, caller: Address): Option<Error> {
    if s.admin.None? then Some(NotInitialized)
    else if caller != s.admin.value then Some(Unauthorized)
    else if caller !in env.signers then Some(Aborted)
    else None
  }

  function Initialize(s: State, env: Env, admin: Address, pubkey: Bytes32): Outcome<()> {
    if s.admin.Some? then Fail(s, AlreadyInitialized)
    else if admin !in env.signers then Fail(s, Aborted)
    else Outcome(s.(admin := Some(admin), pubkey := Some(pubkey)), Ok(()))
  }

  function RotateKey(s: State, env: Env, caller: Address, pubkey: Bytes32): Outcome<()> {
    match AdminError(s, env, caller)
    case Some(e) => Fail(s, e)
    case None => Outcome(s.(pubkey := Some(pubkey)), Ok(()))
  }

  function SetPolicy(s: State, env: Env, caller: Address, id: Bytes32, p: Policy): Outcome<()> {
    match AdminError(s, env, caller)
    case Some(e) => Fail(s, e)
    case None =>
      if p.perAssessmentCap <= 0 || p.cumulativeCap <= 0 then Fail(s, InvalidAmount)
      else Outcome(s.(policies := s.policies[id := p]), Ok(()))
  }

  /** The checks after the nonce, in order; None is success. */
  function PolicyError(s: State, env: Env, a: Assessment): Option<Error> {
    if a.policy !in s.policies then Some(PolicyNotFound)
    else
      var p := s.policies[a.policy];
      if a.loanStart + p.gracePeriod > MAX_U64 then Some(Overflow)
      else if env.now < a.loanStart + p.gracePeriod then Some(GracePeriodActive)
      else if a.amount > p.perAssessmentCap then Some(CapExceeded)
      else if Debt(s, a.loan) + a.amount > MAX_I128 then Some(Overflow)
      else if Debt(s, a.loan) + a.amount > p.cumulativeCap then Some(CumulativeCapExceeded)
      else if s.fineCount == MAX_U64 then Some(Overflow)
      else None
  }

  function AssessFine(s: State, env: Env, sha: Sha, valid: Verifier, a: Assessment, sig: seq<Byte>): Outcome<Id> {
    if a.amount <= 0 then Fail(s, InvalidAmount)
    else if s.pubkey.None? then Fail(s, NotInitialized)
    else if !valid(s.pubkey.value, Payload(a), sig) then Fail(s, InvalidSignature)
    else if env.now >= a.expiry then Fail(s, AssessmentExpired)
    else if a.nonce in s.nonces then Fail(s, NonceAlreadyUsed)
    else match PolicyError(s, env, a)
      case Some(e) => Fail(s, e)
      case None =>
        var id := sha(IdPreimage(s.fineCount + 1, env.now, a.loan, a.nonce));
        Outcome(s.(nonces := s.nonces + {a.nonce},
                   fineCount := s.fineCount + 1,
                   fines := s.fines[id := Fine(a.loan, a.policy, a.ruleVersion, a.amount, env.now, Active)],
                   debts := s.debts[a.loan := Debt(s, a.loan) + a.amount]),
                Ok(id))
  }

  function WaiveFine(s: State, env: Env, caller: Address, id: Id, amount: i128): Outcome<()> {
    match AdminError(s, env, caller)
    case Some(e) => Fail(s, e)
    case None =>
      if amount <= 0 then Fail(s, InvalidAmount)
      else if id !in s.fines then Fail(s, NotFound)
      else
        var f := s.fines[id];
        if amount > f.amount then Fail(s, WaiverExceedsDebt)
        else if Debt(s, f.loan) - amount < -MAX_I128 - 1 then Fail(s, Overflow)
        else
          var rest := f.amount - amount;
          Outcome(s.(fines := s.fines[id := f.(amount := rest, status := if rest == 0 then Waived else f.status)],
                     debts := s.debts[f.loan := Debt(s, f.loan) - amount]),
                  Ok(()))
  }

  // ---------------------------------------------------------------- runs

  datatype Call = CallInitialize(admin: Address, pubkey: Bytes32)
                | CallRotateKey(caller: Address, pubkey: Bytes32)
                | CallSetPolicy(caller: Address, policyId: Bytes32, policy: Policy)
                | CallAssess(assessment: Assessment, sig: seq<Byte>)
                | CallWaive(caller: Address, id: Id, amount: i128)

  function Step(s: State, env: Env, sha: Sha, valid: Verifier, c: Call): State {
    match c
    case CallInitialize(a, k) => Initialize(s, env, a, k).state
    case CallRotateKey(a, k) => RotateKey(s, env, a, k).state
    case CallSetPolicy(a, id, p) => SetPolicy(s, env, a, id, p).state
    case CallAssess(a, sig) => AssessFine(s, env, sha, valid, a, sig).state
    case CallWaive(a, id, n) => WaiveFine(s, env, a, id, n).state
  }

  function Run(s: State, sha: Sha, valid: Verifier, steps: seq<(Env, Call)>): State {
    if steps == [] then s
    else Step(Run(s, sha, valid, steps[..|steps| - 1]), steps[|steps| - 1].0, sha, valid, steps[|steps| - 1].1)
  }
}
