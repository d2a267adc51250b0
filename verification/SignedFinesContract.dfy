/** The signed fine contract as it runs: storage updated in place, each entry point proved against its transition. */
module SignedFinesContracts {
  import opened Wrappers
  import opened Soroban
  import opened Hashing
  import opened Bytes
  import F = SignedFines
  import Theorems = SignedFinesTheorems

  type Error = F.Error
  type Bytes32 = F.Bytes32

  class SignedFinesContract {
    const sha: Sha
    const valid: F.Verifier
    var admin: Option<Address>
    var pubkey: Option<Bytes32>
    var fineCount: u64
    var policies: map<Bytes32, F.Policy>
    var fines: map<Id, F.Fine>
    var nonces: set<Bytes32>
    var debts: map<Bytes32, int>

    ghost function St(): F.State
      reads this
    {
      F.State(admin, pubkey, fineCount, policies, fines, nonces, debts)
    }

    /** The invariant that every run keeps. */
    ghost predicate Valid()
      reads this
    {
      Theorems.Inv(sha, St())
    }

    lemma Kept(env: Env, c: F.Call)
      ensures CollisionFree(sha) && Valid() ==> Theorems.Inv(sha, F.Step(St(), env, sha, valid, c))
    {
      if CollisionFree(sha) && Valid() { Theorems.StepKeeps(sha, valid, St(), env, c); }
    }

    constructor (hash: Sha, verifier: F.Verifier)
      ensures St() == F.InitialState() && sha == hash && valid == verifier
      ensures CollisionFree(hash) ==> Valid()
    {
      sha, valid := hash, verifier;
      admin, pubkey, fineCount, nonces := None, None, 0, {};
      policies, fines, debts := map[], map[], map[];
      new;
      if CollisionFree(hash) { Theorems.Reachable(hash, verifier, []); }
    }

    method RequireAdmin(env: Env, caller: Address) returns (r: Result<(), Error>)
      ensures r == match F.AdminError(St(), env, caller) { case None => Ok(()) case Some(e) => Err(e) }
    {
      if admin.None? { return Err(F.NotInitialized); }
      if caller != admin.value { return Err(F.Unauthorized); }
      if caller !in env.signers { return Err(F.Aborted); }
      return Ok(());
    }

    method Initialize(env: Env, newAdmin: Address, key: Bytes32) returns (r: Result<(), Error>)
      modifies this
      ensures F.Outcome(St(), r) == F.Initialize(old(St()), env, newAdmin, key)
      ensures CollisionFree(sha) && old(Valid()) ==> Valid()
    {
      Kept(env, F.CallInitialize(newAdmin, key));
      if admin.Some? { return Err(F.AlreadyInitialized); }
      if newAdmin !in env.signers { return Err(F.Aborted); }
      admin, pubkey := Some(newAdmin), Some(key);
      return Ok(());
    }

    method RotateKey(env: Env, caller: Address, key: Bytes32) returns (r: Result<(), Error>)
      modifies this
      ensures F.Outcome(St(), r) == F.RotateKey(old(St()), env, caller, key)
      ensures CollisionFree(sha) && old(Valid()) ==> Valid()
    {
      Kept(env, F.CallRotateKey(caller, key));
      r := RequireAdmin(env, caller);
      if r.Ok? { pubkey := Some(key); }
    }

    method SetPolicy(env: Env, caller: Address, id: Bytes32, p: F.Policy) returns (r: Result<(), Error>)
      modifies this
      ensures F.Outcome(St(), r) == F.SetPolicy(old(St()), env, caller, id, p)
      ensures CollisionFree(sha) && old(Valid()) ==> Valid()
    {
      Kept(env, F.CallSetPolicy(caller, id, p));
      r := RequireAdmin(env, caller);
      if r.Err? { return; }
      if p.perAssessmentCap <= 0 || p.cumulativeCap <= 0 { return Err(F.InvalidAmount); }
      policies := policies[id := p];
    }

    /** Appends the fields one after another. */
    method BuildFinePayload(a: F.Assessment) returns (msg: seq<Byte>)
      ensures msg == F.Payload(a)
    {
      msg := F.TAG;
      msg := msg + a.loan;
      msg := msg + a.policy;
      msg := msg + ToBE(a.ruleVersion, 4);
      msg := msg + ToBE(F.Unsigned(a.amount), 16);
      msg := msg + ToBE(a.loanStart, 8);
      msg := msg + a.nonce;
      msg := msg + ToBE(a.expiry, 8);
    }

    method AssessFine(env: Env, a: F.Assessment, sig: seq<Byte>) returns (r: Result<Id, Error>)
      modifies this
      ensures F.Outcome(St(), r) == F.AssessFine(old(St()), env, sha, valid, a, sig)
      ensures CollisionFree(sha) && old(Valid()) ==> Valid()
    {
      Kept(env, F.CallAssess(a, sig));
      r := Assess(env, a, sig);
    }

    method Assess(env: Env, a: F.Assessment, sig: seq<Byte>) returns (r: Result<Id, Error>)
      modifies this
      ensures F.Outcome(St(), r) == F.AssessFine(old(St()), env, sha, valid, a, sig)
    {
      if a.amount <= 0 { return Err(F.InvalidAmount); }
      if pubkey.None? { return Err(F.NotInitialized); }
      var payload := BuildFinePayload(a);
      if !valid(pubkey.value, payload, sig) { return Err(F.InvalidSignature); }
      if env.now >= a.expiry { return Err(F.AssessmentExpired); }
      if a.nonce in nonces { return Err(F.NonceAlreadyUsed); }
      var used := nonces;
      nonces := nonces + {a.nonce};
      var failure := CheckPolicy(env, a);
      if failure.Some? {
        nonces := used; // the host rolls back
        return Err(failure.value);
      }
      fineCount := fineCount + 1;
      var id := sha(F.IdPreimage(fineCount, env.now, a.loan, a.nonce));
      fines := fines[id := F.Fine(a.loan, a.policy, a.ruleVersion, a.amount, env.now, F.Active)];
      debts := debts[a.loan := (if a.loan in debts then debts[a.loan] else 0) + a.amount];
      return Ok(id);
    }

    method CheckPolicy(env: Env, a: F.Assessment) returns (r: Option<Error>)
      ensures r == F.PolicyError(St(), env, a)
    {
      if a.policy !in policies { return Some(F.PolicyNotFound); }
      var p := policies[a.policy];
      if a.loanStart + p.gracePeriod > MAX_U64 { return Some(F.Overflow); }
      if env.now < a.loanStart + p.gracePeriod { return Some(F.GracePeriodActive); }
      if a.amount > p.perAssessmentCap { return Some(F.CapExceeded); }
      var newDebt := (if a.loan in debts then debts[a.loan] else 0) + a.amount;
      if newDebt > MAX_I128 { return Some(F.Overflow); }
      if newDebt > p.cumulativeCap { return Some(F.CumulativeCapExceeded); }
      if fineCount == MAX_U64 { return Some(F.Overflow); }
      return None;
    }

    method WaiveFine(env: Env, caller: Address, id: Id, amount: i128) returns (r: Result<(), Error>)
      modifies this
      ensures F.Outcome(St(), r) == F.WaiveFine(old(St()), env, caller, id, amount)
      ensures CollisionFree(sha) && old(Valid()) ==> Valid()
    {
      Kept(env, F.CallWaive(caller, id, amount));
      r := RequireAdmin(env, caller);
      if r.Err? { return; }
      if amount <= 0 { return Err(F.InvalidAmount); }
      if id !in fines { return Err(F.NotFound); }
      var f := fines[id];
      if amount > f.amount { return Err(F.WaiverExceedsDebt); }
      var newDebt := (if f.loan in debts then debts[f.loan] else 0) - amount;
      if newDebt < -MAX_I128 - 1 { return Err(F.Overflow); }
      var newAmount: i128 := f.amount - amount;
      var status := f.status;
      if newAmount == 0 {
        status := F.Waived;
      }
      fines := fines[id := f.(amount := newAmount, status := status)];
      debts := debts[f.loan := newDebt];
    }
  }
}
