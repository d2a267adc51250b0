/** The vesting contract as it runs: storage updated in place, each entry point proved against its transition. */
module VestingContracts {
  import opened Wrappers
  import opened Soroban
  import V = Vesting
  import Theorems = VestingTheorems

  type Error = V.Error

  class VestingContract {
    var admin: Option<Address>
    var token: Option<Address>
    var count: u64
    var schedules: map<int, V.Schedule>
    var ledger: Ledger
    var log: seq<V.Payment>

    ghost function St(): V.State
      reads this
    {
      V.State(admin, token, count, schedules, ledger, log)
    }

    /** The invariant that every run keeps. */
    ghost predicate Valid()
      reads this
    {
      Theorems.Inv(St())
    }

    lemma Kept(env: Env, c: V.Call)
      ensures Valid() ==> Theorems.Inv(V.Step(St(), env, c))
    {
      if Valid() { Theorems.StepKeeps(St(), env, c); }
    }

    constructor (opening: Ledger)
      ensures St() == V.Initial(opening)
      ensures Valid()
    {
      admin, token, count, schedules, ledger, log := None, None, 0, map[], opening, [];
      new;
      Theorems.InitiallyHolds(opening);
    }

    method Init(newAdmin: Address, rewardToken: Address) returns (r: Result<(), Error>)
      modifies this
      ensures V.Outcome(St(), r) == V.Init(old(St()), newAdmin, rewardToken)
      ensures old(Valid()) ==> Valid()
    {
      Kept(Env(0, {}), V.CallInit(newAdmin, rewardToken));
      if admin.Some? { return Err(V.Unauthorized); }
      admin, token, count := Some(newAdmin), Some(rewardToken), 0;
      return Ok(());
    }

    method GrantVesting(env: Env, caller: Address, beneficiary: Address, amount: i128, start: u64, cliff: u64, duration: u64)
      returns (r: Result<int, Error>)
      modifies this
      ensures V.Outcome(St(), r) == V.GrantVesting(old(St()), env, caller, beneficiary, amount, start, cliff, duration)
      ensures old(Valid()) ==> Valid()
    {
      Kept(env, V.CallGrant(caller, beneficiary, amount, start, cliff, duration));
      if caller !in env.signers { return Err(V.Aborted); }
      if admin.None? || admin.value != caller { return Err(V.Unauthorized); }
      if amount <= 0 { return Err(V.InvalidSchedule); }
      if cliff > duration { return Err(V.InvalidSchedule); }
      if count == MAX_U64 { return Err(V.Aborted); }
      var id: int := count + 1;
      schedules := schedules[id := V.Schedule(beneficiary, amount, start, cliff, duration, false, false, 0)];
      count := id;
      return Ok(id);
    }

    method Claim(env: Env, id: int, beneficiary: Address) returns (r: Result<int, Error>)
      modifies this
      ensures V.Outcome(St(), r) == V.Claim(old(St()), env, id, beneficiary)
      ensures old(Valid()) ==> Valid()
    {
      Kept(env, V.CallClaim(id, beneficiary));
      if beneficiary !in env.signers { return Err(V.Aborted); }
      if id !in schedules { return Err(V.GrantNotFound); }
      var v := schedules[id];
      if v.beneficiary != beneficiary { return Err(V.Unauthorized); }
      if v.claimed { return Err(V.AlreadyClaimed); }
      if v.revoked { return Err(V.Revoked); }
      var amount := V.VestedAmount(v, env.now);
      if amount.None? { return Err(V.Aborted); }
      var vested := amount.value;
      if vested == 0 { return Err(V.NotVested); }
      if token.None? { return Err(V.Unauthorized); }
      if Balance(ledger, token.value, CONTRACT) < vested { return Err(V.InsufficientBalance); }
      var before := schedules;
      schedules := schedules[id := v.(claimed := true)];
      var transferred := Transfer(ledger, token.value, CONTRACT, beneficiary, vested);
      if transferred.None? {
        schedules := before; // the host rolls back
        return Err(V.Aborted);
      }
      ledger := transferred.value;
      log := log + [V.Payment(id, beneficiary, vested)];
      return Ok(vested);
    }

    method Revoke(env: Env, id: int, caller: Address, delay: u64) returns (r: Result<(), Error>)
      modifies this
      ensures V.Outcome(St(), r) == V.Revoke(old(St()), env, id, caller, delay)
      ensures old(Valid()) ==> Valid()
    {
      Kept(env, V.CallRevoke(id, caller, delay));
      if caller !in env.signers { return Err(V.Aborted); }
      if admin.None? || admin.value != caller { return Err(V.Unauthorized); }
      if id !in schedules { return Err(V.GrantNotFound); }
      var v := schedules[id];
      if v.claimed { return Err(V.AlreadyClaimed); }
      if v.revoked { return Err(V.Revoked); }
      if delay < V.MIN_REVOKE_DELAY { return Err(V.InvalidTimelock); }
      if v.start + delay > MAX_U64 { return Err(V.Aborted); }
      if env.now < v.start + delay { return Err(V.NotEnoughTimeForRevoke); }
      schedules := schedules[id := v.(revoked := true, revokeTime := env.now)];
      return Ok(());
    }
  }
}
