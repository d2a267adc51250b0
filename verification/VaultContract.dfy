/** The vault as it runs: storage updated in place, each entry point proved against its transition. */
module VaultContracts {
  import opened Wrappers
  import opened Soroban
  import opened Hashing
  import V = Vault
  import Theorems = VaultTheorems

  type Error = V.Error

  /** Removes duplicate addresses, preserving first-seen order. */
  method Deduplicate(list: seq<Address>) returns (result: seq<Address>)
    ensures result == V.Deduplicate(list)
  {
    var seen: set<Address> := {};
    result := [];
    for i := 0 to |list|
      invariant result == V.Deduplicate(list[..i])
      invariant seen == set a | a in result
    {
      assert list[..i + 1][..i] == list[..i];
      if list[i] !in seen {
        seen := seen + {list[i]};
        result := result + [list[i]];
      }
    }
    assert list[..|list|] == list;
  }

  method HasDuplicate(list: seq<Address>) returns (found: bool)
    ensures found <==> !V.Distinct(list)
  {
    for i := 0 to |list|
      invariant forall k, l :: 0 <= k < i && k < l < |list| ==> list[k] != list[l]
    {
      for j := i + 1 to |list|
        invariant forall l :: i < l < j ==> list[i] != list[l]
      {
        if list[i] == list[j] { return true; }
      }
    }
    return false;
  }

  class VaultContract {
    const host: V.Host
    ghost const opening: Ledger // the balances at deployment
    var admin: Option<Address>
    var count: u64
    var vaults: map<Id, V.Vault>
    var votes: set<(Id, Address)>
    var ledger: Ledger
    var log: seq<V.Event>

    ghost function St(): V.State
      reads this
    {
      V.State(admin, count, vaults, votes, ledger, log)
    }

    /** The invariant that every run keeps. */
    ghost predicate Valid()
      reads this
    {
      Theorems.Inv(host, opening, St())
    }

    lemma Kept(env: Env, c: V.Call)
      ensures CollisionFree(host.sha) && env.WellFormed() && Valid() ==> Theorems.Inv(host, opening, V.Step(St(), host, env, c))
    {
      if CollisionFree(host.sha) && env.WellFormed() && Valid() { Theorems.StepKeeps(host, opening, St(), env, c); }
    }

    constructor (h: V.Host, balances: Ledger)
      ensures St() == V.Initial(balances) && host == h && opening == balances
      ensures CollisionFree(h.sha) && Endowed(balances) ==> Valid()
    {
      host, admin, count, vaults, votes, ledger, log, opening := h, None, 0, map[], {}, balances, [], balances;
      new;
      if CollisionFree(h.sha) && Endowed(balances) { Theorems.Reachable(h, balances, []); }
    }

    method Pay(token: Address, from: Address, to: Address, amount: int) returns (ok: bool)
      modifies this`ledger
      ensures ok == Transfer(old(ledger), token, from, to, amount).Some?
      ensures ledger == if ok then Transfer(old(ledger), token, from, to, amount).value else old(ledger)
    {
      var held := Balance(ledger, token, from);
      ok := 0 <= amount <= held;
      if ok {
        ledger := ledger[(token, from) := held - amount];
        ledger := ledger[(token, to) := Balance(ledger, token, to) + amount];
      }
    }

    method SetAdmin(env: Env, newAdmin: Address) returns (r: Result<(), Error>)
      modifies this
      ensures V.Outcome(St(), r) == V.SetAdmin(old(St()), env, newAdmin)
      ensures CollisionFree(host.sha) && env.WellFormed() && old(Valid()) ==> Valid()
    {
      Kept(env, V.CallSetAdmin(newAdmin));
      if admin.Some? { return Err(V.AlreadyInitialized); }
      if newAdmin !in env.signers { return Err(V.Aborted); }
      admin := Some(newAdmin);
      return Ok(());
    }

    method CreateVault(env: Env, depositor: Address, recipient: Address, token: Address, amount: i128,
                       approvers: seq<Address>, threshold: u32) returns (r: Result<Id, Error>)
      modifies this
      ensures V.Outcome(St(), r) == V.CreateVault(old(St()), host, env, depositor, recipient, token, amount, approvers, threshold)
      ensures CollisionFree(host.sha) && env.WellFormed() && old(Valid()) ==> Valid()
    {
      Kept(env, V.CallCreate(depositor, recipient, token, amount, approvers, threshold));
      if approvers == [] { return Err(V.EmptyApprovers); }
      var duplicate := HasDuplicate(approvers);
      if duplicate { return Err(V.DuplicateApprover); }
      if depositor in approvers || recipient in approvers { return Err(V.ConflictOfInterest); }
      var unique := Deduplicate(approvers);
      if amount <= 0 { return Err(V.InvalidAmount); }
      if threshold == 0 { return Err(V.InvalidThreshold); }
      if threshold > |unique| { return Err(V.ThresholdExceedsApprovers); }
      if depositor !in env.signers { return Err(V.Aborted); }
      var before := ledger;
      var ok := Pay(token, depositor, CONTRACT, amount);
      if !ok { return Err(V.Aborted); }
      if count == MAX_U64 {
        ledger := before; // the host rolls back
        return Err(V.Aborted);
      }
      count := count + 1;
      var id := host.sha(V.IdInput(host, count, env.now, depositor));
      vaults := vaults[id := V.Vault(depositor, recipient, token, amount, unique, 0, threshold, V.Pending)];
      log := log + [V.Deposited(id, amount)];
      return Ok(id);
    }

    method ApproveVault(env: Env, id: Id, caller: Address) returns (r: Result<(), Error>)
      modifies this
      ensures V.Outcome(St(), r) == V.ApproveVault(old(St()), env, id, caller)
      ensures CollisionFree(host.sha) && env.WellFormed() && old(Valid()) ==> Valid()
    {
      Kept(env, V.CallApprove(id, caller));
      if caller !in env.signers { return Err(V.Aborted); }
      if id !in vaults { return Err(V.NotFound); }
      var v := vaults[id];
      if v.status != V.Pending { return Err(V.NotPending); }
      if caller == v.depositor || caller == v.recipient { return Err(V.ConflictOfInterest); }
      if caller !in v.approvers { return Err(V.Unauthorized); }
      if (id, caller) in votes { return Err(V.AlreadyVoted); }
      if v.approvals == MAX_U32 { return Err(V.Aborted); }
      var before := votes;
      votes := votes + {(id, caller)};
      v := v.(approvals := v.approvals + 1);
      if v.approvals >= v.threshold {
        v := v.(status := V.Released);
        var ok := Pay(v.token, CONTRACT, v.recipient, v.amount);
        if !ok {
          votes := before; // the host rolls back
          return Err(V.Aborted);
        }
        log := log + [V.PaidOut(id, v.token, v.recipient, v.amount)];
      }
      vaults := vaults[id := v];
      return Ok(());
    }

    method RevokeApproval(env: Env, id: Id, caller: Address) returns (r: Result<(), Error>)
      modifies this
      ensures V.Outcome(St(), r) == V.RevokeApproval(old(St()), env, id, caller)
      ensures CollisionFree(host.sha) && env.WellFormed() && old(Valid()) ==> Valid()
    {
      Kept(env, V.CallRevoke(id, caller));
      if caller !in env.signers { return Err(V.Aborted); }
      if id !in vaults { return Err(V.NotFound); }
      var v := vaults[id];
      if v.status != V.Pending { return Err(V.NotPending); }
      if (id, caller) !in votes { return Err(V.NotVoted); }
      votes := votes - {(id, caller)};
      var approvals: u32 := if v.approvals == 0 then 0 else v.approvals - 1;
      vaults := vaults[id := v.(approvals := approvals)];
      return Ok(());
    }

    method EmergencyCancel(env: Env, id: Id) returns (r: Result<(), Error>)
      modifies this
      ensures V.Outcome(St(), r) == V.EmergencyCancel(old(St()), env, id)
      ensures CollisionFree(host.sha) && env.WellFormed() && old(Valid()) ==> Valid()
    {
      Kept(env, V.CallCancel(id));
      if admin.None? { return Err(V.NotInitialized); }
      if admin.value !in env.signers { return Err(V.Aborted); }
      if id !in vaults { return Err(V.NotFound); }
      var v := vaults[id];
      if v.status != V.Pending { return Err(V.NotPending); }
      var before := vaults;
      vaults := vaults[id := v.(status := V.Cancelled)];
      var ok := Pay(v.token, CONTRACT, v.depositor, v.amount);
      if !ok {
        vaults := before; // the host rolls back
        return Err(V.Aborted);
      }
      log := log + [V.PaidOut(id, v.token, v.depositor, v.amount)];
      return Ok(());
    }
  }
}
