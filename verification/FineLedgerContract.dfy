/** The fine ledger as it runs: storage maps updated in place, each entry point proved against its transition. */
module FineLedgerContracts {
  import opened Wrappers
  import opened Soroban
  import F = FineLedger
  import Theorems = FineLedgerTheorems

  type Error = F.Error
  type Ref = F.Ref

  class FineLedgerContract {
    var admin: Option<Address>
    var librarian: Option<Address>
    var assets: set<Address>
    var refs: set<Ref>
    var count: map<Ref, int>
    var entries: map<(Ref, int), F.Entry>
    var balances: map<Ref, int>
    var settlements: map<Ref, F.Settlement>

    ghost function St(): F.State
      reads this
    {
      F.State(admin, librarian, assets, refs, count, entries, balances, settlements)
    }

    /** The invariant that every run keeps. */
    ghost predicate Valid()
      reads this
    {
      Theorems.Inv(St())
    }

    lemma Kept(env: Env, c: F.Call)
      ensures Valid() ==> Theorems.Inv(F.Step(St(), env, c))
    {
      if Valid() { Theorems.StepKeeps(St(), env, c); }
    }

    constructor ()
      ensures St() == F.InitialState()
      ensures Valid()
    {
      admin, librarian, assets, refs := None, None, {}, {};
      count, entries, balances, settlements := map[], map[], map[], map[];
      new;
      Theorems.Reachable([]);
    }

    method Initialize(env: Env, newAdmin: Address, newLibrarian: Address) returns (r: Result<(), Error>)
      modifies this
      ensures F.Outcome(St(), r) == F.Initialize(old(St()), env, newAdmin, newLibrarian)
      ensures old(Valid()) ==> Valid()
    {
      Kept(env, F.CallInitialize(newAdmin, newLibrarian));
      if admin.Some? { return Err(F.AlreadyInitialized); }
      if newAdmin !in env.signers { return Err(F.Aborted); }
      admin, librarian := Some(newAdmin), Some(newLibrarian);
      return Ok(());
    }

    method RequireAdmin(env: Env, caller: Address) returns (r: Result<(), Error>)
      ensures r == match F.AdminError(St(), env, caller) { case None => Ok(()) case Some(e) => Err(e) }
    {
      if admin.None? { return Err(F.NotInitialized); }
      if caller != admin.value { return Err(F.Unauthorized); }
      if caller !in env.signers { return Err(F.Aborted); }
      return Ok(());
    }

    method RequireLibrarianOrAdmin(env: Env, caller: Address) returns (r: Result<(), Error>)
      ensures r == match F.LibrarianError(St(), env, caller) { case None => Ok(()) case Some(e) => Err(e) }
    {
      if admin.None? || librarian.None? { return Err(F.NotInitialized); }
      if caller != admin.value && caller != librarian.value { return Err(F.Unauthorized); }
      if caller !in env.signers { return Err(F.Aborted); }
      return Ok(());
    }

    /** Appends the entry, marks its reference and writes the new balance; false on overflow, with nothing changed. */
    method Append(e: F.Entry) returns (ok: bool)
      modifies this`entries, this`count, this`refs, this`balances
      ensures ok == F.Append(old(St()), e).Some?
      ensures St() == if ok then F.Append(old(St()), e).value else old(St())
    {
      var newBalance := Get(balances, e.patron) + e.delta;
      var position := Get(count, e.patron);
      if newBalance > MAX_I128 || position == MAX_U32 { return false; }
      entries := entries[(e.patron, position) := e];
      count := count[e.patron := position + 1];
      refs := refs + {e.refId};
      balances := balances[e.patron := newBalance];
      return true;
    }

    method AddSupportedAsset(env: Env, caller: Address, asset: Address) returns (r: Result<(), Error>)
      modifies this
      ensures F.Outcome(St(), r) == F.AddSupportedAsset(old(St()), env, caller, asset)
      ensures old(Valid()) ==> Valid()
    {
      Kept(env, F.CallAddAsset(caller, asset));
      r := RequireAdmin(env, caller);
      if r.Ok? { assets := assets + {asset}; }
    }

    method Assess(env: Env, caller: Address, patron: Ref, refId: Ref, amount: int, meta: Ref) returns (r: Result<(), Error>)
      modifies this
      ensures F.Outcome(St(), r) == F.Assess(old(St()), env, caller, patron, refId, amount, meta)
      ensures old(Valid()) ==> Valid()
    {
      Kept(env, F.CallAssess(caller, patron, refId, amount, meta));
      r := RequireLibrarianOrAdmin(env, caller);
      if r.Err? { return; }
      if amount <= 0 { return Err(F.InvalidAmount); }
      if refId in refs { return Err(F.DuplicateReference); }
      var ok := Append(F.Entry(patron, refId, F.Assessment, amount, None, env.now, meta));
      return if ok then Ok(()) else Err(F.Aborted);
    }

    method Waive(env: Env, caller: Address, patron: Ref, refId: Ref, amount: int, reason: Ref) returns (r: Result<(), Error>)
      modifies this
      ensures F.Outcome(St(), r) == F.Waive(old(St()), env, caller, patron, refId, amount, reason)
      ensures old(Valid()) ==> Valid()
    {
      Kept(env, F.CallWaive(caller, patron, refId, amount, reason));
      r := RequireLibrarianOrAdmin(env, caller);
      if r.Err? { return; }
      if amount <= 0 { return Err(F.InvalidAmount); }
      if refId in refs { return Err(F.DuplicateReference); }
      if amount > Get(balances, patron) { return Err(F.WaiverExceedsBalance); }
      var ok := Append(F.Entry(patron, refId, F.Waiver, -amount, None, env.now, reason));
      return if ok then Ok(()) else Err(F.Aborted);
    }

    method InitiatePayment(env: Env, caller: Address, patron: Ref, id: Ref, asset: Address, amount: int)
      returns (r: Result<(), Error>)
      modifies this
      ensures F.Outcome(St(), r) == F.InitiatePayment(old(St()), env, caller, patron, id, asset, amount)
      ensures old(Valid()) ==> Valid()
    {
      Kept(env, F.CallInitiate(caller, patron, id, asset, amount));
      if caller !in env.signers { return Err(F.Aborted); }
      if admin.None? { return Err(F.NotInitialized); }
      if amount <= 0 { return Err(F.InvalidAmount); }
      if asset !in assets { return Err(F.UnsupportedAsset); }
      if id in settlements { return Err(F.DuplicateSettlement); }
      settlements := settlements[id := F.Settlement(patron, caller, asset, amount, F.Pending, env.now)];
      return Ok(());
    }

    method ConfirmPayment(env: Env, caller: Address, id: Ref, refId: Ref, meta: Ref) returns (r: Result<(), Error>)
      modifies this
      ensures F.Outcome(St(), r) == F.ConfirmPayment(old(St()), env, caller, id, refId, meta)
      ensures old(Valid()) ==> Valid()
    {
      Kept(env, F.CallConfirm(caller, id, refId, meta));
      r := RequireAdmin(env, caller);
      if r.Err? { return; }
      if id !in settlements { return Err(F.SettlementNotFound); }
      var p := settlements[id];
      if p.phase != F.Pending { return Err(F.InvalidStateTransition); }
      if refId in refs { return Err(F.DuplicateReference); }
      if p.amount > Get(balances, p.patron) { return Err(F.PaymentExceedsBalance); }
      var ok := Append(F.Entry(p.patron, refId, F.Payment, -p.amount, Some(p.asset), env.now, meta));
      if !ok { return Err(F.Aborted); }
      settlements := settlements[id := p.(phase := F.Confirmed)];
      return Ok(());
    }

    method FailPayment(env: Env, caller: Address, id: Ref) returns (r: Result<(), Error>)
      modifies this
      ensures F.Outcome(St(), r) == F.FailPayment(old(St()), env, caller, id)
      ensures old(Valid()) ==> Valid()
    {
      Kept(env, F.CallFail(caller, id));
      r := RequireAdmin(env, caller);
      if r.Err? { return; }
      if id !in settlements { return Err(F.SettlementNotFound); }
      var p := settlements[id];
      if p.phase != F.Pending { return Err(F.InvalidStateTransition); }
      settlements := settlements[id := p.(phase := F.Failed)];
      return Ok(());
    }

    method RefundPayment(env: Env, caller: Address, id: Ref, refId: Ref, meta: Ref) returns (r: Result<(), Error>)
      modifies this
      ensures F.Outcome(St(), r) == F.RefundPayment(old(St()), env, caller, id, refId, meta)
      ensures old(Valid()) ==> Valid()
    {
      Kept(env, F.CallRefund(caller, id, refId, meta));
      r := RequireAdmin(env, caller);
      if r.Err? { return; }
      if id !in settlements { return Err(F.SettlementNotFound); }
      var p := settlements[id];
      if p.phase != F.Confirmed { return Err(F.InvalidStateTransition); }
      if refId in refs { return Err(F.DuplicateReference); }
      var ok := Append(F.Entry(p.patron, refId, F.Refund, p.amount, Some(p.asset), env.now, meta));
      if !ok { return Err(F.Aborted); }
      settlements := settlements[id := p.(phase := F.Refunded)];
      return Ok(());
    }

    method ReversePayment(env: Env, caller: Address, id: Ref, refId: Ref, meta: Ref) returns (r: Result<(), Error>)
      modifies this
      ensures F.Outcome(St(), r) == F.ReversePayment(old(St()), env, caller, id, refId, meta)
      ensures old(Valid()) ==> Valid()
    {
      Kept(env, F.CallReverse(caller, id, refId, meta));
      r := RequireAdmin(env, caller);
      if r.Err? { return; }
      if id !in settlements { return Err(F.SettlementNotFound); }
      var p := settlements[id];
      if p.phase != F.Confirmed { return Err(F.InvalidStateTransition); }
      if refId in refs { return Err(F.DuplicateReference); }
      var ok := Append(F.Entry(p.patron, refId, F.Reversal, p.amount, Some(p.asset), env.now, meta));
      if !ok { return Err(F.Aborted); }
      settlements := settlements[id := p.(phase := F.Reversed)];
      return Ok(());
    }

    method GetEntries(patron: Ref, cursor: u32, limit: u32) returns (page: seq<F.Entry>)
      ensures page == F.GetEntries(St(), patron, cursor, limit)
    {
      var total := Get(count, patron);
      var pageLimit: int := if limit > F.MAX_PAGE_SIZE then F.MAX_PAGE_SIZE else limit;
      var end: int := if cursor + pageLimit > MAX_U32 then MAX_U32 else cursor + pageLimit;
      page := [];
      var position: int := cursor;
      while position < total && position < end
        invariant cursor <= position
        invariant page + F.Slice(St(), patron, position, F.Min(total, end)) == F.Slice(St(), patron, cursor, F.Min(total, end))
        decreases end - position
      {
        if (patron, position) in entries {
          page := page + [entries[(patron, position)]];
        }
        position := position + 1;
      }
      assert page + [] == page;
    }
  }
}
