/** The escrow contract as it runs: storage fields updated in place, each entry point proved against its transition. */
module EscrowContracts {
  import opened Wrappers
  import opened Soroban
  import Escrow
  import Invariant = EscrowInvariant
  import Theorems = EscrowTheorems

  type Error = Escrow.Error

  class EscrowContract {
    /** The balances before the contract was deployed. */
    ghost const opening: Ledger
    var admin: Option<Address>
    var arbiter: Option<Address>
    var whitelist: set<Address>
    var feeBps: u32
    var count: u64
    var escrows: map<int, Escrow.Record>
    var fees: map<Address, int>
    var totalVolume: int
    var history: seq<Escrow.FeeRecord>
    var byToken: map<Address, seq<int>>
    var byBuyer: map<Address, seq<int>>
    var bySeller: map<Address, seq<int>>
    var ledger: Ledger
    var log: seq<Escrow.Event>

    ghost function St(): Escrow.State
      reads this
    {
      Escrow.State(admin, arbiter, whitelist, feeBps, count, escrows, fees, totalVolume, history,
                   byToken, byBuyer, bySeller, ledger, log)
    }

    /** The invariant that every run keeps. */
    ghost predicate Valid()
      reads this
    {
      Invariant.Inv(opening, St())
    }

    lemma Kept(env: Env, c: Escrow.Call)
      ensures env.WellFormed() && Valid() ==> Invariant.Inv(opening, Escrow.Step(St(), env, c))
    {
      if env.WellFormed() && Valid() { Invariant.StepKeeps(opening, St(), env, c); }
    }

    constructor (balances: Ledger)
      ensures St() == Escrow.Initial(balances) && opening == balances
      ensures Endowed(balances) ==> Valid()
    {
      admin, arbiter, whitelist, feeBps := None, None, {}, Escrow.DEFAULT_FEE_BPS;
      count, escrows, fees, totalVolume, history := 0, map[], map[], 0, [];
      byToken, byBuyer, bySeller := map[], map[], map[];
      ledger, log, opening := balances, [], balances;
      new;
      if Endowed(balances) { Theorems.InitiallyHolds(balances); }
    }

    /** The token client: false when the transfer aborts. */
    method Pay(token: Address, from: Address, to: Address, amount: int) returns (ok: bool)
      modifies this`ledger
      ensures ok == Transfer(old(ledger), token, from, to, amount).Some?
      ensures ledger == if ok then Transfer(old(ledger), token, from, to, amount).value else old(ledger)
    {
      var held := Balance(ledger, token, from);
      ok := 0 <= amount <= held;
      if ok {
        ledger := ledger[(token, from) := held - amount];
        ledger := ledger[(token, to) := Balance(ledger, token, to) + amount];
      }
    }

    /** A zero amount is not transferred. */
    method PayIfPositive(token: Address, to: Address, amount: int) returns (ok: bool)
      requires amount >= 0
      modifies this`ledger
      ensures ok == Escrow.TransferIfPositive(old(ledger), token, to, amount).Some?
      ensures ledger == if ok then Escrow.TransferIfPositive(old(ledger), token, to, amount).value else old(ledger)
    {
      ok := true;
      if amount > 0 {
        ok := Pay(token, CONTRACT, to, amount);
      }
    }

    method SetAdmin(env: Env, newAdmin: Address) returns (r: Result<(), Error>)
      modifies this
      ensures Escrow.Outcome(St(), r) == Escrow.SetAdmin(old(St()), env, newAdmin)
      ensures env.WellFormed() && old(Valid()) ==> Valid()
    {
      Kept(env, Escrow.CallSetAdmin(newAdmin));
      var authority := match admin { case Some(a) => a case None => newAdmin };
      if authority !in env.signers { return Err(Escrow.Aborted); }
      admin := Some(newAdmin);
      return Ok(());
    }

    method RequireAdmin(env: Env, caller: Address) returns (r: Result<(), Error>)
      ensures r == match Escrow.AdminError(St(), env, caller) { case None => Ok(()) case Some(e) => Err(e) }
    {
      if admin.None? || admin.value != caller { return Err(Escrow.Unauthorized); }
      if caller !in env.signers { return Err(Escrow.Aborted); }
      return Ok(());
    }

    method WhitelistToken(env: Env, caller: Address, token: Address) returns (r: Result<(), Error>)
      modifies this
      ensures Escrow.Outcome(St(), r) == Escrow.WhitelistToken(old(St()), env, caller, token)
      ensures env.WellFormed() && old(Valid()) ==> Valid()
    {
      Kept(env, Escrow.CallWhitelistToken(caller, token));
      r := RequireAdmin(env, caller);
      if r.Ok? { whitelist := whitelist + {token}; }
    }

    method SetArbiter(env: Env, caller: Address, newArbiter: Address) returns (r: Result<(), Error>)
      modifies this
      ensures Escrow.Outcome(St(), r) == Escrow.SetArbiter(old(St()), env, caller, newArbiter)
      ensures env.WellFormed() && old(Valid()) ==> Valid()
    {
      Kept(env, Escrow.CallSetArbiter(caller, newArbiter));
      r := RequireAdmin(env, caller);
      if r.Ok? { arbiter := Some(newArbiter); }
    }

    method SetProtocolFeeBps(env: Env, caller: Address, bps: u32) returns (r: Result<(), Error>)
      modifies this
      ensures Escrow.Outcome(St(), r) == Escrow.SetProtocolFeeBps(old(St()), env, caller, bps)
      ensures env.WellFormed() && old(Valid()) ==> Valid()
    {
      Kept(env, Escrow.CallSetProtocolFeeBps(caller, bps));
      r := RequireAdmin(env, caller);
      if r.Err? { return; }
      if bps > Escrow.MAX_FEE_BPS { return Err(Escrow.Unauthorized); }
      feeBps := bps;
    }

    method CreateEscrow(env: Env, buyer: Address, seller: Address, token: Address, amount: i128, expiration: u64)
      returns (r: Result<int, Error>)
      modifies this
      ensures Escrow.Outcome(St(), r) == Escrow.CreateEscrow(old(St()), env, buyer, seller, token, amount, expiration)
      ensures env.WellFormed() && old(Valid()) ==> Valid()
    {
      Kept(env, Escrow.CallCreate(buyer, seller, token, amount, expiration));
      r := Create(env, buyer, seller, token, amount, expiration);
    }

    method Create(env: Env, buyer: Address, seller: Address, token: Address, amount: i128, expiration: u64)
      returns (r: Result<int, Error>)
      modifies this
      ensures Escrow.Outcome(St(), r) == Escrow.CreateEscrow(old(St()), env, buyer, seller, token, amount, expiration)
    {
      if amount <= 0 { return Err(Escrow.InvalidAmount); }
      if expiration <= env.now { return Err(Escrow.InvalidExpiration); }
      if buyer == seller { return Err(Escrow.InvalidRecipient); }
      if buyer !in env.signers { return Err(Escrow.Aborted); }
      if token !in whitelist { return Err(Escrow.TokenNotAllowed); }
      if count == MAX_U64 { return Err(Escrow.Aborted); }
      count := count + 1;
      var id: int := count;
      escrows := escrows[id := Escrow.Record(buyer, seller, token, amount, amount, Escrow.Created, expiration)];
      byToken := byToken[token := GetSeq(byToken, token) + [id]];
      byBuyer := byBuyer[buyer := GetSeq(byBuyer, buyer) + [id]];
      bySeller := bySeller[seller := GetSeq(bySeller, seller) + [id]];
      return Ok(id);
    }

    method FundEscrow(env: Env, caller: Address, id: int) returns (r: Result<(), Error>)
      modifies this
      ensures Escrow.Outcome(St(), r) == Escrow.FundEscrow(old(St()), env, caller, id)
      ensures env.WellFormed() && old(Valid()) ==> Valid()
    {
      Kept(env, Escrow.CallFund(caller, id));
      r := Fund(env, caller, id);
    }

    method Fund(env: Env, caller: Address, id: int) returns (r: Result<(), Error>)
      modifies this
      ensures Escrow.Outcome(St(), r) == Escrow.FundEscrow(old(St()), env, caller, id)
    {
      if caller !in env.signers { return Err(Escrow.Aborted); }
      if id !in escrows { return Err(Escrow.NotFound); }
      var e := escrows[id];
      if caller != e.buyer { return Err(Escrow.Unauthorized); }
      if e.status != Escrow.Created { return Err(Escrow.InvalidEscrowState); }
      if env.now >= e.expiration { return Err(Escrow.Expired); }
      var before, records := ledger, escrows;
      var ok := Pay(e.token, e.buyer, CONTRACT, e.amount);
      if !ok { return Err(Escrow.Aborted); }
      escrows := escrows[id := e.(status := Escrow.Funded)];
      if totalVolume + e.amount > MAX_I128 {
        ledger, escrows := before, records; // the host rolls back
        return Err(Escrow.Aborted);
      }
      totalVolume := totalVolume + e.amount;
      log := log + [Escrow.Deposited(id, e.token, e.buyer, e.amount)];
      return Ok(());
    }

    method AuthorizeReleaser(env: Env, caller: Address, buyer: Address) returns (r: Result<(), Error>)
      ensures r.Ok? <==> caller in env.signers && (caller == buyer || admin == Some(caller))
      ensures r == match Escrow.ReleaserError(St(), env, caller, buyer) { case None => Ok(()) case Some(e) => Err(e) }
    {
      if caller !in env.signers { return Err(Escrow.Aborted); }
      if caller == buyer { return Ok(()); }
      if admin.Some? && admin.value == caller { return Ok(()); }
      return Err(Escrow.Unauthorized);
    }

    /** The common tail of both releases: fee, transfer, fee pool, history and record. */
    method PayOut(env: Env, id: int, amount: int) returns (r: Result<(), Error>)
      requires id in escrows && 0 <= amount <= escrows[id].amount
      modifies this
      ensures Escrow.Outcome(St(), r) == Escrow.PayOut(old(St()), env, id, amount)
    {
      var e := escrows[id];
      var split := Escrow.FeeAndPayout(amount, feeBps);
      if split.None? { return Err(Escrow.InvalidAmount); }
      var (fee, payout) := split.value;
      var before := ledger;
      var ok := Pay(e.token, CONTRACT, e.seller, payout);
      if !ok { return Err(Escrow.Aborted); }
      if Get(fees, e.token) + fee > MAX_I128 {
        ledger := before; // the host rolls back
        return Err(Escrow.Aborted);
      }
      fees := Plus(fees, e.token, fee);
      history := history + [Escrow.FeeRecord(id, e.token, fee, env.now)];
      var rest := e.amount - amount;
      var status := if rest == 0 then Escrow.Completed else e.status;
      escrows := escrows[id := e.(amount := rest, status := status)];
      log := log + [Escrow.Released(id, e.token, e.seller, payout, fee)];
      return Ok(());
    }

    method ReleaseEscrow(env: Env, caller: Address, id: int) returns (r: Result<(), Error>)
      modifies this
      ensures Escrow.Outcome(St(), r) == Escrow.ReleaseEscrow(old(St()), env, caller, id)
      ensures env.WellFormed() && old(Valid()) ==> Valid()
    {
      Kept(env, Escrow.CallRelease(caller, id));
      if id !in escrows { return Err(Escrow.NotFound); }
      var e := escrows[id];
      r := AuthorizeReleaser(env, caller, e.buyer);
      if r.Err? { return; }
      if env.now >= e.expiration { return Err(Escrow.Expired); }
      if e.status == Escrow.Completed { return Err(Escrow.AlreadyReleased); }
      if e.status != Escrow.Funded { return Err(Escrow.InvalidEscrowState); }
      if e.amount < 0 { return Err(Escrow.InvalidAmount); }
      r := PayOut(env, id, e.amount);
    }

    method PartialRelease(env: Env, caller: Address, id: int, amount: i128) returns (r: Result<(), Error>)
      modifies this
      ensures Escrow.Outcome(St(), r) == Escrow.PartialRelease(old(St()), env, caller, id, amount)
      ensures env.WellFormed() && old(Valid()) ==> Valid()
    {
      Kept(env, Escrow.CallPartialRelease(caller, id, amount));
      if amount <= 0 { return Err(Escrow.InvalidAmount); }
      if id !in escrows { return Err(Escrow.NotFound); }
      var e := escrows[id];
      if e.status == Escrow.Completed { return Err(Escrow.AlreadyReleased); }
      if e.status != Escrow.Funded { return Err(Escrow.InvalidEscrowState); }
      r := AuthorizeReleaser(env, caller, e.buyer);
      if r.Err? { return; }
      if env.now >= e.expiration { return Err(Escrow.Expired); }
      if amount > e.amount { return Err(Escrow.InvalidAmount); }
      r := PayOut(env, id, amount);
    }

    method Dispute(env: Env, caller: Address, id: int) returns (r: Result<(), Error>)
      modifies this
      ensures Escrow.Outcome(St(), r) == Escrow.Dispute(old(St()), env, caller, id)
      ensures env.WellFormed() && old(Valid()) ==> Valid()
    {
      Kept(env, Escrow.CallDispute(caller, id));
      if caller !in env.signers { return Err(Escrow.Aborted); }
      if id !in escrows { return Err(Escrow.NotFound); }
      var e := escrows[id];
      if caller != e.buyer { return Err(Escrow.Unauthorized); }
      if e.status == Escrow.Disputed { return Err(Escrow.AlreadyDisputed); }
      if e.status != Escrow.Funded { return Err(Escrow.InvalidEscrowState); }
      if !Escrow.TransitionAllowed(e.status, Escrow.Disputed) { return Err(Escrow.InvalidEscrowState); }
      escrows := escrows[id := e.(status := Escrow.Disputed)];
      return Ok(());
    }

    /** The payments, the fee and the record of a resolution. */
    method Allocate(id: int, toBuyer: i128, toSeller: i128, fee: i128) returns (r: Result<(), Error>)
      requires id in escrows && toBuyer >= 0 && toSeller >= 0
      modifies this
      ensures Escrow.Outcome(St(), r) == Escrow.Allocate(old(St()), id, toBuyer, toSeller, fee)
    {
      var e := escrows[id];
      var before := ledger;
      var ok := PayIfPositive(e.token, e.buyer, toBuyer);
      if ok {
        ok := PayIfPositive(e.token, e.seller, toSeller);
      }
      if !ok || (fee > 0 && Get(fees, e.token) + fee > MAX_I128) {
        ledger := before; // the host rolls back
        return Err(Escrow.Aborted);
      }
      if fee > 0 {
        fees := Plus(fees, e.token, fee);
      }
      escrows := escrows[id := e.(status := Escrow.Completed, amount := 0)];
      log := log + [Escrow.Resolved(id, e.token, e.buyer, e.seller, toBuyer, toSeller, fee,
                                    e.amount - toBuyer - toSeller - fee)];
      return Ok(());
    }

    method ResolveDispute(env: Env, caller: Address, id: int, toBuyer: i128, toSeller: i128, fee: i128)
      returns (r: Result<(), Error>)
      modifies this
      ensures Escrow.Outcome(St(), r) == Escrow.ResolveDispute(old(St()), env, caller, id, toBuyer, toSeller, fee)
      ensures env.WellFormed() && old(Valid()) ==> Valid()
    {
      Kept(env, Escrow.CallResolve(caller, id, toBuyer, toSeller, fee));
      if arbiter.None? { return Err(Escrow.NoArbiterConfigured); }
      if arbiter.value != caller { return Err(Escrow.Unauthorized); }
      if caller !in env.signers { return Err(Escrow.Aborted); }
      if id !in escrows { return Err(Escrow.NotFound); }
      var e := escrows[id];
      if e.status != Escrow.Disputed { return Err(Escrow.NotDisputed); }
      if !Escrow.TransitionAllowed(e.status, Escrow.Completed) { return Err(Escrow.InvalidEscrowState); }
      if toBuyer < 0 || toSeller < 0 || fee < 0 { return Err(Escrow.InvalidAllocation); }
      if toBuyer + toSeller > MAX_I128 || toBuyer + toSeller + fee > MAX_I128 { return Err(Escrow.InvalidAllocation); }
      if toBuyer + toSeller + fee > e.amount { return Err(Escrow.InvalidAllocation); }
      r := Allocate(id, toBuyer, toSeller, fee);
    }

    method RefundEscrow(env: Env, caller: Address, id: int) returns (r: Result<(), Error>)
      modifies this
      ensures Escrow.Outcome(St(), r) == Escrow.RefundEscrow(old(St()), env, caller, id)
      ensures env.WellFormed() && old(Valid()) ==> Valid()
    {
      Kept(env, Escrow.CallRefund(caller, id));
      r := Refund(env, caller, id);
    }

    method Refund(env: Env, caller: Address, id: int) returns (r: Result<(), Error>)
      modifies this
      ensures Escrow.Outcome(St(), r) == Escrow.RefundEscrow(old(St()), env, caller, id)
    {
      if caller !in env.signers { return Err(Escrow.Aborted); }
      if id !in escrows { return Err(Escrow.NotFound); }
      var e := escrows[id];
      if caller != e.buyer { return Err(Escrow.Unauthorized); }
      if e.status != Escrow.Funded { return Err(Escrow.InvalidEscrowState); }
      if env.now < e.expiration { return Err(Escrow.NotExpired); }
      var ok := Pay(e.token, CONTRACT, e.buyer, e.amount);
      if !ok { return Err(Escrow.Aborted); }
      escrows := escrows[id := e.(status := Escrow.Cancelled, amount := 0)];
      log := log + [Escrow.Refunded(id, e.token, e.buyer, e.amount)];
      return Ok(());
    }

    method WithdrawFees(env: Env, caller: Address, token: Address, recipient: Address, amount: i128)
      returns (r: Result<(), Error>)
      modifies this
      ensures Escrow.Outcome(St(), r) == Escrow.WithdrawFees(old(St()), env, caller, token, recipient, amount)
      ensures env.WellFormed() && old(Valid()) ==> Valid()
    {
      Kept(env, Escrow.CallWithdraw(caller, token, recipient, amount));
      r := Withdraw(env, caller, token, recipient, amount);
    }

    method Withdraw(env: Env, caller: Address, token: Address, recipient: Address, amount: i128)
      returns (r: Result<(), Error>)
      modifies this
      ensures Escrow.Outcome(St(), r) == Escrow.WithdrawFees(old(St()), env, caller, token, recipient, amount)
    {
      r := RequireAdmin(env, caller);
      if r.Err? { return; }
      if amount <= 0 { return Err(Escrow.InvalidAmount); }
      if amount > Get(fees, token) { return Err(Escrow.NoFeesAvailable); }
      var ok := Pay(token, CONTRACT, recipient, amount);
      if !ok { return Err(Escrow.Aborted); }
      fees := Plus(fees, token, -amount);
      log := log + [Escrow.Withdrawn(token, recipient, amount)];
      return Ok(());
    }
  }
}
