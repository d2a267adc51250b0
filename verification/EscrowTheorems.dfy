/** What the escrow's invariant means to its users: over every run the contract stays solvent, no payment that passes
    its guards can fail for want of funds, and escrows only move forward. */
module EscrowTheorems {
  import opened Wrappers
  import opened Soroban
  import opened Escrow
  import opened EscrowInvariant

  // ---------------------------------------------------------------- runs

  lemma {:induction false} RunKeepsFrom(opening: Ledger, s: State, steps: seq<(Env, Call)>)
    requires Inv(opening, s) && WellFormed(steps)
    ensures Inv(opening, Run(s, steps))
  {
    var n := |steps| - 1;
    if n >= 0 {
      RunKeepsFrom(opening, s, steps[..n]);
      StepKeeps(opening, Run(s, steps[..n]), steps[n].0, steps[n].1);
    }
  }

  /** The invariant holds after every run from a fresh deployment. */
  lemma RunKeeps(opening: Ledger, steps: seq<(Env, Call)>)
    requires Endowed(opening) && WellFormed(steps)
    ensures Inv(opening, Run(Initial(opening), steps))
  {
    InitiallyHolds(opening);
    RunKeepsFrom(opening, Initial(opening), steps);
  }

  lemma InitiallyHolds(opening: Ledger)
    requires Endowed(opening)
    ensures Inv(opening, Initial(opening))
  {
    var s := Initial(opening);
    assert forall id :: ConservedAt(id, s.escrows, s.log);
    assert forall t :: SolventAt(t, opening, s.ledger, Total(LockedIn(t), s.escrows, s.count), s.fees, s.log);
    assert forall t :: FeesAgreeAt(t, s.fees, s.history, s.log);
  }

  /** The transitive closure of the transition table. */
  predicate Reaches(from: Status, to: Status) {
    from == to || from == Created || (from == Funded && to != Created) || (from == Disputed && (to == Completed || to == Cancelled))
  }

  /** Parties, terms and original amount are fixed for life, the amount only falls, and the status only moves forward:
      a settled escrow is settled for good. */
  ghost predicate Later(r: Record, r': Record) {
    && r' == r.(amount := r'.amount, status := r'.status)
    && Reaches(r.status, r'.status)
    && r'.amount <= r.amount
  }

  lemma {:induction false} RunEvolves(opening: Ledger, s: State, steps: seq<(Env, Call)>, id: int)
    requires Inv(opening, s) && WellFormed(steps) && id in s.escrows
    ensures id in Run(s, steps).escrows && Later(s.escrows[id], Run(s, steps).escrows[id])
  {
    var n := |steps| - 1;
    if n >= 0 {
      var s1 := Run(s, steps[..n]);
      RunEvolves(opening, s, steps[..n], id);
      RunKeepsFrom(opening, s, steps[..n]);
      StepEvolves(opening, s1, steps[n].0, steps[n].1, id);
    }
  }

  lemma StepEvolves(opening: Ledger, s: State, env: Env, c: Call, id: int)
    requires Inv(opening, s) && env.WellFormed() && id in s.escrows
    ensures id in Step(s, env, c).escrows && Evolves(s.escrows[id], Step(s, env, c).escrows[id])
  {
    StepKeeps(opening, s, env, c);
  }

  // ---------------------------------------------------------------- solvency

  /** The balance covers every locked amount and the fee pool together, so each alone as well. */
  lemma Covered(opening: Ledger, s: State, t: Address, id: int)
    requires Inv(opening, s)
    ensures Balance(s.ledger, t, CONTRACT)
         >= Balance(opening, t, CONTRACT) + Total(LockedIn(t), s.escrows, s.count) + Get(s.fees, t)
    ensures Get(s.fees, t) >= 0
    ensures id in s.escrows && s.escrows[id].token == t && Holding(s.escrows[id].status) ==>
              Balance(s.ledger, t, CONTRACT) >= s.escrows[id].amount + Get(s.fees, t)
  {
    assert SolventAt(t, opening, s.ledger, Total(LockedIn(t), s.escrows, s.count), s.fees, s.log);
    assert FeesAgreeAt(t, s.fees, s.history, s.log);
    SumNonnegative(Residue(t), s.log);
    SumNonnegative(Unsolicited(t), s.log);
    TotalBounds(LockedIn(t), s.escrows, s.count, id);
  }

  /** An event by which the contract's account receives tokens it does not owe. */
  predicate SelfDealing(e: Event) {
    match e
    case Moved(_, _, to, _) => to == CONTRACT
    case Released(_, _, seller, _, _) => seller == CONTRACT
    case Resolved(_, _, _, seller, _, _, _, _) => seller == CONTRACT
    case Withdrawn(_, to, _) => to == CONTRACT
    case _ => false
  }

  /** When nobody pays the contract itself, its balance is exactly its opening balance, what is locked, the fee
      pool and the residue. */
  lemma ExactlySolvent(opening: Ledger, s: State, t: Address)
    requires Inv(opening, s) && forall e :: e in s.log ==> !SelfDealing(e)
    ensures Balance(s.ledger, t, CONTRACT)
         == Balance(opening, t, CONTRACT) + Total(LockedIn(t), s.escrows, s.count) + Get(s.fees, t) + Sum(Residue(t), s.log)
  {
    assert SolventAt(t, opening, s.ledger, Total(LockedIn(t), s.escrows, s.count), s.fees, s.log);
    SumZero(Unsolicited(t), s.log);
  }

  /** Solvency over every run from a fresh deployment: what was there before is never drawn on. */
  lemma SolventInEveryRun(opening: Ledger, steps: seq<(Env, Call)>, t: Address)
    requires Endowed(opening) && WellFormed(steps)
    ensures var s := Run(Initial(opening), steps);
            var owed := Total(LockedIn(t), s.escrows, s.count) + Get(s.fees, t);
            && Balance(s.ledger, t, CONTRACT) >= Balance(opening, t, CONTRACT) + owed >= owed
            && ((forall e :: e in s.log ==> !SelfDealing(e)) ==>
                  Balance(s.ledger, t, CONTRACT) == Balance(opening, t, CONTRACT) + owed + Sum(Residue(t), s.log))
  {
    RunKeeps(opening, steps);
    var s := Run(Initial(opening), steps);
    Covered(opening, s, t, 0);
    if forall e :: e in s.log ==> !SelfDealing(e) { ExactlySolvent(opening, s, t); }
  }

  /** Conservation over every run: each escrow's original amount is accounted for, fees recorded and taken agree, and the
      volume counts every escrow that was ever funded. */
  lemma BooksBalance(opening: Ledger, steps: seq<(Env, Call)>, id: int, t: Address)
    requires Endowed(opening) && WellFormed(steps)
    ensures var s := Run(Initial(opening), steps);
            && (id in s.escrows ==>
                  s.escrows[id].original == s.escrows[id].amount + Sum(ToSeller(id), s.log) + Sum(FeeOf(id), s.log)
                                            + Sum(ToBuyer(id), s.log) + Sum(LeftOf(id), s.log))
            && Sum(RecordedFee(t), s.history) + Sum(ResolutionFee(t), s.log) == Get(s.fees, t) + Sum(FeeTaken(t), s.log)
            && s.totalVolume == Total(Volume(), s.escrows, s.count)
  {
    RunKeeps(opening, steps);
    var s := Run(Initial(opening), steps);
    assert ConservedAt(id, s.escrows, s.log);
    assert FeesAgreeAt(t, s.fees, s.history, s.log);
  }

  // ---------------------------------------------------------------- what each call does

  /** Who may set the admin: the one there is, or the new one when there is none. */
  lemma SetAdminExactly(s: State, env: Env, admin: Address)
    ensures var o := SetAdmin(s, env, admin);
            && (o.result.Ok? <==> (if s.admin.Some? then s.admin.value in env.signers else admin in env.signers))
            && (o.result.Ok? ==> o.state == s.(admin := Some(admin)))
            && (o.result.Err? ==> o.state == s && o.result.error == Aborted)
  {
  }

  /** The admin, having signed, sets the rest of the configuration, the fee within its cap; each call sets its own part. */
  lemma ConfigurationExactly(s: State, env: Env, caller: Address, a: Address, bps: u32)
    ensures var may := s.admin == Some(caller) && caller in env.signers;
            && WhitelistToken(s, env, caller, a) == (if may then Outcome(s.(whitelist := s.whitelist + {a}), Ok(())) else Refusal(s, caller))
            && SetArbiter(s, env, caller, a) == (if may then Outcome(s.(arbiter := Some(a)), Ok(())) else Refusal(s, caller))
            && SetProtocolFeeBps(s, env, caller, bps)
               == (if !may then Refusal(s, caller)
                   else if bps <= 5_000 then Outcome(s.(feeBps := bps), Ok(())) else Outcome(s, Err(Unauthorized)))
  {
  }

  /** How anybody but the signed admin is refused. */
  function Refusal(s: State, caller: Address): Outcome<()> {
    Outcome(s, Err(if s.admin == Some(caller) then Aborted else Unauthorized))
  }

  /** An escrow is created exactly under its guards, with the terms asked for, under the next number, and filed under its
      token, its buyer and its seller; no token moves. */
  lemma CreateExactly(s: State, env: Env, buyer: Address, seller: Address, token: Address, amount: i128, expiration: u64)
    ensures CreateEscrow(s, env, buyer, seller, token, amount, expiration).result.Ok?
       <==> amount > 0 && env.now < expiration && buyer != seller && buyer in env.signers && token in s.whitelist
            && s.count < MAX_U64
    ensures CreateEscrow(s, env, buyer, seller, token, amount, expiration).result.Ok? ==>
              var o, id := CreateEscrow(s, env, buyer, seller, token, amount, expiration), s.count + 1;
              && o.result.value == id
              && o.state == s.(count := id, byToken := o.state.byToken, byBuyer := o.state.byBuyer, bySeller := o.state.bySeller,
                               escrows := s.escrows[id := Record(buyer, seller, token, amount, amount, Created, expiration)])
              && (forall a :: GetSeq(o.state.byToken, a) == GetSeq(s.byToken, a) + (if a == token then [id] else []))
              && (forall a :: GetSeq(o.state.byBuyer, a) == GetSeq(s.byBuyer, a) + (if a == buyer then [id] else []))
              && (forall a :: GetSeq(o.state.bySeller, a) == GetSeq(s.bySeller, a) + (if a == seller then [id] else []))
    ensures var o := CreateEscrow(s, env, buyer, seller, token, amount, expiration);
            o.result.Err? ==>
              && o.state == s
              && match o.result.error
                 case InvalidAmount => amount <= 0
                 case InvalidExpiration => expiration <= env.now
                 case InvalidRecipient => buyer == seller
                 case TokenNotAllowed => token !in s.whitelist
                 case Aborted => buyer !in env.signers || s.count == MAX_U64
                 case _ => false
  {
  }

  /** Money enters only from the buyer's own account, before the deadline, once. */
  lemma FundExactly(opening: Ledger, s: State, env: Env, caller: Address, id: int)
    requires Inv(opening, s) && env.WellFormed()
    ensures FundEscrow(s, env, caller, id).result.Ok?
       <==> id in s.escrows && caller in env.signers && caller == s.escrows[id].buyer && s.escrows[id].status == Created
            && env.now < s.escrows[id].expiration && Balance(s.ledger, s.escrows[id].token, caller) >= s.escrows[id].amount
            && s.totalVolume + s.escrows[id].amount <= MAX_I128
    ensures FundEscrow(s, env, caller, id).result.Ok? ==>
              var r, s' := s.escrows[id], FundEscrow(s, env, caller, id).state;
              && r.amount == r.original
              && Pays(s.ledger, s'.ledger, r.token, r.buyer, CONTRACT, r.amount)
              && s' == s.(ledger := s'.ledger, escrows := s.escrows[id := r.(status := Funded)],
                          totalVolume := s.totalVolume + r.amount, log := s.log + [Deposited(id, r.token, r.buyer, r.amount)])
    ensures var o := FundEscrow(s, env, caller, id);
            o.result.Err? ==>
              && o.state == s
              && match o.result.error
                 case NotFound => id !in s.escrows
                 case Unauthorized => id in s.escrows && caller != s.escrows[id].buyer
                 case InvalidEscrowState => id in s.escrows && s.escrows[id].status != Created
                 case Expired => id in s.escrows && env.now >= s.escrows[id].expiration
                 case Aborted => caller !in env.signers
                                 || (id in s.escrows && (Balance(s.ledger, s.escrows[id].token, caller) < s.escrows[id].amount
                                                         || s.totalVolume + s.escrows[id].amount > MAX_I128))
                 case _ => false
  {
    if FundEscrow(s, env, caller, id).result.Ok? {
      TransferMoves(s.ledger, s.escrows[id].token, caller, CONTRACT, s.escrows[id].amount);
    }
  }

  /** A refund succeeds exactly when its guards hold, for the transfer never fails; what is left of the escrow then goes to
      its buyer, and to nobody else. */
  lemma RefundExactly(opening: Ledger, s: State, env: Env, caller: Address, id: int)
    requires Inv(opening, s)
    ensures RefundEscrow(s, env, caller, id).result.Ok?
       <==> id in s.escrows && caller in env.signers && caller == s.escrows[id].buyer
            && s.escrows[id].status == Funded && env.now >= s.escrows[id].expiration
    ensures RefundEscrow(s, env, caller, id).result.Ok? ==>
              var r, s' := s.escrows[id], RefundEscrow(s, env, caller, id).state;
              && Pays(s.ledger, s'.ledger, r.token, CONTRACT, r.buyer, r.amount)
              && s' == s.(ledger := s'.ledger, escrows := s.escrows[id := r.(amount := 0, status := Cancelled)],
                          log := s.log + [Refunded(id, r.token, r.buyer, r.amount)])
    ensures var o := RefundEscrow(s, env, caller, id);
            o.result.Err? ==>
              && o.state == s
              && match o.result.error
                 case NotFound => id !in s.escrows
                 case Unauthorized => id in s.escrows && caller != s.escrows[id].buyer
                 case InvalidEscrowState => id in s.escrows && s.escrows[id].status != Funded
                 case NotExpired => id in s.escrows && env.now < s.escrows[id].expiration
                 case Aborted => caller !in env.signers
                 case _ => false
  {
    if id in s.escrows {
      var r := s.escrows[id];
      Covered(opening, s, r.token, id);
      if Transfer(s.ledger, r.token, CONTRACT, r.buyer, r.amount).Some? {
        TransferMoves(s.ledger, r.token, CONTRACT, r.buyer, r.amount);
      }
    }
  }

  predicate MayRelease(s: State, env: Env, caller: Address, id: int) {
    && id in s.escrows && caller in env.signers && (caller == s.escrows[id].buyer || s.admin == Some(caller))
    && s.escrows[id].status == Funded && env.now < s.escrows[id].expiration
  }

  /** From s to s' an amount of escrow id is paid out: the truncated fee of so many parts in 10000 goes to the pool and into
      the history, the rest to the seller, and the escrow is completed when nothing is left of it. */
  ghost predicate PaidOut(s: State, s': State, now: u64, id: int, amount: int)
    requires id in s.escrows
  {
    var r, fee := s.escrows[id], amount * s.feeBps / 10_000;
    var rest := r.amount - amount;
    && 0 <= rest <= r.amount
    && Pays(s.ledger, s'.ledger, r.token, CONTRACT, r.seller, amount - fee)
    && (forall t :: Get(s'.fees, t) == Get(s.fees, t) + (if t == r.token then fee else 0))
    && s' == s.(ledger := s'.ledger, fees := s'.fees, history := s.history + [FeeRecord(id, r.token, fee, now)],
                escrows := s.escrows[id := r.(amount := rest, status := if rest == 0 then Completed else Funded)],
                log := s.log + [Released(id, r.token, r.seller, amount - fee, fee)])
  }

  lemma PayOutEffect(s: State, env: Env, id: int, amount: int)
    requires id in s.escrows && s.escrows[id].status == Funded && 0 < amount <= s.escrows[id].amount
    requires PayOut(s, env, id, amount).result.Ok?
    ensures PaidOut(s, PayOut(s, env, id, amount).state, env.now, id, amount)
  {
    var (fee, payout) := FeeAndPayout(amount, s.feeBps).value;
    TransferMoves(s.ledger, s.escrows[id].token, CONTRACT, s.escrows[id].seller, payout);
    PlusAdds(s.fees, s.escrows[id].token, fee);
  }

  /** A release succeeds exactly when its guards hold and the fee's product fits 128 bits, and pays out all of the escrow. */
  lemma ReleaseExactly(opening: Ledger, s: State, env: Env, caller: Address, id: int)
    requires Inv(opening, s) && forall t :: Balance(s.ledger, t, CONTRACT) <= MAX_I128
    ensures ReleaseEscrow(s, env, caller, id).result.Ok?
       <==> MayRelease(s, env, caller, id) && s.escrows[id].amount * s.feeBps <= MAX_U128
    ensures ReleaseEscrow(s, env, caller, id).result.Ok? ==>
              PaidOut(s, ReleaseEscrow(s, env, caller, id).state, env.now, id, s.escrows[id].amount)
    ensures ReleaseEscrow(s, env, caller, id).result.Err? ==>
              ReleaseEscrow(s, env, caller, id).state == s
              && ReleaseRefused(s, env, caller, id, ReleaseEscrow(s, env, caller, id).result.error)
  {
    if MayRelease(s, env, caller, id) {
      Covered(opening, s, s.escrows[id].token, id);
      FeeWithinBounds(s.escrows[id].amount, s.feeBps);
      if ReleaseEscrow(s, env, caller, id).result.Ok? { PayOutEffect(s, env, id, s.escrows[id].amount); }
    }
  }

  /** Why a release of either kind can be refused; the product that does not fit is an invalid amount. */
  ghost predicate ReleaseRefused(s: State, env: Env, caller: Address, id: int, e: Error) {
    match e
    case NotFound => id !in s.escrows
    case Aborted => caller !in env.signers
    case Unauthorized => id in s.escrows && caller != s.escrows[id].buyer && s.admin != Some(caller)
    case Expired => id in s.escrows && env.now >= s.escrows[id].expiration
    case AlreadyReleased => id in s.escrows && s.escrows[id].status == Completed
    case InvalidEscrowState => id in s.escrows && s.escrows[id].status != Funded && s.escrows[id].status != Completed
    case InvalidAmount => id in s.escrows && s.escrows[id].amount * s.feeBps > MAX_U128
    case _ => false
  }

  lemma PartialReleaseExactly(opening: Ledger, s: State, env: Env, caller: Address, id: int, amount: i128)
    requires Inv(opening, s) && forall t :: Balance(s.ledger, t, CONTRACT) <= MAX_I128
    ensures PartialRelease(s, env, caller, id, amount).result.Ok?
       <==> MayRelease(s, env, caller, id) && 0 < amount <= s.escrows[id].amount && amount * s.feeBps <= MAX_U128
    ensures PartialRelease(s, env, caller, id, amount).result.Ok? ==>
              PaidOut(s, PartialRelease(s, env, caller, id, amount).state, env.now, id, amount)
    ensures var o := PartialRelease(s, env, caller, id, amount);
            o.result.Err? ==>
              && o.state == s
              && if o.result.error == InvalidAmount
                 then amount <= 0 || (id in s.escrows && (amount > s.escrows[id].amount || amount * s.feeBps > MAX_U128))
                 else ReleaseRefused(s, env, caller, id, o.result.error)
  {
    if MayRelease(s, env, caller, id) && 0 < amount <= s.escrows[id].amount {
      Covered(opening, s, s.escrows[id].token, id);
      FeeWithinBounds(amount, s.feeBps);
      if PartialRelease(s, env, caller, id, amount).result.Ok? { PayOutEffect(s, env, id, amount); }
    }
  }

  /** The buyer, having signed, disputes exactly a funded escrow; nothing but its status changes. */
  lemma DisputeExactly(s: State, env: Env, caller: Address, id: int)
    ensures Dispute(s, env, caller, id).result.Ok?
       <==> id in s.escrows && caller in env.signers && caller == s.escrows[id].buyer && s.escrows[id].status == Funded
    ensures Dispute(s, env, caller, id).result.Ok? ==>
              Dispute(s, env, caller, id).state == s.(escrows := s.escrows[id := s.escrows[id].(status := Disputed)])
    ensures var o := Dispute(s, env, caller, id);
            o.result.Err? ==>
              && o.state == s
              && match o.result.error
                 case NotFound => id !in s.escrows
                 case Aborted => caller !in env.signers
                 case Unauthorized => id in s.escrows && caller != s.escrows[id].buyer
                 case AlreadyDisputed => id in s.escrows && s.escrows[id].status == Disputed
                 case InvalidEscrowState => id in s.escrows && s.escrows[id].status != Funded && s.escrows[id].status != Disputed
                 case _ => false
  {
  }

  /** From s to s' a disputed escrow is closed: so much to its buyer, so much to its seller, a fee to the pool, and what is
      left unallocated stays with the contract. */
  ghost predicate Allocated(s: State, s': State, id: int, toBuyer: int, toSeller: int, fee: int)
    requires id in s.escrows
  {
    var r := s.escrows[id];
    && (forall t, a :: Balance(s'.ledger, t, a)
                    == Balance(s.ledger, t, a)
                     + (if t == r.token
                        then Credit(a, r.buyer, toBuyer) + Credit(a, r.seller, toSeller) - Credit(a, CONTRACT, toBuyer + toSeller)
                        else 0))
    && (forall t :: Get(s'.fees, t) == Get(s.fees, t) + (if t == r.token then fee else 0))
    && s' == s.(ledger := s'.ledger, fees := s'.fees, escrows := s.escrows[id := r.(amount := 0, status := Completed)],
                log := s.log + [Resolved(id, r.token, r.buyer, r.seller, toBuyer, toSeller, fee,
                                         r.amount - toBuyer - toSeller - fee)])
  }

  lemma AllocateEffect(s: State, env: Env, arbiter: Address, id: int, toBuyer: i128, toSeller: i128, fee: i128)
    requires ResolveDispute(s, env, arbiter, id, toBuyer, toSeller, fee).result.Ok?
    ensures id in s.escrows
    ensures Allocated(s, ResolveDispute(s, env, arbiter, id, toBuyer, toSeller, fee).state, id, toBuyer, toSeller, fee)
  {
    var r := s.escrows[id];
    ResolveFiles(s, env, arbiter, id, toBuyer, toSeller, fee);
    TransferIfPositiveMoves(s.ledger, r.token, r.buyer, toBuyer);
    TransferIfPositiveMoves(TransferIfPositive(s.ledger, r.token, r.buyer, toBuyer).value, r.token, r.seller, toSeller);
    PlusAdds(s.fees, r.token, fee);
  }

  /** Any allocation within the remaining amount can be paid, and no other is accepted. */
  lemma ResolveExactly(opening: Ledger, s: State, env: Env, arbiter: Address, id: int, toBuyer: i128, toSeller: i128, fee: i128)
    requires Inv(opening, s) && forall t :: Balance(s.ledger, t, CONTRACT) <= MAX_I128
    ensures ResolveDispute(s, env, arbiter, id, toBuyer, toSeller, fee).result.Ok?
       <==> s.arbiter == Some(arbiter) && arbiter in env.signers && id in s.escrows && s.escrows[id].status == Disputed
            && toBuyer >= 0 && toSeller >= 0 && fee >= 0 && toBuyer + toSeller + fee <= s.escrows[id].amount
    ensures ResolveDispute(s, env, arbiter, id, toBuyer, toSeller, fee).result.Ok? ==>
              Allocated(s, ResolveDispute(s, env, arbiter, id, toBuyer, toSeller, fee).state, id, toBuyer, toSeller, fee)
    ensures var o := ResolveDispute(s, env, arbiter, id, toBuyer, toSeller, fee);
            o.result.Err? ==>
              && o.state == s
              && match o.result.error
                 case NoArbiterConfigured => s.arbiter.None?
                 case Unauthorized => s.arbiter.Some? && s.arbiter.value != arbiter
                 case Aborted => arbiter !in env.signers
                 case NotFound => id !in s.escrows
                 case NotDisputed => id in s.escrows && s.escrows[id].status != Disputed
                 case InvalidAllocation => toBuyer < 0 || toSeller < 0 || fee < 0
                                           || (id in s.escrows && toBuyer + toSeller + fee > s.escrows[id].amount)
                 case _ => false
  {
    if id in s.escrows && s.escrows[id].status == Disputed {
      var r := s.escrows[id];
      Covered(opening, s, r.token, id);
      if 0 <= toBuyer && TransferIfPositive(s.ledger, r.token, r.buyer, toBuyer).Some? {
        TransferIfPositiveMoves(s.ledger, r.token, r.buyer, toBuyer);
      }
    }
    if ResolveDispute(s, env, arbiter, id, toBuyer, toSeller, fee).result.Ok? {
      AllocateEffect(s, env, arbiter, id, toBuyer, toSeller, fee);
    }
  }

  /** The admin can withdraw any part of the fee pool to any recipient, and nothing more. */
  lemma WithdrawExactly(opening: Ledger, s: State, env: Env, caller: Address, token: Address, recipient: Address, amount: i128)
    requires Inv(opening, s)
    ensures WithdrawFees(s, env, caller, token, recipient, amount).result.Ok?
       <==> s.admin == Some(caller) && caller in env.signers && 0 < amount <= Get(s.fees, token)
    ensures WithdrawFees(s, env, caller, token, recipient, amount).result.Ok? ==>
              var s' := WithdrawFees(s, env, caller, token, recipient, amount).state;
              && Pays(s.ledger, s'.ledger, token, CONTRACT, recipient, amount)
              && (forall t :: Get(s'.fees, t) == Get(s.fees, t) - (if t == token then amount as int else 0))
              && s' == s.(ledger := s'.ledger, fees := s'.fees, log := s.log + [Withdrawn(token, recipient, amount)])
    ensures var o := WithdrawFees(s, env, caller, token, recipient, amount);
            o.result.Err? ==>
              && o.state == s
              && match o.result.error
                 case Unauthorized => s.admin != Some(caller)
                 case Aborted => caller !in env.signers
                 case InvalidAmount => amount <= 0
                 case NoFeesAvailable => amount > Get(s.fees, token)
                 case _ => false
  {
    Covered(opening, s, token, 0);
    TotalBounds(LockedIn(token), s.escrows, s.count, 0);
    if WithdrawFees(s, env, caller, token, recipient, amount).result.Ok? {
      TransferMoves(s.ledger, token, CONTRACT, recipient, amount);
      PlusAdds(s.fees, token, -amount);
    }
  }

  // ---------------------------------------------------------------- authority

  /** Who must have signed for an escrow to change: its buyer while it is created or funded, the admin before the deadline
      of a funded one, the arbiter once it is disputed. */
  ghost predicate Authorized(s: State, env: Env, e: Record) {
    || ((e.status == Created || e.status == Funded) && e.buyer in env.signers)
    || (e.status == Funded && env.now < e.expiration && s.admin.Some? && s.admin.value in env.signers)
    || (e.status == Disputed && s.arbiter.Some? && s.arbiter.value in env.signers)
  }

  lemma EscrowCallAuthorized(s: State, env: Env, c: Call, id: int)
    requires OnEscrow(c) && id in s.escrows
    ensures id in Step(s, env, c).escrows
    ensures Step(s, env, c).escrows[id] != s.escrows[id] ==> Authorized(s, env, s.escrows[id])
  {
  }

  lemma OtherCallLeavesEscrow(s: State, env: Env, c: Call, id: int)
    requires !OnEscrow(c) && RecordsOk(s.escrows, s.count) && id in s.escrows
    ensures id in Step(s, env, c).escrows && Step(s, env, c).escrows[id] == s.escrows[id]
  {
  }

  /** An escrow changes only with authority: its buyer's while it is created or funded, the admin's before the deadline of
      a funded one, the arbiter's once it is disputed. */
  lemma ChangesNeedAuthority(opening: Ledger, s: State, env: Env, c: Call, id: int)
    requires Inv(opening, s) && env.WellFormed() && id in s.escrows
    ensures id in Step(s, env, c).escrows
    ensures Step(s, env, c).escrows[id] != s.escrows[id] ==> Authorized(s, env, s.escrows[id])
  {
    if OnEscrow(c) { EscrowCallAuthorized(s, env, c, id); } else { OtherCallLeavesEscrow(s, env, c, id); }
  }

  /** A dispute takes the escrow out of everybody's hands but the arbiter's. */
  lemma DisputeLocks(s: State, env: Env, caller: Address, id: int, later: Env, other: Address, amount: i128)
    requires Dispute(s, env, caller, id).result.Ok?
    ensures var s' := Dispute(s, env, caller, id).state;
            && ReleaseEscrow(s', later, other, id).result.Err? && PartialRelease(s', later, other, id, amount).result.Err?
            && RefundEscrow(s', later, other, id).result.Err? && Dispute(s', later, other, id).result.Err?
            && s'.ledger == s.ledger && s'.escrows[id].amount == s.escrows[id].amount
  {
  }

  // ---------------------------------------------------------------- indexes

  /** Each index lists every escrow of the party exactly once, in the order of creation, and no other escrow. */
  lemma IndexesExact(opening: Ledger, s: State, a: Address)
    requires Inv(opening, s)
    ensures forall id :: id in GetSeq(s.byToken, a) <==> id in s.escrows && s.escrows[id].token == a
    ensures forall id :: id in GetSeq(s.byBuyer, a) <==> id in s.escrows && s.escrows[id].buyer == a
    ensures forall id :: id in GetSeq(s.bySeller, a) <==> id in s.escrows && s.escrows[id].seller == a
    ensures Ascending(GetSeq(s.byToken, a)) && Ascending(GetSeq(s.byBuyer, a)) && Ascending(GetSeq(s.bySeller, a))
  {
    assert IndexAgreesAt(a, ByToken, s.byToken, s.escrows, s.count);
    assert IndexAgreesAt(a, ByBuyer, s.byBuyer, s.escrows, s.count);
    assert IndexAgreesAt(a, BySeller, s.bySeller, s.escrows, s.count);
    MatchingIsExact(Under(ByToken, a), s.escrows, s.count);
    MatchingIsExact(Under(ByBuyer, a), s.escrows, s.count);
    MatchingIsExact(Under(BySeller, a), s.escrows, s.count);
  }

  // ---------------------------------------------------------------- fees

  /** The fee and the payout share the amount, the fee takes at most half of it under the cap, and the product fits
      for every amount up to (2^128 - 1) / 5000. */
  lemma FeeWithinBounds(amount: int, bps: int)
    requires 0 <= amount && 0 <= bps <= MAX_FEE_BPS
    ensures FeeAndPayout(amount, bps).Some? <==> amount * bps <= MAX_U128
    ensures amount <= MAX_U128 / MAX_FEE_BPS ==> FeeAndPayout(amount, bps).Some?
    ensures FeeAndPayout(amount, bps).Some? ==>
              var (fee, payout) := FeeAndPayout(amount, bps).value;
              fee + payout == amount && 0 <= fee && 2 * fee <= amount && fee * BPS <= amount * bps < (fee + 1) * BPS
  {
    var product := amount * bps;
    assert product <= amount * MAX_FEE_BPS && product >= 0;
    assert amount <= MAX_U128 / MAX_FEE_BPS ==> amount * MAX_FEE_BPS <= MAX_U128;
  }

  /** The fee is one per cent in a fresh deployment and until the admin sets another, and at most a half in every run. */
  lemma {:induction false} FeeRate(opening: Ledger, steps: seq<(Env, Call)>)
    requires Endowed(opening) && WellFormed(steps)
    ensures Run(Initial(opening), steps).feeBps <= 5_000
    ensures (forall i :: 0 <= i < |steps| ==> !steps[i].1.CallSetProtocolFeeBps?) ==> Run(Initial(opening), steps).feeBps == 100
  {
    RunKeeps(opening, steps);
    var n := |steps| - 1;
    if n >= 0 {
      FeeRate(opening, steps[..n]);
      if !steps[n].1.CallSetProtocolFeeBps? { OtherCallLeavesRate(Run(Initial(opening), steps[..n]), steps[n].0, steps[n].1); }
    }
  }

  lemma OtherCallLeavesRate(s: State, env: Env, c: Call)
    requires !c.CallSetProtocolFeeBps?
    ensures Step(s, env, c).feeBps == s.feeBps
  {
  }

  function Fee(amount: int, bps: int): int {
    amount * bps / BPS
  }

  ghost function Fees(parts: seq<int>, bps: int): int {
    if parts == [] then 0 else Fees(parts[..|parts| - 1], bps) + Fee(parts[|parts| - 1], bps)
  }

  ghost function Whole(parts: seq<int>): int {
    if parts == [] then 0 else Whole(parts[..|parts| - 1]) + parts[|parts| - 1]
  }

  /** Releasing an amount in k parts at a fixed rate is never dearer than one release, and cheaper by at most k - 1. */
  lemma {:induction false} FeeOfParts(parts: seq<int>, bps: int)
    requires parts != [] && bps >= 0
    ensures Fees(parts, bps) <= Fee(Whole(parts), bps) <= Fees(parts, bps) + |parts| - 1
  {
    var n := |parts| - 1;
    var rest, last := parts[..n], parts[n];
    if n == 0 {
      assert rest == [];
    } else {
      FeeOfParts(rest, bps);
      assert (Whole(rest) + last) * bps == Whole(rest) * bps + last * bps;
      TruncationAdds(Whole(rest) * bps, last * bps);
    }
  }

  lemma TruncationAdds(x: int, y: int)
    ensures x / BPS + y / BPS <= (x + y) / BPS <= x / BPS + y / BPS + 1
  {
  }
}
