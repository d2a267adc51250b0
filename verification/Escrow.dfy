/** The escrow contract: its storage, one transition per entry point, and its runs. */
module Escrow {
  import opened Wrappers
  import opened Soroban

  datatype Status = Created | Funded | Completed | Cancelled | Disputed

  /** amount is what is still locked, original what was agreed at creation. */
  datatype Record = Record(buyer: Address, seller: Address, token: Address,
                           amount: i128, original: i128, status: Status, expiration: u64)

  datatype FeeRecord = FeeRecord(id: int, token: Address, amount: int, timestamp: u64)

  /** Aborted is a panic: a missing authorization, a failed transfer or an overflow. */
  datatype Error = NotFound | Expired | Unauthorized | TokenNotAllowed | NotExpired | AlreadyReleased
                 | InvalidAmount | InvalidRecipient | InvalidExpiration | AlreadyDisputed | NoFeesAvailable
                 | InvalidEscrowState | NoArbiterConfigured | NotDisputed | InvalidAllocation | Aborted

  /** What an observer records of the token movements: the published amounts of each entry point, what a resolution
      leaves unallocated, and tokens that move outside the contract. */
  datatype Event = Deposited(id: int, token: Address, buyer: Address, amount: int)
                 | Released(id: int, token: Address, seller: Address, payout: int, fee: int)
                 | Refunded(id: int, token: Address, buyer: Address, amount: int)
                 | Resolved(id: int, token: Address, buyer: Address, seller: Address,
                            toBuyer: int, toSeller: int, fee: int, left: int)
                 | Withdrawn(token: Address, recipient: Address, amount: int)
                 | Moved(token: Address, from: Address, to: Address, amount: int)

  datatype State = State(
    admin: Option<Address>,
    arbiter: Option<Address>,
    whitelist: set<Address>,
    feeBps: u32,
    count: u64,
    escrows: map<int, Record>,
    fees: map<Address, int>,
    totalVolume: int,
    history: seq<FeeRecord>,
    byToken: map<Address, seq<int>>,
    byBuyer: map<Address, seq<int>>,
    bySeller: map<Address, seq<int>>,
    ledger: Ledger,
    log: seq<Event>)

  const DEFAULT_FEE_BPS: u32 := 100
  const MAX_FEE_BPS: u32 := 5_000
  const BPS: int := 10_000

  function Initial(ledger: Ledger): State {
    State(None, None, {}, DEFAULT_FEE_BPS, 0, map[], map[], 0, [], map[], map[], map[], ledger, [])
  }

  /** A failing call changes nothing: the host rolls the invocation back. */
  datatype Outcome<+T> = Outcome(state: State, result: Result<T, Error>)

  function Fail<T>(s: State, e: Error): Outcome<T> {
    Outcome(s, Err(e))
  }

  // ---------------------------------------------------------------- the transition table and the fee

  predicate TransitionAllowed(from: Status, to: Status) {
    match from
    case Created => to == Funded || to == Cancelled
    case Funded => to == Completed || to == Cancelled || to == Disputed
    case Disputed => to == Completed || to == Cancelled
    case Completed => false
    case Cancelled => false
  }

  /** None is the overflow of the checked product. */
  function FeeAndPayout(amount: int, bps: int): Option<(int, int)> {
    if amount < 0 || bps < 0 || amount * bps > MAX_U128 then None
    else
      var fee := amount * bps / BPS;
      if fee > amount then None else Some((fee, amount - fee))
  }

  // ---------------------------------------------------------------- entry points

  function SetAdmin(s: State, env: Env, admin: Address): Outcome<()> {
    if (if s.admin.Some? then s.admin.value else admin) !in env.signers then Fail(s, Aborted)
    else Outcome(s.(admin := Some(admin)), Ok(()))
  }

  /** None is the success of require_admin_addr. */
  function AdminError(s: State, env: Env, caller: Address): Option<Error> {
    if s.admin != Some(caller) then Some(Unauthorized)
    else if caller !in env.signers then Some(Aborted)
    else None
  }

  function WhitelistToken(s: State, env: Env, admin: Address, token: Address): Outcome<()> {
    match AdminError(s, env, admin)
    case Some(e) => Fail(s, e)
    case None => Outcome(s.(whitelist := s.whitelist + {token}), Ok(()))
  }

  function SetArbiter(s: State, env: Env, admin: Address, arbiter: Address): Outcome<()> {
    match AdminError(s, env, admin)
    case Some(e) => Fail(s, e)
    case None => Outcome(s.(arbiter := Some(arbiter)), Ok(()))
  }

  function SetProtocolFeeBps(s: State, env: Env, admin: Address, bps: u32): Outcome<()> {
    match AdminError(s, env, admin)
    case Some(e) => Fail(s, e)
    case None =>
      if bps > MAX_FEE_BPS then Fail(s, Unauthorized) else Outcome(s.(feeBps := bps), Ok(()))
  }

  function CreateEscrow(s: State, env: Env, buyer: Address, seller: Address, token: Address,
                        amount: i128, expiration: u64): Outcome<int>
  {
    if amount <= 0 then Fail(s, InvalidAmount)
    else if expiration <= env.now then Fail(s, InvalidExpiration)
    else if buyer == seller then Fail(s, InvalidRecipient)
    else if buyer !in env.signers then Fail(s, Aborted)
    else if token !in s.whitelist then Fail(s, TokenNotAllowed)
    else if s.count == MAX_U64 then Fail(s, Aborted)
    else
      var id: int := s.count + 1;
      Outcome(s.(count := id,
                 escrows := s.escrows[id := Record(buyer, seller, token, amount, amount, Created, expiration)],
                 byToken := s.byToken[token := GetSeq(s.byToken, token) + [id]],
                 byBuyer := s.byBuyer[buyer := GetSeq(s.byBuyer, buyer) + [id]],
                 bySeller := s.bySeller[seller := GetSeq(s.bySeller, seller) + [id]]),
              Ok(id))
  }

  function FundEscrow(s: State, env: Env, caller: Address, id: int): Outcome<()> {
    if caller !in env.signers then Fail(s, Aborted)
    else if id !in s.escrows then Fail(s, NotFound)
    else
      var e := s.escrows[id];
      if caller != e.buyer then Fail(s, Unauthorized)
      else if e.status != Created then Fail(s, InvalidEscrowState)
      else if env.now >= e.expiration then Fail(s, Expired)
      else match Transfer(s.ledger, e.token, e.buyer, CONTRACT, e.amount)
        case None => Fail(s, Aborted)
        case Some(ledger) =>
          if s.totalVolume + e.amount > MAX_I128 then Fail(s, Aborted)
          else Outcome(s.(ledger := ledger,
                          escrows := s.escrows[id := e.(status := Funded)],
                          totalVolume := s.totalVolume + e.amount,
                          log := s.log + [Deposited(id, e.token, e.buyer, e.amount)]),
                       Ok(()))
  }

  /** None is the success of authorize_releaser. */
  function ReleaserError(s: State, env: Env, caller: Address, buyer: Address): Option<Error> {
    if caller !in env.signers then Some(Aborted)
    else if caller == buyer || s.admin == Some(caller) then None
    else Some(Unauthorized)
  }

  /** Pays out amount of the escrow, net of the fee; the last step of both release entry points. */
  function PayOut(s: State, env: Env, id: int, amount: int): Outcome<()>
    requires id in s.escrows && 0 <= amount <= s.escrows[id].amount
  {
    var e := s.escrows[id];
    match FeeAndPayout(amount, s.feeBps)
    case None => Fail(s, InvalidAmount)
    case Some((fee, payout)) =>
      match Transfer(s.ledger, e.token, CONTRACT, e.seller, payout)
      case None => Fail(s, Aborted)
      case Some(ledger) =>
        if Get(s.fees, e.token) + fee > MAX_I128 then Fail(s, Aborted)
        else
          var rest := e.amount - amount;
          Outcome(s.(ledger := ledger,
                     fees := Plus(s.fees, e.token, fee),
                     history := s.history + [FeeRecord(id, e.token, fee, env.now)],
                     escrows := s.escrows[id := e.(amount := rest, status := if rest == 0 then Completed else e.status)],
                     log := s.log + [Released(id, e.token, e.seller, payout, fee)]),
                  Ok(()))
  }

  function ReleaseEscrow(s: State, env: Env, caller: Address, id: int): Outcome<()> {
    if id !in s.escrows then Fail(s, NotFound)
    else
      var e := s.escrows[id];
      match ReleaserError(s, env, caller, e.buyer)
      case Some(error) => Fail(s, error)
      case None =>
        if env.now >= e.expiration then Fail(s, Expired)
        else if e.status == Completed then Fail(s, AlreadyReleased)
        else if e.status != Funded then Fail(s, InvalidEscrowState)
        else if e.amount < 0 then Fail(s, InvalidAmount)
        else PayOut(s, env, id, e.amount)
  }

  function PartialRelease(s: State, env: Env, caller: Address, id: int, amount: i128): Outcome<()> {
    if amount <= 0 then Fail(s, InvalidAmount)
    else if id !in s.escrows then Fail(s, NotFound)
    else
      var e := s.escrows[id];
      if e.status == Completed then Fail(s, AlreadyReleased)
      else if e.status != Funded then Fail(s, InvalidEscrowState)
      else match ReleaserError(s, env, caller, e.buyer)
        case Some(error) => Fail(s, error)
        case None =>
          if env.now >= e.expiration then Fail(s, Expired)
          else if amount > e.amount then Fail(s, InvalidAmount)
          else PayOut(s, env, id, amount)
  }

  function Dispute(s: State, env: Env, caller: Address, id: int): Outcome<()> {
    if caller !in env.signers then Fail(s, Aborted)
    else if id !in s.escrows then Fail(s, NotFound)
    else
      var e := s.escrows[id];
      if caller != e.buyer then Fail(s, Unauthorized)
      else if e.status == Disputed then Fail(s, AlreadyDisputed)
      else if e.status != Funded then Fail(s, InvalidEscrowState)
      else Outcome(s.(escrows := s.escrows[id := e.(status := Disputed)]), Ok(()))
  }

  /** A zero amount is not transferred. */
  function TransferIfPositive(l: Ledger, token: Address, to: Address, amount: int): Option<Ledger> {
    if amount > 0 then Transfer(l, token, CONTRACT, to, amount) else Some(l)
  }

  /** Pays out an allocation of the escrow's remaining amount; what it does not allocate stays with the contract. */
  function Allocate(s: State, id: int, toBuyer: i128, toSeller: i128, fee: i128): Outcome<()>
    requires id in s.escrows
  {
    var e := s.escrows[id];
    match TransferIfPositive(s.ledger, e.token, e.buyer, toBuyer)
    case None => Fail(s, Aborted)
    case Some(l1) =>
      match TransferIfPositive(l1, e.token, e.seller, toSeller)
      case None => Fail(s, Aborted)
      case Some(l2) =>
        if fee > 0 && Get(s.fees, e.token) + fee > MAX_I128 then Fail(s, Aborted)
        else Outcome(s.(ledger := l2,
                        fees := if fee > 0 then Plus(s.fees, e.token, fee) else s.fees,
                        escrows := s.escrows[id := e.(amount := 0, status := Completed)],
                        log := s.log + [Resolved(id, e.token, e.buyer, e.seller, toBuyer, toSeller, fee,
                                                 e.amount - toBuyer - toSeller - fee)]),
                     Ok(()))
  }

  function ResolveDispute(s: State, env: Env, arbiter: Address, id: int,
                          toBuyer: i128, toSeller: i128, fee: i128): Outcome<()>
  {
    if s.arbiter.None? then Fail(s, NoArbiterConfigured)
    else if s.arbiter.value != arbiter then Fail(s, Unauthorized)
    else if arbiter !in env.signers then Fail(s, Aborted)
    else if id !in s.escrows then Fail(s, NotFound)
    else
      var e := s.escrows[id];
      if e.status != Disputed then Fail(s, NotDisputed)
      else if toBuyer < 0 || toSeller < 0 || fee < 0 then Fail(s, InvalidAllocation)
      else if toBuyer + toSeller + fee > MAX_I128 then Fail(s, InvalidAllocation)
      else if toBuyer + toSeller + fee > e.amount then Fail(s, InvalidAllocation)
      else Allocate(s, id, toBuyer, toSeller, fee)
  }

  function RefundEscrow(s: State, env: Env, caller: Address, id: int): Outcome<()> {
    if caller !in env.signers then Fail(s, Aborted)
    else if id !in s.escrows then Fail(s, NotFound)
    else
      var e := s.escrows[id];
      if caller != e.buyer then Fail(s, Unauthorized)
      else if e.status != Funded then Fail(s, InvalidEscrowState)
      else if env.now < e.expiration then Fail(s, NotExpired)
      else match Transfer(s.ledger, e.token, CONTRACT, e.buyer, e.amount)
        case None => Fail(s, Aborted)
        case Some(ledger) =>
          Outcome(s.(ledger := ledger,
                     escrows := s.escrows[id := e.(amount := 0, status := Cancelled)],
                     log := s.log + [Refunded(id, e.token, e.buyer, e.amount)]),
                  Ok(()))
  }

  function WithdrawFees(s: State, env: Env, caller: Address, token: Address, recipient: Address, amount: i128): Outcome<()> {
    match AdminError(s, env, caller)
    case Some(e) => Fail(s, e)
    case None =>
      if amount <= 0 then Fail(s, InvalidAmount)
      else if amount > Get(s.fees, token) then Fail(s, NoFeesAvailable)
      else match Transfer(s.ledger, token, CONTRACT, recipient, amount)
        case None => Fail(s, Aborted)
        case Some(ledger) =>
          Outcome(s.(ledger := ledger,
                     fees := Plus(s.fees, token, -amount),
                     log := s.log + [Withdrawn(token, recipient, amount)]),
                  Ok(()))
  }

  /** Tokens that move outside the contract; nobody but the contract spends from its account. */
  function MoveTokens(s: State, env: Env, token: Address, from: Address, to: Address, amount: int): Outcome<()> {
    if from !in env.signers then Fail(s, Aborted)
    else match Transfer(s.ledger, token, from, to, amount)
      case None => Fail(s, Aborted)
      case Some(ledger) =>
        Outcome(s.(ledger := ledger, log := s.log + [Moved(token, from, to, amount)]), Ok(()))
  }

  // ---------------------------------------------------------------- runs

  datatype Call = CallSetAdmin(admin: Address)
                | CallWhitelistToken(admin: Address, token: Address)
                | CallSetArbiter(admin: Address, arbiter: Address)
                | CallSetProtocolFeeBps(admin: Address, bps: u32)
                | CallCreate(buyer: Address, seller: Address, token: Address, amount: i128, expiration: u64)
                | CallFund(caller: Address, id: int)
                | CallRelease(caller: Address, id: int)
                | CallPartialRelease(caller: Address, id: int, amount: i128)
                | CallDispute(caller: Address, id: int)
                | CallResolve(arbiter: Address, id: int, toBuyer: i128, toSeller: i128, fee: i128)
                | CallRefund(caller: Address, id: int)
                | CallWithdraw(caller: Address, token: Address, recipient: Address, amount: i128)
                | CallMoveTokens(token: Address, from: Address, to: Address, moved: int)

  function Step(s: State, env: Env, c: Call): State {
    match c
    case CallSetAdmin(a) => SetAdmin(s, env, a).state
    case CallWhitelistToken(a, t) => WhitelistToken(s, env, a, t).state
    case CallSetArbiter(a, b) => SetArbiter(s, env, a, b).state
    case CallSetProtocolFeeBps(a, bps) => SetProtocolFeeBps(s, env, a, bps).state
    case CallCreate(b, r, t, n, x) => CreateEscrow(s, env, b, r, t, n, x).state
    case CallFund(a, id) => FundEscrow(s, env, a, id).state
    case CallRelease(a, id) => ReleaseEscrow(s, env, a, id).state
    case CallPartialRelease(a, id, n) => PartialRelease(s, env, a, id, n).state
    case CallDispute(a, id) => Dispute(s, env, a, id).state
    case CallResolve(a, id, b, r, f) => ResolveDispute(s, env, a, id, b, r, f).state
    case CallRefund(a, id) => RefundEscrow(s, env, a, id).state
    case CallWithdraw(a, t, r, n) => WithdrawFees(s, env, a, t, r, n).state
    case CallMoveTokens(t, from, to, n) => MoveTokens(s, env, t, from, to, n).state
  }

  function Run(s: State, steps: seq<(Env, Call)>): State {
    if steps == [] then s else Step(Run(s, steps[..|steps| - 1]), steps[|steps| - 1].0, steps[|steps| - 1].1)
  }

  ghost predicate WellFormed(steps: seq<(Env, Call)>) {
    forall i :: 0 <= i < |steps| ==> steps[i].0.WellFormed()
  }
}
