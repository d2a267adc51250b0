/** The fine ledger: append-only entries, a cached balance per patron and a settlement state machine. */
module FineLedger {
  import opened Wrappers
  import opened Soroban

  /** Patron references, entry references, settlement identifiers and commitments are opaque 32-byte values. */
  type Ref = nat

  datatype Kind = Assessment | Waiver | Payment | Refund | Reversal

  datatype Entry = Entry(patron: Ref, refId: Ref, kind: Kind, delta: int, asset: Option<Address>, recordedAt: u64, meta: Ref)

  datatype Phase = Pending | Confirmed | Failed | Refunded | Reversed

  datatype Settlement = Settlement(patron: Ref, payer: Address, asset: Address, amount: int, phase: Phase, initiatedAt: u64)

  /** Aborted is a panic: a missing authorization or an overflow. */
  datatype Error = AlreadyInitialized | NotInitialized | Unauthorized | InvalidAmount | DuplicateReference
                 | WaiverExceedsBalance | UnsupportedAsset | DuplicateSettlement | SettlementNotFound
                 | InvalidStateTransition | PaymentExceedsBalance | Aborted

  datatype State = State(
    admin: Option<Address>,
    librarian: Option<Address>,
    assets: set<Address>,
    refs: set<Ref>,
    count: map<Ref, int>,
    entries: map<(Ref, int), Entry>,
    balances: map<Ref, int>,
    settlements: map<Ref, Settlement>)

  const MAX_PAGE_SIZE: int := 50

  datatype Outcome = Outcome(state: State, result: Result<(), Error>)

  function InitialState(): State {
    State(None, None, {}, {}, map[], map[], map[], map[])
  }

  function Fail(s: State, e: Error): Outcome {
    Outcome(s, Err(e))
  }

  function AdminError(s: State, env: Env, caller: Address): Option<Error> {
    if s.admin.None? then Some(NotInitialized)
    else if caller != s.admin.value then Some(Unauthorized)
    else if caller !in env.signers then Some(Aborted)
    else None
  }

  function LibrarianError(s: State, env: Env, caller: Address): Option<Error> {
    if s.admin.None? || s.librarian.None? then Some(NotInitialized)
    else if caller != s.admin.value && caller != s.librarian.value then Some(Unauthorized)
    else if caller !in env.signers then Some(Aborted)
    else None
  }

  /** Appends the entry, marks its reference and moves the balance by its delta; None is an overflow. */
  function Append(s: State, e: Entry): Option<State> {
    var n, balance := Get(s.count, e.patron), Get(s.balances, e.patron) + e.delta;
    if balance > MAX_I128 || n == MAX_U32 then None
    else Some(s.(entries := s.entries[(e.patron, n) := e],
                 count := s.count[e.patron := n + 1],
                 refs := s.refs + {e.refId},
                 balances := s.balances[e.patron := balance]))
  }

  function Initialize(s: State, env: Env, admin: Address, librarian: Address): Outcome {
    if s.admin.Some? then Fail(s, AlreadyInitialized)
    else if admin !in env.signers then Fail(s, Aborted)
    else Outcome(s.(admin := Some(admin), librarian := Some(librarian)), Ok(()))
  }

  function AddSupportedAsset(s: State, env: Env, caller: Address, asset: Address): Outcome {
    match AdminError(s, env, caller)
    case Some(e) => Fail(s, e)
    case None => Outcome(s.(assets := s.assets + {asset}), Ok(()))
  }

  function Assess(s: State, env: Env, caller: Address, patron: Ref, refId: Ref, amount: int, meta: Ref): Outcome {
    match LibrarianError(s, env, caller)
    case Some(e) => Fail(s, e)
    case None =>
      if amount <= 0 then Fail(s, InvalidAmount)
      else if refId in s.refs then Fail(s, DuplicateReference)
      else match Append(s, Entry(patron, refId, Assessment, amount, None, env.now, meta))
        case None => Fail(s, Aborted)
        case Some(s1) => Outcome(s1, Ok(()))
  }

  function Waive(s: State, env: Env, caller: Address, patron: Ref, refId: Ref, amount: int, reason: Ref): Outcome {
    match LibrarianError(s, env, caller)
    case Some(e) => Fail(s, e)
    case None =>
      if amount <= 0 then Fail(s, InvalidAmount)
      else if refId in s.refs then Fail(s, DuplicateReference)
      else if amount > Get(s.balances, patron) then Fail(s, WaiverExceedsBalance)
      else match Append(s, Entry(patron, refId, Waiver, -amount, None, env.now, reason))
        case None => Fail(s, Aborted)
        case Some(s1) => Outcome(s1, Ok(()))
  }

  function InitiatePayment(s: State, env: Env, caller: Address, patron: Ref, id: Ref, asset: Address, amount: int): Outcome {
    if caller !in env.signers then Fail(s, Aborted)
    else if s.admin.None? then Fail(s, NotInitialized)
    else if amount <= 0 then Fail(s, InvalidAmount)
    else if asset !in s.assets then Fail(s, UnsupportedAsset)
    else if id in s.settlements then Fail(s, DuplicateSettlement)
    else Outcome(s.(settlements := s.settlements[id := Settlement(patron, caller, asset, amount, Pending, env.now)]), Ok(()))
  }

  function ConfirmPayment(s: State, env: Env, caller: Address, id: Ref, refId: Ref, meta: Ref): Outcome {
    match AdminError(s, env, caller)
    case Some(e) => Fail(s, e)
    case None =>
      if id !in s.settlements then Fail(s, SettlementNotFound)
      else
        var p := s.settlements[id];
        if p.phase != Pending then Fail(s, InvalidStateTransition)
        else if refId in s.refs then Fail(s, DuplicateReference)
        else if p.amount > Get(s.balances, p.patron) then Fail(s, PaymentExceedsBalance)
        else match Append(s, Entry(p.patron, refId, Payment, -p.amount, Some(p.asset), env.now, meta))
          case None => Fail(s, Aborted)
          case Some(s1) => Outcome(s1.(settlements := s1.settlements[id := p.(phase := Confirmed)]), Ok(()))
  }

  function FailPayment(s: State, env: Env, caller: Address, id: Ref): Outcome {
    match AdminError(s, env, caller)
    case Some(e) => Fail(s, e)
    case None =>
      if id !in s.settlements then Fail(s, SettlementNotFound)
      else
        var p := s.settlements[id];
        if p.phase != Pending then Fail(s, InvalidStateTransition)
        else Outcome(s.(settlements := s.settlements[id := p.(phase := Failed)]), Ok(()))
  }

  /** A refund or a reversal: the two differ in the kind recorded and in the final phase. */
  function Restore(s: State, env: Env, caller: Address, id: Ref, refId: Ref, meta: Ref, kind: Kind, phase: Phase): Outcome {
    match AdminError(s, env, caller)
    case Some(e) => Fail(s, e)
    case None =>
      if id !in s.settlements then Fail(s, SettlementNotFound)
      else
        var p := s.settlements[id];
        if p.phase != Confirmed then Fail(s, InvalidStateTransition)
        else if refId in s.refs then Fail(s, DuplicateReference)
        else match Append(s, Entry(p.patron, refId, kind, p.amount, Some(p.asset), env.now, meta))
          case None => Fail(s, Aborted)
          case Some(s1) => Outcome(s1.(settlements := s1.settlements[id := p.(phase := phase)]), Ok(()))
  }

  function RefundPayment(s: State, env: Env, caller: Address, id: Ref, refId: Ref, meta: Ref): Outcome {
    Restore(s, env, caller, id, refId, meta, Refund, Refunded)
  }

  function ReversePayment(s: State, env: Env, caller: Address, id: Ref, refId: Ref, meta: Ref): Outcome {
    Restore(s, env, caller, id, refId, meta, Reversal, Reversed)
  }

  /** The entries of positions lo to hi - 1, skipping gaps. */
  function Slice(s: State, patron: Ref, lo: int, hi: int): seq<Entry>
    decreases hi - lo
  {
    if lo >= hi then []
    else (if (patron, lo) in s.entries then [s.entries[(patron, lo)]] else []) + Slice(s, patron, lo + 1, hi)
  }

  function Min(a: int, b: int): int {
    if a <= b then a else b
  }

  /** The limit is capped silently and the end of the page saturates. */
  function GetEntries(s: State, patron: Ref, cursor: u32, limit: u32): seq<Entry> {
    Slice(s, patron, cursor, Min(Get(s.count, patron), Min(cursor + Min(limit, MAX_PAGE_SIZE), MAX_U32)))
  }

  // ---------------------------------------------------------------- runs

  datatype Call = CallInitialize(admin: Address, librarian: Address)
                | CallAddAsset(caller: Address, asset: Address)
                | CallAssess(caller: Address, patron: Ref, refId: Ref, amount: int, meta: Ref)
                | CallWaive(caller: Address, patron: Ref, refId: Ref, amount: int, meta: Ref)
                | CallInitiate(caller: Address, patron: Ref, id: Ref, asset: Address, amount: int)
                | CallConfirm(caller: Address, id: Ref, refId: Ref, meta: Ref)
                | CallFail(caller: Address, id: Ref)
                | CallRefund(caller: Address, id: Ref, refId: Ref, meta: Ref)
                | CallReverse(caller: Address, id: Ref, refId: Ref, meta: Ref)

  function Step(s: State, env: Env, c: Call): State {
    match c
    case CallInitialize(a, l) => Initialize(s, env, a, l).state
    case CallAddAsset(a, t) => AddSupportedAsset(s, env, a, t).state
    case CallAssess(a, p, r, n, m) => Assess(s, env, a, p, r, n, m).state
    case CallWaive(a, p, r, n, m) => Waive(s, env, a, p, r, n, m).state
    case CallInitiate(a, p, id, t, n) => InitiatePayment(s, env, a, p, id, t, n).state
    case CallConfirm(a, id, r, m) => ConfirmPayment(s, env, a, id, r, m).state
    case CallFail(a, id) => FailPayment(s, env, a, id).state
    case CallRefund(a, id, r, m) => RefundPayment(s, env, a, id, r, m).state
    case CallReverse(a, id, r, m) => ReversePayment(s, env, a, id, r, m).state
  }

  function Run(s: State, steps: seq<(Env, Call)>): State {
    if steps == [] then s else Step(Run(s, steps[..|steps| - 1]), steps[|steps| - 1].0, steps[|steps| - 1].1)
  }
}
