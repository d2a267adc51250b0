/** What every run of the escrow contract keeps: solvency, conservation and agreement of the books. */
module EscrowInvariant {
  import opened Wrappers
  import opened Soroban
  import opened Escrow

  // ---------------------------------------------------------------- what is summed

  predicate Holding(s: Status) {
    s == Funded || s == Disputed
  }

  ghost function LockedIn(token: Address): Record -> int {
    (r: Record) => if r.token == token && Holding(r.status) then r.amount as int else 0
  }

  ghost function Volume(): Record -> int {
    (r: Record) => if r.status != Created then r.original as int else 0
  }

  ghost function ToSeller(id: int): Event -> int {
    (e: Event) => if e.Released? && e.id == id then e.payout else if e.Resolved? && e.id == id then e.toSeller else 0
  }

  ghost function ToBuyer(id: int): Event -> int {
    (e: Event) => if e.Refunded? && e.id == id then e.amount else if e.Resolved? && e.id == id then e.toBuyer else 0
  }

  ghost function FeeOf(id: int): Event -> int {
    (e: Event) => if (e.Released? || e.Resolved?) && e.id == id then e.fee else 0
  }

  ghost function LeftOf(id: int): Event -> int {
    (e: Event) => if e.Resolved? && e.id == id then e.left else 0
  }

  ghost function ReleaseFee(token: Address): Event -> int {
    (e: Event) => if e.Released? && e.token == token then e.fee else 0
  }

  ghost function ResolutionFee(token: Address): Event -> int {
    (e: Event) => if e.Resolved? && e.token == token then e.fee else 0
  }

  ghost function RecordedFee(token: Address): FeeRecord -> int {
    (f: FeeRecord) => if f.token == token then f.amount else 0
  }

  ghost function FeeTaken(token: Address): Event -> int {
    (e: Event) => if e.Withdrawn? && e.token == token then e.amount else 0
  }

  /** What resolutions left unallocated. */
  ghost function Residue(token: Address): Event -> int {
    (e: Event) => if e.Resolved? && e.token == token then e.left else 0
  }

  /** What the contract's account received outside the entry points or by paying itself. */
  ghost function Unsolicited(token: Address): Event -> int {
    (e: Event) =>
      match e
      case Moved(t, _, to, n) => if t == token && to == CONTRACT then n else 0
      case Released(_, t, seller, n, _) => if t == token && seller == CONTRACT then n else 0
      case Resolved(_, t, _, seller, _, n, _, _) => if t == token && seller == CONTRACT then n else 0
      case Withdrawn(t, to, n) => if t == token && to == CONTRACT then n else 0
      case _ => 0
  }

  /** The effect of an event on one account: what it was credited less what it was debited. */
  ghost function Effect(token: Address, account: Address): Event -> int {
    (e: Event) =>
      if e.token != token then 0
      else match e
        case Deposited(_, _, buyer, n) => Credit(account, CONTRACT, n) - Credit(account, buyer, n)
        case Released(_, _, seller, n, _) => Credit(account, seller, n) - Credit(account, CONTRACT, n)
        case Refunded(_, _, buyer, n) => Credit(account, buyer, n) - Credit(account, CONTRACT, n)
        case Resolved(_, _, buyer, seller, b, r, _, _) =>
          Credit(account, buyer, b) + Credit(account, seller, r) - Credit(account, CONTRACT, b + r)
        case Withdrawn(_, to, n) => Credit(account, to, n) - Credit(account, CONTRACT, n)
        case Moved(_, from, to, n) => Credit(account, to, n) - Credit(account, from, n)
  }

  /** The party an index files each escrow under. */
  datatype Key = ByToken | ByBuyer | BySeller

  function PartyOf(key: Key, r: Record): Address {
    match key
    case ByToken => r.token
    case ByBuyer => r.buyer
    case BySeller => r.seller
  }

  ghost function Under(key: Key, a: Address): Record -> bool {
    (r: Record) => PartyOf(key, r) == a
  }

  // ---------------------------------------------------------------- the invariant

  ghost predicate RecordOk(r: Record) {
    && r.buyer != CONTRACT && r.buyer != r.seller
    && 0 <= r.amount <= r.original && r.original > 0
    && (r.status == Created ==> r.amount == r.original)
    && (Holding(r.status) ==> r.amount > 0)
    && (r.status == Completed || r.status == Cancelled ==> r.amount == 0)
  }

  ghost predicate RecordsOk(escrows: map<int, Record>, count: nat) {
    && (forall id :: id in escrows <==> 1 <= id <= count)
    && (forall id :: id in escrows ==> RecordOk(escrows[id]))
  }

  /** What left an escrow, by where it went. */
  ghost function Left(id: int, log: seq<Event>): int {
    Sum(ToSeller(id), log) + Sum(FeeOf(id), log) + Sum(ToBuyer(id), log) + Sum(LeftOf(id), log)
  }

  /** An escrow's original amount is what is locked plus everything that left it; nothing left an unknown escrow. */
  ghost predicate ConservedAt(id: int, escrows: map<int, Record>, log: seq<Event>) {
    Left(id, log) == if id in escrows then escrows[id].original - escrows[id].amount else 0
  }

  /** The contract's balance is its opening balance, what is locked, the fee pool, the residue of resolutions and
      unsolicited tokens. */
  ghost predicate SolventAt(t: Address, opening: Ledger, ledger: Ledger, locked: int, fees: map<Address, int>,
                            log: seq<Event>)
  {
    Balance(ledger, t, CONTRACT)
    == Balance(opening, t, CONTRACT) + locked + Get(fees, t) + Sum(Residue(t), log) + Sum(Unsolicited(t), log)
  }

  /** The fee history lists the release fees; release and resolution fees are in the pool or withdrawn. */
  ghost predicate FeesAgreeAt(t: Address, fees: map<Address, int>, history: seq<FeeRecord>, log: seq<Event>) {
    && 0 <= Get(fees, t)
    && Sum(RecordedFee(t), history) == Sum(ReleaseFee(t), log)
    && Sum(ReleaseFee(t), log) + Sum(ResolutionFee(t), log) == Get(fees, t) + Sum(FeeTaken(t), log)
  }

  /** A balance is the opening balance plus the effects of the recorded events. */
  ghost predicate LedgerAgreesAt(t: Address, a: Address, opening: Ledger, ledger: Ledger, log: seq<Event>) {
    Balance(ledger, t, a) == Balance(opening, t, a) + Sum(Effect(t, a), log)
  }

  /** An index lists, in ascending order, the escrows of each party. */
  ghost predicate IndexAgreesAt(a: Address, key: Key, index: map<Address, seq<int>>, escrows: map<int, Record>, count: nat) {
    GetSeq(index, a) == Matching(Under(key, a), escrows, count)
  }

  ghost predicate EventOk(e: Event) {
    && (e.Resolved? ==> e.left >= 0 && e.toSeller >= 0)
    && (e.Released? ==> e.payout >= 0)
    && (e.Withdrawn? || e.Moved? ==> e.amount >= 0)
  }

  ghost predicate Indexed(s: State) {
    && (forall a :: IndexAgreesAt(a, ByToken, s.byToken, s.escrows, s.count))
    && (forall a :: IndexAgreesAt(a, ByBuyer, s.byBuyer, s.escrows, s.count))
    && (forall a :: IndexAgreesAt(a, BySeller, s.bySeller, s.escrows, s.count))
  }

  ghost predicate Booked(opening: Ledger, s: State) {
    && RecordsOk(s.escrows, s.count)
    && s.feeBps <= MAX_FEE_BPS
    && s.totalVolume == Total(Volume(), s.escrows, s.count)
    && (forall id :: ConservedAt(id, s.escrows, s.log))
    && (forall t :: SolventAt(t, opening, s.ledger, Total(LockedIn(t), s.escrows, s.count), s.fees, s.log))
    && (forall t :: FeesAgreeAt(t, s.fees, s.history, s.log))
    && (forall t, a :: LedgerAgreesAt(t, a, opening, s.ledger, s.log))
    && (forall e :: e in s.log ==> EventOk(e))
  }

  ghost predicate Inv(opening: Ledger, s: State) {
    Endowed(opening) && Booked(opening, s) && Indexed(s)
  }

  // ---------------------------------------------------------------- one posting: a record refiled and an event logged

  ghost function Leaves(id: int, e: Event): int {
    ToSeller(id)(e) + FeeOf(id)(e) + ToBuyer(id)(e) + LeftOf(id)(e)
  }

  /** What may become of an escrow: its parties, terms and original amount stay, its status moves along the transition
      table, and the amount falls only while it is held. */
  ghost predicate Evolves(r: Record, r': Record) {
    && r' == r.(amount := r'.amount, status := r'.status)
    && (r'.status == r.status || TransitionAllowed(r.status, r'.status))
    && (r'.amount == r.amount || (r'.amount < r.amount && Holding(r.status)))
  }

  /** s' refiles the record id and leaves the others, the count and the indexes as they were. */
  ghost predicate Refiled(s: State, s': State, id: int) {
    && id in s.escrows && id in s'.escrows
    && s'.escrows == s.escrows[id := s'.escrows[id]]
    && Evolves(s.escrows[id], s'.escrows[id])
    && s'.count == s.count
    && s'.byToken == s.byToken && s'.byBuyer == s.byBuyer && s'.bySeller == s.bySeller
  }

  /** The event changes a balance by its effect. */
  ghost predicate AccountMoves(t: Address, a: Address, ledger: Ledger, ledger': Ledger, e: Event) {
    Balance(ledger', t, a) == Balance(ledger, t, a) + Effect(t, a)(e)
  }

  /** The event changes the fee pool by the fees it reports. */
  ghost predicate PoolMoves(t: Address, fees: map<Address, int>, fees': map<Address, int>, e: Event) {
    Get(fees', t) == Get(fees, t) + ReleaseFee(t)(e) + ResolutionFee(t)(e) - FeeTaken(t)(e)
  }

  /** The event changes what the contract holds by what it owes: locked changes by the given amount. */
  ghost predicate OwedMoves(t: Address, locked: int, locked': int, e: Event) {
    Effect(t, CONTRACT)(e) == locked' - locked + ReleaseFee(t)(e) + ResolutionFee(t)(e) - FeeTaken(t)(e)
                            + Residue(t)(e) + Unsolicited(t)(e)
  }

  /** s' refiles id, logs the event e of it and, for a release, the fee record f; every amount moves as e says. */
  ghost predicate Posting(s: State, s': State, id: int, e: Event, f: FeeRecord) {
    && Refiled(s, s', id)
    && RecordOk(s'.escrows[id])
    && s'.log == s.log + [e] && s'.feeBps == s.feeBps && EventOk(e)
    && (e.Deposited? || e.Released? || e.Refunded? || e.Resolved?) && e.id == id
    && s'.escrows[id].amount == s.escrows[id].amount - Leaves(id, e)
    && (if e.Released? then s'.history == s.history + [f] && f.token == e.token && f.amount == e.fee
        else s'.history == s.history)
    && (e.Released? || e.Resolved? ==> e.fee >= 0)
    && s'.totalVolume == s.totalVolume + Volume()(s'.escrows[id]) - Volume()(s.escrows[id])
    && (forall t :: PoolMoves(t, s.fees, s'.fees, e))
    && (forall t, a :: AccountMoves(t, a, s.ledger, s'.ledger, e))
    && (forall t :: OwedMoves(t, LockedIn(t)(s.escrows[id]), LockedIn(t)(s'.escrows[id]), e))
  }

  lemma LeftPush(id: int, log: seq<Event>, e: Event)
    ensures Left(id, log + [e]) == Left(id, log) + Leaves(id, e)
  {
    SumPush(log, e);
  }

  lemma SolventKept(t: Address, opening: Ledger, ledger: Ledger, ledger': Ledger, locked: int, locked': int,
                    fees: map<Address, int>, fees': map<Address, int>, log: seq<Event>, e: Event)
    requires SolventAt(t, opening, ledger, locked, fees, log)
    requires AccountMoves(t, CONTRACT, ledger, ledger', e) && PoolMoves(t, fees, fees', e) && OwedMoves(t, locked, locked', e)
    ensures SolventAt(t, opening, ledger', locked', fees', log + [e])
  {
    SumPush(log, e);
  }

  lemma LedgerKept(t: Address, a: Address, opening: Ledger, ledger: Ledger, ledger': Ledger, log: seq<Event>, e: Event)
    requires LedgerAgreesAt(t, a, opening, ledger, log) && AccountMoves(t, a, ledger, ledger', e)
    ensures LedgerAgreesAt(t, a, opening, ledger', log + [e])
  {
    SumPush(log, e);
  }

  lemma FeesKept(t: Address, fees: map<Address, int>, fees': map<Address, int>, history: seq<FeeRecord>,
                 history': seq<FeeRecord>, log: seq<Event>, e: Event, f: FeeRecord)
    requires FeesAgreeAt(t, fees, history, log) && PoolMoves(t, fees, fees', e) && 0 <= Get(fees', t)
    requires if e.Released? then history' == history + [f] && f.token == e.token && f.amount == e.fee else history' == history
    ensures FeesAgreeAt(t, fees', history', log + [e])
  {
    SumPush(log, e);
    SumPush(history, f);
  }

  /** A record that keeps its parties keeps its place in an index. */
  lemma IndexKept(a: Address, key: Key, index: map<Address, seq<int>>, m: map<int, Record>, n: nat, id: int, r: Record)
    requires IndexAgreesAt(a, key, index, m, n) && id in m && PartyOf(key, m[id]) == PartyOf(key, r)
    ensures IndexAgreesAt(a, key, index, m[id := r], n)
  {
    MatchingUpdate(Under(key, a), m, n, id, r);
  }

  lemma RefiledIndexed(s: State, s': State, id: int)
    requires Indexed(s) && Refiled(s, s', id)
    ensures Indexed(s')
  {
    var r := s'.escrows[id];
    forall a ensures IndexAgreesAt(a, ByToken, s'.byToken, s'.escrows, s'.count) {
      IndexKept(a, ByToken, s.byToken, s.escrows, s.count, id, r);
    }
    forall a ensures IndexAgreesAt(a, ByBuyer, s'.byBuyer, s'.escrows, s'.count) {
      IndexKept(a, ByBuyer, s.byBuyer, s.escrows, s.count, id, r);
    }
    forall a ensures IndexAgreesAt(a, BySeller, s'.bySeller, s'.escrows, s'.count) {
      IndexKept(a, BySeller, s.bySeller, s.escrows, s.count, id, r);
    }
  }

  lemma PostingKeeps(opening: Ledger, s: State, s': State, id: int, e: Event, f: FeeRecord)
    requires Booked(opening, s) && Posting(s, s', id, e, f)
    ensures Booked(opening, s')
  {
    var r := s'.escrows[id];
    TotalUpdate(Volume(), s.escrows, s.count, id, r);
    forall i ensures ConservedAt(i, s'.escrows, s'.log) {
      assert ConservedAt(i, s.escrows, s.log);
      LeftPush(i, s.log, e);
    }
    forall t ensures SolventAt(t, opening, s'.ledger, Total(LockedIn(t), s'.escrows, s'.count), s'.fees, s'.log) {
      TotalUpdate(LockedIn(t), s.escrows, s.count, id, r);
      SolventKept(t, opening, s.ledger, s'.ledger, Total(LockedIn(t), s.escrows, s.count),
                  Total(LockedIn(t), s'.escrows, s.count), s.fees, s'.fees, s.log, e);
    }
    forall t ensures FeesAgreeAt(t, s'.fees, s'.history, s'.log) {
      assert FeesAgreeAt(t, s.fees, s.history, s.log) && PoolMoves(t, s.fees, s'.fees, e);
      FeesKept(t, s.fees, s'.fees, s.history, s'.history, s.log, e, f);
    }
    forall t, a ensures LedgerAgreesAt(t, a, opening, s'.ledger, s'.log) {
      LedgerKept(t, a, opening, s.ledger, s'.ledger, s.log, e);
    }
  }

  // ---------------------------------------------------------------- each entry point's posting

  const NO_FEE := FeeRecord(0, 0, 0, 0)

  lemma FundKeeps(opening: Ledger, s: State, env: Env, caller: Address, id: int)
    requires Booked(opening, s) && env.WellFormed() && FundEscrow(s, env, caller, id).result.Ok?
    ensures Booked(opening, FundEscrow(s, env, caller, id).state)
    ensures Refiled(s, FundEscrow(s, env, caller, id).state, id)
  {
    var r := s.escrows[id];
    TransferMoves(s.ledger, r.token, r.buyer, CONTRACT, r.amount);
    PostingKeeps(opening, s, FundEscrow(s, env, caller, id).state, id, Deposited(id, r.token, r.buyer, r.amount), NO_FEE);
  }

  lemma RefundKeeps(opening: Ledger, s: State, env: Env, caller: Address, id: int)
    requires Booked(opening, s) && RefundEscrow(s, env, caller, id).result.Ok?
    ensures Booked(opening, RefundEscrow(s, env, caller, id).state)
    ensures Refiled(s, RefundEscrow(s, env, caller, id).state, id)
  {
    var r := s.escrows[id];
    TransferMoves(s.ledger, r.token, CONTRACT, r.buyer, r.amount);
    PostingKeeps(opening, s, RefundEscrow(s, env, caller, id).state, id, Refunded(id, r.token, r.buyer, r.amount), NO_FEE);
  }

  lemma PayOutPosts(s: State, env: Env, id: int, amount: int)
    requires RecordsOk(s.escrows, s.count) && id in s.escrows && s.escrows[id].status == Funded
    requires 0 < amount <= s.escrows[id].amount && PayOut(s, env, id, amount).result.Ok?
    ensures var r := s.escrows[id]; var (fee, payout) := FeeAndPayout(amount, s.feeBps).value;
            Posting(s, PayOut(s, env, id, amount).state, id, Released(id, r.token, r.seller, payout, fee),
                    FeeRecord(id, r.token, fee, env.now))
  {
    var r := s.escrows[id];
    var (fee, payout) := FeeAndPayout(amount, s.feeBps).value;
    TransferMoves(s.ledger, r.token, CONTRACT, r.seller, payout);
    PlusAdds(s.fees, r.token, fee);
  }

  lemma PayOutKeeps(opening: Ledger, s: State, env: Env, id: int, amount: int)
    requires Booked(opening, s) && id in s.escrows && s.escrows[id].status == Funded && 0 < amount <= s.escrows[id].amount
    requires PayOut(s, env, id, amount).result.Ok?
    ensures Booked(opening, PayOut(s, env, id, amount).state)
    ensures Refiled(s, PayOut(s, env, id, amount).state, id)
  {
    var r := s.escrows[id];
    var (fee, payout) := FeeAndPayout(amount, s.feeBps).value;
    PayOutPosts(s, env, id, amount);
    PostingKeeps(opening, s, PayOut(s, env, id, amount).state, id,
                 Released(id, r.token, r.seller, payout, fee), FeeRecord(id, r.token, fee, env.now));
  }

  lemma TransferIfPositiveMoves(l: Ledger, token: Address, to: Address, amount: int)
    requires amount >= 0 && TransferIfPositive(l, token, to, amount).Some?
    ensures forall t, a :: Balance(TransferIfPositive(l, token, to, amount).value, t, a)
                        == Balance(l, t, a) + (if t == token then Credit(a, to, amount) - Credit(a, CONTRACT, amount) else 0)
  {
    if amount > 0 { TransferMoves(l, token, CONTRACT, to, amount); }
  }

  lemma ResolveMoves(s: State, env: Env, arbiter: Address, id: int, toBuyer: i128, toSeller: i128, fee: i128, left: int)
    requires ResolveDispute(s, env, arbiter, id, toBuyer, toSeller, fee).result.Ok?
    ensures var r := s.escrows[id];
            var s' := ResolveDispute(s, env, arbiter, id, toBuyer, toSeller, fee).state;
            var e := Resolved(id, r.token, r.buyer, r.seller, toBuyer, toSeller, fee, left);
            && (forall t, a :: AccountMoves(t, a, s.ledger, s'.ledger, e))
            && (forall t :: PoolMoves(t, s.fees, s'.fees, e))
  {
    var r := s.escrows[id];
    TransferIfPositiveMoves(s.ledger, r.token, r.buyer, toBuyer);
    TransferIfPositiveMoves(TransferIfPositive(s.ledger, r.token, r.buyer, toBuyer).value, r.token, r.seller, toSeller);
    PlusAdds(s.fees, r.token, fee);
  }

  /** What a resolution does besides moving balances. */
  lemma ResolveFiles(s: State, env: Env, arbiter: Address, id: int, toBuyer: i128, toSeller: i128, fee: i128)
    requires ResolveDispute(s, env, arbiter, id, toBuyer, toSeller, fee).result.Ok?
    ensures id in s.escrows && s.escrows[id].status == Disputed && toBuyer >= 0 && toSeller >= 0 && fee >= 0
    ensures var r, s' := s.escrows[id], ResolveDispute(s, env, arbiter, id, toBuyer, toSeller, fee).state;
            var left := r.amount - toBuyer - toSeller - fee;
            && left >= 0
            && s' == s.(ledger := s'.ledger, fees := s'.fees, escrows := s.escrows[id := r.(status := Completed, amount := 0)],
                        log := s.log + [Resolved(id, r.token, r.buyer, r.seller, toBuyer, toSeller, fee, left)])
  {
  }

  lemma ResolvePosts(s: State, env: Env, arbiter: Address, id: int, toBuyer: i128, toSeller: i128, fee: i128)
    requires RecordsOk(s.escrows, s.count) && ResolveDispute(s, env, arbiter, id, toBuyer, toSeller, fee).result.Ok?
    ensures var r := s.escrows[id];
            var e := Resolved(id, r.token, r.buyer, r.seller, toBuyer, toSeller, fee, r.amount - toBuyer - toSeller - fee);
            Posting(s, ResolveDispute(s, env, arbiter, id, toBuyer, toSeller, fee).state, id, e, NO_FEE)
  {
    ResolveFiles(s, env, arbiter, id, toBuyer, toSeller, fee);
    ResolveMoves(s, env, arbiter, id, toBuyer, toSeller, fee, s.escrows[id].amount - toBuyer - toSeller - fee);
    Posted(s, ResolveDispute(s, env, arbiter, id, toBuyer, toSeller, fee).state, id,
           Resolved(id, s.escrows[id].token, s.escrows[id].buyer, s.escrows[id].seller, toBuyer, toSeller, fee,
                    s.escrows[id].amount - toBuyer - toSeller - fee));
  }

  /** The posting of a resolution, from what it files and what it moves. */
  lemma Posted(s: State, s': State, id: int, e: Event)
    requires RecordsOk(s.escrows, s.count) && id in s.escrows && s.escrows[id].status == Disputed && e.Resolved? && e.id == id
    requires var r := s.escrows[id];
             && e == Resolved(id, r.token, r.buyer, r.seller, e.toBuyer, e.toSeller, e.fee, r.amount - e.toBuyer - e.toSeller - e.fee)
             && e.toBuyer >= 0 && e.toSeller >= 0 && e.fee >= 0 && e.left >= 0
             && s' == s.(ledger := s'.ledger, fees := s'.fees, escrows := s.escrows[id := r.(status := Completed, amount := 0)],
                         log := s.log + [e])
    requires forall t :: PoolMoves(t, s.fees, s'.fees, e)
    requires forall t, a :: AccountMoves(t, a, s.ledger, s'.ledger, e)
    ensures Posting(s, s', id, e, NO_FEE)
  {
  }

  lemma ResolveKeeps(opening: Ledger, s: State, env: Env, arbiter: Address, id: int, toBuyer: i128, toSeller: i128, fee: i128)
    requires Booked(opening, s) && ResolveDispute(s, env, arbiter, id, toBuyer, toSeller, fee).result.Ok?
    ensures Booked(opening, ResolveDispute(s, env, arbiter, id, toBuyer, toSeller, fee).state)
    ensures Refiled(s, ResolveDispute(s, env, arbiter, id, toBuyer, toSeller, fee).state, id)
  {
    var r := s.escrows[id];
    ResolvePosts(s, env, arbiter, id, toBuyer, toSeller, fee);
    PostingKeeps(opening, s, ResolveDispute(s, env, arbiter, id, toBuyer, toSeller, fee).state, id,
                 Resolved(id, r.token, r.buyer, r.seller, toBuyer, toSeller, fee, r.amount - toBuyer - toSeller - fee), NO_FEE);
  }

  // ---------------------------------------------------------------- the other steps

  /** A step that logs a movement belonging to no escrow. */
  lemma MovementKeeps(opening: Ledger, s: State, ledger: Ledger, fees: map<Address, int>, e: Event)
    requires Booked(opening, s) && (e.Withdrawn? || e.Moved?) && EventOk(e)
    requires forall t :: PoolMoves(t, s.fees, fees, e)
    requires forall t :: 0 <= Get(fees, t)
    requires forall t, a :: AccountMoves(t, a, s.ledger, ledger, e)
    requires forall t :: OwedMoves(t, 0, 0, e)
    ensures Booked(opening, s.(ledger := ledger, fees := fees, log := s.log + [e]))
  {
    forall i ensures ConservedAt(i, s.escrows, s.log + [e]) {
      assert ConservedAt(i, s.escrows, s.log);
      LeftPush(i, s.log, e);
    }
    forall t ensures SolventAt(t, opening, ledger, Total(LockedIn(t), s.escrows, s.count), fees, s.log + [e]) {
      var locked := Total(LockedIn(t), s.escrows, s.count);
      assert OwedMoves(t, 0, 0, e);
      SolventKept(t, opening, s.ledger, ledger, locked, locked, s.fees, fees, s.log, e);
    }
    forall t ensures FeesAgreeAt(t, fees, s.history, s.log + [e]) {
      FeesKept(t, s.fees, fees, s.history, s.history, s.log, e, NO_FEE);
    }
    forall t, a ensures LedgerAgreesAt(t, a, opening, ledger, s.log + [e]) {
      LedgerKept(t, a, opening, s.ledger, ledger, s.log, e);
    }
  }

  lemma WithdrawKeeps(opening: Ledger, s: State, env: Env, caller: Address, token: Address, recipient: Address, amount: i128)
    requires Booked(opening, s) && WithdrawFees(s, env, caller, token, recipient, amount).result.Ok?
    ensures Booked(opening, WithdrawFees(s, env, caller, token, recipient, amount).state)
  {
    var ledger := Transfer(s.ledger, token, CONTRACT, recipient, amount).value;
    var fees := Plus(s.fees, token, -amount);
    TransferMoves(s.ledger, token, CONTRACT, recipient, amount);
    PlusAdds(s.fees, token, -amount);
    forall t ensures 0 <= Get(fees, t) {
      assert FeesAgreeAt(t, s.fees, s.history, s.log);
    }
    MovementKeeps(opening, s, ledger, fees, Withdrawn(token, recipient, amount));
  }

  lemma MoveKeeps(opening: Ledger, s: State, env: Env, token: Address, from: Address, to: Address, amount: int)
    requires Booked(opening, s) && env.WellFormed() && MoveTokens(s, env, token, from, to, amount).result.Ok?
    ensures Booked(opening, MoveTokens(s, env, token, from, to, amount).state)
  {
    TransferMoves(s.ledger, token, from, to, amount);
    forall t ensures 0 <= Get(s.fees, t) {
      assert FeesAgreeAt(t, s.fees, s.history, s.log);
    }
    MovementKeeps(opening, s, Transfer(s.ledger, token, from, to, amount).value, s.fees, Moved(token, from, to, amount));
  }

  /** Filing a new record adds its identifier under its own key. */
  lemma IndexPush(a: Address, key: Key, index: map<Address, seq<int>>, k: Address, m: map<int, Record>, n: nat, r: Record)
    requires IndexAgreesAt(a, key, index, m, n) && PartyOf(key, r) == k
    ensures IndexAgreesAt(a, key, index[k := GetSeq(index, k) + [n + 1]], m[n + 1 := r], n + 1)
  {
    MatchingUpdate(Under(key, a), m, n, n + 1, r);
  }

  lemma CreateIndexed(s: State, env: Env, buyer: Address, seller: Address, token: Address, amount: i128, expiration: u64)
    requires Indexed(s) && CreateEscrow(s, env, buyer, seller, token, amount, expiration).result.Ok?
    ensures Indexed(CreateEscrow(s, env, buyer, seller, token, amount, expiration).state)
  {
    var s' := CreateEscrow(s, env, buyer, seller, token, amount, expiration).state;
    var r := Record(buyer, seller, token, amount, amount, Created, expiration);
    forall a ensures IndexAgreesAt(a, ByToken, s'.byToken, s'.escrows, s'.count) {
      IndexPush(a, ByToken, s.byToken, token, s.escrows, s.count, r);
    }
    forall a ensures IndexAgreesAt(a, ByBuyer, s'.byBuyer, s'.escrows, s'.count) {
      IndexPush(a, ByBuyer, s.byBuyer, buyer, s.escrows, s.count, r);
    }
    forall a ensures IndexAgreesAt(a, BySeller, s'.bySeller, s'.escrows, s'.count) {
      IndexPush(a, BySeller, s.bySeller, seller, s.escrows, s.count, r);
    }
  }

  lemma NewRecordOk(m: map<int, Record>, m': map<int, Record>, n: nat, r: Record, log: seq<Event>)
    requires n > 0 && RecordsOk(m, n - 1) && RecordOk(r) && r.status == Created && m' == m[n := r]
    requires forall i :: ConservedAt(i, m, log)
    ensures RecordsOk(m', n)
    ensures forall i :: ConservedAt(i, m', log)
  {
    forall i ensures ConservedAt(i, m', log) {
      assert ConservedAt(i, m, log) && n !in m;
    }
  }

  lemma CreateKeeps(opening: Ledger, s: State, env: Env, buyer: Address, seller: Address, token: Address,
                    amount: i128, expiration: u64)
    requires Booked(opening, s) && env.WellFormed()
    requires CreateEscrow(s, env, buyer, seller, token, amount, expiration).result.Ok?
    ensures Booked(opening, CreateEscrow(s, env, buyer, seller, token, amount, expiration).state)
  {
    var n := s.count + 1;
    var r := Record(buyer, seller, token, amount, amount, Created, expiration);
    var m := s.escrows[n := r];
    TotalUpdate(Volume(), s.escrows, s.count, n, r);
    NewRecordOk(s.escrows, m, n, r, s.log);
    forall t ensures Total(LockedIn(t), m, n) == Total(LockedIn(t), s.escrows, s.count) {
      TotalUpdate(LockedIn(t), s.escrows, s.count, n, r);
    }
  }

  lemma DisputeKeeps(opening: Ledger, s: State, env: Env, caller: Address, id: int)
    requires Booked(opening, s) && Dispute(s, env, caller, id).result.Ok?
    ensures Booked(opening, Dispute(s, env, caller, id).state)
    ensures Refiled(s, Dispute(s, env, caller, id).state, id)
  {
    var r := s.escrows[id].(status := Disputed);
    var m := s.escrows[id := r];
    TotalUpdate(Volume(), s.escrows, s.count, id, r);
    forall i ensures ConservedAt(i, m, s.log) {
      assert ConservedAt(i, s.escrows, s.log);
    }
    forall t ensures Total(LockedIn(t), m, s.count) == Total(LockedIn(t), s.escrows, s.count) {
      TotalUpdate(LockedIn(t), s.escrows, s.count, id, r);
    }
  }

  // ---------------------------------------------------------------- every step

  /** A release is a failure or one payout. */
  lemma ReleaseIsPayOut(s: State, env: Env, caller: Address, id: int, amount: i128)
    requires RecordsOk(s.escrows, s.count)
    ensures ReleaseEscrow(s, env, caller, id).result.Ok? ==>
              id in s.escrows && s.escrows[id].status == Funded && 0 < s.escrows[id].amount
              && ReleaseEscrow(s, env, caller, id) == PayOut(s, env, id, s.escrows[id].amount)
    ensures PartialRelease(s, env, caller, id, amount).result.Ok? ==>
              id in s.escrows && s.escrows[id].status == Funded && 0 < amount <= s.escrows[id].amount
              && PartialRelease(s, env, caller, id, amount) == PayOut(s, env, id, amount)
  {
  }

  /** No escrow, no index and no count changes. */
  ghost predicate Untouched(s: State, s': State) {
    && s'.escrows == s.escrows && s'.count == s.count
    && s'.byToken == s.byToken && s'.byBuyer == s.byBuyer && s'.bySeller == s.bySeller
  }

  predicate OnEscrow(c: Call) {
    c.CallFund? || c.CallRelease? || c.CallPartialRelease? || c.CallDispute? || c.CallResolve? || c.CallRefund?
  }

  /** A call on an escrow fails, or keeps the books and refiles that escrow. */
  lemma EscrowCallKeeps(opening: Ledger, s: State, env: Env, c: Call)
    requires Booked(opening, s) && env.WellFormed() && OnEscrow(c)
    ensures Step(s, env, c) == s || (Booked(opening, Step(s, env, c)) && Refiled(s, Step(s, env, c), c.id))
  {
    match c
    case CallFund(a, id) =>
      if FundEscrow(s, env, a, id).result.Ok? { FundKeeps(opening, s, env, a, id); }
    case CallRelease(a, id) =>
      ReleaseIsPayOut(s, env, a, id, 0);
      if ReleaseEscrow(s, env, a, id).result.Ok? { PayOutKeeps(opening, s, env, id, s.escrows[id].amount); }
    case CallPartialRelease(a, id, n) =>
      ReleaseIsPayOut(s, env, a, id, n);
      if PartialRelease(s, env, a, id, n).result.Ok? { PayOutKeeps(opening, s, env, id, n); }
    case CallDispute(a, id) =>
      if Dispute(s, env, a, id).result.Ok? { DisputeKeeps(opening, s, env, a, id); }
    case CallResolve(a, id, b, r, f) =>
      if ResolveDispute(s, env, a, id, b, r, f).result.Ok? { ResolveKeeps(opening, s, env, a, id, b, r, f); }
    case CallRefund(a, id) =>
      if RefundEscrow(s, env, a, id).result.Ok? { RefundKeeps(opening, s, env, a, id); }
  }

  predicate IsConfiguration(c: Call) {
    c.CallSetAdmin? || c.CallWhitelistToken? || c.CallSetArbiter? || c.CallSetProtocolFeeBps?
  }

  /** The configuration calls change nothing but the configuration, and keep the rate under its cap. */
  lemma ConfigurationKeeps(opening: Ledger, s: State, env: Env, c: Call)
    requires Booked(opening, s) && IsConfiguration(c)
    ensures Step(s, env, c) == s || (Booked(opening, Step(s, env, c)) && Untouched(s, Step(s, env, c)))
  {
    match c
    case CallSetAdmin(a) =>
    case CallWhitelistToken(a, t) =>
    case CallSetArbiter(a, b) =>
    case CallSetProtocolFeeBps(a, bps) =>
  }

  lemma OtherCallKeeps(opening: Ledger, s: State, env: Env, c: Call)
    requires Booked(opening, s) && env.WellFormed() && !OnEscrow(c)
    ensures var s' := Step(s, env, c); s' == s || (Booked(opening, s') && (c.CallCreate? || Untouched(s, s')))
  {
    match c
    case CallCreate(b, r, t, n, x) =>
      if CreateEscrow(s, env, b, r, t, n, x).result.Ok? { CreateKeeps(opening, s, env, b, r, t, n, x); }
    case CallWithdraw(a, t, r, n) =>
      if WithdrawFees(s, env, a, t, r, n).result.Ok? { WithdrawKeeps(opening, s, env, a, t, r, n); }
    case CallMoveTokens(t, from, to, n) =>
      if MoveTokens(s, env, t, from, to, n).result.Ok? { MoveKeeps(opening, s, env, t, from, to, n); }
    case _ => ConfigurationKeeps(opening, s, env, c);
  }

  /** The invariant survives every step, and every escrow only evolves. */
  lemma StepKeeps(opening: Ledger, s: State, env: Env, c: Call)
    requires Inv(opening, s) && env.WellFormed()
    ensures Inv(opening, Step(s, env, c))
    ensures forall id :: id in s.escrows ==> id in Step(s, env, c).escrows && Evolves(s.escrows[id], Step(s, env, c).escrows[id])
  {
    var s' := Step(s, env, c);
    if OnEscrow(c) {
      EscrowCallKeeps(opening, s, env, c);
      if s' != s { RefiledIndexed(s, s', c.id); }
    } else {
      OtherCallKeeps(opening, s, env, c);
      if c.CallCreate? && s' != s { CreateIndexed(s, env, c.buyer, c.seller, c.token, c.amount, c.expiration); }
    }
  }
}
