/** The vesting schedule is a monotone staircase from nothing to the whole grant, and every grant pays at most once. */
module VestingTheorems {
  import opened Wrappers
  import opened Soroban
  import opened Vesting

  /** A schedule as the contract stores it. */
  predicate Granted(v: Schedule) {
    v.amount > 0 && v.cliff <= v.duration
  }

  // ---------------------------------------------------------------- the schedule

  /** The amount is defined at every time exactly when the end fits 64 bits and the largest product fits 128. */
  predicate Representable(v: Schedule) {
    && v.start + v.duration <= MAX_U64
    && (v.cliff < v.duration ==> v.amount * (v.duration - v.cliff - 1) <= MAX_U128)
  }

  lemma DefinedExactly(v: Schedule)
    requires Granted(v)
    ensures (forall now: u64 :: VestedAmount(v, now).Some?) <==> Representable(v)
  {
    if Representable(v) {
      forall now: u64 ensures VestedAmount(v, now).Some? { DefinedAt(v, now); }
    } else if v.start + v.duration > MAX_U64 {
      assert VestedAmount(v, MAX_U64).None?;
    } else {
      var last: u64 := v.start + v.duration - 1;
      assert VestedAmount(v, last).None?;
    }
  }

  lemma DefinedAt(v: Schedule, now: u64)
    requires Granted(v) && Representable(v)
    ensures VestedAmount(v, now).Some?
  {
    if v.start + v.cliff <= now < v.start + v.duration {
      var vested := now - (v.start + v.cliff);
      ProductMonotone(v.amount, vested, v.duration - v.cliff - 1);
    }
  }

  lemma ProductMonotone(a: int, x: int, y: int)
    requires a >= 0 && x <= y
    ensures a * x <= a * y
  {
  }

  lemma NextMultiple(d: int, r: int, q: int)
    requires d > 0 && r < q
    ensures r * d + d <= q * d
  {
    ProductMonotone(d, r + 1, q);
    assert d * (r + 1) == r * d + d;
  }

  lemma QuotientMonotone(x: int, y: int, d: int)
    requires x <= y && d > 0
    ensures x / d <= y / d
  {
    var q, r := x / d, y / d;
    assert q * d <= x && y < r * d + d;
    if r < q { NextMultiple(d, r, q); }
  }

  lemma QuotientBounds(a: int, x: int, d: int)
    requires a >= 0 && 0 <= x <= d && d > 0
    ensures 0 <= a * x / d <= a
    ensures a * x / d * d <= a * x < a * x / d * d + d
  {
    ProductMonotone(a, 0, x);
    ProductMonotone(a, x, d);
    QuotientMonotone(0, a * x, d);
    QuotientMonotone(a * x, a * d, d);
    QuotientOfMultiple(a, d);
  }

  lemma QuotientOfMultiple(a: int, d: int)
    requires d > 0
    ensures a * d / d == a
  {
    var q := a * d / d;
    assert q * d <= a * d < q * d + d;
    if a < q { NextMultiple(d, a, q); }
    if q < a { NextMultiple(d, q, a); }
  }

  /** When one of the sums, or the product, overflows. */
  predicate Overflows(v: Schedule, now: u64) {
    && now >= v.start
    && (|| v.start + v.cliff > MAX_U64
        || (now >= v.start + v.cliff && v.start + v.duration > MAX_U64)
        || (v.start + v.cliff <= now < v.start + v.duration && v.amount * (now - v.start - v.cliff) > MAX_U128))
  }

  /** At any time without an overflow: nothing before the cliff, everything from the end on, and in between the truncated
      proportion of the time after the cliff. */
  lemma VestedAt(v: Schedule, now: u64)
    requires Granted(v)
    ensures VestedAmount(v, now).None? <==> Overflows(v, now)
    ensures VestedAmount(v, now).Some? ==>
              var n := VestedAmount(v, now).value;
              && 0 <= n <= v.amount
              && (now < v.start + v.cliff && now < v.start + v.duration ==> n == 0)
              && (now >= v.start + v.duration ==> n == v.amount)
              && (v.start + v.cliff <= now < v.start + v.duration ==>
                    var x, d := now - (v.start + v.cliff), v.duration - v.cliff;
                    d > 0 && n * d <= v.amount * x < n * d + d)
  {
    if v.start + v.cliff <= now < v.start + v.duration {
      QuotientBounds(v.amount, now - (v.start + v.cliff), v.duration - v.cliff);
    }
  }

  /** The same at every time, for every schedule that fits; the branch of an empty vesting period is never reached. */
  lemma VestedExactly(v: Schedule, now: u64)
    requires Granted(v) && Representable(v)
    ensures VestedAmount(v, now).Some? && 0 <= VestedAmount(v, now).value <= v.amount
    ensures now < v.start + v.cliff && now < v.start + v.duration ==> VestedAmount(v, now).value == 0
    ensures now >= v.start + v.duration ==> VestedAmount(v, now).value == v.amount
    ensures v.start + v.cliff <= now < v.start + v.duration ==>
              var x, d, n := now - (v.start + v.cliff), v.duration - v.cliff, VestedAmount(v, now).value;
              d > 0 && n * d <= v.amount * x < n * d + d
  {
    DefinedAt(v, now);
    VestedAt(v, now);
  }

  /** The vested amount never falls as time passes. */
  lemma Monotone(v: Schedule, now: u64, later: u64)
    requires Granted(v) && Representable(v) && now <= later
    ensures VestedAmount(v, now).Some? && VestedAmount(v, later).Some?
    ensures VestedAmount(v, now).value <= VestedAmount(v, later).value
  {
    VestedExactly(v, now);
    VestedExactly(v, later);
    if v.start + v.cliff <= now && later < v.start + v.duration {
      var x, y, d := now - (v.start + v.cliff), later - (v.start + v.cliff), v.duration - v.cliff;
      ProductMonotone(v.amount, x, y);
      QuotientMonotone(v.amount * x, v.amount * y, d);
    }
  }

  // ---------------------------------------------------------------- runs

  ghost function PaidFor(id: int): Payment -> int {
    (p: Payment) => if p.id == id then p.amount else 0
  }

  ghost function Claims(id: int): Payment -> int {
    (p: Payment) => if p.id == id then 1 else 0
  }

  /** One grant: never both claimed and revoked, paid at most once, and at most its amount. */
  ghost predicate GrantOk(s: State, id: int) {
    var paid, claims := Sum(PaidFor(id), s.log), Sum(Claims(id), s.log);
    if id in s.schedules then
      var v := s.schedules[id];
      && 1 <= id <= s.count && Granted(v)
      && !(v.claimed && v.revoked)
      && (if v.claimed then claims == 1 && 0 < paid <= v.amount else claims == 0 && paid == 0)
    else claims == 0 && paid == 0
  }

  ghost predicate Inv(s: State) {
    && (s.admin.Some? <==> s.token.Some?)
    && (s.admin.None? ==> s.count == 0)
    && forall id :: GrantOk(s, id)
  }

  /** A grant's terms are fixed, and a claim or a revocation is final. */
  ghost predicate Later(v: Schedule, v': Schedule) {
    && v' == v.(claimed := v'.claimed, revoked := v'.revoked, revokeTime := v'.revokeTime)
    && (v.claimed || v.revoked ==> v' == v)
  }

  lemma VestedWithin(v: Schedule, now: u64)
    requires Granted(v) && VestedAmount(v, now).Some?
    ensures 0 <= VestedAmount(v, now).value <= v.amount
  {
    if v.start + v.cliff <= now < v.start + v.duration {
      QuotientBounds(v.amount, now - (v.start + v.cliff), v.duration - v.cliff);
    }
  }

  /** Paying n for an open grant marks it claimed and leaves the others alone. */
  lemma PaymentKeeps(s: State, s': State, id: int, beneficiary: Address, n: int, i: int)
    requires GrantOk(s, id) && GrantOk(s, i) && id in s.schedules && !s.schedules[id].claimed && !s.schedules[id].revoked
    requires 0 < n <= s.schedules[id].amount && s'.count == s.count
    requires s'.schedules == s.schedules[id := s.schedules[id].(claimed := true)]
    requires s'.log == s.log + [Payment(id, beneficiary, n)]
    ensures GrantOk(s', i)
  {
    SumPush(s.log, Payment(id, beneficiary, n));
  }

  lemma ClaimKeeps(s: State, env: Env, id: int, beneficiary: Address)
    requires Inv(s) && Claim(s, env, id, beneficiary).result.Ok?
    ensures Inv(Claim(s, env, id, beneficiary).state)
  {
    var s' := Claim(s, env, id, beneficiary).state;
    var n := VestedAmount(s.schedules[id], env.now).value;
    assert GrantOk(s, id);
    VestedWithin(s.schedules[id], env.now);
    forall i ensures GrantOk(s', i) {
      assert GrantOk(s, i);
      PaymentKeeps(s, s', id, beneficiary, n, i);
    }
  }

  lemma StepKeeps(s: State, env: Env, c: Call)
    requires Inv(s)
    ensures Inv(Step(s, env, c))
  {
    var s' := Step(s, env, c);
    match c
    case CallClaim(i, b) =>
      if Claim(s, env, i, b).result.Ok? { ClaimKeeps(s, env, i, b); }
    case _ =>
      forall i ensures GrantOk(s', i) { assert GrantOk(s, i); }
  }

  lemma StepLater(s: State, env: Env, c: Call, id: int)
    requires GrantOk(s, id) && id in s.schedules
    ensures id in Step(s, env, c).schedules && Later(s.schedules[id], Step(s, env, c).schedules[id])
  {
  }

  lemma {:induction false} RunKeeps(s: State, steps: seq<(Env, Call)>, id: int)
    requires Inv(s)
    ensures Inv(Run(s, steps))
    ensures id in s.schedules ==> id in Run(s, steps).schedules && Later(s.schedules[id], Run(s, steps).schedules[id])
  {
    var n := |steps| - 1;
    if n >= 0 {
      RunKeeps(s, steps[..n], id);
      var s1 := Run(s, steps[..n]);
      StepKeeps(s1, steps[n].0, steps[n].1);
      assert GrantOk(s1, id);
      if id in s.schedules { StepLater(s1, steps[n].0, steps[n].1, id); }
    }
  }

  lemma InitiallyHolds(ledger: Ledger)
    ensures Inv(Initial(ledger))
  {
    assert forall i :: GrantOk(Initial(ledger), i);
  }

  /** Over every run each grant is paid at most once and at most its amount, and not at all when revoked first. */
  lemma PaidAtMostOnce(ledger: Ledger, steps: seq<(Env, Call)>, id: int)
    ensures var s := Run(Initial(ledger), steps);
            && Sum(Claims(id), s.log) <= 1
            && (id !in s.schedules || s.schedules[id].revoked ==> Sum(PaidFor(id), s.log) == 0)
            && (id in s.schedules ==> Sum(PaidFor(id), s.log) <= s.schedules[id].amount)
  {
    InitiallyHolds(ledger);
    RunKeeps(Initial(ledger), steps, id);
    assert GrantOk(Run(Initial(ledger), steps), id);
  }

  /** A claim is final: whatever was not yet vested when it was made is never paid. */
  lemma ClaimForfeitsTheRest(s: State, env: Env, id: int, beneficiary: Address, steps: seq<(Env, Call)>)
    requires Inv(s) && Claim(s, env, id, beneficiary).result.Ok?
    ensures var s' := Run(Claim(s, env, id, beneficiary).state, steps);
            Sum(PaidFor(id), s'.log) == VestedAmount(s.schedules[id], env.now).value
  {
    var s1 := Claim(s, env, id, beneficiary).state;
    ClaimKeeps(s, env, id, beneficiary);
    SumPush(s.log, Payment(id, beneficiary, VestedAmount(s.schedules[id], env.now).value));
    assert GrantOk(s, id);
    SettledLogFixed(s1, steps, id);
  }

  lemma {:induction false} SettledLogFixed(s: State, steps: seq<(Env, Call)>, id: int)
    requires Inv(s) && id in s.schedules && s.schedules[id].claimed
    ensures Sum(PaidFor(id), Run(s, steps).log) == Sum(PaidFor(id), s.log)
    ensures id in Run(s, steps).schedules && Run(s, steps).schedules[id].claimed
  {
    var n := |steps| - 1;
    if n >= 0 {
      var s1 := Run(s, steps[..n]);
      SettledLogFixed(s, steps[..n], id);
      RunKeeps(s, steps[..n], id);
      assert GrantOk(s1, id);
      StepLater(s1, steps[n].0, steps[n].1, id);
      if steps[n].1.CallClaim? && Run(s, steps) != s1 {
        var i, b := steps[n].1.id, steps[n].1.beneficiary;
        SumPush(s1.log, Payment(i, b, VestedAmount(s1.schedules[i], steps[n].0.now).value));
      }
    }
  }

  // ---------------------------------------------------------------- what each call does

  /** The contract is initialized once, by anybody. */
  lemma InitExactly(s: State, admin: Address, token: Address)
    ensures var o := Init(s, admin, token);
            && (o.result.Ok? <==> s.admin.None?)
            && (o.result.Ok? ==> o.state == s.(admin := Some(admin), token := Some(token), count := 0))
            && (o.result.Err? ==> o.state == s && o.result.error == Unauthorized)
  {
  }

  /** The admin, having signed, grants any positive amount with a cliff within its duration; the schedule is stored under
      the next number as it was asked for, open, and no token moves. */
  lemma GrantExactly(s: State, env: Env, admin: Address, beneficiary: Address, amount: i128, start: u64, cliff: u64, duration: u64)
    ensures GrantVesting(s, env, admin, beneficiary, amount, start, cliff, duration).result.Ok?
       <==> s.admin == Some(admin) && admin in env.signers && amount > 0 && cliff <= duration && s.count < MAX_U64
    ensures var o, id := GrantVesting(s, env, admin, beneficiary, amount, start, cliff, duration), s.count + 1;
            && (o.result.Ok? ==>
                  && o.result.value == id
                  && o.state == s.(count := id,
                                   schedules := s.schedules[id := Schedule(beneficiary, amount, start, cliff, duration,
                                                                           false, false, 0)]))
            && (o.result.Err? ==>
                  && o.state == s
                  && (match o.result.error
                      case Aborted => admin !in env.signers || s.count == MAX_U64
                      case Unauthorized => s.admin != Some(admin)
                      case InvalidSchedule => amount <= 0 || cliff > duration
                      case _ => false))
  {
  }

  /** A claim succeeds exactly when its beneficiary asks for an open grant of which something has vested and can be paid;
      the vested amount then moves to the beneficiary, and the grant is marked as claimed. */
  lemma ClaimExactly(s: State, env: Env, id: int, beneficiary: Address)
    requires Inv(s)
    ensures id in s.schedules ==> s.token.Some?
    ensures Claim(s, env, id, beneficiary).result.Ok?
       <==> beneficiary in env.signers && id in s.schedules && s.schedules[id].beneficiary == beneficiary
            && !s.schedules[id].claimed && !s.schedules[id].revoked
            && var n := VestedAmount(s.schedules[id], env.now);
            n.Some? && 0 < n.value <= Balance(s.ledger, s.token.value, CONTRACT)
    ensures Claim(s, env, id, beneficiary).result.Ok? ==>
              var s', n := Claim(s, env, id, beneficiary).state, VestedAmount(s.schedules[id], env.now).value;
              && Claim(s, env, id, beneficiary).result.value == n
              && s' == s.(schedules := s.schedules[id := s.schedules[id].(claimed := true)], ledger := s'.ledger,
                          log := s.log + [Payment(id, beneficiary, n)])
              && Pays(s.ledger, s'.ledger, s.token.value, CONTRACT, beneficiary, n)
    ensures var o := Claim(s, env, id, beneficiary);
            o.result.Err? ==> o.state == s && ClaimRefused(s, env, id, beneficiary, o.result.error)
  {
    assert GrantOk(s, id);
    if id in s.schedules && VestedAmount(s.schedules[id], env.now).Some? {
      var n := VestedAmount(s.schedules[id], env.now).value;
      VestedWithin(s.schedules[id], env.now);
      if Transfer(s.ledger, s.token.value, CONTRACT, beneficiary, n).Some? {
        TransferMoves(s.ledger, s.token.value, CONTRACT, beneficiary, n);
      }
    }
  }

  /** Why a claim is refused. */
  ghost predicate ClaimRefused(s: State, env: Env, id: int, beneficiary: Address, error: Error) {
    match error
    case GrantNotFound => id !in s.schedules
    case Unauthorized => id in s.schedules && s.schedules[id].beneficiary != beneficiary
    case AlreadyClaimed => id in s.schedules && s.schedules[id].claimed
    case Revoked => id in s.schedules && s.schedules[id].revoked
    case NotVested => id in s.schedules && VestedAmount(s.schedules[id], env.now) == Some(0)
    case InsufficientBalance => id in s.schedules && s.token.Some? && VestedAmount(s.schedules[id], env.now).Some?
                                && Balance(s.ledger, s.token.value, CONTRACT) < VestedAmount(s.schedules[id], env.now).value
    case Aborted => beneficiary !in env.signers || (id in s.schedules && VestedAmount(s.schedules[id], env.now).None?)
    case _ => false
  }

  /** The admin can revoke an open grant exactly from the chosen delay, of at least an hour, after its start on; whatever
      it had vested by then is not paid. */
  lemma RevokeExactly(s: State, env: Env, id: int, admin: Address, delay: u64)
    requires Inv(s)
    ensures Revoke(s, env, id, admin, delay).result.Ok?
       <==> s.admin == Some(admin) && admin in env.signers && id in s.schedules
            && !s.schedules[id].claimed && !s.schedules[id].revoked
            && delay >= 3600 && env.now >= s.schedules[id].start + delay
    ensures Revoke(s, env, id, admin, delay).result.Ok? ==>
              var s' := Revoke(s, env, id, admin, delay).state;
              && s' == s.(schedules := s.schedules[id := s.schedules[id].(revoked := true, revokeTime := env.now)])
              && forall later: Env, b: Address :: Claim(s', later, id, b).result.Err?
    ensures var o := Revoke(s, env, id, admin, delay);
            o.result.Err? ==>
              && o.state == s
              && (match o.result.error
                  case Unauthorized => s.admin != Some(admin)
                  case GrantNotFound => id !in s.schedules
                  case AlreadyClaimed => id in s.schedules && s.schedules[id].claimed
                  case Revoked => id in s.schedules && s.schedules[id].revoked
                  case InvalidTimelock => delay < 3600
                  case NotEnoughTimeForRevoke => id in s.schedules && env.now < s.schedules[id].start + delay
                  case Aborted => admin !in env.signers || (id in s.schedules && s.schedules[id].start + delay > MAX_U64)
                  case _ => false)
  {
  }
}
