/** Reward vesting: a linear schedule after a cliff, claimed once or revoked. */
module Vesting {
  import opened Wrappers
  import opened Soroban

  datatype Schedule = Schedule(beneficiary: Address, amount: i128, start: u64, cliff: u64, duration: u64,
                               claimed: bool, revoked: bool, revokeTime: u64)

  /** Aborted is a panic: a missing authorization, a failed transfer or an overflow. */
  datatype Error = Unauthorized | NotVested | AlreadyClaimed | InvalidSchedule | InsufficientBalance | GrantNotFound
                 | Revoked | InvalidTimelock | NotEnoughTimeForRevoke | Aborted

  /** The claims paid, as an observer records them. */
  datatype Payment = Payment(id: int, beneficiary: Address, amount: int)

  datatype State = State(
    admin: Option<Address>,
    token: Option<Address>,
    count: u64,
    schedules: map<int, Schedule>,
    ledger: Ledger,
    log: seq<Payment>)

  datatype Outcome<+T> = Outcome(state: State, result: Result<T, Error>)

  const MIN_REVOKE_DELAY: u64 := 3_600

  function Initial(ledger: Ledger): State {
    State(None, None, 0, map[], ledger, [])
  }

  function Fail<T>(s: State, e: Error): Outcome<T> {
    Outcome(s, Err(e))
  }

  /** The vested amount at a time; None is an overflow. */
  function VestedAmount(v: Schedule, now: u64): Option<int> {
    if now < v.start then Some(0)
    else if v.start + v.cliff > MAX_U64 then None
    else if now < v.start + v.cliff then Some(0)
    else if v.start + v.duration > MAX_U64 then None
    else if now >= v.start + v.duration then Some(v.amount)
    else if v.duration < v.cliff then None
    else
      var vested, remaining := now - (v.start + v.cliff), v.duration - v.cliff;
      if remaining == 0 then Some(v.amount)
      else if v.amount < 0 || v.amount * vested > MAX_U128 then None
      else Some(v.amount * vested / remaining)
  }

  function Init(s: State, admin: Address, token: Address): Outcome<()> {
    if s.admin.Some? then Fail(s, Unauthorized)
    else Outcome(s.(admin := Some(admin), token := Some(token), count := 0), Ok(()))
  }

  function GrantVesting(s: State, env: Env, admin: Address, beneficiary: Address, amount: i128,
                        start: u64, cliff: u64, duration: u64): Outcome<int>
  {
    if admin !in env.signers then Fail(s, Aborted)
    else if s.admin != Some(admin) then Fail(s, Unauthorized)
    else if amount <= 0 then Fail(s, InvalidSchedule)
    else if cliff > duration then Fail(s, InvalidSchedule)
    else if s.count == MAX_U64 then Fail(s, Aborted)
    else
      var id: int := s.count + 1;
      Outcome(s.(count := id,
                 schedules := s.schedules[id := Schedule(beneficiary, amount, start, cliff, duration, false, false, 0)]),
              Ok(id))
  }

  function Claim(s: State, env: Env, id: int, beneficiary: Address): Outcome<int> {
    if beneficiary !in env.signers then Fail(s, Aborted)
    else if id !in s.schedules then Fail(s, GrantNotFound)
    else
      var v := s.schedules[id];
      if v.beneficiary != beneficiary then Fail(s, Unauthorized)
      else if v.claimed then Fail(s, AlreadyClaimed)
      else if v.revoked then Fail(s, Revoked)
      else match VestedAmount(v, env.now)
        case None => Fail(s, Aborted)
        case Some(vested) =>
          if vested == 0 then Fail(s, NotVested)
          else if s.token.None? then Fail(s, Unauthorized)
          else if Balance(s.ledger, s.token.value, CONTRACT) < vested then Fail(s, InsufficientBalance)
          else match Transfer(s.ledger, s.token.value, CONTRACT, beneficiary, vested)
            case None => Fail(s, Aborted)
            case Some(ledger) =>
              Outcome(s.(schedules := s.schedules[id := v.(claimed := true)], ledger := ledger,
                         log := s.log + [Payment(id, beneficiary, vested)]),
                      Ok(vested))
  }

  function Revoke(s: State, env: Env, id: int, admin: Address, delay: u64): Outcome<()> {
    if admin !in env.signers then Fail(s, Aborted)
    else if s.admin != Some(admin) then Fail(s, Unauthorized)
    else if id !in s.schedules then Fail(s, GrantNotFound)
    else
      var v := s.schedules[id];
      if v.claimed then Fail(s, AlreadyClaimed)
      else if v.revoked then Fail(s, Revoked)
      else if delay < MIN_REVOKE_DELAY then Fail(s, InvalidTimelock)
      else if v.start + delay > MAX_U64 then Fail(s, Aborted)
      else if env.now < v.start + delay then Fail(s, NotEnoughTimeForRevoke)
      else Outcome(s.(schedules := s.schedules[id := v.(revoked := true, revokeTime := env.now)]), Ok(()))
  }

  /** Tokens that move outside the contract; nobody but the contract spends from its account. */
  function MoveTokens(s: State, env: Env, token: Address, from: Address, to: Address, amount: int): Outcome<()> {
    if from !in env.signers then Fail(s, Aborted)
    else match Transfer(s.ledger, token, from, to, amount)
      case None => Fail(s, Aborted)
      case Some(ledger) => Outcome(s.(ledger := ledger), Ok(()))
  }

  datatype Call = CallInit(admin: Address, token: Address)
                | CallGrant(admin: Address, beneficiary: Address, amount: i128, start: u64, cliff: u64, duration: u64)
                | CallClaim(id: int, beneficiary: Address)
                | CallRevoke(id: int, admin: Address, delay: u64)
                | CallMoveTokens(token: Address, from: Address, to: Address, moved: int)

  function Step(s: State, env: Env, c: Call): State {
    match c
    case CallInit(a, t) => Init(s, a, t).state
    case CallGrant(a, b, n, t, k, d) => GrantVesting(s, env, a, b, n, t, k, d).state
    case CallClaim(id, b) => Claim(s, env, id, b).state
    case CallRevoke(id, a, d) => Revoke(s, env, id, a, d).state
    case CallMoveTokens(t, from, to, n) => MoveTokens(s, env, t, from, to, n).state
  }

  function Run(s: State, steps: seq<(Env, Call)>): State {
    if steps == [] then s else Step(Run(s, steps[..|steps| - 1]), steps[|steps| - 1].0, steps[|steps| - 1].1)
  }
}
