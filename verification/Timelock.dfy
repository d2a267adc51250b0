/** The governance timelock: a bounded queue of typed changes that take effect only after their delay. */
module Timelock {
  import opened Wrappers
  import opened Soroban
  import opened Bytes
  import opened Hashing

  /** What the host computes: SHA-256 and the serialization of an address. */
  datatype Host = Host(sha: Sha, xdr: Address -> seq<Byte>)

  datatype Role = Admin | Treasury | PolicyManager | Emergency | Librarian

  datatype Action = TransferRole(role: Role, to: Address)
                  | UpdateCourseRegistry(registry: Address)
                  | UpdateTimelockConfig(minDelay: u64, maxDelay: u64)

  datatype Window = Window(minDelay: u64, maxDelay: u64)

  datatype Change = Change(action: Action, proposer: Address, queuedAt: u64, eta: u64, executed: bool, cancelled: bool)

  /** Aborted is a missing authorization. */
  datatype Error = AlreadyInitialized | DuplicateRole | NotInitialized | NotAdmin | InvalidTimestamp | Overflow
                 | TimelockEtaInvalid | TimelockQueueFull | TimelockAlreadyQueued | TimelockNotFound
                 | TimelockAlreadyExecuted | TimelockCancelled | TimelockNotReady | TimelockConfigInvalid | Aborted

  /** What an observer records: the bootstrap, each queued change with the minimum delay in force, each dispatch. */
  datatype Event = Bootstrapped(roles: map<Role, Address>)
                 | Queued(id: Id, action: Action, at: u64, minDelay: u64)
                 | Dispatched(id: Id, action: Action, at: u64)

  datatype State = State(
    roles: map<Role, Address>,
    courseRegistry: Option<Address>,
    window: Window,
    counter: u64,
    pending: seq<Id>,
    changes: map<Id, Change>,
    executed: set<Id>,
    log: seq<Event>)

  const MIN_BOUND: u64 := 3_600
  const MAX_BOUND: u64 := 15_552_000
  const DEFAULT_WINDOW: Window := Window(604_800, 2_592_000)
  const MAX_QUEUED_CHANGES: int := 64

  datatype Outcome<+T> = Outcome(state: State, result: Result<T, Error>)

  function Initial(): State {
    State(map[], None, DEFAULT_WINDOW, 0, [], map[], {}, [])
  }

  function Fail<T>(s: State, e: Error): Outcome<T> {
    Outcome(s, Err(e))
  }

  // ---------------------------------------------------------------- governance

  /** The five roles in the order of their assignment. */
  const ROLES: seq<Role> := [Admin, Treasury, PolicyManager, Emergency, Librarian]

  predicate Distinct<T(==)>(s: seq<T>) {
    forall i, j :: 0 <= i < j < |s| ==> s[i] != s[j]
  }

  function Assignment(a: seq<Address>): map<Role, Address>
    requires |a| == 5
  {
    map[Admin := a[0], Treasury := a[1], PolicyManager := a[2], Emergency := a[3], Librarian := a[4]]
  }

  function Bootstrap(s: State, env: Env, addresses: seq<Address>): Outcome<()>
    requires |addresses| == 5
  {
    if Admin in s.roles then Fail(s, AlreadyInitialized)
    else if !Distinct(addresses) then Fail(s, DuplicateRole)
    else if exists a :: a in addresses && a !in env.signers then Fail(s, Aborted)
    else Outcome(s.(roles := Assignment(addresses), log := s.log + [Bootstrapped(Assignment(addresses))]), Ok(()))
  }

  function RoleError(s: State, env: Env, role: Role, caller: Address): Option<Error> {
    if role !in s.roles then Some(NotInitialized)
    else if s.roles[role] != caller then Some(NotAdmin)
    else if caller !in env.signers then Some(Aborted)
    else None
  }

  /** The admin's direct repointing of the course registry, outside the queue. */
  function SetCourseRegistry(s: State, env: Env, caller: Address, registry: Address): Outcome<()> {
    match RoleError(s, env, Admin, caller)
    case Some(e) => Fail(s, e)
    case None => Outcome(s.(courseRegistry := Some(registry)), Ok(()))
  }

  // ---------------------------------------------------------------- identifiers

  function RoleTag(r: Role): seq<Byte> {
    match r
    case Admin => ToBE(1, 4)
    case Treasury => ToBE(2, 4)
    case PolicyManager => ToBE(3, 4)
    case Emergency => ToBE(4, 4)
    case Librarian => ToBE(5, 4)
  }

  function ActionSalt(h: Host, a: Action): seq<Byte> {
    match a
    case TransferRole(role, to) => [1] + RoleTag(role) + h.xdr(to)
    case UpdateCourseRegistry(registry) => [2] + h.xdr(registry)
    case UpdateTimelockConfig(lo, hi) => [3] + ToBE(lo, 8) + ToBE(hi, 8)
  }

  function Salt(h: Host, caller: Address, a: Action, eta: u64, now: u64, counter: u64): seq<Byte> {
    h.xdr(caller) + ActionSalt(h, a) + ToBE(eta, 8) + ToBE(now, 8) + ToBE(counter, 8)
  }

  // ---------------------------------------------------------------- queue, cancel, execute

  /** The same proposer already has the same action pending. */
  predicate AlreadyQueued(s: State, caller: Address, a: Action) {
    exists i :: 0 <= i < |s.pending| && SameProposal(s.changes, s.pending[i], caller, a)
  }

  predicate SameProposal(changes: map<Id, Change>, id: Id, caller: Address, a: Action) {
    id in changes && changes[id].proposer == caller && changes[id].action == a && !changes[id].cancelled
  }

  /** Files a new change as pending. */
  function Enqueue(s: State, id: Id, c: Change): State
    requires s.counter < MAX_U64
  {
    s.(counter := s.counter + 1, changes := s.changes[id := c], pending := s.pending + [id],
       log := s.log + [Queued(id, c.action, c.queuedAt, s.window.minDelay)])
  }

  /** The identifier the host derives for the next change. */
  function NextId(s: State, h: Host, env: Env, caller: Address, a: Action, eta: u64): Id
    requires s.counter < MAX_U64
  {
    h.sha(Salt(h, caller, a, eta, env.now, s.counter + 1))
  }

  function Queue(s: State, h: Host, env: Env, caller: Address, a: Action, eta: u64): Outcome<Id> {
    match RoleError(s, env, Admin, caller)
    case Some(e) => Fail(s, e)
    case None =>
      if env.now + s.window.minDelay > MAX_U64 || env.now + s.window.maxDelay > MAX_U64 then Fail(s, InvalidTimestamp)
      else if eta < env.now + s.window.minDelay || eta > env.now + s.window.maxDelay then Fail(s, TimelockEtaInvalid)
      else if |s.pending| >= MAX_QUEUED_CHANGES then Fail(s, TimelockQueueFull)
      else if AlreadyQueued(s, caller, a) then Fail(s, TimelockAlreadyQueued)
      else if s.counter == MAX_U64 then Fail(s, Overflow)
      else
        var id := NextId(s, h, env, caller, a, eta);
        Outcome(Enqueue(s, id, Change(a, caller, env.now, eta, false, false)), Ok(id))
  }

  function Remove(ids: seq<Id>, id: Id): seq<Id> {
    if ids == [] then []
    else Remove(ids[..|ids| - 1], id) + (if ids[|ids| - 1] != id then [ids[|ids| - 1]] else [])
  }

  function Cancel(s: State, env: Env, caller: Address, id: Id): Outcome<()> {
    if id !in s.changes then Fail(s, TimelockNotFound)
    else
      var c := s.changes[id];
      if caller != c.proposer && !(Admin in s.roles && s.roles[Admin] == caller) then Fail(s, NotAdmin)
      else if caller !in env.signers then Fail(s, Aborted)
      else if c.executed then Fail(s, TimelockAlreadyExecuted)
      else if c.cancelled then Fail(s, TimelockCancelled)
      else Outcome(s.(changes := s.changes[id := c.(cancelled := true)], pending := Remove(s.pending, id)), Ok(()))
  }

  predicate WindowAllowed(lo: u64, hi: u64) {
    MIN_BOUND <= lo <= hi <= MAX_BOUND
  }

  /** Performs a due action. */
  function Dispatch(s: State, env: Env, a: Action): Outcome<()> {
    match a
    case TransferRole(role, to) =>
      if role in s.roles && s.roles[role] == to then Outcome(s, Ok(()))
      else if to !in env.signers then Fail(s, Aborted)
      else Outcome(s.(roles := s.roles[role := to]), Ok(()))
    case UpdateCourseRegistry(registry) => Outcome(s.(courseRegistry := Some(registry)), Ok(()))
    case UpdateTimelockConfig(lo, hi) =>
      if !WindowAllowed(lo, hi) then Fail(s, TimelockConfigInvalid)
      else Outcome(s.(window := Window(lo, hi)), Ok(()))
  }

  function Execute(s: State, env: Env, caller: Address, id: Id): Outcome<()> {
    if caller !in env.signers then Fail(s, Aborted)
    else if id !in s.changes then Fail(s, TimelockNotFound)
    else
      var c := s.changes[id];
      if c.executed || id in s.executed then Fail(s, TimelockAlreadyExecuted)
      else if c.cancelled then Fail(s, TimelockCancelled)
      else if env.now < c.eta then Fail(s, TimelockNotReady)
      else
        var o := Dispatch(s, env, c.action);
        if o.result.Err? then o
        else Outcome(o.state.(changes := s.changes[id := c.(executed := true)],
                              executed := s.executed + {id},
                              pending := Remove(s.pending, id),
                              log := s.log + [Dispatched(id, c.action, env.now)]),
                     Ok(()))
  }

  // ---------------------------------------------------------------- runs

  datatype Call = CallBootstrap(admin: Address, treasury: Address, policyManager: Address, emergency: Address, librarian: Address)
                | CallQueue(caller: Address, action: Action, eta: u64)
                | CallCancel(caller: Address, id: Id)
                | CallExecute(caller: Address, id: Id)
                | CallSetCourseRegistry(caller: Address, registry: Address)

  function Step(s: State, h: Host, env: Env, c: Call): State {
    match c
    case CallBootstrap(a, t, p, e, l) => Bootstrap(s, env, [a, t, p, e, l]).state
    case CallQueue(a, action, eta) => Queue(s, h, env, a, action, eta).state
    case CallCancel(a, id) => Cancel(s, env, a, id).state
    case CallExecute(a, id) => Execute(s, env, a, id).state
    case CallSetCourseRegistry(a, r) => SetCourseRegistry(s, env, a, r).state
  }

  function Run(s: State, h: Host, steps: seq<(Env, Call)>): State {
    if steps == [] then s else Step(Run(s, h, steps[..|steps| - 1]), h, steps[|steps| - 1].0, steps[|steps| - 1].1)
  }
}
