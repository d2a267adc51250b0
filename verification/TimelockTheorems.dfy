/** Safety of the timelock over every run: an exact pending list, bounded delays, at most one dispatch per change and
    none before its time. */
module TimelockTheorems {
  import opened Wrappers
  import opened Soroban
  import opened Bytes
  import opened Hashing
  import opened Timelock

  // ---------------------------------------------------------------- the invariant

  ghost predicate IsPending(s: State, id: Id) {
    id in s.changes && !s.changes[id].executed && !s.changes[id].cancelled
  }

  ghost predicate SameKey(c: Change, d: Change) {
    c.proposer == d.proposer && c.action == d.action
  }

  /** The pending list: bounded, without duplicates, exactly the changes neither executed nor cancelled, and never two of
      the same proposer and action. */
  ghost predicate PendingOk(s: State) {
    && |s.pending| <= MAX_QUEUED_CHANGES
    && Distinct(s.pending)
    && (forall id :: id in s.pending <==> IsPending(s, id))
    && (forall id, id' :: IsPending(s, id) && IsPending(s, id') && SameKey(s.changes[id], s.changes[id']) ==> id == id')
  }

  /** Event i queued the change, for no earlier than its minimum delay after. */
  ghost predicate QueuedBy(log: seq<Event>, i: int, id: Id, c: Change) {
    && 0 <= i < |log| && log[i].Queued?
    && log[i].id == id && log[i].action == c.action && log[i].at == c.queuedAt
    && MIN_BOUND <= log[i].minDelay && c.eta >= log[i].at + log[i].minDelay
  }

  ghost predicate ChangeOk(h: Host, s: State, id: Id) {
    && (id in s.changes ==>
          && 1 <= LastWord(InputOf(h.sha, id)) <= s.counter
          && !(s.changes[id].executed && s.changes[id].cancelled)
          && exists i :: QueuedBy(s.log, i, id, s.changes[id]))
    && (id in s.executed <==> id in s.changes && s.changes[id].executed)
  }

  /** A dispatch at position i is of an executed change, at or after its time, and the only one of that change. */
  ghost predicate DispatchOk(s: State, i: int)
    requires 0 <= i < |s.log|
  {
    s.log[i].Dispatched? ==>
      && s.log[i].id in s.changes
      && var c := s.changes[s.log[i].id];
      && c.executed && s.log[i].action == c.action && s.log[i].at >= c.eta
      && (exists j :: j < i && QueuedBy(s.log, j, s.log[i].id, c))
      && (forall k :: i < k < |s.log| && s.log[k].Dispatched? ==> s.log[k].id != s.log[i].id)
  }

  /** The minimum delay recorded with a queued change is the one the earlier events had put in force. */
  ghost predicate DelayInForce(log: seq<Event>, j: int)
    requires 0 <= j < |log|
  {
    log[j].Queued? ==> log[j].minDelay == Replay(log[..j]).window.minDelay
  }

  ghost predicate Inv(h: Host, s: State) {
    && PendingOk(s)
    && (forall id :: ChangeOk(h, s, id))
    && (forall i :: 0 <= i < |s.log| ==> DispatchOk(s, i))
    && WindowAllowed(s.window.minDelay, s.window.maxDelay)
    && Replays(s)
    && (forall j :: 0 <= j < |s.log| ==> DelayInForce(s.log, j))
  }

  /** Roles and window are exactly what the bootstrap and the dispatches made of them. */
  datatype Governed = Governed(roles: map<Role, Address>, window: Window)

  function Apply(g: Governed, e: Event): Governed {
    match e
    case Bootstrapped(roles) => g.(roles := roles)
    case Queued(_, _, _, _) => g
    case Dispatched(_, TransferRole(role, to), _) => g.(roles := g.roles[role := to])
    case Dispatched(_, UpdateCourseRegistry(_), _) => g
    case Dispatched(_, UpdateTimelockConfig(lo, hi), _) => g.(window := Window(lo, hi))
  }

  function Replay(log: seq<Event>): Governed {
    if log == [] then Governed(map[], Window(604_800, 2_592_000)) else Apply(Replay(log[..|log| - 1]), log[|log| - 1])
  }

  ghost predicate Replays(s: State) {
    Replay(s.log) == Governed(s.roles, s.window)
  }

  lemma ReplayPush(log: seq<Event>, e: Event)
    ensures Replay(log + [e]) == Apply(Replay(log), e)
  {
    assert (log + [e])[..|log|] == log;
  }

  lemma DelaysPush(log: seq<Event>, e: Event)
    requires forall j :: 0 <= j < |log| ==> DelayInForce(log, j)
    requires e.Queued? ==> e.minDelay == Replay(log).window.minDelay
    ensures forall j :: 0 <= j < |log + [e]| ==> DelayInForce(log + [e], j)
  {
    forall j | 0 <= j < |log + [e]| ensures DelayInForce(log + [e], j) {
      assert (log + [e])[..j] == log[..j];
      if j < |log| { assert DelayInForce(log, j); } else { assert log[..j] == log; }
    }
  }

  // ---------------------------------------------------------------- what is hashed

  function RoleNumber(r: Role): Byte {
    match r
    case Admin => 1
    case Treasury => 2
    case PolicyManager => 3
    case Emergency => 4
    case Librarian => 5
  }

  lemma SmallNumber(b: Byte)
    ensures ToBE(b, 4) == [0, 0, 0, b]
  {
    assert ToBE(b, 4) == ToBE(0, 3) + [b];
    assert ToBE(0, 3) == ToBE(0, 2) + [0] && ToBE(0, 2) == ToBE(0, 1) + [0] && ToBE(0, 1) == ToBE(0, 0) + [0];
  }

  /** A change is identified by its proposer, the number of its action, the parts of the action with a role as four bytes,
      then its time, the time it was queued and its own number, each as eight bytes. */
  lemma SaltFields(h: Host, caller: Address, a: Action, eta: u64, now: u64, counter: u64)
    ensures Salt(h, caller, a, eta, now, counter)
         == h.xdr(caller)
          + (match a
             case TransferRole(role, to) => [1, 0, 0, 0, RoleNumber(role)] + h.xdr(to)
             case UpdateCourseRegistry(registry) => [2] + h.xdr(registry)
             case UpdateTimelockConfig(lo, hi) => [3] + ToBE(lo, 8) + ToBE(hi, 8))
          + ToBE(eta, 8) + ToBE(now, 8) + ToBE(counter, 8)
  {
    if a.TransferRole? {
      SmallNumber(RoleNumber(a.role));
      assert RoleTag(a.role) == ToBE(RoleNumber(a.role), 4);
      assert [1] + [0, 0, 0, RoleNumber(a.role)] == [1, 0, 0, 0, RoleNumber(a.role)];
    }
  }

  // ---------------------------------------------------------------- lists

  lemma {:induction false} RemoveKeeps(ids: seq<Id>, id: Id)
    requires Distinct(ids)
    ensures Distinct(Remove(ids, id)) && |Remove(ids, id)| <= |ids|
    ensures forall x :: x in Remove(ids, id) <==> x in ids && x != id
  {
    if ids != [] {
      var rest, last := ids[..|ids| - 1], ids[|ids| - 1];
      RemoveKeeps(rest, id);
      assert ids == rest + [last];
      assert last !in rest;
    }
  }

  /** The others keep their order. */
  lemma {:induction false} RemoveAt(ids: seq<Id>, i: nat)
    requires Distinct(ids) && i < |ids|
    ensures Remove(ids, ids[i]) == ids[..i] + ids[i + 1..]
  {
    var rest, last := ids[..|ids| - 1], ids[|ids| - 1];
    assert ids == rest + [last];
    if i < |rest| {
      RemoveAt(rest, i);
      assert rest[i + 1..] + [last] == ids[i + 1..];
    } else {
      RemoveAbsent(rest, last);
    }
  }

  lemma {:induction false} RemoveAbsent(ids: seq<Id>, id: Id)
    requires id !in ids
    ensures Remove(ids, id) == ids
  {
    if ids != [] { RemoveAbsent(ids[..|ids| - 1], id); }
  }

  // ---------------------------------------------------------------- steps

  /** The counter is the end of the salt, so no two changes share it. */
  lemma NextIdCounter(h: Host, s: State, env: Env, caller: Address, a: Action, eta: u64)
    requires CollisionFree(h.sha) && s.counter < MAX_U64
    ensures LastWord(InputOf(h.sha, NextId(s, h, env, caller, a, eta))) == s.counter + 1
  {
    var front, n := h.xdr(caller) + ActionSalt(h, a) + ToBE(eta, 8) + ToBE(env.now, 8), s.counter + 1;
    MadeFromLast(h.sha, front, n);
    assert Salt(h, caller, a, eta, env.now, n) == front + ToBE(n, 8);
  }

  /** An event that is no dispatch leaves the dispatches as they were. */
  lemma LogGrows(s: State, s': State, e: Event)
    requires forall i :: 0 <= i < |s.log| ==> DispatchOk(s, i)
    requires s'.log == s.log + [e] && !e.Dispatched?
    requires forall id :: id in s.changes && s.changes[id].executed ==> id in s'.changes && s'.changes[id] == s.changes[id]
    ensures forall i :: 0 <= i < |s'.log| ==> DispatchOk(s', i)
  {
    forall i | 0 <= i < |s'.log| ensures DispatchOk(s', i) {
      if i < |s.log| && s.log[i].Dispatched? {
        assert DispatchOk(s, i);
        var j :| j < i && QueuedBy(s.log, j, s.log[i].id, s.changes[s.log[i].id]);
        assert QueuedBy(s'.log, j, s.log[i].id, s'.changes[s.log[i].id]);
      }
    }
  }

  lemma BootstrapKeeps(h: Host, s: State, env: Env, addresses: seq<Address>)
    requires Inv(h, s) && |addresses| == 5 && Bootstrap(s, env, addresses).result.Ok?
    ensures Inv(h, Bootstrap(s, env, addresses).state)
  {
    var s' := Bootstrap(s, env, addresses).state;
    var e := Bootstrapped(Assignment(addresses));
    ReplayPush(s.log, e);
    DelaysPush(s.log, e);
    LogGrows(s, s', e);
    forall id ensures ChangeOk(h, s', id) {
      ChangeKept(h, s, s', id);
    }
    assert forall id :: IsPending(s', id) <==> IsPending(s, id);
  }

  /** A change that a step does not touch stays in order. */
  lemma ChangeKept(h: Host, s: State, s': State, id: Id)
    requires ChangeOk(h, s, id) && s.log <= s'.log && s.counter <= s'.counter
    requires id in s.changes <==> id in s'.changes
    requires id in s.changes ==> s'.changes[id] == s.changes[id].(executed := s'.changes[id].executed, cancelled := s'.changes[id].cancelled)
    requires id in s.changes ==> !(s'.changes[id].executed && s'.changes[id].cancelled)
    requires id in s'.executed <==> id in s'.changes && s'.changes[id].executed
    ensures ChangeOk(h, s', id)
  {
    if id in s.changes {
      var i :| QueuedBy(s.log, i, id, s.changes[id]);
      assert QueuedBy(s'.log, i, id, s'.changes[id]);
    }
  }

  lemma EnqueueChanges(h: Host, s: State, id: Id, c: Change)
    requires s.counter < MAX_U64 && LastWord(InputOf(h.sha, id)) == s.counter + 1
    requires forall i :: ChangeOk(h, s, i)
    requires !c.executed && !c.cancelled && MIN_BOUND <= s.window.minDelay && c.eta >= c.queuedAt + s.window.minDelay
    ensures forall i :: ChangeOk(h, Enqueue(s, id, c), i)
  {
    var s' := Enqueue(s, id, c);
    forall i ensures ChangeOk(h, s', i) {
      assert ChangeOk(h, s, i);
      if i == id {
        assert QueuedBy(s'.log, |s.log|, id, c);
      } else {
        ChangeKept(h, s, s', i);
      }
    }
  }

  lemma EnqueuePending(s: State, id: Id, c: Change)
    requires s.counter < MAX_U64 && PendingOk(s) && id !in s.changes && |s.pending| < MAX_QUEUED_CHANGES
    requires !AlreadyQueued(s, c.proposer, c.action) && !c.executed && !c.cancelled
    ensures PendingOk(Enqueue(s, id, c))
  {
    var s' := Enqueue(s, id, c);
    assert id in s.pending <==> IsPending(s, id);
    assert forall i :: IsPending(s', i) <==> IsPending(s, i) || i == id;
    forall i | IsPending(s, i) ensures !SameKey(s.changes[i], c) {
      assert i in s.pending;
      var k :| 0 <= k < |s.pending| && s.pending[k] == i;
      assert !SameProposal(s.changes, s.pending[k], c.proposer, c.action);
    }
  }

  lemma EnqueueLog(s: State, id: Id, c: Change)
    requires s.counter < MAX_U64 && id !in s.changes && Replays(s)
    requires forall i :: 0 <= i < |s.log| ==> DispatchOk(s, i)
    requires forall j :: 0 <= j < |s.log| ==> DelayInForce(s.log, j)
    ensures var s' := Enqueue(s, id, c);
            && Replays(s') && (forall i :: 0 <= i < |s'.log| ==> DispatchOk(s', i))
            && (forall j :: 0 <= j < |s'.log| ==> DelayInForce(s'.log, j))
  {
    var e := Queued(id, c.action, c.queuedAt, s.window.minDelay);
    ReplayPush(s.log, e);
    DelaysPush(s.log, e);
    LogGrows(s, Enqueue(s, id, c), e);
  }

  lemma EnqueueKeeps(h: Host, s: State, id: Id, c: Change)
    requires Inv(h, s) && s.counter < MAX_U64 && LastWord(InputOf(h.sha, id)) == s.counter + 1
    requires |s.pending| < MAX_QUEUED_CHANGES && !AlreadyQueued(s, c.proposer, c.action)
    requires !c.executed && !c.cancelled && c.eta >= c.queuedAt + s.window.minDelay
    ensures Inv(h, Enqueue(s, id, c))
  {
    assert ChangeOk(h, s, id);
    EnqueueChanges(h, s, id, c);
    EnqueuePending(s, id, c);
    EnqueueLog(s, id, c);
  }

  lemma QueueKeeps(h: Host, s: State, env: Env, caller: Address, a: Action, eta: u64)
    requires CollisionFree(h.sha) && Inv(h, s) && Queue(s, h, env, caller, a, eta).result.Ok?
    ensures Inv(h, Queue(s, h, env, caller, a, eta).state)
  {
    var id := NextId(s, h, env, caller, a, eta);
    NextIdCounter(h, s, env, caller, a, eta);
    EnqueueKeeps(h, s, id, Change(a, caller, env.now, eta, false, false));
  }

  /** Taking one change out of the pending list, as cancelled or executed. */
  lemma TakenPending(s: State, s': State, id: Id)
    requires PendingOk(s) && IsPending(s, id) && id in s'.changes && s'.changes == s.changes[id := s'.changes[id]]
    requires s'.changes[id].executed || s'.changes[id].cancelled
    requires s'.pending == Remove(s.pending, id)
    ensures PendingOk(s')
  {
    RemoveKeeps(s.pending, id);
    assert forall i :: IsPending(s', i) <==> IsPending(s, i) && i != id;
  }

  lemma CancelKeeps(h: Host, s: State, env: Env, caller: Address, id: Id)
    requires Inv(h, s) && Cancel(s, env, caller, id).result.Ok?
    ensures Inv(h, Cancel(s, env, caller, id).state)
  {
    var s' := Cancel(s, env, caller, id).state;
    TakenPending(s, s', id);
    forall i ensures ChangeOk(h, s', i) {
      assert ChangeOk(h, s, i);
      ChangeKept(h, s, s', i);
    }
    forall i | 0 <= i < |s'.log| ensures DispatchOk(s', i) {
      assert DispatchOk(s, i);
    }
  }

  lemma ExecuteKeeps(h: Host, s: State, env: Env, caller: Address, id: Id)
    requires Inv(h, s) && Execute(s, env, caller, id).result.Ok?
    ensures Inv(h, Execute(s, env, caller, id).state)
  {
    var s' := Execute(s, env, caller, id).state;
    assert ChangeOk(h, s, id);
    TakenPending(s, s', id);
    ExecutedChanges(h, s, s', id);
    forall i | 0 <= i < |s'.log| ensures DispatchOk(s', i) {
      DispatchKept(h, s, s', id, env.now, i);
    }
    ReplayPush(s.log, Dispatched(id, s.changes[id].action, env.now));
    DelaysPush(s.log, Dispatched(id, s.changes[id].action, env.now));
  }

  lemma ExecutedChanges(h: Host, s: State, s': State, id: Id)
    requires (forall i :: ChangeOk(h, s, i)) && IsPending(s, id)
    requires s'.changes == s.changes[id := s.changes[id].(executed := true)] && s'.executed == s.executed + {id}
    requires s'.counter == s.counter && s.log <= s'.log
    ensures forall i :: ChangeOk(h, s', i)
  {
    forall i ensures ChangeOk(h, s', i) {
      assert ChangeOk(h, s, i);
      ChangeKept(h, s, s', i);
    }
  }

  lemma DispatchKept(h: Host, s: State, s': State, id: Id, now: u64, i: int)
    requires ChangeOk(h, s, id) && IsPending(s, id) && now >= s.changes[id].eta
    requires s'.log == s.log + [Dispatched(id, s.changes[id].action, now)]
    requires s'.changes == s.changes[id := s.changes[id].(executed := true)]
    requires 0 <= i < |s'.log| && (i < |s.log| ==> DispatchOk(s, i))
    ensures DispatchOk(s', i)
  {
    if i < |s.log| {
      if s.log[i].Dispatched? {
        var j :| j < i && QueuedBy(s.log, j, s.log[i].id, s.changes[s.log[i].id]);
        assert QueuedBy(s'.log, j, s.log[i].id, s'.changes[s.log[i].id]);
      }
    } else {
      var j :| QueuedBy(s.log, j, id, s.changes[id]);
      assert QueuedBy(s'.log, j, id, s'.changes[id]);
    }
  }

  lemma RegistryKeeps(h: Host, s: State, registry: Address)
    requires Inv(h, s)
    ensures Inv(h, s.(courseRegistry := Some(registry)))
  {
    var s' := s.(courseRegistry := Some(registry));
    assert forall id :: IsPending(s', id) <==> IsPending(s, id);
    forall id ensures ChangeOk(h, s', id) { assert ChangeOk(h, s, id); }
    forall i | 0 <= i < |s'.log| ensures DispatchOk(s', i) { assert DispatchOk(s, i); }
  }

  lemma StepKeeps(h: Host, s: State, env: Env, c: Call)
    requires CollisionFree(h.sha) && Inv(h, s)
    ensures Inv(h, Step(s, h, env, c))
  {
    if Step(s, h, env, c) != s {
      match c
      case CallBootstrap(a, t, p, e, l) => BootstrapKeeps(h, s, env, [a, t, p, e, l]);
      case CallQueue(a, action, eta) => QueueKeeps(h, s, env, a, action, eta);
      case CallCancel(a, id) => CancelKeeps(h, s, env, a, id);
      case CallExecute(a, id) => ExecuteKeeps(h, s, env, a, id);
      case CallSetCourseRegistry(a, r) => RegistryKeeps(h, s, r);
    }
  }

  lemma {:induction false} Reachable(h: Host, steps: seq<(Env, Call)>)
    requires CollisionFree(h.sha)
    ensures Inv(h, Run(Initial(), h, steps))
  {
    var n := |steps| - 1;
    if n >= 0 {
      Reachable(h, steps[..n]);
      StepKeeps(h, Run(Initial(), h, steps[..n]), steps[n].0, steps[n].1);
    } else {
      assert forall id :: ChangeOk(h, Initial(), id);
    }
  }

  // ---------------------------------------------------------------- what governance can rely on

  /** In every run, roles and window are the replay of the log, and each dispatch in it was queued before, at least the
      minimum delay then in force and at least one hour earlier, and is the only dispatch of its change. */
  lemma NothingBeforeItsTime(h: Host, steps: seq<(Env, Call)>, i: int)
    requires CollisionFree(h.sha) && 0 <= i < |Run(Initial(), h, steps).log| && Run(Initial(), h, steps).log[i].Dispatched?
    ensures var s := Run(Initial(), h, steps);
            && Replay(s.log) == Governed(s.roles, s.window)
            && (exists j :: 0 <= j < i && s.log[j].Queued? && s.log[j].id == s.log[i].id
                            && s.log[j].action == s.log[i].action
                            && s.log[j].minDelay == Replay(s.log[..j]).window.minDelay
                            && s.log[i].at >= s.log[j].at + s.log[j].minDelay >= s.log[j].at + 3600)
            && (forall k :: 0 <= k < |s.log| && k != i && s.log[k].Dispatched? ==> s.log[k].id != s.log[i].id)
  {
    Reachable(h, steps);
    var s := Run(Initial(), h, steps);
    assert DispatchOk(s, i);
    forall k | 0 <= k < i && s.log[k].Dispatched? ensures s.log[k].id != s.log[i].id {
      assert DispatchOk(s, k);
    }
    var j :| j < i && QueuedBy(s.log, j, s.log[i].id, s.changes[s.log[i].id]);
    assert DelayInForce(s.log, j);
    assert 0 <= j < i && s.log[j].Queued? && s.log[j].id == s.log[i].id;
  }

  /** Why an admin's call is refused. */
  ghost predicate AdminRefused(s: State, env: Env, caller: Address, error: Error) {
    match error
    case NotInitialized => Admin !in s.roles
    case NotAdmin => Admin in s.roles && s.roles[Admin] != caller
    case Aborted => caller !in env.signers
    case _ => false
  }

  /** A change is queued exactly within the delay window, when there is room, its proposer has no such change pending and
      neither clock nor counter overflows; it is then filed under its hash as the last one pending, with the terms asked
      for, and nothing governed changes. */
  lemma QueueExactly(h: Host, s: State, env: Env, caller: Address, a: Action, eta: u64)
    requires Inv(h, s)
    ensures Queue(s, h, env, caller, a, eta).result.Ok?
       <==> Admin in s.roles && s.roles[Admin] == caller && caller in env.signers
            && env.now + s.window.minDelay <= eta <= env.now + s.window.maxDelay <= MAX_U64 && s.counter < MAX_U64
            && |s.pending| < 64
            && !exists id :: IsPending(s, id) && s.changes[id].proposer == caller && s.changes[id].action == a
    ensures Queue(s, h, env, caller, a, eta).result.Ok? ==>
              var o := Queue(s, h, env, caller, a, eta);
              var id := o.result.value;
              && id == h.sha(Salt(h, caller, a, eta, env.now, s.counter + 1))
              && o.state == s.(counter := s.counter + 1, pending := s.pending + [id],
                               changes := s.changes[id := Change(a, caller, env.now, eta, false, false)],
                               log := s.log + [Queued(id, a, env.now, s.window.minDelay)])
    ensures var o := Queue(s, h, env, caller, a, eta);
            o.result.Err? ==>
              && o.state == s
              && (match o.result.error
                  case InvalidTimestamp => env.now + s.window.maxDelay > MAX_U64
                  case TimelockEtaInvalid => !(env.now + s.window.minDelay <= eta <= env.now + s.window.maxDelay)
                  case TimelockQueueFull => |s.pending| >= 64
                  case TimelockAlreadyQueued =>
                    exists id :: IsPending(s, id) && s.changes[id].proposer == caller && s.changes[id].action == a
                  case Overflow => s.counter == MAX_U64
                  case _ => AdminRefused(s, env, caller, o.result.error))
  {
    AlreadyQueuedMeans(s, caller, a);
  }

  lemma AlreadyQueuedMeans(s: State, caller: Address, a: Action)
    requires PendingOk(s)
    ensures AlreadyQueued(s, caller, a)
       <==> exists id :: IsPending(s, id) && s.changes[id].proposer == caller && s.changes[id].action == a
  {
    if AlreadyQueued(s, caller, a) {
      var i :| 0 <= i < |s.pending| && SameProposal(s.changes, s.pending[i], caller, a);
      assert s.pending[i] in s.pending && IsPending(s, s.pending[i]);
    }
    if id :| IsPending(s, id) && s.changes[id].proposer == caller && s.changes[id].action == a {
      assert id in s.pending;
      var i :| 0 <= i < |s.pending| && s.pending[i] == id;
      assert SameProposal(s.changes, s.pending[i], caller, a);
    }
  }

  /** The change is open and its time has come, and the caller signed. */
  predicate Due(s: State, env: Env, caller: Address, id: Id) {
    && caller in env.signers && id in s.changes && id !in s.executed
    && !s.changes[id].executed && !s.changes[id].cancelled && s.changes[id].eta <= env.now
  }

  /** What an action itself asks for: a new holder signs unless it holds the role already, a window is within its bounds. */
  predicate MayTakeEffect(s: State, env: Env, a: Action) {
    match a
    case TransferRole(role, to) => to in env.signers || (role in s.roles && s.roles[role] == to)
    case UpdateCourseRegistry(_) => true
    case UpdateTimelockConfig(lo, hi) => 3_600 <= lo <= hi <= 15_552_000
  }

  /** The pending list without one of its elements, the others in their order. */
  ghost predicate WithoutOne(ids: seq<Id>, ids': seq<Id>, id: Id) {
    exists i :: 0 <= i < |ids| && ids[i] == id && ids' == ids[..i] + ids[i + 1..]
  }

  lemma TakenOut(s: State, id: Id)
    requires PendingOk(s) && IsPending(s, id)
    ensures WithoutOne(s.pending, Remove(s.pending, id), id)
  {
    assert id in s.pending;
    var i :| 0 <= i < |s.pending| && s.pending[i] == id;
    RemoveAt(s.pending, i);
  }

  /** Anybody who signs executes exactly the pending changes that are due and may take effect. Then the action has taken
      effect, the change is marked as executed and alone has left the pending ones; otherwise nothing has changed. */
  lemma ExecuteExactly(h: Host, s: State, env: Env, caller: Address, id: Id)
    requires Inv(h, s)
    ensures Execute(s, env, caller, id).result.Ok?
       <==> caller in env.signers && IsPending(s, id) && s.changes[id].eta <= env.now && MayTakeEffect(s, env, s.changes[id].action)
    ensures Execute(s, env, caller, id).result.Ok? ==>
              var s', a := Execute(s, env, caller, id).state, s.changes[id].action;
              && s' == s.(roles := if a.TransferRole? then s.roles[a.role := a.to] else s.roles,
                          courseRegistry := if a.UpdateCourseRegistry? then Some(a.registry) else s.courseRegistry,
                          window := if a.UpdateTimelockConfig? then Window(a.minDelay, a.maxDelay) else s.window,
                          changes := s.changes[id := s.changes[id].(executed := true)], executed := s.executed + {id},
                          pending := s'.pending, log := s.log + [Dispatched(id, a, env.now)])
              && WithoutOne(s.pending, s'.pending, id)
    ensures var o := Execute(s, env, caller, id);
            o.result.Err? ==>
              && o.state == s
              && (match o.result.error
                  case TimelockNotFound => id !in s.changes
                  case TimelockAlreadyExecuted => id in s.changes && s.changes[id].executed
                  case TimelockCancelled => id in s.changes && s.changes[id].cancelled
                  case TimelockNotReady => id in s.changes && env.now < s.changes[id].eta
                  case TimelockConfigInvalid =>
                    id in s.changes && s.changes[id].action.UpdateTimelockConfig? && !MayTakeEffect(s, env, s.changes[id].action)
                  case Aborted =>
                    || caller !in env.signers
                    || (id in s.changes && s.changes[id].action.TransferRole? && !MayTakeEffect(s, env, s.changes[id].action))
                  case _ => false)
  {
    assert ChangeOk(h, s, id);
    if id in s.changes && s.changes[id].action.TransferRole? { SameHolder(s.roles, s.changes[id].action.role); }
    if IsPending(s, id) { TakenOut(s, id); }
  }

  lemma SameHolder(roles: map<Role, Address>, role: Role)
    ensures role in roles ==> roles[role := roles[role]] == roles
  {
  }

  /** The proposer or the admin, having signed, cancels exactly the pending changes. Then the change is marked as cancelled
      and alone has left the pending ones; otherwise nothing has changed. */
  lemma CancelExactly(h: Host, s: State, env: Env, caller: Address, id: Id)
    requires Inv(h, s)
    ensures Cancel(s, env, caller, id).result.Ok?
       <==> && caller in env.signers && IsPending(s, id)
            && (caller == s.changes[id].proposer || (Admin in s.roles && s.roles[Admin] == caller))
    ensures Cancel(s, env, caller, id).result.Ok? ==>
              var s' := Cancel(s, env, caller, id).state;
              && s' == s.(changes := s.changes[id := s.changes[id].(cancelled := true)], pending := s'.pending)
              && WithoutOne(s.pending, s'.pending, id)
    ensures var o := Cancel(s, env, caller, id);
            o.result.Err? ==>
              && o.state == s
              && (match o.result.error
                  case TimelockNotFound => id !in s.changes
                  case NotAdmin => id in s.changes && s.changes[id].proposer != caller
                                   && !(Admin in s.roles && s.roles[Admin] == caller)
                  case TimelockAlreadyExecuted => id in s.changes && s.changes[id].executed
                  case TimelockCancelled => id in s.changes && s.changes[id].cancelled
                  case Aborted => caller !in env.signers
                  case _ => false)
  {
    if IsPending(s, id) { TakenOut(s, id); }
  }

  /** The admin, having signed, repoints the course registry directly, and changes nothing else. */
  lemma SetCourseRegistryExactly(s: State, env: Env, caller: Address, registry: Address)
    ensures var o := SetCourseRegistry(s, env, caller, registry);
            && (o.result.Ok? <==> Admin in s.roles && s.roles[Admin] == caller && caller in env.signers)
            && (o.result.Ok? ==> o.state == s.(courseRegistry := Some(registry)))
            && (o.result.Err? ==> o.state == s && AdminRefused(s, env, caller, o.result.error))
  {
  }

  ghost predicate IsClosed(s: State, id: Id) {
    id in s.changes && (s.changes[id].executed || s.changes[id].cancelled)
  }

  lemma QueueLeavesClosed(h: Host, s: State, env: Env, caller: Address, a: Action, eta: u64, id: Id)
    requires CollisionFree(h.sha) && ChangeOk(h, s, id) && IsClosed(s, id)
    ensures IsClosed(Queue(s, h, env, caller, a, eta).state, id)
  {
    if s.counter < MAX_U64 { NextIdCounter(h, s, env, caller, a, eta); }
  }

  lemma OtherCallLeavesClosed(h: Host, s: State, env: Env, c: Call, id: Id)
    requires IsClosed(s, id) && !c.CallQueue?
    ensures IsClosed(Step(s, h, env, c), id)
  {
  }

  lemma StepLeavesClosed(h: Host, s: State, env: Env, c: Call, id: Id)
    requires CollisionFree(h.sha) && ChangeOk(h, s, id) && IsClosed(s, id)
    ensures IsClosed(Step(s, h, env, c), id)
  {
    match c
    case CallQueue(caller, a, eta) => QueueLeavesClosed(h, s, env, caller, a, eta, id);
    case _ => OtherCallLeavesClosed(h, s, env, c, id);
  }

  lemma {:induction false} RunLeavesClosed(h: Host, s: State, steps: seq<(Env, Call)>, id: Id)
    requires CollisionFree(h.sha) && Inv(h, s) && IsClosed(s, id)
    ensures Inv(h, Run(s, h, steps)) && IsClosed(Run(s, h, steps), id)
  {
    var n := |steps| - 1;
    if n >= 0 {
      RunLeavesClosed(h, s, steps[..n], id);
      StepKeeps(h, Run(s, h, steps[..n]), steps[n].0, steps[n].1);
      assert ChangeOk(h, Run(s, h, steps[..n]), id);
      StepLeavesClosed(h, Run(s, h, steps[..n]), steps[n].0, steps[n].1, id);
    }
  }

  /** A change that was cancelled or executed is never executed or cancelled again, whatever happens in between. */
  lemma ClosedForGood(h: Host, s: State, env: Env, caller: Address, id: Id, steps: seq<(Env, Call)>, later: Env, other: Address)
    requires CollisionFree(h.sha) && Inv(h, s)
    requires Cancel(s, env, caller, id).result.Ok? || Execute(s, env, caller, id).result.Ok?
    ensures Cancel(s, env, caller, id).result.Ok? ==>
              var s' := Run(Cancel(s, env, caller, id).state, h, steps);
              Execute(s', later, other, id).result.Err? && Cancel(s', later, other, id).result.Err?
    ensures Execute(s, env, caller, id).result.Ok? ==>
              var s' := Run(Execute(s, env, caller, id).state, h, steps);
              Execute(s', later, other, id).result.Err? && Cancel(s', later, other, id).result.Err?
  {
    if Cancel(s, env, caller, id).result.Ok? {
      CancelKeeps(h, s, env, caller, id);
      RunLeavesClosed(h, Cancel(s, env, caller, id).state, steps, id);
    }
    if Execute(s, env, caller, id).result.Ok? {
      ExecuteKeeps(h, s, env, caller, id);
      RunLeavesClosed(h, Execute(s, env, caller, id).state, steps, id);
    }
  }

  /** The roles are assigned once, to five different addresses that all signed, in the order of the arguments. */
  lemma BootstrapExactly(s: State, env: Env, a: seq<Address>)
    requires |a| == 5
    ensures Bootstrap(s, env, a).result.Ok?
       <==> Admin !in s.roles && (forall x :: x in a ==> x in env.signers) && (forall i, j :: 0 <= i < j < 5 ==> a[i] != a[j])
    ensures Bootstrap(s, env, a).result.Ok? ==>
              var roles := map[Admin := a[0], Treasury := a[1], PolicyManager := a[2], Emergency := a[3], Librarian := a[4]];
              Bootstrap(s, env, a).state == s.(roles := roles, log := s.log + [Bootstrapped(roles)])
    ensures var o := Bootstrap(s, env, a);
            o.result.Err? ==>
              && o.state == s
              && (match o.result.error
                  case AlreadyInitialized => Admin in s.roles
                  case DuplicateRole => exists i, j :: 0 <= i < j < 5 && a[i] == a[j]
                  case Aborted => exists x :: x in a && x !in env.signers
                  case _ => false)
  {
  }

  ghost predicate Separated(roles: map<Role, Address>) {
    forall r, r' :: r in roles && r' in roles && roles[r] == roles[r'] ==> r == r'
  }

  /** The bootstrap's separation of roles is not an invariant: a step loses it if and only if it executes a due transfer
      to an address that signed and already holds another role, which nothing checks. */
  lemma SeparationKeptExactly(h: Host, s: State, env: Env, c: Call)
    requires Separated(s.roles)
    ensures !Separated(Step(s, h, env, c).roles)
       <==> && c.CallExecute? && Due(s, env, c.caller, c.id) && s.changes[c.id].action.TransferRole?
            && var a := s.changes[c.id].action;
               a.to in env.signers && exists r :: r in s.roles && s.roles[r] == a.to && r != a.role
  {
    match c
    case CallBootstrap(a, t, p, e, l) => BootstrapSeparates(s, env, [a, t, p, e, l]);
    case CallExecute(caller, id) =>
      if Due(s, env, caller, id) && s.changes[id].action.TransferRole? {
        TransferSeparates(s.roles, s.changes[id].action.role, s.changes[id].action.to);
      }
    case _ =>
  }

  lemma BootstrapSeparates(s: State, env: Env, a: seq<Address>)
    requires |a| == 5 && Separated(s.roles)
    ensures Separated(Bootstrap(s, env, a).state.roles)
  {
  }

  lemma TransferSeparates(roles: map<Role, Address>, role: Role, to: Address)
    requires Separated(roles)
    ensures Separated(roles[role := to]) <==> forall r :: r in roles && roles[r] == to ==> r == role
  {
    var roles' := roles[role := to];
    forall r | r in roles && roles[r] == to && r != role ensures !Separated(roles') {
      assert r in roles' && roles'[r] == roles'[role];
    }
  }

  lemma RunPush(s: State, h: Host, steps: seq<(Env, Call)>, env: Env, c: Call)
    ensures Run(s, h, steps + [(env, c)]) == Step(Run(s, h, steps), h, env, c)
  {
    assert (steps + [(env, c)])[..|steps|] == steps;
  }

  /** A bootstrap with the addresses 1 to 5. */
  function Founding(): seq<(Env, Call)> {
    [(Env(0, {1, 2, 3, 4, 5}), CallBootstrap(1, 2, 3, 4, 5))]
  }

  function FoundedState(): State {
    var roles := Assignment([1, 2, 3, 4, 5]);
    Initial().(roles := roles, log := [Bootstrapped(roles)])
  }

  lemma Founded(h: Host)
    ensures Run(Initial(), h, Founding()) == FoundedState()
  {
    var env, c := Env(0, {1, 2, 3, 4, 5}), CallBootstrap(1, 2, 3, 4, 5);
    RunPush(Initial(), h, [], env, c);
    assert [] + [(env, c)] == Founding();
  }

  /** The admin handing its role to the treasurer: queued at time 0, due a week later. */
  const HAND_OVER: Change := Change(TransferRole(Admin, 2), 1, 0, 604_800, false, false)

  function HandOverId(h: Host): Id {
    NextId(FoundedState(), h, Env(0, {1}), 1, HAND_OVER.action, HAND_OVER.eta)
  }

  function HandingOver(h: Host): seq<(Env, Call)> {
    Founding() + [(Env(0, {1}), CallQueue(1, HAND_OVER.action, HAND_OVER.eta))]
    + [(Env(604_800, {1, 2}), CallExecute(1, HandOverId(h)))]
  }

  lemma HandOverQueued(h: Host)
    ensures Queue(FoundedState(), h, Env(0, {1}), 1, HAND_OVER.action, HAND_OVER.eta).state
         == Enqueue(FoundedState(), HandOverId(h), HAND_OVER)
  {
    assert !AlreadyQueued(FoundedState(), 1, HAND_OVER.action);
  }

  lemma HandOverExecuted(id: Id)
    ensures Execute(Enqueue(FoundedState(), id, HAND_OVER), Env(604_800, {1, 2}), 1, id).state.roles
         == Assignment([2, 2, 3, 4, 5])
  {
    assert Assignment([1, 2, 3, 4, 5])[Admin := 2] == Assignment([2, 2, 3, 4, 5]);
  }

  lemma HandingOverRun(h: Host)
    ensures Run(Initial(), h, HandingOver(h))
         == Execute(Enqueue(FoundedState(), HandOverId(h), HAND_OVER), Env(604_800, {1, 2}), 1, HandOverId(h)).state
  {
    var env, c := Env(0, {1}), CallQueue(1, HAND_OVER.action, HAND_OVER.eta);
    Founded(h);
    RunPush(Initial(), h, Founding(), env, c);
    HandOverQueued(h);
    RunPush(Initial(), h, Founding() + [(env, c)], Env(604_800, {1, 2}), CallExecute(1, HandOverId(h)));
  }

  /** A run from deployment after which two roles have one holder. */
  lemma RolesMayCoincide(h: Host)
    ensures Separated(Run(Initial(), h, Founding()).roles)
    ensures var s := Run(Initial(), h, HandingOver(h));
            Admin in s.roles && Treasury in s.roles && s.roles[Admin] == s.roles[Treasury]
  {
    Founded(h);
    HandingOverRun(h);
    HandOverExecuted(HandOverId(h));
  }

  // ---------------------------------------------------------------- the course registry

  /** What a step points the course registry to, if anything. */
  function SetBy(s: State, h: Host, env: Env, c: Call): Option<Address> {
    if c.CallSetCourseRegistry? && RoleError(s, env, Admin, c.caller).None? then Some(c.registry)
    else if c.CallExecute? && Due(s, env, c.caller, c.id) && s.changes[c.id].action.UpdateCourseRegistry?
    then Some(s.changes[c.id].action.registry)
    else None
  }

  /** A step changes the course registry if and only if it is the admin's direct entry point, or the execution of a due
      repointing, and to another address than before. */
  lemma RegistryNotDelayed(h: Host, s: State, env: Env, c: Call)
    ensures var s' := Step(s, h, env, c);
            s'.courseRegistry != s.courseRegistry
            <==> || (c.CallSetCourseRegistry? && Admin in s.roles && s.roles[Admin] == c.caller && c.caller in env.signers
                     && s.courseRegistry != Some(c.registry))
                 || (c.CallExecute? && Due(s, env, c.caller, c.id) && s.changes[c.id].action.UpdateCourseRegistry?
                     && s.courseRegistry != Some(s.changes[c.id].action.registry))
    ensures Step(s, h, env, c).courseRegistry
         == match SetBy(s, h, env, c) { case Some(r) => Some(r) case None => s.courseRegistry }
  {
  }

  /** What the last step of a run that set the course registry set it to. */
  function LastSet(h: Host, steps: seq<(Env, Call)>): Option<Address> {
    if steps == [] then None
    else
      var n := |steps| - 1;
      match SetBy(Run(Initial(), h, steps[..n]), h, steps[n].0, steps[n].1)
      case Some(r) => Some(r)
      case None => LastSet(h, steps[..n])
  }

  /** In every run the course registry is what was last dispatched or set directly. */
  lemma {:induction false} RegistryIsLastSet(h: Host, steps: seq<(Env, Call)>)
    ensures Run(Initial(), h, steps).courseRegistry == LastSet(h, steps)
  {
    var n := |steps| - 1;
    if n >= 0 {
      RegistryIsLastSet(h, steps[..n]);
      RegistryNotDelayed(h, Run(Initial(), h, steps[..n]), steps[n].0, steps[n].1);
    }
  }

  /** A run from deployment that repoints the course registry although nothing was ever queued. */
  lemma RegistryBypass(h: Host)
    ensures var s := Run(Initial(), h, Founding() + [(Env(0, {1}), CallSetCourseRegistry(1, 9))]);
            s.courseRegistry == Some(9) && forall i :: 0 <= i < |s.log| ==> s.log[i].Bootstrapped?
  {
    Founded(h);
    RunPush(Initial(), h, Founding(), Env(0, {1}), CallSetCourseRegistry(1, 9));
  }
}
