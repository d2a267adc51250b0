/** The timelock as it runs: instance storage updated in place, each entry point proved against its transition. */
module TimelockContracts {
  import opened Wrappers
  import opened Soroban
  import opened Hashing
  import T = Timelock
  import Theorems = TimelockTheorems

  type Error = T.Error

  class TimelockContract {
    const host: T.Host
    var roles: map<T.Role, Address>
    var courseRegistry: Option<Address>
    var window: T.Window
    var counter: u64
    var pending: seq<Id>
    var changes: map<Id, T.Change>
    var executed: set<Id>
    var log: seq<T.Event>

    ghost function St(): T.State
      reads this
    {
      T.State(roles, courseRegistry, window, counter, pending, changes, executed, log)
    }

    /** The invariant of the timelock's runs. */
    ghost predicate Valid()
      reads this
    {
      Theorems.Inv(host, St())
    }

    lemma Kept(env: Env, c: T.Call)
      ensures CollisionFree(host.sha) && Valid() ==> Theorems.Inv(host, T.Step(St(), host, env, c))
    {
      if CollisionFree(host.sha) && Valid() { Theorems.StepKeeps(host, St(), env, c); }
    }

    constructor (h: T.Host)
      ensures St() == T.Initial() && host == h
      ensures CollisionFree(h.sha) ==> Valid()
    {
      host, roles, courseRegistry, window := h, map[], None, T.DEFAULT_WINDOW;
      counter, pending, changes, executed, log := 0, [], map[], {}, [];
      new;
      if CollisionFree(h.sha) { Theorems.Reachable(h, []); }
    }

    /** The nested loop over the role addresses. */
    method HasDuplicate(addresses: seq<Address>) returns (found: bool)
      ensures found <==> !T.Distinct(addresses)
    {
      for i := 0 to |addresses|
        invariant forall k, l :: 0 <= k < i && k < l < |addresses| ==> addresses[k] != addresses[l]
      {
        for j := i + 1 to |addresses|
          invariant forall l :: i < l < j ==> addresses[i] != addresses[l]
        {
          if addresses[i] == addresses[j] { return true; }
        }
      }
      return false;
    }

    method AllSigned(env: Env, addresses: seq<Address>) returns (ok: bool)
      ensures ok <==> forall a :: a in addresses ==> a in env.signers
    {
      for i := 0 to |addresses|
        invariant forall k :: 0 <= k < i ==> addresses[k] in env.signers
      {
        if addresses[i] !in env.signers { return false; }
      }
      return true;
    }

    method Bootstrap(env: Env, addresses: seq<Address>) returns (r: Result<(), Error>)
      requires |addresses| == 5
      modifies this
      ensures T.Outcome(St(), r) == T.Bootstrap(old(St()), env, addresses)
      ensures CollisionFree(host.sha) && old(Valid()) ==> Valid()
    {
      Kept(env, T.CallBootstrap(addresses[0], addresses[1], addresses[2], addresses[3], addresses[4]));
      if T.Admin in roles { return Err(T.AlreadyInitialized); }
      var duplicate := HasDuplicate(addresses);
      if duplicate { return Err(T.DuplicateRole); }
      var signed := AllSigned(env, addresses);
      if !signed { return Err(T.Aborted); }
      for i := 0 to 5
        invariant forall k :: 0 <= k < i ==> T.ROLES[k] in roles && roles[T.ROLES[k]] == addresses[k]
        invariant St() == old(St()).(roles := roles)
      {
        roles := roles[T.ROLES[i] := addresses[i]];
      }
      RolesCovered(roles, addresses);
      log := log + [T.Bootstrapped(roles)];
      return Ok(());
    }

    /** A map with the five roles assigned is the assignment: there are no other roles. */
    static lemma RolesCovered(m: map<T.Role, Address>, addresses: seq<Address>)
      requires |addresses| == 5 && forall k :: 0 <= k < 5 ==> T.ROLES[k] in m && m[T.ROLES[k]] == addresses[k]
      ensures m == T.Assignment(addresses)
    {
      assert T.ROLES[0] == T.Admin && T.ROLES[1] == T.Treasury && T.ROLES[2] == T.PolicyManager;
      assert T.ROLES[3] == T.Emergency && T.ROLES[4] == T.Librarian;
      forall role: T.Role ensures role in m && role in T.Assignment(addresses) && m[role] == T.Assignment(addresses)[role] {
        match role
        case Admin =>
        case Treasury =>
        case PolicyManager =>
        case Emergency =>
        case Librarian =>
      }
    }

    method RequireRole(env: Env, role: T.Role, caller: Address) returns (r: Result<(), Error>)
      ensures r.Ok? <==> role in roles && roles[role] == caller && caller in env.signers
      ensures r == match T.RoleError(St(), env, role, caller) { case None => Ok(()) case Some(e) => Err(e) }
    {
      if role !in roles { return Err(T.NotInitialized); }
      if roles[role] != caller { return Err(T.NotAdmin); }
      if caller !in env.signers { return Err(T.Aborted); }
      return Ok(());
    }

    method SetCourseRegistry(env: Env, caller: Address, registry: Address) returns (r: Result<(), Error>)
      modifies this
      ensures T.Outcome(St(), r) == T.SetCourseRegistry(old(St()), env, caller, registry)
      ensures CollisionFree(host.sha) && old(Valid()) ==> Valid()
    {
      Kept(env, T.CallSetCourseRegistry(caller, registry));
      r := RequireRole(env, T.Admin, caller);
      if r.Ok? { courseRegistry := Some(registry); }
    }

    /** The loop over the pending changes that looks for the same proposal. */
    method AlreadyQueued(caller: Address, a: T.Action) returns (found: bool)
      ensures found == T.AlreadyQueued(St(), caller, a)
    {
      for i := 0 to |pending|
        invariant forall k :: 0 <= k < i ==> !T.SameProposal(changes, pending[k], caller, a)
      {
        var id := pending[i];
        if id in changes {
          var q := changes[id];
          if q.proposer == caller && q.action == a && !q.cancelled {
            assert T.SameProposal(changes, pending[i], caller, a);
            return true;
          }
        }
      }
      return false;
    }

    method Queue(env: Env, caller: Address, a: T.Action, eta: u64) returns (r: Result<Id, Error>)
      modifies this
      ensures T.Outcome(St(), r) == T.Queue(old(St()), host, env, caller, a, eta)
      ensures CollisionFree(host.sha) && old(Valid()) ==> Valid()
    {
      Kept(env, T.CallQueue(caller, a, eta));
      var check := RequireRole(env, T.Admin, caller);
      if check.Err? { return Err(check.error); }
      if env.now + window.minDelay > MAX_U64 || env.now + window.maxDelay > MAX_U64 { return Err(T.InvalidTimestamp); }
      if eta < env.now + window.minDelay || eta > env.now + window.maxDelay { return Err(T.TimelockEtaInvalid); }
      if |pending| >= T.MAX_QUEUED_CHANGES { return Err(T.TimelockQueueFull); }
      var duplicate := AlreadyQueued(caller, a);
      if duplicate { return Err(T.TimelockAlreadyQueued); }
      if counter == MAX_U64 { return Err(T.Overflow); }
      var id := host.sha(T.Salt(host, caller, a, eta, env.now, counter + 1));
      counter := counter + 1;
      changes := changes[id := T.Change(a, caller, env.now, eta, false, false)];
      pending := pending + [id];
      log := log + [T.Queued(id, a, env.now, window.minDelay)];
      return Ok(id);
    }

    /** Rebuilds the pending list without one identifier. */
    method RemoveFromPending(id: Id)
      modifies this`pending
      ensures pending == T.Remove(old(pending), id)
    {
      var kept: seq<Id> := [];
      for i := 0 to |pending|
        invariant kept == T.Remove(pending[..i], id)
      {
        assert pending[..i + 1][..i] == pending[..i];
        if pending[i] != id {
          kept := kept + [pending[i]];
        }
      }
      assert pending[..|pending|] == pending;
      pending := kept;
    }

    method Cancel(env: Env, caller: Address, id: Id) returns (r: Result<(), Error>)
      modifies this
      ensures T.Outcome(St(), r) == T.Cancel(old(St()), env, caller, id)
      ensures CollisionFree(host.sha) && old(Valid()) ==> Valid()
    {
      Kept(env, T.CallCancel(caller, id));
      if id !in changes { return Err(T.TimelockNotFound); }
      var c := changes[id];
      var isAdmin := T.Admin in roles && roles[T.Admin] == caller;
      if caller != c.proposer && !isAdmin { return Err(T.NotAdmin); }
      if caller !in env.signers { return Err(T.Aborted); }
      if c.executed { return Err(T.TimelockAlreadyExecuted); }
      if c.cancelled { return Err(T.TimelockCancelled); }
      changes := changes[id := c.(cancelled := true)];
      RemoveFromPending(id);
      return Ok(());
    }

    method Dispatch(env: Env, a: T.Action) returns (r: Result<(), Error>)
      modifies this`roles, this`courseRegistry, this`window
      ensures T.Outcome(St(), r) == T.Dispatch(old(St()), env, a)
    {
      match a {
      case TransferRole(role, to) =>
        if role in roles && roles[role] == to { return Ok(()); }
        if to !in env.signers { return Err(T.Aborted); }
        roles := roles[role := to];
      case UpdateCourseRegistry(registry) =>
        courseRegistry := Some(registry);
      case UpdateTimelockConfig(lo, hi) =>
        if lo < T.MIN_BOUND || hi > T.MAX_BOUND || lo > hi { return Err(T.TimelockConfigInvalid); }
        window := T.Window(lo, hi);
      }
      return Ok(());
    }

    method Execute(env: Env, caller: Address, id: Id) returns (r: Result<(), Error>)
      modifies this
      ensures T.Outcome(St(), r) == T.Execute(old(St()), env, caller, id)
      ensures CollisionFree(host.sha) && old(Valid()) ==> Valid()
    {
      Kept(env, T.CallExecute(caller, id));
      if caller !in env.signers { return Err(T.Aborted); }
      if id !in changes { return Err(T.TimelockNotFound); }
      var c := changes[id];
      if c.executed || id in executed { return Err(T.TimelockAlreadyExecuted); }
      if c.cancelled { return Err(T.TimelockCancelled); }
      if env.now < c.eta { return Err(T.TimelockNotReady); }
      r := Dispatch(env, c.action);
      if r.Err? { return; }
      changes := changes[id := c.(executed := true)];
      executed := executed + {id};
      RemoveFromPending(id);
      log := log + [T.Dispatched(id, c.action, env.now)];
    }
  }
}
