/** What every run of the vault keeps: exact vote counts, quorum before release, one payout per vault, and solvency. */
module VaultTheorems {
  import opened Wrappers
  import opened Soroban
  import opened Bytes
  import opened Hashing
  import opened Vault

  // ---------------------------------------------------------------- deduplication

  function FirstIndex(s: seq<Address>, a: Address): nat
    requires a in s
    ensures FirstIndex(s, a) < |s| && s[FirstIndex(s, a)] == a
  {
    if s[0] == a then 0 else 1 + FirstIndex(s[1..], a)
  }

  lemma {:induction false} FirstIndexPrefix(s: seq<Address>, x: Address, a: Address)
    requires a in s
    ensures FirstIndex(s + [x], a) == FirstIndex(s, a)
  {
    if s[0] != a {
      assert (s + [x])[1..] == s[1..] + [x];
      FirstIndexPrefix(s[1..], x, a);
    }
  }

  lemma {:induction false} FirstIndexLast(s: seq<Address>, x: Address)
    requires x !in s
    ensures FirstIndex(s + [x], x) == |s|
  {
    if s != [] {
      assert (s + [x])[1..] == s[1..] + [x];
      FirstIndexLast(s[1..], x);
    }
  }

  /** Deduplication keeps the members, drops the repetitions, and orders the rest by first occurrence. */
  lemma {:induction false} DeduplicateExact(s: seq<Address>)
    ensures var d := Deduplicate(s);
            && Distinct(d)
            && (forall a :: a in d <==> a in s)
            && (forall i, j :: 0 <= i < j < |d| ==> FirstIndex(s, d[i]) < FirstIndex(s, d[j]))
  {
    if s != [] {
      var init, last := s[..|s| - 1], s[|s| - 1];
      assert s == init + [last];
      DeduplicateExact(init);
      var rest := Deduplicate(init);
      forall a | a in rest ensures FirstIndex(s, a) == FirstIndex(init, a) < |init| {
        FirstIndexPrefix(init, last, a);
      }
      if last !in rest { FirstIndexLast(init, last); }
    }
  }

  /** On a list that passed the pairwise check it changes nothing. */
  lemma {:induction false} DeduplicateIdentity(s: seq<Address>)
    requires Distinct(s)
    ensures Deduplicate(s) == s
  {
    if s != [] {
      DeduplicateIdentity(s[..|s| - 1]);
      assert s == s[..|s| - 1] + [s[|s| - 1]];
    }
  }

  // ---------------------------------------------------------------- the invariant

  ghost function Voters(votes: set<(Id, Address)>, id: Id): set<Address> {
    set v | v in votes && v.0 == id :: v.1
  }

  ghost predicate VotesOk(v: Vault, voters: set<Address>) {
    && voters <= (set a | a in v.approvers) && v.approvals == |voters|
  }

  ghost predicate TermsOk(v: Vault) {
    && Distinct(v.approvers) && v.depositor !in v.approvers && v.recipient !in v.approvers
    && 0 < v.threshold <= |v.approvers| && v.amount > 0 && v.depositor != CONTRACT
    && (v.status == Pending ==> v.approvals < v.threshold)
    && (v.status == Released ==> v.approvals == v.threshold)
  }

  ghost function PaidFor(id: Id): Event -> int {
    (e: Event) => if e.PaidOut? && e.id == id then e.amount else 0
  }

  ghost function DepositedFor(id: Id): Event -> int {
    (e: Event) => if e.Deposited? && e.id == id then e.amount else 0
  }

  /** One vault: its terms, its votes, and what was paid in and out for it. */
  ghost predicate VaultOk(s: State, id: Id) {
    if id in s.vaults then
      var v := s.vaults[id];
      && TermsOk(v) && VotesOk(v, Voters(s.votes, id))
      && Sum(DepositedFor(id), s.log) == v.amount
      && Sum(PaidFor(id), s.log) == (if v.status == Pending then 0 else v.amount)
    else
      Voters(s.votes, id) == {} && Sum(DepositedFor(id), s.log) == 0 && Sum(PaidFor(id), s.log) == 0
  }

  ghost function PendingIn(t: Address): Vault -> int {
    (v: Vault) => if v.token == t && v.status == Pending then v.amount as int else 0
  }

  /** What the contract's account received without owing it. */
  ghost function Unsolicited(t: Address): Event -> int {
    (e: Event) =>
      if e.Moved? && e.token == t && e.to == CONTRACT then e.amount
      else if e.PaidOut? && e.token == t && e.to == CONTRACT then e.amount
      else 0
  }

  ghost predicate SolventAt(opening: Ledger, s: State, t: Address) {
    Balance(s.ledger, t, CONTRACT)
    == Balance(opening, t, CONTRACT) + MapTotal(PendingIn(t), s.vaults) + Sum(Unsolicited(t), s.log)
  }

  ghost predicate Inv(h: Host, opening: Ledger, s: State) {
    && Endowed(opening)
    && (forall id :: VaultOk(s, id))
    && (forall t :: SolventAt(opening, s, t))
    && (forall id :: id in s.vaults ==> MadeBefore(h.sha, id, s.count))
    && (forall e :: e in s.log ==> (e.Moved? || e.PaidOut? ==> e.amount >= 0))
  }

  // ---------------------------------------------------------------- steps

  /** The nonce alone keeps identifiers apart, also within one ledger. */
  lemma NextIdFresh(h: Host, opening: Ledger, s: State, env: Env, depositor: Address)
    requires CollisionFree(h.sha) && Inv(h, opening, s) && s.count < MAX_U64
    ensures NextId(s, h, env, depositor) !in s.vaults && MadeBefore(h.sha, NextId(s, h, env, depositor), s.count + 1)
  {
    var n: u64 := s.count + 1;
    var rest := ToBE(env.now, 8) + h.xdr(depositor);
    MadeFromFirst(h.sha, n, rest);
    assert ToBE(n, 8) + rest == IdInput(h, n, env.now, depositor);
  }

  lemma VotersAdded(votes: set<(Id, Address)>, id: Id, a: Address, i: Id)
    ensures Voters(votes + {(id, a)}, i) == if i == id then Voters(votes, i) + {a} else Voters(votes, i)
  {
    var all := votes + {(id, a)};
    assert (id, a) in all;
    forall x | x in (if i == id then Voters(votes, i) + {a} else Voters(votes, i)) ensures x in Voters(all, i) {
      assert (i, x) in all;
    }
  }

  lemma VotersRemoved(votes: set<(Id, Address)>, id: Id, a: Address, i: Id)
    requires (id, a) in votes
    ensures a in Voters(votes, id)
    ensures Voters(votes - {(id, a)}, i) == if i == id then Voters(votes, i) - {a} else Voters(votes, i)
  {
    var rest := votes - {(id, a)};
    assert (id, a) in votes && (id, a).1 == a;
    forall x | x in (if i == id then Voters(votes, i) - {a} else Voters(votes, i)) ensures x in Voters(rest, i) {
      assert (i, x) in rest;
    }
  }

  lemma FileKeeps(h: Host, opening: Ledger, s: State, id: Id, v: Vault)
    requires Inv(h, opening, s) && s.count < MAX_U64 && id !in s.vaults && MadeBefore(h.sha, id, s.count + 1)
    requires TermsOk(v) && v.status == Pending && v.approvals == 0
    requires Transfer(s.ledger, v.token, v.depositor, CONTRACT, v.amount).Some?
    ensures Inv(h, opening, File(s, id, v, Transfer(s.ledger, v.token, v.depositor, CONTRACT, v.amount).value))
  {
    var s' := File(s, id, v, Transfer(s.ledger, v.token, v.depositor, CONTRACT, v.amount).value);
    TransferMoves(s.ledger, v.token, v.depositor, CONTRACT, v.amount);
    SumPush(s.log, Deposited(id, v.amount));
    forall i ensures VaultOk(s', i) { assert VaultOk(s, i); }
    forall t ensures SolventAt(opening, s', t) {
      assert SolventAt(opening, s, t);
      MapTotalUpdate(PendingIn(t), s.vaults, id, v);
    }
  }

  lemma SettleKeeps(h: Host, opening: Ledger, s: State, id: Id, v: Vault, to: Address, votes: set<(Id, Address)>)
    requires Inv(h, opening, s) && id in s.vaults && s.vaults[id].status == Pending && v.status != Pending
    requires v == s.vaults[id].(status := v.status, approvals := v.approvals) && TermsOk(v) && VotesOk(v, Voters(votes, id))
    requires forall i :: i != id ==> Voters(votes, i) == Voters(s.votes, i)
    requires Settle(s, id, v, to, votes).result.Ok?
    ensures Inv(h, opening, Settle(s, id, v, to, votes).state)
  {
    var s' := Settle(s, id, v, to, votes).state;
    TransferMoves(s.ledger, v.token, CONTRACT, to, v.amount);
    SumPush(s.log, PaidOut(id, v.token, to, v.amount));
    forall i ensures VaultOk(s', i) { assert VaultOk(s, i); }
    forall t ensures SolventAt(opening, s', t) {
      assert SolventAt(opening, s, t);
      MapTotalUpdate(PendingIn(t), s.vaults, id, v);
    }
  }

  /** A change of votes that settles nothing. */
  lemma VoteKeeps(h: Host, opening: Ledger, s: State, id: Id, v: Vault, votes: set<(Id, Address)>)
    requires Inv(h, opening, s) && id in s.vaults && v == s.vaults[id].(approvals := v.approvals)
    requires TermsOk(v) && VotesOk(v, Voters(votes, id))
    requires forall i :: i != id ==> Voters(votes, i) == Voters(s.votes, i)
    ensures Inv(h, opening, s.(vaults := s.vaults[id := v], votes := votes))
  {
    var s' := s.(vaults := s.vaults[id := v], votes := votes);
    forall i ensures VaultOk(s', i) { assert VaultOk(s, i); }
    forall t ensures SolventAt(opening, s', t) {
      assert SolventAt(opening, s, t);
      MapTotalUpdate(PendingIn(t), s.vaults, id, v);
    }
  }

  lemma ApproveKeeps(h: Host, opening: Ledger, s: State, env: Env, id: Id, caller: Address)
    requires Inv(h, opening, s) && ApproveVault(s, env, id, caller).result.Ok?
    ensures Inv(h, opening, ApproveVault(s, env, id, caller).state)
  {
    var v := s.vaults[id];
    var votes := s.votes + {(id, caller)};
    assert VaultOk(s, id);
    forall i ensures Voters(votes, i) == if i == id then Voters(s.votes, i) + {caller} else Voters(s.votes, i) {
      VotersAdded(s.votes, id, caller, i);
    }
    assert caller !in Voters(s.votes, id);
    var voted := v.(approvals := v.approvals + 1);
    if voted.approvals >= v.threshold {
      SettleKeeps(h, opening, s, id, voted.(status := Released), v.recipient, votes);
    } else {
      VoteKeeps(h, opening, s, id, voted, votes);
    }
  }

  lemma RevokeKeeps(h: Host, opening: Ledger, s: State, env: Env, id: Id, caller: Address)
    requires Inv(h, opening, s) && RevokeApproval(s, env, id, caller).result.Ok?
    ensures Inv(h, opening, RevokeApproval(s, env, id, caller).state)
    ensures s.vaults[id].approvals > 0
  {
    var v := s.vaults[id];
    var votes := s.votes - {(id, caller)};
    assert VaultOk(s, id);
    forall i ensures Voters(votes, i) == if i == id then Voters(s.votes, i) - {caller} else Voters(s.votes, i) {
      VotersRemoved(s.votes, id, caller, i);
    }
    VotersRemoved(s.votes, id, caller, id);
    VoteKeeps(h, opening, s, id, v.(approvals := v.approvals - 1), votes);
  }

  lemma MoveKeeps(h: Host, opening: Ledger, s: State, env: Env, token: Address, from: Address, to: Address, amount: int)
    requires Inv(h, opening, s) && env.WellFormed() && MoveTokens(s, env, token, from, to, amount).result.Ok?
    ensures Inv(h, opening, MoveTokens(s, env, token, from, to, amount).state)
  {
    var s' := MoveTokens(s, env, token, from, to, amount).state;
    TransferMoves(s.ledger, token, from, to, amount);
    SumPush(s.log, Moved(token, from, to, amount));
    forall i ensures VaultOk(s', i) { assert VaultOk(s, i); }
    forall t ensures SolventAt(opening, s', t) { assert SolventAt(opening, s, t); }
  }

  lemma StepKeeps(h: Host, opening: Ledger, s: State, env: Env, c: Call)
    requires CollisionFree(h.sha) && Inv(h, opening, s) && env.WellFormed()
    ensures Step(s, h, env, c) == s || Inv(h, opening, Step(s, h, env, c))
  {
    if Step(s, h, env, c) != s {
      match c
      case CallSetAdmin(a) =>
        var s' := s.(admin := Some(a));
        forall i ensures VaultOk(s', i) { assert VaultOk(s, i); }
        forall t ensures SolventAt(opening, s', t) { assert SolventAt(opening, s, t); }
      case CallCreate(d, r, t, n, a, k) =>
        NextIdFresh(h, opening, s, env, d);
        DeduplicateIdentity(a);
        FileKeeps(h, opening, s, NextId(s, h, env, d), Vault(d, r, t, n, a, 0, k, Pending));
      case CallApprove(id, a) => ApproveKeeps(h, opening, s, env, id, a);
      case CallRevoke(id, a) => RevokeKeeps(h, opening, s, env, id, a);
      case CallCancel(id) =>
        var v := s.vaults[id];
        assert VaultOk(s, id);
        SettleKeeps(h, opening, s, id, v.(status := Cancelled), v.depositor, s.votes);
      case CallMoveTokens(t, from, to, n) => MoveKeeps(h, opening, s, env, t, from, to, n);
    }
  }

  lemma {:induction false} Reachable(h: Host, opening: Ledger, steps: seq<(Env, Call)>)
    requires CollisionFree(h.sha) && Endowed(opening)
    requires forall i :: 0 <= i < |steps| ==> steps[i].0.WellFormed()
    ensures Inv(h, opening, Run(Initial(opening), h, steps))
  {
    var n := |steps| - 1;
    if n >= 0 {
      Reachable(h, opening, steps[..n]);
      StepKeeps(h, opening, Run(Initial(opening), h, steps[..n]), steps[n].0, steps[n].1);
    } else {
      var s := Initial(opening);
      forall i ensures VaultOk(s, i) {}
      forall t ensures SolventAt(opening, s, t) {}
    }
  }

  // ---------------------------------------------------------------- what the parties can rely on

  /** A released vault has the standing votes of exactly its threshold of approvers, none of them a party to it, and was
      paid out exactly once. */
  lemma ReleasedByQuorum(h: Host, opening: Ledger, s: State, id: Id)
    requires Inv(h, opening, s) && id in s.vaults && s.vaults[id].status == Released
    ensures var v := s.vaults[id];
            && |Voters(s.votes, id)| == v.threshold > 0
            && (forall a :: a in Voters(s.votes, id) ==> a in v.approvers && a != v.depositor && a != v.recipient)
            && Sum(PaidFor(id), s.log) == v.amount == Sum(DepositedFor(id), s.log)
  {
    assert VaultOk(s, id);
  }

  /** The balance covers all pending vaults of a token together. */
  lemma Covered(h: Host, opening: Ledger, s: State, t: Address, id: Id)
    requires Inv(h, opening, s)
    ensures MapTotal(PendingIn(t), s.vaults) >= 0
    ensures Balance(s.ledger, t, CONTRACT) >= Balance(opening, t, CONTRACT) + MapTotal(PendingIn(t), s.vaults)
    ensures id in s.vaults && s.vaults[id].token == t && s.vaults[id].status == Pending ==>
              Balance(s.ledger, t, CONTRACT) >= s.vaults[id].amount
  {
    assert SolventAt(opening, s, t);
    SumNonnegative(Unsolicited(t), s.log);
    forall k | k in s.vaults ensures PendingIn(t)(s.vaults[k]) >= 0 { assert VaultOk(s, k); }
    MapTotalNonnegative(PendingIn(t), s.vaults);
    if id in s.vaults {
      MapTotalRemove(PendingIn(t), s.vaults, id);
      MapTotalNonnegative(PendingIn(t), s.vaults - {id});
    }
  }

  /** The vault has no such number, is settled, or the caller may not do this to it. */
  ghost predicate VoteRefused(s: State, env: Env, id: Id, caller: Address, error: Error) {
    match error
    case Aborted => caller !in env.signers
    case NotFound => id !in s.vaults
    case NotPending => id in s.vaults && s.vaults[id].status != Pending
    case ConflictOfInterest => id in s.vaults && (caller == s.vaults[id].depositor || caller == s.vaults[id].recipient)
    case Unauthorized => id in s.vaults && caller !in s.vaults[id].approvers
    case AlreadyVoted => (id, caller) in s.votes
    case _ => false
  }

  lemma ApproveRefused(s: State, env: Env, id: Id, caller: Address)
    requires ApproveVault(s, env, id, caller).result.Err?
    requires id in s.vaults && s.vaults[id].status == Pending ==>
               s.vaults[id].approvals < s.vaults[id].threshold
               && 0 <= s.vaults[id].amount <= Balance(s.ledger, s.vaults[id].token, CONTRACT)
    ensures ApproveVault(s, env, id, caller).state == s
    ensures VoteRefused(s, env, id, caller, ApproveVault(s, env, id, caller).result.error)
  {
  }

  /** From s to s' the caller's vote for the vault is added; the one that completes the threshold releases the vault and pays
      its amount to the recipient. */
  ghost predicate Voted(s: State, s': State, id: Id, caller: Address)
    requires id in s.vaults
  {
    var v := s.vaults[id];
    var last := v.approvals + 1 == v.threshold;
    && v.approvals < v.threshold
    && s' == s.(votes := s.votes + {(id, caller)}, ledger := s'.ledger,
                vaults := s.vaults[id := v.(approvals := v.approvals + 1, status := if last then Released else Pending)],
                log := if last then s.log + [PaidOut(id, v.token, v.recipient, v.amount)] else s.log)
    && (if last then Pays(s.ledger, s'.ledger, v.token, CONTRACT, v.recipient, v.amount) else s'.ledger == s.ledger)
  }

  lemma ApproveEffect(s: State, env: Env, id: Id, caller: Address)
    requires ApproveVault(s, env, id, caller).result.Ok? && s.vaults[id].approvals < s.vaults[id].threshold
    ensures Voted(s, ApproveVault(s, env, id, caller).state, id, caller)
  {
    ApprovalPays(s, env, id, caller);
  }

  /** An approval counts exactly when its guards hold; the payout it may trigger never fails. */
  lemma ApproveExactly(h: Host, opening: Ledger, s: State, env: Env, id: Id, caller: Address)
    requires Inv(h, opening, s)
    ensures ApproveVault(s, env, id, caller).result.Ok?
       <==> caller in env.signers && id in s.vaults && s.vaults[id].status == Pending && caller in s.vaults[id].approvers
            && (id, caller) !in s.votes
    ensures var o := ApproveVault(s, env, id, caller);
            && (o.result.Ok? ==> Voted(s, o.state, id, caller))
            && (o.result.Err? ==> o.state == s && VoteRefused(s, env, id, caller, o.result.error))
  {
    if id in s.vaults && s.vaults[id].status == Pending {
      assert VaultOk(s, id);
      Covered(h, opening, s, s.vaults[id].token, id);
      ApprovePayable(s, env, id, caller);
    }
    if ApproveVault(s, env, id, caller).result.Ok? {
      ApproveEffect(s, env, id, caller);
    } else {
      ApproveRefused(s, env, id, caller);
    }
  }

  /** Exactly a standing vote for a pending vault is taken back, and nothing else changes. */
  lemma RevokeExactly(h: Host, opening: Ledger, s: State, env: Env, id: Id, caller: Address)
    requires Inv(h, opening, s)
    ensures RevokeApproval(s, env, id, caller).result.Ok?
       <==> caller in env.signers && id in s.vaults && s.vaults[id].status == Pending && (id, caller) in s.votes
    ensures RevokeApproval(s, env, id, caller).result.Ok? ==>
              var v := s.vaults[id];
              && v.approvals > 0
              && RevokeApproval(s, env, id, caller).state
                 == s.(votes := s.votes - {(id, caller)}, vaults := s.vaults[id := v.(approvals := v.approvals - 1)])
    ensures var o := RevokeApproval(s, env, id, caller);
            o.result.Err? ==>
              && o.state == s
              && (match o.result.error
                  case Aborted => caller !in env.signers
                  case NotFound => id !in s.vaults
                  case NotPending => id in s.vaults && s.vaults[id].status != Pending
                  case NotVoted => (id, caller) !in s.votes
                  case _ => false)
  {
    if RevokeApproval(s, env, id, caller).result.Ok? { RevokeKeeps(h, opening, s, env, id, caller); }
  }

  lemma ApprovePayable(s: State, env: Env, id: Id, caller: Address)
    requires id in s.vaults && s.vaults[id].status == Pending && TermsOk(s.vaults[id])
    requires Balance(s.ledger, s.vaults[id].token, CONTRACT) >= s.vaults[id].amount
    ensures ApproveVault(s, env, id, caller).result.Ok?
       <==> caller in env.signers && caller in s.vaults[id].approvers && (id, caller) !in s.votes
  {
  }

  /** The vault is released by exactly the approval that completes its threshold. */
  lemma ReleasedAtThreshold(h: Host, opening: Ledger, s: State, env: Env, id: Id, caller: Address)
    requires Inv(h, opening, s) && ApproveVault(s, env, id, caller).result.Ok?
    ensures var s' := ApproveVault(s, env, id, caller).state;
            && Voters(s'.votes, id) == Voters(s.votes, id) + {caller}
            && (s'.vaults[id].status == Released <==> |Voters(s'.votes, id)| == s.vaults[id].threshold)
  {
    var s' := ApproveVault(s, env, id, caller).state;
    ApproveKeeps(h, opening, s, env, id, caller);
    VotersAdded(s.votes, id, caller, id);
    assert s'.votes == s.votes + {(id, caller)};
    assert VaultOk(s', id);
  }

  /** Anybody who signs becomes the admin, once. */
  lemma SetAdminExactly(s: State, env: Env, admin: Address)
    ensures var o := SetAdmin(s, env, admin);
            && (o.result.Ok? <==> s.admin.None? && admin in env.signers)
            && (o.result.Ok? ==> o.state == s.(admin := Some(admin)))
            && (o.result.Err? ==> o.state == s && o.result.error == (if s.admin.Some? then AlreadyInitialized else Aborted))
  {
  }

  /** The admin can cancel any pending vault and no other: the depositor is paid back, which never fails. */
  lemma CancelExactly(h: Host, opening: Ledger, s: State, env: Env, id: Id)
    requires Inv(h, opening, s)
    ensures EmergencyCancel(s, env, id).result.Ok?
       <==> s.admin.Some? && s.admin.value in env.signers && id in s.vaults && s.vaults[id].status == Pending
    ensures EmergencyCancel(s, env, id).result.Ok? ==>
              var s', v := EmergencyCancel(s, env, id).state, s.vaults[id];
              && s' == s.(vaults := s.vaults[id := v.(status := Cancelled)], ledger := s'.ledger,
                          log := s.log + [PaidOut(id, v.token, v.depositor, v.amount)])
              && Pays(s.ledger, s'.ledger, v.token, CONTRACT, v.depositor, v.amount)
    ensures var o := EmergencyCancel(s, env, id);
            o.result.Err? ==>
              && o.state == s
              && (match o.result.error
                  case NotInitialized => s.admin.None?
                  case Aborted => s.admin.Some? && s.admin.value !in env.signers
                  case NotFound => id !in s.vaults
                  case NotPending => id in s.vaults && s.vaults[id].status != Pending
                  case _ => false)
  {
    assert VaultOk(s, id);
    if id in s.vaults {
      Covered(h, opening, s, s.vaults[id].token, id);
      if EmergencyCancel(s, env, id).result.Ok? { CancellationRefunds(s, env, id); }
    }
  }

  // ---------------------------------------------------------------- where the money goes

  /** A vault is created exactly under its guards, with the terms asked for and the approvers as listed, under the hash of
      its number, the time and its depositor; it takes the amount from the depositor. */
  lemma CreateExactly(h: Host, s: State, env: Env, depositor: Address, recipient: Address, token: Address, amount: i128,
                      approvers: seq<Address>, threshold: u32)
    ensures CreateVault(s, h, env, depositor, recipient, token, amount, approvers, threshold).result.Ok?
       <==> (forall i, j :: 0 <= i < j < |approvers| ==> approvers[i] != approvers[j])
            && depositor !in approvers && recipient !in approvers && depositor in env.signers
            && 0 < threshold <= |approvers| && 0 < amount <= Balance(s.ledger, token, depositor) && s.count < MAX_U64
    ensures CreateVault(s, h, env, depositor, recipient, token, amount, approvers, threshold).result.Ok? ==>
              var o := CreateVault(s, h, env, depositor, recipient, token, amount, approvers, threshold);
              var id := o.result.value;
              && id == h.sha(ToBE(s.count + 1, 8) + ToBE(env.now, 8) + h.xdr(depositor))
              && o.state == s.(count := s.count + 1, ledger := o.state.ledger, log := s.log + [Deposited(id, amount)],
                               vaults := s.vaults[id := Vault(depositor, recipient, token, amount, approvers, 0, threshold, Pending)])
              && Pays(s.ledger, o.state.ledger, token, depositor, CONTRACT, amount)
    ensures var o := CreateVault(s, h, env, depositor, recipient, token, amount, approvers, threshold);
            o.result.Err? ==>
              && o.state == s
              && (match o.result.error
                  case EmptyApprovers => approvers == []
                  case DuplicateApprover => exists i, j :: 0 <= i < j < |approvers| && approvers[i] == approvers[j]
                  case ConflictOfInterest => depositor in approvers || recipient in approvers
                  case InvalidAmount => amount <= 0
                  case InvalidThreshold => threshold == 0
                  case ThresholdExceedsApprovers => threshold > |approvers|
                  case Aborted => depositor !in env.signers || Balance(s.ledger, token, depositor) < amount || s.count == MAX_U64
                  case _ => false)
  {
    if Distinct(approvers) { DeduplicateIdentity(approvers); }
    if Transfer(s.ledger, token, depositor, CONTRACT, amount).Some? {
      TransferMoves(s.ledger, token, depositor, CONTRACT, amount);
    }
  }

  /** An approval pays the recipient when it releases the vault, and moves nothing otherwise. */
  lemma ApprovalPays(s: State, env: Env, id: Id, caller: Address)
    requires ApproveVault(s, env, id, caller).result.Ok?
    ensures var s' := ApproveVault(s, env, id, caller).state;
            if s'.vaults[id].status == Released
            then Pays(s.ledger, s'.ledger, s.vaults[id].token, CONTRACT, s.vaults[id].recipient, s.vaults[id].amount)
            else s'.ledger == s.ledger
  {
    var v := s.vaults[id];
    if v.approvals + 1 >= v.threshold { TransferMoves(s.ledger, v.token, CONTRACT, v.recipient, v.amount); }
  }

  /** A cancellation pays the depositor back. */
  lemma CancellationRefunds(s: State, env: Env, id: Id)
    requires EmergencyCancel(s, env, id).result.Ok?
    ensures var v := s.vaults[id];
            Pays(s.ledger, EmergencyCancel(s, env, id).state.ledger, v.token, CONTRACT, v.depositor, v.amount)
  {
    var v := s.vaults[id];
    TransferMoves(s.ledger, v.token, CONTRACT, v.depositor, v.amount);
  }
}
