/** The multisig vault: deposits released by a quorum of approvers. */
module Vault {
  import opened Wrappers
  import opened Soroban
  import opened Bytes
  import opened Hashing

  /** What the host computes: SHA-256 and the serialization of an address. */
  datatype Host = Host(sha: Sha, xdr: Address -> seq<Byte>)

  datatype Status = Pending | Released | Cancelled

  datatype Vault = Vault(depositor: Address, recipient: Address, token: Address, amount: i128,
                         approvers: seq<Address>, approvals: u32, threshold: u32, status: Status)

  /** Aborted is a panic: a missing authorization, a failed transfer or an overflow. */
  datatype Error = NotFound | NotPending | Unauthorized | AlreadyVoted | EmptyApprovers | DuplicateApprover | InvalidAmount
                 | AlreadyInitialized | NotInitialized | ConflictOfInterest | NotVoted | InvalidThreshold
                 | ThresholdExceedsApprovers | Aborted

  /** What an observer records of the token movements. */
  datatype Event = Deposited(id: Id, amount: int)
                 | PaidOut(id: Id, token: Address, to: Address, amount: int)
                 | Moved(token: Address, from: Address, to: Address, amount: int)

  datatype State = State(
    admin: Option<Address>,
    count: u64,
    vaults: map<Id, Vault>,
    votes: set<(Id, Address)>,
    ledger: Ledger,
    log: seq<Event>)

  datatype Outcome<+T> = Outcome(state: State, result: Result<T, Error>)

  function Initial(ledger: Ledger): State {
    State(None, 0, map[], {}, ledger, [])
  }

  function Fail<T>(s: State, e: Error): Outcome<T> {
    Outcome(s, Err(e))
  }

  predicate Distinct(s: seq<Address>) {
    forall i, j :: 0 <= i < j < |s| ==> s[i] != s[j]
  }

  /** The list without repetitions, in the order of first occurrence. */
  function Deduplicate(s: seq<Address>): seq<Address> {
    if s == [] then []
    else
      var rest, last := Deduplicate(s[..|s| - 1]), s[|s| - 1];
      if last in rest then rest else rest + [last]
  }

  function SetAdmin(s: State, env: Env, admin: Address): Outcome<()> {
    if s.admin.Some? then Fail(s, AlreadyInitialized)
    else if admin !in env.signers then Fail(s, Aborted)
    else Outcome(s.(admin := Some(admin)), Ok(()))
  }

  function IdInput(h: Host, nonce: u64, now: u64, depositor: Address): seq<Byte> {
    ToBE(nonce, 8) + ToBE(now, 8) + h.xdr(depositor)
  }

  /** The identifier the host derives for the next vault. */
  function NextId(s: State, h: Host, env: Env, depositor: Address): Id
    requires s.count < MAX_U64
  {
    h.sha(IdInput(h, s.count + 1, env.now, depositor))
  }

  function CreateError(env: Env, depositor: Address, recipient: Address, amount: i128, approvers: seq<Address>,
                       threshold: u32): Option<Error>
  {
    if approvers == [] then Some(EmptyApprovers)
    else if !Distinct(approvers) then Some(DuplicateApprover)
    else if depositor in approvers || recipient in approvers then Some(ConflictOfInterest)
    else if amount <= 0 then Some(InvalidAmount)
    else if threshold == 0 then Some(InvalidThreshold)
    else if threshold > |Deduplicate(approvers)| then Some(ThresholdExceedsApprovers)
    else if depositor !in env.signers then Some(Aborted)
    else None
  }

  function CreateVault(s: State, h: Host, env: Env, depositor: Address, recipient: Address, token: Address, amount: i128,
                       approvers: seq<Address>, threshold: u32): Outcome<Id>
  {
    match CreateError(env, depositor, recipient, amount, approvers, threshold)
    case Some(e) => Fail(s, e)
    case None =>
      match Transfer(s.ledger, token, depositor, CONTRACT, amount)
      case None => Fail(s, Aborted)
      case Some(ledger) =>
        if s.count == MAX_U64 then Fail(s, Aborted)
        else
          var id := NextId(s, h, env, depositor);
          Outcome(File(s, id, Vault(depositor, recipient, token, amount, Deduplicate(approvers), 0, threshold, Pending), ledger),
                  Ok(id))
  }

  function File(s: State, id: Id, v: Vault, ledger: Ledger): State
    requires s.count < MAX_U64
  {
    s.(count := s.count + 1, vaults := s.vaults[id := v], ledger := ledger, log := s.log + [Deposited(id, v.amount)])
  }

  /** Pays the vault's amount to one of its parties and settles it. */
  function Settle(s: State, id: Id, v: Vault, to: Address, votes: set<(Id, Address)>): Outcome<()> {
    match Transfer(s.ledger, v.token, CONTRACT, to, v.amount)
    case None => Fail(s, Aborted)
    case Some(ledger) =>
      Outcome(s.(vaults := s.vaults[id := v], votes := votes, ledger := ledger,
                 log := s.log + [PaidOut(id, v.token, to, v.amount)]), Ok(()))
  }

  function ApproveVault(s: State, env: Env, id: Id, caller: Address): Outcome<()> {
    if caller !in env.signers then Fail(s, Aborted)
    else if id !in s.vaults then Fail(s, NotFound)
    else
      var v := s.vaults[id];
      if v.status != Pending then Fail(s, NotPending)
      else if caller == v.depositor || caller == v.recipient then Fail(s, ConflictOfInterest)
      else if caller !in v.approvers then Fail(s, Unauthorized)
      else if (id, caller) in s.votes then Fail(s, AlreadyVoted)
      else if v.approvals == MAX_U32 then Fail(s, Aborted)
      else
        var approvals: u32 := v.approvals + 1;
        var votes := s.votes + {(id, caller)};
        if approvals >= v.threshold then Settle(s, id, v.(approvals := approvals, status := Released), v.recipient, votes)
        else Outcome(s.(vaults := s.vaults[id := v.(approvals := approvals)], votes := votes), Ok(()))
  }

  function RevokeApproval(s: State, env: Env, id: Id, caller: Address): Outcome<()> {
    if caller !in env.signers then Fail(s, Aborted)
    else if id !in s.vaults then Fail(s, NotFound)
    else
      var v := s.vaults[id];
      if v.status != Pending then Fail(s, NotPending)
      else if (id, caller) !in s.votes then Fail(s, NotVoted)
      else
        // saturating subtraction
        var approvals: u32 := if v.approvals == 0 then 0 else v.approvals - 1;
        Outcome(s.(vaults := s.vaults[id := v.(approvals := approvals)], votes := s.votes - {(id, caller)}), Ok(()))
  }

  function EmergencyCancel(s: State, env: Env, id: Id): Outcome<()> {
    if s.admin.None? then Fail(s, NotInitialized)
    else if s.admin.value !in env.signers then Fail(s, Aborted)
    else if id !in s.vaults then Fail(s, NotFound)
    else
      var v := s.vaults[id];
      if v.status != Pending then Fail(s, NotPending)
      else Settle(s, id, v.(status := Cancelled), v.depositor, s.votes)
  }

  /** Tokens that move outside the vault; nobody but the contract spends from its account. */
  function MoveTokens(s: State, env: Env, token: Address, from: Address, to: Address, amount: int): Outcome<()> {
    if from !in env.signers then Fail(s, Aborted)
    else match Transfer(s.ledger, token, from, to, amount)
      case None => Fail(s, Aborted)
      case Some(ledger) => Outcome(s.(ledger := ledger, log := s.log + [Moved(token, from, to, amount)]), Ok(()))
  }

  datatype Call = CallSetAdmin(admin: Address)
                | CallCreate(depositor: Address, recipient: Address, token: Address, amount: i128,
                             approvers: seq<Address>, threshold: u32)
                | CallApprove(id: Id, caller: Address)
                | CallRevoke(id: Id, caller: Address)
                | CallCancel(id: Id)
                | CallMoveTokens(token: Address, from: Address, to: Address, moved: int)

  function Step(s: State, h: Host, env: Env, c: Call): State {
    match c
    case CallSetAdmin(a) => SetAdmin(s, env, a).state
    case CallCreate(d, r, t, n, a, k) => CreateVault(s, h, env, d, r, t, n, a, k).state
    case CallApprove(id, a) => ApproveVault(s, env, id, a).state
    case CallRevoke(id, a) => RevokeApproval(s, env, id, a).state
    case CallCancel(id) => EmergencyCancel(s, env, id).state
    case CallMoveTokens(t, from, to, n) => MoveTokens(s, env, t, from, to, n).state
  }

  function Run(s: State, h: Host, steps: seq<(Env, Call)>): State {
    if steps == [] then s else Step(Run(s, h, steps[..|steps| - 1]), h, steps[|steps| - 1].0, steps[|steps| - 1].1)
  }
}
