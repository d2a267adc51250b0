/** Reconciliation of the fine ledger: the cached balance, the entries and the settlements always tell the same story. */
module FineLedgerTheorems {
  import opened Wrappers
  import opened Soroban
  import opened FineLedger

  // ---------------------------------------------------------------- what is summed

  ghost function Delta(): Entry -> int { (e: Entry) => e.delta }
  ghost function Assessed(): Entry -> int { (e: Entry) => if e.kind == Assessment then e.delta else 0 }
  ghost function Waived(): Entry -> int { (e: Entry) => if e.kind == Waiver then -e.delta else 0 }

  ghost function ConfirmedOf(patron: Ref): Settlement -> int {
    (p: Settlement) => if p.patron == patron && p.phase == Confirmed then p.amount else 0
  }

  /** The sum of f over the first n entries of a patron. */
  ghost function Tally(f: Entry -> int, entries: map<(Ref, int), Entry>, patron: Ref, n: nat): int {
    if n == 0 then 0
    else Tally(f, entries, patron, n - 1) + (if (patron, n - 1) in entries then f(entries[(patron, n - 1)]) else 0)
  }

  /** An entry stored elsewhere does not count. */
  lemma {:induction false} TallyElsewhere(f: Entry -> int, entries: map<(Ref, int), Entry>, patron: Ref, n: nat, k: (Ref, int), e: Entry)
    requires k.0 != patron || k.1 >= n
    ensures Tally(f, entries[k := e], patron, n) == Tally(f, entries, patron, n)
  {
    if n > 0 { TallyElsewhere(f, entries, patron, n - 1, k, e); }
  }

  // ---------------------------------------------------------------- the invariant

  /** The ledger of one patron: positions 0 to n - 1, references marked as used, the balance the sum of the deltas. */
  ghost predicate LedgerOk(patron: Ref, s: State) {
    var n := Get(s.count, patron);
    && 0 <= n <= MAX_U32
    && (forall i :: (patron, i) in s.entries <==> 0 <= i < n)
    && (forall i :: 0 <= i < n ==> s.entries[(patron, i)].patron == patron && s.entries[(patron, i)].refId in s.refs)
    && 0 <= Get(s.balances, patron) == Tally(Delta(), s.entries, patron, n)
  }

  /** What a patron owes is what was assessed, less what was waived, less the payments that stand. */
  ghost predicate Reconciled(patron: Ref, s: State) {
    var n := Get(s.count, patron);
    n >= 0 && Get(s.balances, patron)
           == Tally(Assessed(), s.entries, patron, n) - Tally(Waived(), s.entries, patron, n)
            - MapTotal(ConfirmedOf(patron), s.settlements)
  }

  ghost predicate RefsUnique(entries: map<(Ref, int), Entry>) {
    forall k, l :: k in entries && l in entries && entries[k].refId == entries[l].refId ==> k == l
  }

  ghost predicate Inv(s: State) {
    && (forall p :: LedgerOk(p, s))
    && (forall p :: Reconciled(p, s))
    && RefsUnique(s.entries)
    && (forall id :: id in s.settlements ==> s.settlements[id].amount > 0)
  }

  /** The four edges of the settlement machine. */
  predicate Edge(from: Phase, to: Phase) {
    || (from == Pending && (to == Confirmed || to == Failed))
    || (from == Confirmed && (to == Refunded || to == Reversed))
  }

  ghost predicate Advances(p: Settlement, q: Settlement) {
    q == p.(phase := q.phase) && (q.phase == p.phase || Edge(p.phase, q.phase))
  }

  /** What no step changes: a recorded entry, a used reference, and all of a settlement but its phase. */
  ghost predicate Preserves(s: State, s': State) {
    && (forall k :: k in s.entries ==> k in s'.entries && s'.entries[k] == s.entries[k])
    && s.refs <= s'.refs
    && (forall id :: id in s.settlements ==> id in s'.settlements && Advances(s.settlements[id], s'.settlements[id]))
  }

  // ---------------------------------------------------------------- steps

  lemma AppendTallies(f: Entry -> int, s: State, e: Entry, patron: Ref)
    requires LedgerOk(patron, s) && Append(s, e).Some?
    ensures var s' := Append(s, e).value;
            && Get(s'.count, patron) >= 0
            && Tally(f, s'.entries, patron, Get(s'.count, patron))
            == Tally(f, s.entries, patron, Get(s.count, patron)) + (if patron == e.patron then f(e) else 0)
  {
    TallyElsewhere(f, s.entries, patron, Get(s.count, patron), (e.patron, Get(s.count, e.patron)), e);
  }

  lemma AppendLedger(s: State, e: Entry, p: Ref)
    requires LedgerOk(p, s) && Append(s, e).Some? && Get(s.balances, e.patron) + e.delta >= 0
    ensures LedgerOk(p, Append(s, e).value)
  {
    AppendTallies(Delta(), s, e, p);
    var s' := Append(s, e).value;
    var n := Get(s.count, p);
    assert forall i :: (p, i) in s'.entries <==> (p, i) in s.entries || (p == e.patron && i == n);
  }

  /** Appending keeps every patron's ledger. */
  lemma AppendKeeps(s: State, e: Entry)
    requires Inv(s) && Append(s, e).Some? && e.refId !in s.refs && Get(s.balances, e.patron) + e.delta >= 0
    ensures var s' := Append(s, e).value; (forall p :: LedgerOk(p, s')) && RefsUnique(s'.entries) && Preserves(s, s')
  {
    var s' := Append(s, e).value;
    forall p ensures LedgerOk(p, s') { AppendLedger(s, e, p); }
    assert LedgerOk(e.patron, s);
    forall k | k in s.entries ensures s.entries[k].refId in s.refs {
      var (p, i) := k;
      assert LedgerOk(p, s) && (p, i) in s.entries;
    }
  }

  /** Appending an entry and changing a settlement's standing payment by as much keeps the reconciliation. */
  lemma AppendReconciles(s: State, e: Entry, settlements: map<Ref, Settlement>)
    requires Inv(s) && Append(s, e).Some?
    requires forall p :: MapTotal(ConfirmedOf(p), settlements)
                      == MapTotal(ConfirmedOf(p), s.settlements)
                       + (if p == e.patron then Assessed()(e) - Waived()(e) - e.delta else 0)
    ensures forall p :: Reconciled(p, Append(s, e).value.(settlements := settlements))
  {
    var s' := Append(s, e).value.(settlements := settlements);
    forall p ensures Reconciled(p, s') {
      assert LedgerOk(p, s) && Reconciled(p, s);
      AppendTallies(Assessed(), s, e, p);
      AppendTallies(Waived(), s, e, p);
    }
  }

  /** A call that only moves a settlement, without standing payments changing. */
  lemma SettlementKeeps(s: State, id: Ref, p: Settlement)
    requires Inv(s) && p.amount > 0 && p.phase != Confirmed
    requires id in s.settlements ==> Advances(s.settlements[id], p) && s.settlements[id].phase != Confirmed
    ensures var s' := s.(settlements := s.settlements[id := p]); Inv(s') && Preserves(s, s')
  {
    var s' := s.(settlements := s.settlements[id := p]);
    forall q ensures LedgerOk(q, s') { assert LedgerOk(q, s); }
    forall q ensures Reconciled(q, s') {
      assert Reconciled(q, s);
      MapTotalUpdate(ConfirmedOf(q), s.settlements, id, p);
    }
  }

  /** A call that appends an entry of its own. */
  lemma EntryKeeps(s: State, e: Entry)
    requires Inv(s) && Append(s, e).Some? && e.refId !in s.refs && Get(s.balances, e.patron) + e.delta >= 0
    requires e.kind == Assessment || e.kind == Waiver
    ensures Inv(Append(s, e).value) && Preserves(s, Append(s, e).value)
  {
    AppendKeeps(s, e);
    AppendReconciles(s, e, s.settlements);
    var s' := Append(s, e).value;
    assert s'.(settlements := s.settlements) == s';
  }

  /** A call that appends the entry of a settlement and moves it in or out of Confirmed. */
  lemma PaymentKeeps(s: State, e: Entry, id: Ref, phase: Phase)
    requires Inv(s) && Append(s, e).Some? && e.refId !in s.refs && Get(s.balances, e.patron) + e.delta >= 0
    requires id in s.settlements && e.patron == s.settlements[id].patron && Edge(s.settlements[id].phase, phase)
    requires e.kind != Assessment && e.kind != Waiver
    requires e.delta == if phase == Confirmed then -s.settlements[id].amount else s.settlements[id].amount
    requires phase != Failed
    ensures var s1 := Append(s, e).value;
            var s' := s1.(settlements := s1.settlements[id := s.settlements[id].(phase := phase)]);
            Inv(s') && Preserves(s, s')
  {
    var q := s.settlements[id].(phase := phase);
    var m := s.settlements[id := q];
    var s1 := Append(s, e).value;
    var s' := s1.(settlements := m);
    AppendKeeps(s, e);
    forall p ensures MapTotal(ConfirmedOf(p), m) == MapTotal(ConfirmedOf(p), s.settlements)
                     + (if p == e.patron then Assessed()(e) - Waived()(e) - e.delta else 0)
    {
      MapTotalUpdate(ConfirmedOf(p), s.settlements, id, q);
    }
    AppendReconciles(s, e, m);
    forall p ensures LedgerOk(p, s') { assert LedgerOk(p, s1); }
  }

  lemma ConfigurationKeeps(s: State, s': State)
    requires Inv(s) && s'.refs == s.refs && s'.count == s.count && s'.entries == s.entries
    requires s'.balances == s.balances && s'.settlements == s.settlements
    ensures Inv(s') && Preserves(s, s')
  {
    forall p ensures LedgerOk(p, s') { assert LedgerOk(p, s); }
    forall p ensures Reconciled(p, s') { assert Reconciled(p, s); }
  }

  lemma AssessKeeps(s: State, env: Env, caller: Address, patron: Ref, refId: Ref, amount: int, meta: Ref)
    requires Inv(s) && Assess(s, env, caller, patron, refId, amount, meta).result.Ok?
    ensures var s' := Assess(s, env, caller, patron, refId, amount, meta).state; Inv(s') && Preserves(s, s')
  {
    assert LedgerOk(patron, s);
    EntryKeeps(s, Entry(patron, refId, Assessment, amount, None, env.now, meta));
  }

  lemma WaiveKeeps(s: State, env: Env, caller: Address, patron: Ref, refId: Ref, amount: int, reason: Ref)
    requires Inv(s) && Waive(s, env, caller, patron, refId, amount, reason).result.Ok?
    ensures var s' := Waive(s, env, caller, patron, refId, amount, reason).state; Inv(s') && Preserves(s, s')
  {
    EntryKeeps(s, Entry(patron, refId, Waiver, -amount, None, env.now, reason));
  }

  lemma ConfirmKeeps(s: State, env: Env, caller: Address, id: Ref, refId: Ref, meta: Ref)
    requires Inv(s) && ConfirmPayment(s, env, caller, id, refId, meta).result.Ok?
    ensures var s' := ConfirmPayment(s, env, caller, id, refId, meta).state; Inv(s') && Preserves(s, s')
  {
    var p := s.settlements[id];
    PaymentKeeps(s, Entry(p.patron, refId, Payment, -p.amount, Some(p.asset), env.now, meta), id, Confirmed);
  }

  lemma StepKeeps(s: State, env: Env, c: Call)
    requires Inv(s)
    ensures Step(s, env, c) == s || (Inv(Step(s, env, c)) && Preserves(s, Step(s, env, c)))
  {
    var s' := Step(s, env, c);
    if s' != s {
      match c
      case CallInitialize(_, _) => ConfigurationKeeps(s, s');
      case CallAddAsset(_, _) => ConfigurationKeeps(s, s');
      case CallAssess(a, p, r, n, m) => AssessKeeps(s, env, a, p, r, n, m);
      case CallWaive(a, p, r, n, m) => WaiveKeeps(s, env, a, p, r, n, m);
      case CallInitiate(a, p, id, t, n) => SettlementKeeps(s, id, Settlement(p, a, t, n, Pending, env.now));
      case CallFail(_, id) => SettlementKeeps(s, id, s.settlements[id].(phase := Failed));
      case CallConfirm(a, id, r, m) => ConfirmKeeps(s, env, a, id, r, m);
      case CallRefund(_, id, r, m) => RestoreKeeps(s, env, id, r, m, Refund, Refunded);
      case CallReverse(_, id, r, m) => RestoreKeeps(s, env, id, r, m, Reversal, Reversed);
    }
  }

  lemma RestoreKeeps(s: State, env: Env, id: Ref, refId: Ref, meta: Ref, kind: Kind, phase: Phase)
    requires Inv(s) && id in s.settlements && s.settlements[id].phase == Confirmed && refId !in s.refs
    requires (kind == Refund && phase == Refunded) || (kind == Reversal && phase == Reversed)
    requires var p := s.settlements[id]; Append(s, Entry(p.patron, refId, kind, p.amount, Some(p.asset), env.now, meta)).Some?
    ensures var p := s.settlements[id];
            var s1 := Append(s, Entry(p.patron, refId, kind, p.amount, Some(p.asset), env.now, meta)).value;
            var s' := s1.(settlements := s1.settlements[id := p.(phase := phase)]);
            Inv(s') && Preserves(s, s')
  {
    var p := s.settlements[id];
    assert LedgerOk(p.patron, s);
    PaymentKeeps(s, Entry(p.patron, refId, kind, p.amount, Some(p.asset), env.now, meta), id, phase);
  }

  // ---------------------------------------------------------------- runs

  predicate Reaches(from: Phase, to: Phase) {
    from == to || Edge(from, to) || (from == Pending && (to == Refunded || to == Reversed))
  }

  /** Over any run entries, references and settlement terms stand, and settlements only move along the edges. */
  ghost predicate Stands(s: State, s': State) {
    && (forall k :: k in s.entries ==> k in s'.entries && s'.entries[k] == s.entries[k])
    && s.refs <= s'.refs
    && (forall id :: id in s.settlements ==>
          && id in s'.settlements
          && s'.settlements[id] == s.settlements[id].(phase := s'.settlements[id].phase)
          && Reaches(s.settlements[id].phase, s'.settlements[id].phase))
  }

  lemma {:induction false} RunKeeps(s: State, steps: seq<(Env, Call)>)
    requires Inv(s)
    ensures Inv(Run(s, steps)) && Stands(s, Run(s, steps))
  {
    var n := |steps| - 1;
    if n >= 0 {
      var s1 := Run(s, steps[..n]);
      RunKeeps(s, steps[..n]);
      StepKeeps(s1, steps[n].0, steps[n].1);
      var s' := Run(s, steps);
      forall id | id in s.settlements
        ensures id in s'.settlements && s'.settlements[id] == s.settlements[id].(phase := s'.settlements[id].phase)
        ensures Reaches(s.settlements[id].phase, s'.settlements[id].phase)
      {
        assert Advances(s1.settlements[id], s'.settlements[id]);
      }
    }
  }

  lemma Reachable(steps: seq<(Env, Call)>)
    ensures Inv(Run(InitialState(), steps))
  {
    var s := InitialState();
    assert forall p :: LedgerOk(p, s);
    assert forall p :: Reconciled(p, s);
    RunKeeps(s, steps);
  }

  // ---------------------------------------------------------------- paging

  /** A patron's ledger, in the order it was written. */
  ghost function Ledger(s: State, patron: Ref): seq<Entry>
    requires LedgerOk(patron, s)
  {
    seq(Get(s.count, patron), i requires 0 <= i < Get(s.count, patron) => s.entries[(patron, i)])
  }

  lemma {:induction false} SliceIsLedger(s: State, patron: Ref, lo: int, hi: int)
    requires LedgerOk(patron, s) && 0 <= lo <= hi <= Get(s.count, patron)
    ensures Slice(s, patron, lo, hi) == Ledger(s, patron)[lo..hi]
    decreases hi - lo
  {
    if lo < hi { SliceIsLedger(s, patron, lo + 1, hi); }
  }

  /** A page is the slice of the ledger at the cursor, at most fifty entries, empty from the end on. */
  lemma PageIsSlice(s: State, patron: Ref, cursor: u32, limit: u32)
    requires LedgerOk(patron, s)
    ensures var l := Ledger(s, patron);
            GetEntries(s, patron, cursor, limit)
            == if cursor < |l| then l[cursor..Min(|l|, cursor + Min(limit, 50))] else []
  {
    var n := Get(s.count, patron);
    if cursor < n {
      SliceIsLedger(s, patron, cursor, Min(n, cursor + Min(limit, MAX_PAGE_SIZE)));
    }
  }

  /** Pages read one after another, each from where the previous one ended, until one comes back empty. */
  function Walk(s: State, patron: Ref, cursor: u32, limits: seq<u32>): seq<Entry>
    decreases |limits|
  {
    if limits == [] then []
    else
      var page := GetEntries(s, patron, cursor, limits[0]);
      if page == [] || cursor + |page| > MAX_U32 then page else page + Walk(s, patron, cursor + |page|, limits[1..])
  }

  /** With any limits of at least one, the pages rebuild the ledger. */
  lemma {:induction false} WalkRebuilds(s: State, patron: Ref, cursor: u32, limits: seq<u32>)
    requires LedgerOk(patron, s) && cursor <= |Ledger(s, patron)|
    requires forall i :: 0 <= i < |limits| ==> limits[i] >= 1
    requires |limits| >= |Ledger(s, patron)| - cursor
    ensures Walk(s, patron, cursor, limits) == Ledger(s, patron)[cursor..]
    decreases |limits|
  {
    var l := Ledger(s, patron);
    if limits == [] {
      assert l[cursor..] == [];
    } else {
      var page := GetEntries(s, patron, cursor, limits[0]);
      PageIsSlice(s, patron, cursor, limits[0]);
      if page == [] {
        assert l[cursor..] == [];
      } else {
        var next := cursor + |page|;
        WalkRebuilds(s, patron, next, limits[1..]);
        assert l[cursor..next] + l[next..] == l[cursor..];
      }
    }
  }

  /** What a reader has gathered, where it continues, and the ledger it now reads. */
  datatype Reading = Reading(entries: seq<Entry>, cursor: u32, state: State)

  /** Reads one page after another, each from where the previous one ended, while other calls run between. */
  function LiveWalk(s: State, patron: Ref, cursor: u32, rounds: seq<(u32, seq<(Env, Call)>)>): Reading
    decreases |rounds|
  {
    if rounds == [] then Reading([], cursor, s)
    else
      var page := GetEntries(s, patron, cursor, rounds[0].0);
      if cursor + |page| > MAX_U32 then Reading([], cursor, s)
      else
        var rest := LiveWalk(Run(s, rounds[0].1), patron, cursor + |page|, rounds[1..]);
        Reading(page + rest.entries, rest.cursor, rest.state)
  }

  /** A patron's ledger only grows at its end. */
  lemma LedgerGrows(s: State, s': State, patron: Ref)
    requires LedgerOk(patron, s) && LedgerOk(patron, s') && Stands(s, s')
    ensures Ledger(s, patron) <= Ledger(s', patron)
  {
    var n, n' := Get(s.count, patron), Get(s'.count, patron);
    if n > 0 { assert (patron, n - 1) in s.entries; }
    forall i | 0 <= i < n ensures Ledger(s, patron)[i] == Ledger(s', patron)[i] {
      assert (patron, i) in s.entries;
    }
  }

  lemma RunGrows(s: State, steps: seq<(Env, Call)>, patron: Ref)
    requires Inv(s)
    ensures Inv(Run(s, steps)) && LedgerOk(patron, s) && LedgerOk(patron, Run(s, steps))
    ensures Ledger(s, patron) <= Ledger(Run(s, steps), patron)
  {
    RunKeeps(s, steps);
    assert LedgerOk(patron, s) && LedgerOk(patron, Run(s, steps));
    LedgerGrows(s, Run(s, steps), patron);
  }

  /** A page read at a cursor within the ledger is the slice there, and empty only at the end. */
  lemma PageWithin(s: State, patron: Ref, cursor: u32, limit: u32)
    requires LedgerOk(patron, s) && cursor <= |Ledger(s, patron)| && limit >= 1
    ensures var l, next := Ledger(s, patron), cursor + |GetEntries(s, patron, cursor, limit)|;
            && next <= |l| <= MAX_U32 && GetEntries(s, patron, cursor, limit) == l[cursor..next]
            && (cursor < next || next == |l|)
  {
    PageIsSlice(s, patron, cursor, limit);
  }

  /** The patron's ledger is in order, and only grows, from one page to the next. */
  ghost predicate Growing(s: State, patron: Ref, rounds: seq<(u32, seq<(Env, Call)>)>)
    decreases |rounds|
  {
    && LedgerOk(patron, s)
    && (rounds != [] ==>
          var s1 := Run(s, rounds[0].1);
          Growing(s1, patron, rounds[1..]) && Ledger(s, patron) <= Ledger(s1, patron))
  }

  lemma {:induction false} AlwaysGrowing(s: State, patron: Ref, rounds: seq<(u32, seq<(Env, Call)>)>)
    requires Inv(s)
    ensures Growing(s, patron, rounds)
    decreases |rounds|
  {
    if rounds != [] {
      RunGrows(s, rounds[0].1, patron);
      AlwaysGrowing(Run(s, rounds[0].1), patron, rounds[1..]);
    } else {
      assert LedgerOk(patron, s);
    }
  }

  lemma LiveWalkReads(s: State, patron: Ref, cursor: u32, rounds: seq<(u32, seq<(Env, Call)>)>, next: u32)
    requires rounds != [] && next == cursor + |GetEntries(s, patron, cursor, rounds[0].0)|
    ensures var rest := LiveWalk(Run(s, rounds[0].1), patron, next, rounds[1..]);
            LiveWalk(s, patron, cursor, rounds)
            == Reading(GetEntries(s, patron, cursor, rounds[0].0) + rest.entries, rest.cursor, rest.state)
  {
  }

  lemma {:induction false} WalkGathers(s: State, patron: Ref, cursor: u32, rounds: seq<(u32, seq<(Env, Call)>)>)
    requires Growing(s, patron, rounds) && cursor <= |Ledger(s, patron)|
    requires forall i :: 0 <= i < |rounds| ==> rounds[i].0 >= 1
    ensures var r := LiveWalk(s, patron, cursor, rounds);
            && LedgerOk(patron, r.state)
            && Gathered(Ledger(s, patron), Ledger(r.state, patron), r.entries, cursor, r.cursor, |rounds|)
    decreases |rounds|
  {
    if rounds != [] {
      var s1 := Run(s, rounds[0].1);
      PageWithin(s, patron, cursor, rounds[0].0);
      var next: u32 := cursor + |GetEntries(s, patron, cursor, rounds[0].0)|;
      WalkGathers(s1, patron, next, rounds[1..]);
      LiveWalkReads(s, patron, cursor, rounds, next);
      ReadOn(s, s1, patron, cursor, rounds[0].0, next, LiveWalk(s1, patron, next, rounds[1..]), |rounds| - 1);
    }
  }

  /** A page, and what is read on from its end in a later state, joined. */
  lemma ReadOn(s: State, s1: State, patron: Ref, cursor: u32, limit: u32, next: u32, r: Reading, pages: nat)
    requires LedgerOk(patron, s) && LedgerOk(patron, s1) && LedgerOk(patron, r.state)
    requires Ledger(s, patron) <= Ledger(s1, patron) && cursor <= |Ledger(s, patron)| && limit >= 1
    requires next == cursor + |GetEntries(s, patron, cursor, limit)|
    requires Gathered(Ledger(s1, patron), Ledger(r.state, patron), r.entries, next, r.cursor, pages)
    ensures Gathered(Ledger(s, patron), Ledger(r.state, patron), GetEntries(s, patron, cursor, limit) + r.entries,
                     cursor, r.cursor, pages + 1)
  {
    PageWithin(s, patron, cursor, limit);
    GatheredMore(Ledger(s, patron), Ledger(s1, patron), Ledger(r.state, patron),
                 GetEntries(s, patron, cursor, limit), r.entries, cursor, next, r.cursor, pages);
  }

  /** Whatever happens between two pages, a reader gathers each entry once, in order and without a gap, and after as many
      pages as there were entries has seen all of those that were there when it began. */
  lemma LiveWalkExact(s: State, patron: Ref, cursor: u32, rounds: seq<(u32, seq<(Env, Call)>)>)
    requires Inv(s) && LedgerOk(patron, s) && cursor <= |Ledger(s, patron)|
    requires forall i :: 0 <= i < |rounds| ==> rounds[i].0 >= 1
    ensures var r := LiveWalk(s, patron, cursor, rounds);
            && LedgerOk(patron, r.state)
            && Gathered(Ledger(s, patron), Ledger(r.state, patron), r.entries, cursor, r.cursor, |rounds|)
  {
    AlwaysGrowing(s, patron, rounds);
    WalkGathers(s, patron, cursor, rounds);
  }

  // ---------------------------------------------------------------- what each call records

  lemma AppendExtends(s: State, e: Entry, p: Ref)
    requires LedgerOk(p, s) && Append(s, e).Some? && LedgerOk(p, Append(s, e).value)
    ensures Ledger(Append(s, e).value, p) == Ledger(s, p) + (if p == e.patron then [e] else [])
    ensures Get(Append(s, e).value.balances, p) == Get(s.balances, p) + (if p == e.patron then e.delta else 0)
  {
  }

  /** From s to s' an entry is written at the end of its patron's ledger, its reference is used up and its delta moves the
      balance; but for the settlements, nothing else changes. */
  ghost predicate Written(s: State, s': State, e: Entry) {
    var n := Get(s.count, e.patron);
    s' == s.(entries := s.entries[(e.patron, n) := e], count := s.count[e.patron := n + 1], refs := s.refs + {e.refId},
             balances := s.balances[e.patron := Get(s.balances, e.patron) + e.delta], settlements := s'.settlements)
  }

  /** Neither the balance nor the number of the entries overflows. */
  predicate HasRoom(s: State, patron: Ref, delta: int) {
    Get(s.balances, patron) + delta <= MAX_I128 && Get(s.count, patron) != MAX_U32
  }

  predicate IsAdmin(s: State, env: Env, caller: Address) {
    s.admin == Some(caller) && caller in env.signers
  }

  /** The admin or the librarian of an initialized ledger, having signed. */
  predicate IsStaff(s: State, env: Env, caller: Address) {
    s.admin.Some? && s.librarian.Some? && (s.admin.value == caller || s.librarian.value == caller) && caller in env.signers
  }

  /** Anybody who signs for the admin initializes the ledger, once. */
  lemma InitializeExactly(s: State, env: Env, admin: Address, librarian: Address)
    ensures var o := Initialize(s, env, admin, librarian);
            && (o.result.Ok? <==> s.admin.None? && admin in env.signers)
            && (o.result.Ok? ==> o.state == s.(admin := Some(admin), librarian := Some(librarian)))
            && (o.result.Err? ==> o.state == s && o.result.error == (if s.admin.Some? then AlreadyInitialized else Aborted))
  {
  }

  lemma AddSupportedAssetExactly(s: State, env: Env, caller: Address, asset: Address)
    ensures var o := AddSupportedAsset(s, env, caller, asset);
            && (o.result.Ok? <==> IsAdmin(s, env, caller))
            && (o.result.Ok? ==> o.state == s.(assets := s.assets + {asset}))
            && (o.result.Err? ==> o.state == s && AdminRefused(s, env, caller, o.result.error))
  {
  }

  ghost predicate AdminRefused(s: State, env: Env, caller: Address, error: Error) {
    match error
    case NotInitialized => s.admin.None?
    case Unauthorized => s.admin.Some? && s.admin.value != caller
    case Aborted => caller !in env.signers
    case _ => false
  }

  /** Why an assessment or a waiver is refused. */
  ghost predicate StaffRefused(s: State, env: Env, caller: Address, patron: Ref, refId: Ref, amount: int, delta: int, error: Error) {
    match error
    case NotInitialized => s.admin.None? || s.librarian.None?
    case Unauthorized => s.admin.Some? && s.librarian.Some? && s.admin.value != caller && s.librarian.value != caller
    case InvalidAmount => amount <= 0
    case DuplicateReference => refId in s.refs
    case Aborted => caller !in env.signers || !HasRoom(s, patron, delta)
    case _ => false
  }

  /** Staff assess any positive amount under a fresh reference. */
  lemma AssessExactly(s: State, env: Env, caller: Address, patron: Ref, refId: Ref, amount: int, meta: Ref)
    ensures var o := Assess(s, env, caller, patron, refId, amount, meta);
            && (o.result.Ok? <==> IsStaff(s, env, caller) && amount > 0 && refId !in s.refs && HasRoom(s, patron, amount))
            && (o.result.Ok? ==>
                  && Written(s, o.state, Entry(patron, refId, Assessment, amount, None, env.now, meta))
                  && o.state.settlements == s.settlements)
            && (o.result.Err? ==> o.state == s && StaffRefused(s, env, caller, patron, refId, amount, amount, o.result.error))
  {
  }

  /** And waive any positive amount up to the balance. */
  lemma WaiveExactly(s: State, env: Env, caller: Address, patron: Ref, refId: Ref, amount: int, reason: Ref)
    ensures var o := Waive(s, env, caller, patron, refId, amount, reason);
            && (o.result.Ok? <==> IsStaff(s, env, caller) && 0 < amount <= Get(s.balances, patron) && refId !in s.refs
                                  && HasRoom(s, patron, -amount))
            && (o.result.Ok? ==>
                  && Written(s, o.state, Entry(patron, refId, Waiver, -amount, None, env.now, reason))
                  && o.state.settlements == s.settlements)
            && (o.result.Err? ==>
                  && o.state == s
                  && (StaffRefused(s, env, caller, patron, refId, amount, -amount, o.result.error)
                      || (o.result.error == WaiverExceedsBalance && amount > Get(s.balances, patron))))
  {
  }

  /** Anybody initiates a payment for any patron, in a supported asset and under a fresh identifier; it binds its terms. */
  lemma InitiateExactly(s: State, env: Env, caller: Address, patron: Ref, id: Ref, asset: Address, amount: int)
    ensures var o := InitiatePayment(s, env, caller, patron, id, asset, amount);
            && (o.result.Ok? <==> caller in env.signers && s.admin.Some? && amount > 0 && asset in s.assets && id !in s.settlements)
            && (o.result.Ok? ==>
                  o.state == s.(settlements := s.settlements[id := Settlement(patron, caller, asset, amount, Pending, env.now)]))
            && (o.result.Err? ==>
                  && o.state == s
                  && (match o.result.error
                      case Aborted => caller !in env.signers
                      case NotInitialized => s.admin.None?
                      case InvalidAmount => amount <= 0
                      case UnsupportedAsset => asset !in s.assets
                      case DuplicateSettlement => id in s.settlements
                      case _ => false))
  {
  }

  /** Why closing a payment is refused: the caller, the settlement, its phase, the reference or the patron's balance. */
  ghost predicate PaymentRefused(s: State, env: Env, caller: Address, id: Ref, from: Phase, refId: Option<Ref>, delta: int, error: Error) {
    match error
    case SettlementNotFound => id !in s.settlements
    case InvalidStateTransition => id in s.settlements && s.settlements[id].phase != from
    case DuplicateReference => refId.Some? && refId.value in s.refs
    case PaymentExceedsBalance => id in s.settlements && Get(s.balances, s.settlements[id].patron) + delta < 0
    case Aborted => caller !in env.signers || (id in s.settlements && !HasRoom(s, s.settlements[id].patron, delta))
    case _ => AdminRefused(s, env, caller, error)
  }

  /** The admin confirms a pending payment of at most the balance: one entry takes its amount off. */
  lemma ConfirmExactly(s: State, env: Env, caller: Address, id: Ref, refId: Ref, meta: Ref)
    ensures ConfirmPayment(s, env, caller, id, refId, meta).result.Ok?
       <==> IsAdmin(s, env, caller) && id in s.settlements && s.settlements[id].phase == Pending && refId !in s.refs
            && s.settlements[id].amount <= Get(s.balances, s.settlements[id].patron)
            && HasRoom(s, s.settlements[id].patron, -s.settlements[id].amount)
    ensures var o := ConfirmPayment(s, env, caller, id, refId, meta);
            && (o.result.Ok? ==>
                  var p := s.settlements[id];
                  && Written(s, o.state, Entry(p.patron, refId, Payment, -p.amount, Some(p.asset), env.now, meta))
                  && o.state.settlements == s.settlements[id := p.(phase := Confirmed)])
            && (o.result.Err? ==>
                  && o.state == s
                  && PaymentRefused(s, env, caller, id, Pending, Some(refId),
                                    if id in s.settlements then -s.settlements[id].amount else 0, o.result.error))
  {
  }

  /** Or declares it failed, which touches no balance. */
  lemma FailExactly(s: State, env: Env, caller: Address, id: Ref)
    ensures var o := FailPayment(s, env, caller, id);
            && (o.result.Ok? <==> IsAdmin(s, env, caller) && id in s.settlements && s.settlements[id].phase == Pending)
            && (o.result.Ok? ==> o.state == s.(settlements := s.settlements[id := s.settlements[id].(phase := Failed)]))
            && (o.result.Err? ==>
                  o.state == s && PaymentRefused(s, env, caller, id, Pending, None, 0, o.result.error)
                  && (o.result.error == Aborted ==> caller !in env.signers))
  {
  }

  /** The admin refunds or reverses exactly a confirmed payment: one entry of its own kind puts the amount back. */
  lemma UndoExactly(s: State, env: Env, caller: Address, id: Ref, refId: Ref, meta: Ref, reversed: bool)
    ensures Undo(s, env, caller, id, refId, meta, reversed).result.Ok?
       <==> IsAdmin(s, env, caller) && id in s.settlements && s.settlements[id].phase == Confirmed && refId !in s.refs
            && HasRoom(s, s.settlements[id].patron, s.settlements[id].amount)
    ensures var o := Undo(s, env, caller, id, refId, meta, reversed);
            && (o.result.Ok? ==>
                  var p := s.settlements[id];
                  && Written(s, o.state, Entry(p.patron, refId, if reversed then Reversal else Refund, p.amount, Some(p.asset),
                                               env.now, meta))
                  && o.state.settlements == s.settlements[id := p.(phase := if reversed then Reversed else Refunded)])
            && (o.result.Err? ==>
                  && o.state == s && o.result.error != PaymentExceedsBalance
                  && PaymentRefused(s, env, caller, id, Confirmed, Some(refId),
                                    if id in s.settlements then s.settlements[id].amount else 0, o.result.error))
  {
  }

  /** An assessment adds one entry and its amount to its patron's ledger, and nothing to anybody else's. */
  lemma AssessRecords(s: State, env: Env, caller: Address, patron: Ref, refId: Ref, amount: int, meta: Ref, p: Ref)
    requires Inv(s) && Assess(s, env, caller, patron, refId, amount, meta).result.Ok?
    ensures var s' := Assess(s, env, caller, patron, refId, amount, meta).state;
            && LedgerOk(p, s) && LedgerOk(p, s')
            && Ledger(s', p) == Ledger(s, p)
                              + (if p == patron then [Entry(patron, refId, Assessment, amount, None, env.now, meta)] else [])
            && Get(s'.balances, p) == Get(s.balances, p) + (if p == patron then amount else 0)
  {
    var e := Entry(patron, refId, Assessment, amount, None, env.now, meta);
    assert LedgerOk(patron, s) && LedgerOk(p, s);
    AppendLedger(s, e, p);
    AppendExtends(s, e, p);
  }

  /** A waiver adds one entry and takes its amount off. */
  lemma WaiverRecords(s: State, env: Env, caller: Address, patron: Ref, refId: Ref, amount: int, reason: Ref, p: Ref)
    requires Inv(s) && Waive(s, env, caller, patron, refId, amount, reason).result.Ok?
    ensures var s' := Waive(s, env, caller, patron, refId, amount, reason).state;
            && LedgerOk(p, s) && LedgerOk(p, s')
            && Ledger(s', p) == Ledger(s, p)
                              + (if p == patron then [Entry(patron, refId, Waiver, -amount, None, env.now, reason)] else [])
            && Get(s'.balances, p) == Get(s.balances, p) - (if p == patron then amount else 0)
  {
    var e := Entry(patron, refId, Waiver, -amount, None, env.now, reason);
    assert LedgerOk(p, s);
    AppendLedger(s, e, p);
    AppendExtends(s, e, p);
  }

  /** Confirming a payment takes its amount off its patron's balance; refunding or reversing it puts it back, once. */
  lemma PaymentUndone(s: State, env: Env, caller: Address, id: Ref, refId: Ref, meta: Ref,
                      later: Env, caller': Address, refId': Ref, meta': Ref, reversed: bool, p: Ref)
    requires ConfirmPayment(s, env, caller, id, refId, meta).result.Ok?
    requires var s1 := ConfirmPayment(s, env, caller, id, refId, meta).state;
             Undo(s1, later, caller', id, refId', meta', reversed).result.Ok?
    ensures var s1 := ConfirmPayment(s, env, caller, id, refId, meta).state;
            var s2 := Undo(s1, later, caller', id, refId', meta', reversed).state;
            && id in s.settlements
            && Get(s1.balances, p) == Get(s.balances, p) - (if p == s.settlements[id].patron then s.settlements[id].amount else 0)
            && Get(s2.balances, p) == Get(s.balances, p)
            && forall e: Env, a: Address, r: Ref, m: Ref, b: bool :: Undo(s2, e, a, id, r, m, b).result.Err?
  {
  }

  function Undo(s: State, env: Env, caller: Address, id: Ref, refId: Ref, meta: Ref, reversed: bool): Outcome {
    if reversed then ReversePayment(s, env, caller, id, refId, meta) else RefundPayment(s, env, caller, id, refId, meta)
  }
}
