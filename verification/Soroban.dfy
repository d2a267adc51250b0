/** What the contracts take from their host: addresses, integer widths, the call environment and token balances. */
module Soroban {
  import opened Wrappers

  type Address = nat

  /** The address of the contract being modelled; nobody else can sign for it. */
  const CONTRACT: Address := 0

  const MAX_U32: int := 0xFFFF_FFFF
  const MAX_U64: int := 0xFFFF_FFFF_FFFF_FFFF
  const MAX_I128: int := 0x7FFF_FFFF_FFFF_FFFF_FFFF_FFFF_FFFF_FFFF
  const MAX_U128: int := 0xFFFF_FFFF_FFFF_FFFF_FFFF_FFFF_FFFF_FFFF

  type u32 = n: int | 0 <= n <= MAX_U32
  type u64 = n: int | 0 <= n <= MAX_U64
  type i128 = n: int | -MAX_I128 - 1 <= n <= MAX_I128

  /** One invocation: the ledger time and the addresses that authorized it. */
  datatype Env = Env(now: u64, signers: set<Address>) {
    predicate WellFormed() { CONTRACT !in signers }
  }

  /** token and account to balance; an absent key is a zero balance */
  type Ledger = map<(Address, Address), int>

  function Balance(l: Ledger, token: Address, account: Address): int {
    if (token, account) in l then l[(token, account)] else 0
  }

  /** Opening balances of the contract: whatever was sent to its address before it was deployed. */
  ghost predicate Endowed(opening: Ledger) {
    forall t :: Balance(opening, t, CONTRACT) >= 0
  }

  /** A token transfer; None is the failure that aborts the invocation. */
  function Transfer(l: Ledger, token: Address, from: Address, to: Address, amount: int): Option<Ledger> {
    if amount < 0 || Balance(l, token, from) < amount then None
    else
      var l1 := l[(token, from) := Balance(l, token, from) - amount];
      Some(l1[(token, to) := Balance(l1, token, to) + amount])
  }

  /** A transfer moves the amount and nothing else; to oneself it moves nothing. */
  lemma TransferMoves(l: Ledger, token: Address, from: Address, to: Address, amount: int)
    requires Transfer(l, token, from, to, amount).Some?
    ensures forall t, a :: Balance(Transfer(l, token, from, to, amount).value, t, a)
                        == Balance(l, t, a) + (if t == token then Credit(a, to, amount) - Credit(a, from, amount) else 0)
  {
  }

  /** From l to l' the amount of the token moves from one account to another, and nothing else moves. */
  ghost predicate Pays(l: Ledger, l': Ledger, token: Address, from: Address, to: Address, amount: int) {
    forall t, a :: Balance(l', t, a)
                == Balance(l, t, a) + (if t == token then Credit(a, to, amount) - Credit(a, from, amount) else 0)
  }

  /** What a payment to one account adds to another. */
  function Credit(account: Address, to: Address, amount: int): int {
    if account == to then amount else 0
  }

  /** Reads a counter map whose absent keys are zero. */
  function Get(m: map<Address, int>, k: Address): int {
    if k in m then m[k] else 0
  }

  function Plus(m: map<Address, int>, k: Address, n: int): map<Address, int> {
    m[k := Get(m, k) + n]
  }

  lemma PlusAdds(m: map<Address, int>, k: Address, n: int)
    ensures forall a :: Get(Plus(m, k, n), a) == Get(m, a) + Credit(a, k, n)
  {
  }

  function GetSeq<T>(m: map<Address, seq<T>>, k: Address): seq<T> {
    if k in m then m[k] else []
  }

  // ---------------------------------------------------------------- sums

  /** The sum of f over the records filed under the identifiers 1 to n. */
  ghost function Total<R>(f: R -> int, m: map<int, R>, n: nat): int {
    if n == 0 then 0 else Total(f, m, n - 1) + (if n in m then f(m[n]) else 0)
  }

  /** What filing r under id adds to the total up to n. */
  ghost function Change<R>(f: R -> int, m: map<int, R>, n: nat, id: int, r: R): int {
    if 1 <= id <= n then f(r) - (if id in m then f(m[id]) else 0) else 0
  }

  lemma {:induction false} TotalUpdate<R>(f: R -> int, m: map<int, R>, n: nat, id: int, r: R)
    ensures Total(f, m[id := r], n) == Total(f, m, n) + Change(f, m, n, id, r)
  {
    if n > 0 { TotalUpdate(f, m, n - 1, id, r); }
  }

  lemma {:induction false} TotalBounds<R>(f: R -> int, m: map<int, R>, n: nat, id: int)
    requires forall i :: 1 <= i <= n && i in m ==> f(m[i]) >= 0
    ensures Total(f, m, n) >= 0
    ensures 1 <= id <= n && id in m ==> f(m[id]) <= Total(f, m, n)
  {
    if n > 0 { TotalBounds(f, m, n - 1, id); }
  }

  /** The sum of f over a sequence. */
  ghost function Sum<T>(f: T -> int, s: seq<T>): int {
    if s == [] then 0 else Sum(f, s[..|s| - 1]) + f(s[|s| - 1])
  }

  lemma SumPush<T(!new)>(s: seq<T>, x: T)
    ensures forall f: T -> int :: Sum(f, s + [x]) == Sum(f, s) + f(x)
  {
    assert (s + [x])[..|s|] == s;
  }

  lemma {:induction false} SumNonnegative<T>(f: T -> int, s: seq<T>)
    requires forall x :: x in s ==> f(x) >= 0
    ensures Sum(f, s) >= 0
  {
    if s != [] { SumNonnegative(f, s[..|s| - 1]); }
  }

  lemma {:induction false} SumZero<T>(f: T -> int, s: seq<T>)
    requires forall x :: x in s ==> f(x) == 0
    ensures Sum(f, s) == 0
  {
    if s != [] { SumZero(f, s[..|s| - 1]); }
  }

  // ---------------------------------------------------------------- sums over the values of a map

  ghost function MapTotal<K, V>(f: V -> int, m: map<K, V>): int
    decreases |m.Keys|
  {
    if m.Keys == {} then 0
    else
      var k :| k in m.Keys;
      assert (m - {k}).Keys == m.Keys - {k};
      f(m[k]) + MapTotal(f, m - {k})
  }

  lemma RemoveBoth<K, V>(m: map<K, V>, j: K, k: K)
    ensures m - {j} - {k} == m - {k} - {j}
  {
  }

  /** Any key may be taken out first. */
  lemma {:induction false} MapTotalRemove<K, V>(f: V -> int, m: map<K, V>, k: K)
    requires k in m
    ensures MapTotal(f, m) == f(m[k]) + MapTotal(f, m - {k})
    decreases |m.Keys|
  {
    var first :| first in m.Keys && MapTotal(f, m) == f(m[first]) + MapTotal(f, m - {first});
    if first != k {
      assert (m - {first}).Keys == m.Keys - {first} && (m - {k}).Keys == m.Keys - {k};
      MapTotalRemove(f, m - {first}, k);
      MapTotalRemove(f, m - {k}, first);
      assert m - {first} - {k} == m - {k} - {first} by { RemoveBoth(m, first, k); }
    }
  }

  /** Storing a value changes the total by what it replaces. */
  lemma MapTotalUpdate<K, V>(f: V -> int, m: map<K, V>, k: K, v: V)
    ensures MapTotal(f, m[k := v]) == MapTotal(f, m) + f(v) - (if k in m then f(m[k]) else 0)
  {
    MapTotalRemove(f, m[k := v], k);
    if k in m {
      MapTotalRemove(f, m, k);
      assert m[k := v] - {k} == m - {k};
    } else {
      assert m[k := v] - {k} == m;
    }
  }

  lemma {:induction false} MapTotalNonnegative<K, V>(f: V -> int, m: map<K, V>)
    requires forall k :: k in m ==> f(m[k]) >= 0
    ensures MapTotal(f, m) >= 0
    decreases |m.Keys|
  {
    if m.Keys != {} {
      var k :| k in m.Keys;
      assert (m - {k}).Keys == m.Keys - {k};
      MapTotalRemove(f, m, k);
      MapTotalNonnegative(f, m - {k});
    }
  }

  predicate Ascending(s: seq<int>) {
    forall i, j :: 0 <= i < j < |s| ==> s[i] < s[j]
  }

  /** The identifiers 1 to n whose record satisfies p, in ascending order. */
  ghost function Matching<R>(p: R -> bool, m: map<int, R>, n: nat): seq<int> {
    if n == 0 then []
    else Matching(p, m, n - 1) + (if n in m && p(m[n]) then [n] else [])
  }

  /** Filing another record under the same selection, or one past the end, leaves the list as it was. */
  lemma {:induction false} MatchingUpdate<R>(p: R -> bool, m: map<int, R>, n: nat, id: int, r: R)
    requires 1 <= id <= n ==> id in m && p(m[id]) == p(r)
    ensures Matching(p, m[id := r], n) == Matching(p, m, n)
  {
    if n > 0 { MatchingUpdate(p, m, n - 1, id, r); }
  }

  /** The list holds every matching identifier once, in ascending order, and nothing else. */
  lemma {:induction false} MatchingIsExact<R>(p: R -> bool, m: map<int, R>, n: nat)
    ensures forall id :: id in Matching(p, m, n) <==> 1 <= id <= n && id in m && p(m[id])
    ensures Ascending(Matching(p, m, n))
  {
    if n > 0 {
      MatchingIsExact(p, m, n - 1);
      var l := Matching(p, m, n - 1);
      assert forall i :: 0 <= i < |l| ==> l[i] in l;
    }
  }

  // ---------------------------------------------------------------- reading a growing list in pages

  /** What a reader has gathered from position i to k of a list that was l when it began and is l' by now: its elements
      there, and all that l had if it read enough pages. */
  ghost predicate Gathered<T>(l: seq<T>, l': seq<T>, gathered: seq<T>, i: int, k: int, pages: nat) {
    && l <= l' && 0 <= i <= k <= |l'| && gathered == l'[i..k]
    && (k >= i + pages || k >= |l|)
  }

  /** One page read first: a slice of the list as it was then, not empty before its end. */
  lemma GatheredMore<T>(l: seq<T>, l1: seq<T>, l2: seq<T>, page: seq<T>, rest: seq<T>, i: int, j: int, k: int, pages: nat)
    requires l <= l1 && 0 <= i <= j <= |l| && page == l[i..j] && (i < j || j == |l|)
    requires Gathered(l1, l2, rest, j, k, pages)
    ensures Gathered(l, l2, page + rest, i, k, pages + 1)
  {
    assert l2[..|l1|] == l1 && l1[..|l|] == l;
    assert l2[i..k] == l2[i..j] + l2[j..k];
  }
}
