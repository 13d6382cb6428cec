/**
 The three reference LRU caches (insertion-ordered map, list plus index, slice plus map) and the
 operation-log loop that replays a command list against them. All are proved against one
 recency list, and the recency list against what "least recently used" means.
*/
module LruCache {
  import Text

  datatype Entry = Entry(key: int, value: int)
  // Oldest first, the most recently used entry last.
  type Recency = seq<Entry>

  // ---------------------------------------------------------------- the recency list

  predicate Has(r: Recency, k: int) {
    exists i :: 0 <= i < |r| && r[i].key == k
  }

  predicate Distinct(r: Recency) {
    forall i, j :: 0 <= i < j < |r| ==> r[i].key != r[j].key
  }

  function ValueOf(r: Recency, k: int): int
    requires Has(r, k)
  {
    if r[0].key == k then r[0].value else ValueOf(r[1..], k)
  }

  function Without(r: Recency, k: int): (r': Recency)
    ensures !Has(r, k) ==> r' == r
    ensures |r'| <= |r| && (Has(r, k) && Distinct(r) ==> |r'| == |r| - 1)
  {
    if r == [] then []
    else if r[0].key == k then
      assert Has(r, k);
      assert Distinct(r) ==> !Has(r[1..], k);
      Without(r[1..], k)
    else
      assert Has(r, k) ==> Has(r[1..], k) by {
        if Has(r, k) {
          var i :| 0 <= i < |r| && r[i].key == k;
          assert r[1..][i - 1].key == k;
        }
      }
      assert r == [r[0]] + r[1..];
      [r[0]] + Without(r[1..], k)
  }

  function Touch(r: Recency, e: Entry): Recency {
    Without(r, e.key) + [e]
  }

  function Lookup(r: Recency, k: int): (int, Recency) {
    if Has(r, k) then (ValueOf(r, k), Touch(r, Entry(k, ValueOf(r, k)))) else (-1, r)
  }

  function Store(r: Recency, cap: int, k: int, v: int): Recency {
    var r' := Touch(r, Entry(k, v));
    if |r'| > cap then r'[1..] else r'
  }

  function Bound(cap: int): nat {
    if cap < 0 then 0 else cap
  }

  predicate Fits(r: Recency, cap: int) {
    Distinct(r) && |r| <= Bound(cap)
  }

  lemma {:induction false} WithoutKeys(r: Recency, k: int)
    ensures forall x :: Has(Without(r, k), x) <==> Has(r, x) && x != k
    ensures Distinct(r) ==> Distinct(Without(r, k))
  {
    if r != [] {
      WithoutKeys(r[1..], k);
      HasCons(r);
      if r[0].key != k {
        HasCons(Without(r, k));
        assert Without(r, k)[1..] == Without(r[1..], k);
        if Distinct(r) {
          assert !Has(r[1..], r[0].key);
          assert !Has(Without(r[1..], k), r[0].key);
        }
      }
    }
  }

  lemma HasCons(r: Recency)
    requires r != []
    ensures forall x :: Has(r, x) <==> r[0].key == x || Has(r[1..], x)
  {
    forall x ensures Has(r, x) <==> r[0].key == x || Has(r[1..], x) {
      if Has(r, x) && r[0].key != x {
        var i :| 0 <= i < |r| && r[i].key == x;
        assert r[1..][i - 1].key == x;
      }
    }
  }

  lemma {:induction false} WithoutConcat(a: Recency, b: Recency, k: int)
    ensures Without(a + b, k) == Without(a, k) + Without(b, k)
  {
    if a == [] {
      assert a + b == b;
    } else {
      assert (a + b)[1..] == a[1..] + b && (a + b)[0] == a[0];
      WithoutConcat(a[1..], b, k);
    }
  }

  // Every operation keeps the list a duplicate-free listing of at most max(capacity, 0) keys.
  lemma StepsFit(r: Recency, cap: int, k: int, v: int)
    requires Fits(r, cap)
    ensures Fits(Lookup(r, k).1, cap)
    ensures Fits(Store(r, cap, k, v), cap)
  {
    WithoutKeys(r, k);
    assert forall e: Entry :: e.key == k ==> Distinct(Touch(r, e));
  }

  // ---------------------------------------------------------------- what LRU means

  // The distinct keys of a touch log in the order of their last touch.
  function LastTouches(log: seq<Entry>): Recency {
    if log == [] then [] else Touch(LastTouches(log[..|log| - 1]), log[|log| - 1])
  }

  function Newest(r: Recency, n: nat): Recency {
    if |r| <= n then r else r[|r| - n..]
  }

  lemma {:induction false} LastTouchesDistinct(log: seq<Entry>)
    ensures Distinct(LastTouches(log))
  {
    if log != [] {
      LastTouchesDistinct(log[..|log| - 1]);
      WithoutKeys(LastTouches(log[..|log| - 1]), log[|log| - 1].key);
    }
  }

  lemma NewestOfSuffix(a: Recency, b: Recency, n: nat)
    requires n <= |b|
    ensures Newest(a + b, n) == Newest(b, n)
  {
  }

  lemma DistinctParts(a: Recency, b: Recency)
    requires Distinct(a + b)
    ensures Distinct(a) && Distinct(b)
    ensures forall x :: Has(b, x) ==> !Has(a, x)
  {
    forall i, j | 0 <= i < j < |a| ensures a[i].key != a[j].key {
      assert (a + b)[i] == a[i] && (a + b)[j] == a[j];
    }
    forall i, j | 0 <= i < j < |b| ensures b[i].key != b[j].key {
      assert (a + b)[|a| + i] == b[i] && (a + b)[|a| + j] == b[j];
    }
    forall i, j | 0 <= i < |a| && 0 <= j < |b| ensures a[i].key != b[j].key {
      assert (a + b)[i] == a[i] && (a + b)[|a| + j] == b[j];
    }
  }

  lemma TouchConcat(a: Recency, b: Recency, e: Entry)
    ensures Touch(a + b, e) == Without(a, e.key) + Touch(b, e)
  {
    WithoutConcat(a, b, e.key);
    Regroup(Without(a, e.key), Without(b, e.key), [e]);
  }

  lemma Regroup(a: Recency, b: Recency, c: Recency)
    ensures (a + b) + c == a + (b + c)
  {
  }

  // Keeping only the newest `n` commutes with a touch of a key that is among them, and a touch of
  // any other key pushes the oldest of them out.
  lemma NewestTouch(r: Recency, n: nat, e: Entry)
    requires Distinct(r)
    ensures Newest(Touch(r, e), n) == Newest(Touch(Newest(r, n), e), n)
  {
    if |r| > n {
      var stale, kept := r[..|r| - n], Newest(r, n);
      assert r == stale + kept;
      DistinctParts(stale, kept);
      TouchConcat(stale, kept, e);
      NewestOfSuffix(Without(stale, e.key), Touch(kept, e), n);
    }
  }

  // Operations on a live cache, and the log of its touches: every put, and every get that hits.
  datatype Use = UseGet(key: int) | UsePut(key: int, value: int)

  function After(uses: seq<Use>, cap: int): Recency {
    if uses == [] then []
    else
      var r, u := After(uses[..|uses| - 1], cap), uses[|uses| - 1];
      match u
      case UseGet(k) => Lookup(r, k).1
      case UsePut(k, v) => Store(r, cap, k, v)
  }

  // The value the last put of `k` gave it; 0 if there was none.
  function LastPut(uses: seq<Use>, k: int): int {
    if uses == [] then 0
    else
      var n := |uses| - 1;
      if uses[n].UsePut? && uses[n].key == k then uses[n].value else LastPut(uses[..n], k)
  }

  predicate EverPut(uses: seq<Use>, k: int) {
    exists i :: 0 <= i < |uses| && uses[i].UsePut? && uses[i].key == k
  }

  // The keys touched since the last touch of `k`, that one included; none if it was never touched.
  function Since(log: seq<Entry>, k: int): set<int> {
    if log == [] then {}
    else
      var n := |log| - 1;
      if log[n].key == k then {k} else if Since(log[..n], k) == {} then {} else Since(log[..n], k) + {log[n].key}
  }

  // `k` is among the `n` most recently touched keys.
  predicate Recent(log: seq<Entry>, n: nat, k: int) {
    Since(log, k) != {} && |Since(log, k)| <= n
  }

  // A get touches its key only if that is among the max(capacity, 0) most recently touched ones. None of
  // this mentions the cache.
  function TouchLog(uses: seq<Use>, cap: int): seq<Entry> {
    if uses == [] then []
    else
      var before, u := uses[..|uses| - 1], uses[|uses| - 1];
      var log := TouchLog(before, cap);
      match u
      case UseGet(k) => if Recent(log, Bound(cap), k) then log + [Entry(k, LastPut(before, k))] else log
      case UsePut(k, v) => log + [Entry(k, v)]
  }

  function Answer(uses: seq<Use>, cap: int, k: int): int {
    if Recent(TouchLog(uses, cap), Bound(cap), k) then LastPut(uses, k) else -1
  }

  function Keys(r: Recency): set<int> {
    set e | e in r :: e.key
  }

  // The keys at the place of `k` in the list or behind it.
  function Behind(r: Recency, k: int): set<int> {
    if r == [] then {} else if r[0].key == k then Keys(r) else Behind(r[1..], k)
  }

  lemma {:induction false} KeysCount(r: Recency)
    requires Distinct(r)
    ensures |Keys(r)| == |r|
  {
    if r != [] {
      KeysCount(r[1..]);
      KeysCons(r[0], r[1..]);
      FirstOnce(r);
      assert r == [r[0]] + r[1..];
    }
  }

  lemma FirstOnce(r: Recency)
    requires r != [] && Distinct(r)
    ensures r[0].key !in Keys(r[1..])
  {
    forall e | e in r[1..]
      ensures e.key != r[0].key
    {
      var i :| 0 <= i < |r| - 1 && r[1..][i] == e;
      assert r[i + 1] == e;
    }
  }

  lemma KeysCons(e: Entry, r: Recency)
    ensures Keys([e] + r) == {e.key} + Keys(r)
  {
    assert forall x :: x in [e] + r <==> x == e || x in r;
  }

  lemma KeysEnd(r: Recency, e: Entry)
    ensures Keys(r + [e]) == Keys(r) + {e.key}
  {
    assert forall x :: x in r + [e] <==> x in r || x == e;
  }

  // A touch of another key only joins what stands behind `k`.
  lemma {:induction false} BehindTouch(r: Recency, e: Entry, k: int)
    requires k != e.key
    ensures Behind(Touch(r, e), k) == if Has(r, k) then Behind(r, k) + {e.key} else {}
  {
    if r == [] {
      assert Touch(r, e) == [e] && [e][1..] == [];
    } else {
      var tail := r[1..];
      HasCons(r);
      BehindTouch(tail, e, k);
      if r[0].key == k {
        KeysOfTouch(r, e);
        assert Touch(r, e)[0] == r[0];
      } else if r[0].key != e.key {
        assert Touch(r, e) == [r[0]] + Touch(tail, e) && ([r[0]] + Touch(tail, e))[1..] == Touch(tail, e);
      }
    }
  }

  lemma KeysOfTouch(r: Recency, e: Entry)
    ensures Keys(Touch(r, e)) == Keys(r) + {e.key}
  {
    WithoutSet(r, e.key);
    KeysEnd(Without(r, e.key), e);
  }

  lemma {:induction false} BehindTouched(r: Recency, e: Entry)
    ensures Behind(Touch(r, e), e.key) == {e.key}
  {
    if r == [] {
      KeysEnd([], e);
      assert Touch(r, e) == [] + [e] && Keys([]) == {};
    } else {
      BehindTouched(r[1..], e);
      if r[0].key != e.key {
        assert Touch(r, e) == [r[0]] + Touch(r[1..], e) && ([r[0]] + Touch(r[1..], e))[1..] == Touch(r[1..], e);
      }
    }
  }

  lemma {:induction false} WithoutSet(r: Recency, k: int)
    ensures Keys(Without(r, k)) == Keys(r) - {k}
  {
    if r != [] {
      WithoutSet(r[1..], k);
      KeysCons(r[0], r[1..]);
      KeysCons(r[0], Without(r[1..], k));
      assert r == [r[0]] + r[1..];
    }
  }

  lemma {:induction false} SinceIsBehind(log: seq<Entry>, k: int)
    ensures Since(log, k) == Behind(LastTouches(log), k)
    ensures Since(log, k) != {} <==> Has(LastTouches(log), k)
  {
    if log != [] {
      var before, e := log[..|log| - 1], log[|log| - 1];
      SinceIsBehind(before, k);
      if k == e.key {
        BehindTouched(LastTouches(before), e);
      } else {
        BehindTouch(LastTouches(before), e, k);
      }
      TouchHas(LastTouches(before), e);
    }
  }

  lemma TouchHas(r: Recency, e: Entry)
    ensures forall x :: Has(Touch(r, e), x) <==> x == e.key || Has(r, x)
  {
    var w := Without(r, e.key);
    WithoutKeys(r, e.key);
    forall x
      ensures Has(w + [e], x) <==> x == e.key || Has(w, x)
    {
      if Has(w, x) {
        var i :| 0 <= i < |w| && w[i].key == x;
        assert (w + [e])[i].key == x;
      }
      assert (w + [e])[|w|].key == e.key;
    }
  }

  lemma {:induction false} NewestByCount(r: Recency, n: nat, k: int)
    requires Distinct(r)
    ensures Has(Newest(r, n), k) <==> Has(r, k) && |Behind(r, k)| <= n
  {
    if r != [] {
      HasCons(r);
      KeysCount(r);
      if r[0].key == k {
        assert Has(r, k);
      } else {
        NewestByCount(r[1..], n, k);
        BehindFits(r, k);
        assert |r| > n ==> Newest(r, n) == Newest(r[1..], n);
      }
    }
  }

  lemma {:induction false} BehindFits(r: Recency, k: int)
    requires Distinct(r)
    ensures |Behind(r, k)| <= |r|
  {
    if r != [] {
      KeysCount(r);
      if r[0].key != k {
        BehindFits(r[1..], k);
      }
    }
  }

  lemma RecentIsNewest(log: seq<Entry>, n: nat, k: int)
    ensures Recent(log, n, k) <==> Has(Newest(LastTouches(log), n), k)
  {
    LastTouchesDistinct(log);
    SinceIsBehind(log, k);
    NewestByCount(LastTouches(log), n, k);
  }

  // Every entry carries the value of the last put of its key.
  ghost predicate Current(r: Recency, uses: seq<Use>) {
    forall e :: e in r ==> EverPut(uses, e.key) && e.value == LastPut(uses, e.key)
  }

  lemma {:induction false} ValueIn(r: Recency, k: int)
    requires Has(r, k)
    ensures Entry(k, ValueOf(r, k)) in r
  {
    HasCons(r);
    if r[0].key != k {
      ValueIn(r[1..], k);
    }
  }

  lemma {:induction false} WithoutIn(r: Recency, k: int)
    ensures forall e :: e in Without(r, k) ==> e in r && (Distinct(r) ==> e.key != k)
  {
    if r != [] {
      WithoutIn(r[1..], k);
      HasCons(r);
      if r[0].key == k && Distinct(r) {
        assert forall i :: 0 <= i < |r[1..]| ==> r[1..][i] == r[i + 1];
      }
    }
  }

  lemma LastPutNext(before: seq<Use>, u: Use, k: int)
    ensures LastPut(before + [u], k) == if u.UsePut? && u.key == k then u.value else LastPut(before, k)
    ensures EverPut(before + [u], k) <==> EverPut(before, k) || (u.UsePut? && u.key == k)
  {
    var uses := before + [u];
    assert uses[..|before|] == before && uses[|before|] == u;
    if EverPut(before, k) {
      var i :| 0 <= i < |before| && before[i].UsePut? && before[i].key == k;
      assert uses[i] == before[i];
    }
  }

  lemma CurrentGet(r: Recency, before: seq<Use>, k: int)
    requires Current(r, before)
    ensures Current(Lookup(r, k).1, before + [UseGet(k)])
  {
    var r' := Lookup(r, k).1;
    WithoutIn(r, k);
    if Has(r, k) { ValueIn(r, k); }
    forall e | e in r'
      ensures EverPut(before + [UseGet(k)], e.key) && e.value == LastPut(before + [UseGet(k)], e.key)
    {
      assert e in r;
      LastPutNext(before, UseGet(k), e.key);
    }
  }

  lemma CurrentPut(r: Recency, before: seq<Use>, cap: int, k: int, v: int)
    requires Distinct(r) && Current(r, before)
    ensures Current(Store(r, cap, k, v), before + [UsePut(k, v)])
  {
    WithoutIn(r, k);
    forall e | e in Store(r, cap, k, v)
      ensures EverPut(before + [UsePut(k, v)], e.key) && e.value == LastPut(before + [UsePut(k, v)], e.key)
    {
      LastPutNext(before, UsePut(k, v), e.key);
      assert e in Without(r, k) || e == Entry(k, v);
    }
  }

  // At every moment, after any history and for any capacity, the cache holds exactly the
  // max(capacity, 0) most recently touched distinct keys, each with its latest value.
  lemma {:induction false} LeastRecentlyUsed(uses: seq<Use>, cap: int)
    ensures After(uses, cap) == Newest(LastTouches(TouchLog(uses, cap)), Bound(cap))
    ensures Fits(After(uses, cap), cap) && Current(After(uses, cap), uses)
  {
    if uses != [] {
      var before, u := uses[..|uses| - 1], uses[|uses| - 1];
      LeastRecentlyUsed(before, cap);
      assert uses == before + [u];
      UseStep(before, u, cap);
    }
  }

  lemma UnfoldUse(before: seq<Use>, u: Use, cap: int)
    ensures var r, log := After(before, cap), TouchLog(before, cap);
      var r', log' := After(before + [u], cap), TouchLog(before + [u], cap);
      && (u.UseGet? ==> r' == Lookup(r, u.key).1)
      && (u.UseGet? && Recent(log, Bound(cap), u.key) ==> log' == log + [Entry(u.key, LastPut(before, u.key))])
      && (u.UseGet? && !Recent(log, Bound(cap), u.key) ==> log' == log)
      && (u.UsePut? ==> r' == Store(r, cap, u.key, u.value) && log' == log + [Entry(u.key, u.value)])
  {
    assert (before + [u])[..|before|] == before && (before + [u])[|before|] == u;
  }

  // The cache `r` and the log of its touches agree.
  ghost predicate Mirrors(r: Recency, log: seq<Entry>, cap: int) {
    r == Newest(LastTouches(log), Bound(cap)) && Fits(r, cap)
  }

  lemma UseStep(before: seq<Use>, u: Use, cap: int)
    requires Mirrors(After(before, cap), TouchLog(before, cap), cap) && Current(After(before, cap), before)
    ensures Mirrors(After(before + [u], cap), TouchLog(before + [u], cap), cap)
    ensures Current(After(before + [u], cap), before + [u])
  {
    var r, log := After(before, cap), TouchLog(before, cap);
    UnfoldUse(before, u, cap);
    match u
    case UseGet(k) =>
      CurrentGet(r, before, k);
      RecentIsNewest(log, Bound(cap), k);
      if Has(r, k) {
        ValueIn(r, k);
        GetStep(r, log, cap, k);
      }
    case UsePut(k, v) =>
      CurrentPut(r, before, cap, k, v);
      PutStep(r, log, cap, k, v);
  }

  lemma GetStep(r: Recency, log: seq<Entry>, cap: int, k: int)
    requires Mirrors(r, log, cap) && Has(r, k)
    ensures Mirrors(Lookup(r, k).1, log + [Entry(k, ValueOf(r, k))], cap)
  {
    StepsFit(r, cap, k, 0);
    TouchStep(r, log, cap, Entry(k, ValueOf(r, k)));
  }

  lemma PutStep(r: Recency, log: seq<Entry>, cap: int, k: int, v: int)
    requires Mirrors(r, log, cap)
    ensures Mirrors(Store(r, cap, k, v), log + [Entry(k, v)], cap)
  {
    StepsFit(r, cap, k, v);
    TouchStep(r, log, cap, Entry(k, v));
    StoreIsNewest(Touch(r, Entry(k, v)), cap);
  }

  lemma StoreIsNewest(r: Recency, cap: int)
    requires r != [] && |r| <= Bound(cap) + 1
    ensures Newest(r, Bound(cap)) == if |r| > cap then r[1..] else r
  {
  }

  lemma TouchStep(r: Recency, log: seq<Entry>, cap: int, e: Entry)
    requires r == Newest(LastTouches(log), Bound(cap)) && |r| <= Bound(cap)
    ensures Newest(LastTouches(log + [e]), Bound(cap)) == Newest(Touch(r, e), Bound(cap))
    ensures |Touch(r, e)| <= Bound(cap) + 1
  {
    LastTouchesDistinct(log);
    assert (log + [e])[..|log|] == log && (log + [e])[|log|] == e;
    NewestTouch(LastTouches(log), Bound(cap), e);
  }

  // So a get answers the value of the last put of its key if that is among the max(capacity, 0) most
  // recently touched keys, and -1 otherwise.
  lemma GetAnswers(uses: seq<Use>, cap: int, k: int)
    ensures Lookup(After(uses, cap), k).0 == Answer(uses, cap, k)
    ensures Recent(TouchLog(uses, cap), Bound(cap), k) ==> EverPut(uses, k)
  {
    LeastRecentlyUsed(uses, cap);
    RecentIsNewest(TouchLog(uses, cap), Bound(cap), k);
    if Has(After(uses, cap), k) {
      ValueIn(After(uses, cap), k);
    }
  }

  // ---------------------------------------------------------------- JavaScript: an ordered map

  // `Map.set`: an existing key keeps its place, a new one goes last.
  function MapSet(m: Recency, k: int, v: int): Recency {
    if m == [] then [Entry(k, v)]
    else if m[0].key == k then [Entry(k, v)] + m[1..]
    else [m[0]] + MapSet(m[1..], k, v)
  }

  lemma {:induction false} SetNewKey(m: Recency, k: int, v: int)
    requires !Has(m, k)
    ensures MapSet(m, k, v) == m + [Entry(k, v)]
  {
    if m != [] {
      HasCons(m);
      SetNewKey(m[1..], k, v);
    }
  }

  class MapCache {
    const cap: int
    var m: Recency

    ghost predicate Valid() reads this { Fits(m, cap) }
    ghost function Model(): Recency reads this { m }

    constructor (capacity: int)
      ensures Valid() && Model() == [] && cap == capacity
    {
      cap, m := capacity, [];
    }

    method Get(key: int) returns (v: int)
      requires Valid()
      modifies this
      ensures Valid() && (v, Model()) == Lookup(old(Model()), key)
      ensures if Has(old(Model()), key) then Entry(key, v) in old(Model()) else v == -1
    {
      StepsFit(m, cap, key, 0);
      if !Has(m, key) { return -1; }
      ValueIn(m, key);
      v := ValueOf(m, key);
      WithoutKeys(m, key);
      SetNewKey(Without(m, key), key, v);
      m := Without(m, key);
      m := MapSet(m, key, v);
    }

    method Put(key: int, value: int)
      requires Valid()
      modifies this
      ensures Valid() && Model() == Store(old(Model()), cap, key, value)
    {
      StepsFit(m, cap, key, value);
      WithoutKeys(m, key);
      SetNewKey(Without(m, key), key, value);
      if Has(m, key) { m := Without(m, key); }
      m := MapSet(m, key, value);
      if |m| > cap { m := Without(m, m[0].key); }
    }
  }

  // ---------------------------------------------------------------- keys in order, values in a map

  predicate Unique(ks: seq<int>) {
    forall i, j :: 0 <= i < j < |ks| ==> ks[i] != ks[j]
  }

  predicate Covers(ks: seq<int>, m: map<int, int>) {
    forall i :: 0 <= i < |ks| ==> ks[i] in m
  }

  // The recency list that a key order and a value map stand for.
  function View(ks: seq<int>, m: map<int, int>): (r: Recency)
    requires Covers(ks, m)
    ensures |r| == |ks| && forall i :: 0 <= i < |ks| ==> r[i] == Entry(ks[i], m[ks[i]])
  {
    seq(|ks|, i requires 0 <= i < |ks| => Entry(ks[i], m[ks[i]]))
  }

  function RemoveKey(ks: seq<int>, k: int): seq<int> {
    if ks == [] then []
    else if ks[0] == k then ks[1..]
    else [ks[0]] + RemoveKey(ks[1..], k)
  }

  lemma {:induction false} RemovedKey(ks: seq<int>, k: int)
    requires Unique(ks)
    ensures Unique(RemoveKey(ks, k))
    ensures forall x :: x in RemoveKey(ks, k) <==> x in ks && x != k
  {
    if ks != [] && ks[0] != k {
      RemovedKey(ks[1..], k);
      assert ks[0] !in ks[1..];
    } else if ks != [] {
      assert ks[0] !in ks[1..];
    }
  }

  lemma {:induction false} RemoveAt(ks: seq<int>, i: nat)
    requires Unique(ks) && i < |ks|
    ensures RemoveKey(ks, ks[i]) == ks[..i] + ks[i + 1..]
  {
    if i > 0 {
      RemoveAt(ks[1..], i - 1);
    }
  }

  lemma ViewKeys(ks: seq<int>, m: map<int, int>)
    requires Covers(ks, m)
    ensures forall k :: Has(View(ks, m), k) <==> k in ks
    ensures Unique(ks) ==> Distinct(View(ks, m))
  {
    forall k | k in ks ensures Has(View(ks, m), k) {
      var i :| 0 <= i < |ks| && ks[i] == k;
      assert View(ks, m)[i].key == k;
    }
  }

  lemma {:induction false} ViewValue(ks: seq<int>, m: map<int, int>, k: int)
    requires Covers(ks, m) && k in ks && Has(View(ks, m), k)
    ensures ValueOf(View(ks, m), k) == m[k]
  {
    if ks[0] != k {
      ViewKeys(ks[1..], m);
      assert View(ks, m)[1..] == View(ks[1..], m);
      ViewValue(ks[1..], m, k);
    }
  }

  lemma {:induction false} ViewRemove(ks: seq<int>, m: map<int, int>, m': map<int, int>, k: int)
    requires Unique(ks) && Covers(ks, m)
    requires forall x :: x in ks && x != k ==> x in m' && m'[x] == m[x]
    ensures Covers(RemoveKey(ks, k), m')
    ensures Without(View(ks, m), k) == View(RemoveKey(ks, k), m')
  {
    RemovedKey(ks, k);
    if ks != [] {
      assert View(ks, m)[1..] == View(ks[1..], m);
      if ks[0] == k {
        ViewKeys(ks[1..], m);
        assert View(ks[1..], m) == View(ks[1..], m');
      } else {
        ViewRemove(ks[1..], m, m', k);
        ViewCons(ks[0], RemoveKey(ks[1..], k), m');
      }
    }
  }

  lemma ViewCons(k: int, ks: seq<int>, m: map<int, int>)
    requires k in m && Covers(ks, m)
    ensures Covers([k] + ks, m) && View([k] + ks, m) == [Entry(k, m[k])] + View(ks, m)
  {
  }

  lemma ViewAppend(ks: seq<int>, m: map<int, int>, k: int)
    requires Covers(ks, m) && k in m
    ensures Covers(ks + [k], m) && View(ks + [k], m) == View(ks, m) + [Entry(k, m[k])]
    ensures Unique(ks) && k !in ks ==> Unique(ks + [k])
  {
  }

  // What a touch does to the two components.
  lemma ViewTouch(ks: seq<int>, m: map<int, int>, k: int, v: int)
    requires Unique(ks) && Covers(ks, m)
    ensures var m' := m[k := v];
            Covers(RemoveKey(ks, k) + [k], m')
            && Touch(View(ks, m), Entry(k, v)) == View(RemoveKey(ks, k) + [k], m')
    ensures Unique(RemoveKey(ks, k) + [k])
  {
    RemovedKey(ks, k);
    ViewRemove(ks, m, m[k := v], k);
    ViewAppend(RemoveKey(ks, k), m[k := v], k);
  }

  lemma ViewDropOldest(ks: seq<int>, m: map<int, int>)
    requires ks != [] && Unique(ks) && Covers(ks, m)
    ensures Covers(ks[1..], m - {ks[0]})
    ensures View(ks, m)[1..] == View(ks[1..], m - {ks[0]})
  {
  }

  // ---------------------------------------------------------------- Go: a slice and a map

  class SliceCache {
    const cap: int
    var m: map<int, int>
    var order: seq<int>

    ghost predicate Valid()
      reads this
    {
      && Unique(order) && |m| == |order| <= Bound(cap)
      && forall k :: k in order <==> k in m
    }

    ghost function Model(): Recency
      requires Valid()
      reads this
    {
      View(order, m)
    }

    constructor (capacity: int)
      ensures Valid() && Model() == [] && cap == capacity
    {
      cap, m, order := capacity, map[], [];
    }

    method TouchKey(key: int)
      requires Unique(order)
      modifies this`order
      ensures order == RemoveKey(old(order), key) + [key]
    {
      var i := 0;
      while i < |order|
        invariant 0 <= i <= |order| && order == old(order)
        invariant key !in order[..i]
      {
        if order[i] == key {
          RemoveAt(order, i);
          order := order[..i] + order[i + 1..];
          break;
        }
        i := i + 1;
      }
      if key !in old(order) { NothingToRemove(old(order), key); }
      order := order + [key];
    }

    method Get(key: int) returns (v: int)
      requires Valid()
      modifies this
      ensures Valid() && (v, Model()) == Lookup(old(Model()), key)
      ensures if Has(old(Model()), key) then Entry(key, v) in old(Model()) else v == -1
    {
      ViewKeys(order, m);
      if key !in m { return -1; }
      v := m[key];
      ViewValue(order, m, key);
      ValueIn(Model(), key);
      ViewTouch(order, m, key, v);
      assert m[key := v] == m;
      RemovedLength(order, key);
      RemovedKey(order, key);
      TouchKey(key);
    }

    method Put(key: int, value: int)
      requires Valid()
      modifies this
      ensures Valid() && Model() == Store(old(Model()), cap, key, value)
    {
      MatchedCovers(order, m);
      ViewTouch(order, m, key, value);
      Matched(order, m, key, value);
      m := m[key := value];
      TouchKey(key);
      if |m| > cap {
        var oldest := order[0];
        ViewDropOldest(order, m);
        MatchedTail(order, m);
        order := order[1..];
        m := m - {oldest};
      }
    }
  }

  lemma MatchedTail(ks: seq<int>, m: map<int, int>)
    requires ks != [] && Unique(ks) && |m| == |ks| && (forall x :: x in ks <==> x in m)
    ensures var m' := m - {ks[0]};
      Unique(ks[1..]) && |m'| == |ks[1..]| && forall x :: x in ks[1..] <==> x in m'
  {
    assert ks == [ks[0]] + ks[1..] && ks[0] !in ks[1..];
    MatchedCovers(ks, m);
    assert m == (m - {ks[0]})[ks[0] := m[ks[0]]];
  }

  lemma MatchedCovers(ks: seq<int>, m: map<int, int>)
    requires forall x :: x in ks <==> x in m
    ensures Covers(ks, m)
  {
    forall i | 0 <= i < |ks|
      ensures ks[i] in m
    {
      var k := ks[i];
      assert k in ks;
    }
  }

  // A touch of `k` keeps the two components about the same keys.
  lemma Matched(ks: seq<int>, m: map<int, int>, k: int, v: int)
    requires Unique(ks) && |m| == |ks| && forall x :: x in ks <==> x in m
    ensures var ks', m' := RemoveKey(ks, k) + [k], m[k := v];
      Unique(ks') && |m'| == |ks'| <= |m| + 1 && forall x :: x in ks' <==> x in m'
  {
    RemovedLength(ks, k);
    RemovedKey(ks, k);
  }

  lemma {:induction false} NothingToRemove(ks: seq<int>, k: int)
    requires k !in ks
    ensures RemoveKey(ks, k) == ks
  {
    if ks != [] { NothingToRemove(ks[1..], k); }
  }

  lemma {:induction false} RemovedLength(ks: seq<int>, k: int)
    ensures |RemoveKey(ks, k)| == if k in ks then |ks| - 1 else |ks|
  {
    if ks != [] && ks[0] != k { RemovedLength(ks[1..], k); }
  }

  // ---------------------------------------------------------------- C++: a list and an index into it

  // A list node, named so that a stored iterator can be told from its neighbours.
  datatype ListNode = ListNode(id: nat, key: int)
  datatype Slot = Slot(value: int, at: nat)

  function KeysOf(order: seq<ListNode>): (ks: seq<int>)
    ensures |ks| == |order| && forall i :: 0 <= i < |ks| ==> ks[i] == order[i].key
  {
    seq(|order|, i requires 0 <= i < |order| => order[i].key)
  }

  function ValuesOf(m: map<int, Slot>): (vs: map<int, int>)
    ensures vs.Keys == m.Keys && forall k :: k in m ==> vs[k] == m[k].value
  {
    map k | k in m :: m[k].value
  }

  // `order.erase(it)`.
  function EraseNode(order: seq<ListNode>, id: nat): seq<ListNode> {
    if order == [] then []
    else if order[0].id == id then order[1..]
    else [order[0]] + EraseNode(order[1..], id)
  }

  // Every stored iterator names the one node holding its key, and every node has its slot.
  ghost predicate Indexed(order: seq<ListNode>, m: map<int, Slot>, next: nat) {
    && Unique(KeysOf(order)) && |m| == |order|
    && Separate(order) && Linked(order, m, next)
    && forall k :: k in m ==> k in KeysOf(order)
  }

  ghost predicate Separate(order: seq<ListNode>) {
    forall i, j :: 0 <= i < j < |order| ==> order[i].id != order[j].id
  }

  ghost predicate Linked(order: seq<ListNode>, m: map<int, Slot>, next: nat) {
    forall n :: n in order ==> n.id < next && n.key in m && m[n.key].at == n.id
  }

  lemma {:induction false} EraseIsRemove(order: seq<ListNode>, id: nat, k: int)
    requires forall i :: 0 <= i < |order| ==> (order[i].id == id <==> order[i].key == k)
    ensures KeysOf(EraseNode(order, id)) == RemoveKey(KeysOf(order), k)
  {
    if order != [] {
      KeysTail(order);
      if order[0].id != id {
        EraseIsRemove(order[1..], id, k);
        NodeKeys(order[0], EraseNode(order[1..], id));
      }
    }
  }

  lemma NodeKeys(n: ListNode, u: seq<ListNode>)
    ensures KeysOf([n] + u) == [n.key] + KeysOf(u)
  {
  }

  lemma {:induction false} EraseKeepsIds(order: seq<ListNode>, id: nat)
    requires Separate(order)
    ensures Separate(EraseNode(order, id))
    ensures forall n :: n in EraseNode(order, id) ==> n in order
  {
    if order != [] && order[0].id != id {
      EraseKeepsIds(order[1..], id);
      var rest := EraseNode(order[1..], id);
      forall j | 0 <= j < |rest| ensures rest[j].id != order[0].id {
        assert rest[j] in order[1..];
      }
    }
  }

  // The list without `key`: erased through its iterator, or untouched when there is none.
  function Unlinked(order: seq<ListNode>, m: map<int, Slot>, key: int): seq<ListNode> {
    if key in m then EraseNode(order, m[key].at) else order
  }

  lemma UnlinkedKeys(order: seq<ListNode>, m: map<int, Slot>, next: nat, key: int)
    requires Indexed(order, m, next)
    ensures KeysOf(Unlinked(order, m, key)) == RemoveKey(KeysOf(order), key)
    ensures forall n :: n in Unlinked(order, m, key) ==> n in order
    ensures Separate(Unlinked(order, m, key))
  {
    if key in m {
      var p :| 0 <= p < |order| && KeysOf(order)[p] == key;
      forall i | 0 <= i < |order| ensures order[i].id == m[key].at <==> order[i].key == key {
        assert order[p] in order && order[i] in order;
      }
      EraseIsRemove(order, m[key].at, key);
      EraseKeepsIds(order, m[key].at);
    } else {
      NothingToRemove(KeysOf(order), key);
    }
  }

  lemma TouchIndexed(order: seq<ListNode>, m: map<int, Slot>, next: nat, key: int, v: int)
    requires Indexed(order, m, next)
    ensures Indexed(Unlinked(order, m, key) + [ListNode(next, key)], m[key := Slot(v, next)], next + 1)
  {
    var u := Unlinked(order, m, key);
    var o, m' := u + [ListNode(next, key)], m[key := Slot(v, next)];
    UnlinkedKeys(order, m, next, key);
    var ks := KeysOf(u);
    RemovedKey(KeysOf(order), key);
    RemovedLength(KeysOf(order), key);
    assert KeysOf(o) == ks + [key];
    assert Separate(o) && Linked(o, m', next + 1) by {
      forall i | 0 <= i < |u| ensures u[i].key in m' && m'[u[i].key].at == u[i].id < next {
        assert u[i] in order && ks[i] in ks;
      }
    }
    forall k | k in m' ensures k in KeysOf(o) {
      if k == key { assert KeysOf(o)[|u|] == key; } else { assert k in ks; }
    }
  }

  lemma TouchView(order: seq<ListNode>, m: map<int, Slot>, next: nat, key: int, v: int)
    requires Indexed(order, m, next)
    ensures var o := Unlinked(order, m, key) + [ListNode(next, key)];
            var m' := ValuesOf(m[key := Slot(v, next)]);
            Covers(KeysOf(order), ValuesOf(m)) && Covers(KeysOf(o), m')
            && View(KeysOf(o), m') == Touch(View(KeysOf(order), ValuesOf(m)), Entry(key, v))
  {
    var u := Unlinked(order, m, key);
    UnlinkedKeys(order, m, next, key);
    IndexedCovers(order, m, next);
    ViewTouch(KeysOf(order), ValuesOf(m), key, v);
    KeysAppend(u, ListNode(next, key));
    ValuesUpdate(m, key, Slot(v, next));
  }

  lemma KeysAppend(u: seq<ListNode>, n: ListNode)
    ensures KeysOf(u + [n]) == KeysOf(u) + [n.key]
  {
  }

  lemma KeysTail(order: seq<ListNode>)
    requires order != []
    ensures KeysOf(order[1..]) == KeysOf(order)[1..]
  {
  }

  lemma ValuesUpdate(m: map<int, Slot>, k: int, slot: Slot)
    ensures ValuesOf(m[k := slot]) == ValuesOf(m)[k := slot.value]
  {
  }

  lemma ValuesRemove(m: map<int, Slot>, k: int)
    ensures ValuesOf(m - {k}) == ValuesOf(m) - {k}
  {
  }

  lemma IndexedCovers(order: seq<ListNode>, m: map<int, Slot>, next: nat)
    requires Linked(order, m, next)
    ensures Covers(KeysOf(order), ValuesOf(m))
  {
    forall i | 0 <= i < |order| ensures KeysOf(order)[i] in m {
      assert order[i] in order;
    }
  }

  lemma DropLinked(order: seq<ListNode>, m: map<int, Slot>, next: nat)
    requires Unique(KeysOf(order)) && Linked(order, m, next) && order != []
    ensures Linked(order[1..], m - {order[0].key}, next)
  {
    forall n | n in order[1..] ensures n in order && n.key != order[0].key {
      var i :| 0 <= i < |order| - 1 && order[1..][i] == n;
      assert order[i + 1] == n && KeysOf(order)[i + 1] == n.key;
    }
  }

  lemma TailCovers(ks: seq<int>, m: map<int, Slot>)
    requires ks != [] && ks[0] in m && forall k :: k in m ==> k in ks
    ensures forall k :: k in m - {ks[0]} ==> k in ks[1..]
    ensures |m - {ks[0]}| == |m| - 1
  {
    assert m == (m - {ks[0]})[ks[0] := m[ks[0]]];
  }

  lemma DropIndexed(order: seq<ListNode>, m: map<int, Slot>, next: nat)
    requires Indexed(order, m, next) && order != []
    ensures Indexed(order[1..], m - {order[0].key}, next)
  {
    KeysTail(order);
    DropLinked(order, m, next);
    assert order[0] in order;
    TailCovers(KeysOf(order), m);
  }

  lemma DropView(order: seq<ListNode>, m: map<int, Slot>, next: nat)
    requires Indexed(order, m, next) && order != []
    ensures var m' := ValuesOf(m - {order[0].key});
            Covers(KeysOf(order), ValuesOf(m)) && Covers(KeysOf(order[1..]), m')
            && View(KeysOf(order[1..]), m') == View(KeysOf(order), ValuesOf(m))[1..]
  {
    IndexedCovers(order, m, next);
    KeysTail(order);
    ValuesRemove(m, order[0].key);
    ViewDropOldest(KeysOf(order), ValuesOf(m));
  }

  class IndexCache {
    const cap: int
    // Back to front: the front of the list is the last element here.
    var order: seq<ListNode>
    var m: map<int, Slot>
    var next: nat

    ghost predicate Valid()
      reads this
    {
      Indexed(order, m, next) && |m| <= Bound(cap)
    }

    ghost function Model(): Recency
      requires Valid()
      reads this
    {
      IndexedCovers(order, m, next);
      View(KeysOf(order), ValuesOf(m))
    }

    constructor (capacity: int)
      ensures Valid() && Model() == [] && cap == capacity
    {
      cap, order, m, next := capacity, [], map[], 0;
    }

    method Get(key: int) returns (v: int)
      requires Valid()
      modifies this
      ensures Valid() && (v, Model()) == Lookup(old(Model()), key)
      ensures if Has(old(Model()), key) then Entry(key, v) in old(Model()) else v == -1
    {
      IndexedCovers(order, m, next);
      ViewKeys(KeysOf(order), ValuesOf(m));
      if key !in m { return -1; }
      ViewValue(KeysOf(order), ValuesOf(m), key);
      ValueIn(Model(), key);
      TouchIndexed(order, m, next, key, m[key].value);
      TouchView(order, m, next, key, m[key].value);
      order := EraseNode(order, m[key].at) + [ListNode(next, key)];
      m := m[key := Slot(m[key].value, next)];
      next := next + 1;
      v := m[key].value;
    }

    method Put(key: int, value: int)
      requires Valid()
      modifies this
      ensures Valid() && Model() == Store(old(Model()), cap, key, value)
    {
      TouchIndexed(order, m, next, key, value);
      TouchView(order, m, next, key, value);
      if key in m { order := EraseNode(order, m[key].at); }
      order := order + [ListNode(next, key)];
      m := m[key := Slot(value, next)];
      next := next + 1;
      if |m| > cap {
        DropIndexed(order, m, next);
        DropView(order, m, next);
        var oldest := order[0].key;
        order := order[1..];
        m := m - {oldest};
      }
    }
  }

  // ---------------------------------------------------------------- replaying an operation log

  datatype Op = New(capacity: int) | GetOp(key: int) | PutOp(key: int, value: int) | Unknown

  // A run either prints its lines at the very end or dies without printing any.
  datatype Outcome = Printed(lines: seq<string>) | Crashed

  datatype Object = NoObject | Live(cap: int, r: Recency)

  // The driver loop on the recency list. `zero` says what a call before the first constructor
  // meets: in Go an empty object of capacity 0 whose map accepts reads but no writes, elsewhere
  // no object at all.
  function Replay(ops: seq<Op>, obj: Object, lines: seq<string>, zero: bool): Outcome
    decreases |ops|
  {
    if ops == [] then Printed(lines)
    else match (ops[0], obj)
      case (New(c), _) => Replay(ops[1..], Live(c, []), lines + ["null"], zero)
      case (Unknown, _) => Replay(ops[1..], obj, lines + ["null"], zero)
      case (GetOp(k), Live(c, r)) =>
        var (v, r') := Lookup(r, k);
        Replay(ops[1..], Live(c, r'), lines + [Text.ToText(Text.Int(v))], zero)
      case (PutOp(k, v), Live(c, r)) =>
        Replay(ops[1..], Live(c, Store(r, c, k, v)), lines + ["null"], zero)
      case (GetOp(k), NoObject) =>
        if zero then Replay(ops[1..], obj, lines + [Text.ToText(Text.Int(-1))], zero) else Crashed
      case (PutOp(k, v), NoObject) => Crashed
  }

  // One line per operation, always.
  lemma {:induction false} OneLineEach(ops: seq<Op>, obj: Object, lines: seq<string>, zero: bool)
    ensures var out := Replay(ops, obj, lines, zero);
            out.Printed? ==> lines <= out.lines && |out.lines| == |lines| + |ops|
    decreases |ops|
  {
    if ops != [] {
      match (ops[0], obj)
      case (New(c), _) => OneLineEach(ops[1..], Live(c, []), lines + ["null"], zero);
      case (Unknown, _) => OneLineEach(ops[1..], obj, lines + ["null"], zero);
      case (GetOp(k), Live(c, r)) =>
        OneLineEach(ops[1..], Live(c, Lookup(r, k).1), lines + [Text.ToText(Text.Int(Lookup(r, k).0))], zero);
      case (PutOp(k, v), Live(c, r)) =>
        OneLineEach(ops[1..], Live(c, Store(r, c, k, v)), lines + ["null"], zero);
      case (GetOp(k), NoObject) =>
        if zero { OneLineEach(ops[1..], obj, lines + [Text.ToText(Text.Int(-1))], zero); }
      case (PutOp(k, v), NoObject) =>
    }
  }

  // Some `get` comes before the first constructor, and no `put` does.
  predicate StrayGet(ops: seq<Op>, seen: bool)
    decreases |ops|
  {
    if ops == [] then seen
    else match ops[0]
      case New(_) => seen
      case PutOp(_, _) => false
      case GetOp(_) => StrayGet(ops[1..], true)
      case Unknown => StrayGet(ops[1..], seen)
  }

  lemma {:induction false} ZeroObjectSurvives(ops: seq<Op>, lines: seq<string>)
    ensures Replay(ops, NoObject, lines, true).Crashed? || StrayGet(ops, true)
    ensures StrayGet(ops, true) ==> Replay(ops, NoObject, lines, true).Printed?
    decreases |ops|
  {
    if ops != [] {
      match ops[0]
      case New(c) => LiveNeverCrashes(ops[1..], c, [], lines + ["null"]);
      case Unknown => ZeroObjectSurvives(ops[1..], lines + ["null"]);
      case GetOp(k) => ZeroObjectSurvives(ops[1..], lines + [Text.ToText(Text.Int(-1))]);
      case PutOp(k, v) =>
    }
  }

  // Once an object exists the log cannot crash, and the two ways of starting make no difference.
  lemma {:induction false} LiveNeverCrashes(ops: seq<Op>, c: int, r: Recency, lines: seq<string>)
    ensures Replay(ops, Live(c, r), lines, true).Printed?
    ensures Replay(ops, Live(c, r), lines, true) == Replay(ops, Live(c, r), lines, false)
    decreases |ops|
  {
    if ops != [] {
      match ops[0]
      case New(c') => LiveNeverCrashes(ops[1..], c', [], lines + ["null"]);
      case Unknown => LiveNeverCrashes(ops[1..], c, r, lines + ["null"]);
      case GetOp(k) =>
        LiveNeverCrashes(ops[1..], c, Lookup(r, k).1, lines + [Text.ToText(Text.Int(Lookup(r, k).0))]);
      case PutOp(k, v) => LiveNeverCrashes(ops[1..], c, Store(r, c, k, v), lines + ["null"]);
    }
  }

  // Go and the other languages tell the same story exactly on the logs without a stray `get`;
  // every log that starts with its constructor, as the wire format asks, is one of them.
  lemma {:induction false} SameOutcome(ops: seq<Op>, lines: seq<string>)
    ensures Replay(ops, NoObject, lines, true) == Replay(ops, NoObject, lines, false)
            <==> !StrayGet(ops, false)
    decreases |ops|
  {
    if ops != [] {
      match ops[0]
      case New(c) => LiveNeverCrashes(ops[1..], c, [], lines + ["null"]);
      case Unknown => SameOutcome(ops[1..], lines + ["null"]);
      case GetOp(k) => ZeroObjectSurvives(ops[1..], lines + [Text.ToText(Text.Int(-1))]);
      case PutOp(k, v) =>
    }
  }

  // ---------------------------------------------------------------- what a replay prints

  // The capacity the last constructor asked for, and the uses since; None before the first.
  datatype Life = Unborn | Life(cap: int, uses: seq<Use>)

  function LifeAfter(ops: seq<Op>): Life {
    if ops == [] then Unborn
    else
      var before := LifeAfter(ops[..|ops| - 1]);
      match ops[|ops| - 1]
      case New(c) => Life(c, [])
      case GetOp(k) => if before.Life? then before.(uses := before.uses + [UseGet(k)]) else before
      case PutOp(k, v) => if before.Life? then before.(uses := before.uses + [UsePut(k, v)]) else before
      case Unknown => before
  }

  function ObjectOf(l: Life): Object {
    if l.Unborn? then NoObject else Live(l.cap, After(l.uses, l.cap))
  }

  // A call on no object.
  predicate Fatal(done: seq<Op>, op: Op, zero: bool) {
    LifeAfter(done).Unborn? && (op.PutOp? || (op.GetOp? && !zero))
  }

  // The line of `op` after `done`.
  function LineOf(done: seq<Op>, op: Op): string {
    var l := LifeAfter(done);
    if !op.GetOp? then "null"
    else Text.ToText(Text.Int(if l.Unborn? then -1 else Answer(l.uses, l.cap, op.key)))
  }

  lemma LifeNext(done: seq<Op>, op: Op)
    ensures var l, l' := LifeAfter(done), LifeAfter(done + [op]);
      match op
      case New(c) => ObjectOf(l') == Live(c, [])
      case Unknown => l' == l
      case GetOp(k) => if l.Unborn? then l' == l else ObjectOf(l') == Live(l.cap, Lookup(After(l.uses, l.cap), k).1)
      case PutOp(k, v) =>
        if l.Unborn? then l' == l else ObjectOf(l') == Live(l.cap, Store(After(l.uses, l.cap), l.cap, k, v))
  {
    var l := LifeAfter(done);
    assert (done + [op])[..|done|] == done && (done + [op])[|done|] == op;
    if l.Life? && (op.GetOp? || op.PutOp?) {
      var u := if op.GetOp? then UseGet(op.key) else UsePut(op.key, op.value);
      assert (l.uses + [u])[..|l.uses|] == l.uses && (l.uses + [u])[|l.uses|] == u;
    }
  }

  ghost predicate Prints(done: seq<Op>, ops: seq<Op>, lines: seq<string>, out: seq<string>) {
    && |out| == |lines| + |ops| && lines <= out
    && forall i :: 0 <= i < |ops| ==> out[|lines| + i] == LineOf(done + ops[..i], ops[i])
  }

  ghost predicate Survives(done: seq<Op>, ops: seq<Op>, zero: bool) {
    forall i :: 0 <= i < |ops| ==> !Fatal(done + ops[..i], ops[i], zero)
  }

  lemma PrintsCons(done: seq<Op>, ops: seq<Op>, lines: seq<string>, out: seq<string>)
    requires ops != [] && Prints(done + [ops[0]], ops[1..], lines + [LineOf(done, ops[0])], out)
    ensures Prints(done, ops, lines, out)
  {
    forall i | 0 <= i < |ops|
      ensures out[|lines| + i] == LineOf(done + ops[..i], ops[i])
    {
      if i == 0 {
        assert done + ops[..0] == done;
      } else {
        assert done + ops[..i] == (done + [ops[0]]) + ops[1..][..i - 1];
        assert ops[1..][i - 1] == ops[i];
      }
    }
  }

  lemma SurvivesCons(done: seq<Op>, ops: seq<Op>, zero: bool)
    requires ops != []
    ensures Survives(done, ops, zero) <==> !Fatal(done, ops[0], zero) && Survives(done + [ops[0]], ops[1..], zero)
  {
    assert done + ops[..0] == done;
    forall i | 0 <= i < |ops| - 1
      ensures done + ops[..i + 1] == (done + [ops[0]]) + ops[1..][..i] && ops[1..][i] == ops[i + 1]
    {
    }
    if Survives(done, ops, zero) {
      forall i | 0 <= i < |ops[1..]|
        ensures !Fatal((done + [ops[0]]) + ops[1..][..i], ops[1..][i], zero)
      {
        assert !Fatal(done + ops[..i + 1], ops[i + 1], zero);
      }
    }
    if !Fatal(done, ops[0], zero) && Survives(done + [ops[0]], ops[1..], zero) {
      forall i | 0 <= i < |ops|
        ensures !Fatal(done + ops[..i], ops[i], zero)
      {
        if i > 0 {
          assert !Fatal((done + [ops[0]]) + ops[1..][..i - 1], ops[1..][i - 1], zero);
        }
      }
    }
  }

  // One turn of the driver's loop prints the line of its operation, or crashes.
  lemma ReplayTurn(done: seq<Op>, ops: seq<Op>, lines: seq<string>, zero: bool)
    requires ops != []
    ensures Replay(ops, ObjectOf(LifeAfter(done)), lines, zero)
      == if Fatal(done, ops[0], zero) then Crashed
         else Replay(ops[1..], ObjectOf(LifeAfter(done + [ops[0]])), lines + [LineOf(done, ops[0])], zero)
  {
    var l := LifeAfter(done);
    LifeNext(done, ops[0]);
    if ops[0].GetOp? && l.Life? {
      GetAnswers(l.uses, l.cap, ops[0].key);
    }
  }

  lemma {:induction false} ReplayFrom(done: seq<Op>, ops: seq<Op>, lines: seq<string>, zero: bool)
    ensures var out := Replay(ops, ObjectOf(LifeAfter(done)), lines, zero);
      && (out.Crashed? <==> !Survives(done, ops, zero))
      && (out.Printed? ==> Prints(done, ops, lines, out.lines))
    decreases |ops|
  {
    if ops != [] {
      ReplayTurn(done, ops, lines, zero);
      SurvivesCons(done, ops, zero);
      if !Fatal(done, ops[0], zero) {
        ReplayFrom(done + [ops[0]], ops[1..], lines + [LineOf(done, ops[0])], zero);
        var out := Replay(ops, ObjectOf(LifeAfter(done)), lines, zero);
        if out.Printed? {
          PrintsCons(done, ops, lines, out.lines);
        }
      }
    }
  }

  // A log crashes exactly if it calls a method on no object, and otherwise prints, operation by operation,
  // the answer a least-recently-used cache of the last constructor's capacity owes each `get`, -1 for a
  // `get` Go makes on its empty object, and "null" for everything else.
  lemma ReplayExactly(ops: seq<Op>, zero: bool)
    ensures var out := Replay(ops, NoObject, [], zero);
      && (out.Crashed? <==> exists i :: 0 <= i < |ops| && Fatal(ops[..i], ops[i], zero))
      && (out.Printed? ==> |out.lines| == |ops|)
      && (out.Printed? ==> forall i :: 0 <= i < |ops| ==> out.lines[i] == LineOf(ops[..i], ops[i]))
  {
    ReplayFrom([], ops, [], zero);
    forall i | 0 <= i < |ops|
      ensures [] + ops[..i] == ops[..i]
    {
    }
  }

  method ReplayMap(ops: seq<Op>) returns (out: Outcome)
    ensures out == Replay(ops, NoObject, [], false)
  {
    var obj: MapCache? := null;
    var lines: seq<string> := [];
    for i := 0 to |ops|
      invariant obj != null ==> fresh(obj) && obj.Valid()
      invariant Replay(ops[i..], if obj == null then NoObject else Live(obj.cap, obj.Model()), lines, false)
                == Replay(ops, NoObject, [], false)
    {
      assert ops[i..][0] == ops[i] && ops[i..][1..] == ops[i + 1..];
      match ops[i] {
        case New(c) => obj := new MapCache(c); lines := lines + ["null"];
        case Unknown => lines := lines + ["null"];
        case GetOp(k) =>
          if obj == null { return Crashed; }
          var v := obj.Get(k);
          lines := lines + [Text.ToText(Text.Int(v))];
        case PutOp(k, v) =>
          if obj == null { return Crashed; }
          obj.Put(k, v);
          lines := lines + ["null"];
      }
    }
    return Printed(lines);
  }

  method ReplayIndex(ops: seq<Op>) returns (out: Outcome)
    ensures out == Replay(ops, NoObject, [], false)
  {
    var obj: IndexCache? := null;
    var lines: seq<string> := [];
    for i := 0 to |ops|
      invariant obj != null ==> fresh(obj) && obj.Valid()
      invariant Replay(ops[i..], if obj == null then NoObject else Live(obj.cap, obj.Model()), lines, false)
                == Replay(ops, NoObject, [], false)
    {
      assert ops[i..][0] == ops[i] && ops[i..][1..] == ops[i + 1..];
      match ops[i] {
        case New(c) => obj := new IndexCache(c); lines := lines + ["null"];
        case Unknown => lines := lines + ["null"];
        case GetOp(k) =>
          if obj == null { return Crashed; }
          var v := obj.Get(k);
          lines := lines + [Text.ToText(Text.Int(v))];
        case PutOp(k, v) =>
          if obj == null { return Crashed; }
          obj.Put(k, v);
          lines := lines + ["null"];
      }
    }
    return Printed(lines);
  }

  // Go's `__obj` starts as the zero value: `get` on its nil map finds nothing, `put` panics.
  method ReplaySlice(ops: seq<Op>) returns (out: Outcome)
    ensures out == Replay(ops, NoObject, [], true)
  {
    var obj: SliceCache? := null;
    var lines: seq<string> := [];
    for i := 0 to |ops|
      invariant obj != null ==> fresh(obj) && obj.Valid()
      invariant Replay(ops[i..], if obj == null then NoObject else Live(obj.cap, obj.Model()), lines, true)
                == Replay(ops, NoObject, [], true)
    {
      assert ops[i..][0] == ops[i] && ops[i..][1..] == ops[i + 1..];
      match ops[i] {
        case New(c) => obj := new SliceCache(c); lines := lines + ["null"];
        case Unknown => lines := lines + ["null"];
        case GetOp(k) =>
          var v := -1;
          if obj != null { v := obj.Get(k); }
          lines := lines + [Text.ToText(Text.Int(v))];
        case PutOp(k, v) =>
          if obj == null { return Crashed; }
          obj.Put(k, v);
          lines := lines + ["null"];
      }
    }
    return Printed(lines);
  }
}
