/** A history of a map is linearizable if and only if, key by key, its parts are. */
module Locality {
  import opened Linearizability
  import opened Search
  import opened Sets

  function Lookup<K, S>(st: map<K, S>, k: K, init: S): S { if k in st then st[k] else init }

  /** The whole map: every operation works on the value of its key. Its states are never compared. */
  ghost function Whole<K, S>(v: Problem<S>, key: seq<K>): (w: Problem<map<K, S>>)
    requires WellFormed(v) && |key| == v.n
    ensures WellFormed(w)
  {
    Problem(v.n, map[], v.call, v.ret,
      (st: map<K, S>, x: int) =>
        if 0 <= x < v.n then
          var (ok, t) := v.step(Lookup(st, key[x], v.init), x);
          (ok, st[key[x] := t])
        else (false, st),
      (a: map<K, S>, b: map<K, S>) => false)
  }

  lemma WholeStep<K, S>(v: Problem<S>, key: seq<K>, st: map<K, S>, x: int, k: K)
    requires WellFormed(v) && |key| == v.n && 0 <= x < v.n
    ensures var (ok, t) := v.step(Lookup(st, key[x], v.init), x);
      var (ok', st') := Whole(v, key).step(st, x);
      ok' == ok && Lookup(st', k, v.init) == if k == key[x] then t else Lookup(st, k, v.init)
  {
  }

  /** The operations on one key, in the same order. */
  ghost function Proj<K>(key: seq<K>, order: seq<int>, k: K): (r: seq<int>)
    requires InRange(|key|, order)
    ensures forall x :: x in r <==> x in order && key[x] == k
  {
    if order == [] then []
    else
      var short, x := order[..|order| - 1], order[|order| - 1];
      assert order == short + [x];
      Proj(key, short, k) + if key[x] == k then [x] else []
  }

  lemma ProjSnoc<K>(key: seq<K>, order: seq<int>, x: int, k: K)
    requires InRange(|key|, order) && 0 <= x < |key|
    ensures Proj(key, order + [x], k) == Proj(key, order, k) + if key[x] == k then [x] else []
  {
    assert (order + [x])[..|order|] == order;
  }

  /** The value of a key depends on the operations on that key alone. */
  lemma {:induction false} ProjState<K, S>(v: Problem<S>, key: seq<K>, order: seq<int>, k: K)
    requires WellFormed(v) && |key| == v.n && InRange(v.n, order)
    ensures Lookup(Runs(Whole(v, key), order).1, k, v.init) == Runs(v, Proj(key, order, k)).1
    ensures Runs(Whole(v, key), order).0 ==> Runs(v, Proj(key, order, k)).0
    decreases |order|
  {
    if order != [] {
      var short, x := order[..|order| - 1], order[|order| - 1];
      assert order == short + [x];
      ProjState(v, key, short, k);
      ProjState(v, key, short, key[x]);
      ProjSnoc(key, short, x, k);
      WholeStep(v, key, Runs(Whole(v, key), short).1, x, k);
      RunsSnoc(Whole(v, key), short, x);
      RunsSnoc(v, Proj(key, short, k), x);
      assert key[x] != k ==> Proj(key, order, k) == Proj(key, short, k);
    }
  }

  /** The beginning of a linearization of the operations on one key. */
  ghost predicate LegalKey<K, S>(v: Problem<S>, key: seq<K>, k: K, g: seq<int>)
    requires WellFormed(v) && |key| == v.n
  {
    && (forall i | 0 <= i < |g| :: 0 <= g[i] < v.n && key[g[i]] == k)
    && Distinct(g) && Runs(v, g).0
    && forall j, x | 0 <= j < |g| && 0 <= x < v.n && key[x] == k && Precedes(v, x, g[j]) :: x in g[..j]
  }

  ghost predicate CompleteKey<K, S>(v: Problem<S>, key: seq<K>, k: K, g: seq<int>)
    requires WellFormed(v) && |key| == v.n
  {
    LegalKey(v, key, k, g) && forall x | 0 <= x < v.n && key[x] == k :: x in g
  }

  ghost predicate KeyLinearizable<K, S>(v: Problem<S>, key: seq<K>, k: K)
    requires WellFormed(v) && |key| == v.n
  {
    exists g :: CompleteKey(v, key, k, g)
  }

  // ---- from the whole to the parts ----

  /** Adding an operation behind everything that returned before it was called. */
  lemma LegalKeySnoc<K, S>(v: Problem<S>, key: seq<K>, k: K, g: seq<int>, x: int)
    requires WellFormed(v) && |key| == v.n && LegalKey(v, key, k, g) && 0 <= x < v.n && key[x] == k && x !in g
    requires Runs(v, g + [x]).0 && forall y | 0 <= y < v.n && key[y] == k && Precedes(v, y, x) :: y in g
    ensures LegalKey(v, key, k, g + [x])
  {
    var g' := g + [x];
    assert g'[..|g|] == g;
    forall j, y | 0 <= j < |g'| && 0 <= y < v.n && key[y] == k && Precedes(v, y, g'[j]) ensures y in g'[..j] {
      if j < |g| {
        assert g'[j] == g[j] && g'[..j] == g[..j];
      }
    }
  }

  lemma {:induction false} ProjLegal<K, S>(v: Problem<S>, key: seq<K>, order: seq<int>, k: K)
    requires WellFormed(v) && |key| == v.n && Legal(Whole(v, key), order)
    ensures LegalKey(v, key, k, Proj(key, order, k))
    decreases |order|
  {
    if order != [] {
      var short, x := order[..|order| - 1], order[|order| - 1];
      LegalShrinks(Whole(v, key), order);
      ProjLegal(v, key, short, k);
      assert order == short + [x];
      ProjLegalSnoc(v, key, short, x, k);
    }
  }

  lemma ProjLegalSnoc<K, S>(v: Problem<S>, key: seq<K>, order: seq<int>, x: int, k: K)
    requires WellFormed(v) && |key| == v.n && InRange(v.n, order) && LegalKey(v, key, k, Proj(key, order, k))
    requires Legal(Whole(v, key), order + [x]) && Ready(Whole(v, key), Done(order), x)
    ensures LegalKey(v, key, k, Proj(key, order + [x], k))
  {
    ProjState(v, key, order + [x], k);
    ProjSnoc(key, order, x, k);
    if key[x] == k {
      ReadyMeans(v, key, order, x);
      LegalKeySnoc(v, key, k, Proj(key, order, k), x);
    } else {
      assert Proj(key, order + [x], k) == Proj(key, order, k);
    }
  }

  lemma ReadyMeans<K, S>(v: Problem<S>, key: seq<K>, order: seq<int>, x: int)
    requires WellFormed(v) && |key| == v.n && InRange(v.n, order) && Ready(Whole(v, key), Done(order), x)
    ensures x !in order && forall y | 0 <= y < v.n && Precedes(v, y, x) :: y in order
  {
    forall y | 0 <= y < v.n && Precedes(v, y, x) ensures y in order {
      assert Precedes(Whole(v, key), y, x);
    }
  }

  lemma AllOps(n: nat, order: seq<int>, x: int)
    requires InRange(n, order) && Distinct(order) && |order| == n && 0 <= x < n
    ensures x in order
  {
    DoneSize(order);
    if x !in order {
      SubsetSize(Done(order) + {x}, Range(n));
      assert false;
    }
  }

  // ---- from the parts to the whole ----

  /** Some operation that is left returns first. */
  lemma {:induction false} FirstReturn<S>(v: Problem<S>, left: set<int>) returns (y: int)
    requires WellFormed(v) && |left| > 0 && forall x | x in left :: 0 <= x < v.n
    ensures y in left && forall x | x in left :: v.ret[y] <= v.ret[x]
    decreases |left|
  {
    y := Element(left);
    var rest := left - {y};
    if |rest| > 0 {
      var z := FirstReturn(v, rest);
      if v.ret[z] < v.ret[y] { y := z; }
    }
  }

  lemma {:induction false} DistinctAt(g: seq<int>, i: nat, j: nat)
    requires Distinct(g) && i < j < |g|
    ensures g[i] != g[j]
    decreases |g|
  {
    var k := |g| - 1;
    if j < k { DistinctAt(g[..k], i, j); } else { assert g[..k][i] == g[i]; }
  }

  lemma {:induction false} RunsPrefix<S>(v: Problem<S>, g: seq<int>, i: nat)
    requires Runs(v, g).0 && i < |g|
    ensures Runs(v, g[..i]).0 && v.step(Runs(v, g[..i]).1, g[i]).0
    decreases |g|
  {
    var k := |g| - 1;
    if i < k {
      RunsPrefix(v, g[..k], i);
      assert g[..k][..i] == g[..i];
    }
  }

  /** The order so far takes from each key the beginning of that key's own order. */
  ghost predicate Follows<K>(key: seq<K>, gs: map<K, seq<int>>, order: seq<int>)
    requires InRange(|key|, order)
  {
    forall k {:trigger gs[k]} | k in gs :: Proj(key, order, k) <= gs[k]
  }

  ghost predicate Parts<K, S>(v: Problem<S>, key: seq<K>, gs: map<K, seq<int>>)
    requires WellFormed(v) && |key| == v.n
  {
    && (forall x | 0 <= x < v.n :: key[x] in gs)
    && forall k {:trigger gs[k]} | k in gs :: CompleteKey(v, key, k, gs[k])
  }

  /** The next operation of a key whose order is not yet used up. */
  lemma HeadOf<K, S>(v: Problem<S>, key: seq<K>, k: K, g: seq<int>, order: seq<int>, y: int) returns (h: int)
    requires WellFormed(v) && |key| == v.n && InRange(v.n, order) && CompleteKey(v, key, k, g)
    requires Proj(key, order, k) <= g
    requires 0 <= y < v.n && key[y] == k && y !in order
    ensures 0 <= h < v.n && key[h] == k && h !in order && Proj(key, order, k) + [h] <= g
    ensures v.step(Runs(v, Proj(key, order, k)).1, h).0
    ensures forall z | 0 <= z < v.n && key[z] == k && z !in order :: !Precedes(v, z, h)
  {
    var done := Proj(key, order, k);
    var i := |done|;
    assert y in g && y !in done;
    assert done == g[..i];
    assert i < |g|;
    h := g[i];
    RunsPrefix(v, g, i);
    assert h !in done by {
      if h in done {
        var j :| 0 <= j < i && done[j] == h;
        DistinctAt(g, j, i);
        assert false;
      }
    }
    forall z | 0 <= z < v.n && key[z] == k && z !in order ensures !Precedes(v, z, h) {
      assert z !in g[..i];
    }
  }

  /** The head of the queue to which the operation returning first belongs may come next. */
  lemma HeadIsReady<S>(v: Problem<S>, order: seq<int>, y: int, h: int)
    requires WellFormed(v) && 0 <= h < v.n && h !in order && 0 <= y < v.n && !Precedes(v, y, h)
    requires forall x | 0 <= x < v.n && x !in order :: v.ret[y] <= v.ret[x]
    ensures Ready(v, Done(order), h)
  {
  }

  lemma FirstLeft<S>(v: Problem<S>, order: seq<int>) returns (y: int)
    requires WellFormed(v) && |Range(v.n) - Done(order)| > 0
    ensures 0 <= y < v.n && y !in order && forall x | 0 <= x < v.n && x !in order :: v.ret[y] <= v.ret[x]
  {
    var left := Range(v.n) - Done(order);
    y := FirstReturn(v, left);
    forall x | 0 <= x < v.n && x !in order ensures v.ret[y] <= v.ret[x] {
      assert x in left;
    }
  }

  lemma NextOf<K, S>(v: Problem<S>, key: seq<K>, gs: map<K, seq<int>>, order: seq<int>) returns (h: int)
    requires WellFormed(v) && |key| == v.n && Parts(v, key, gs) && InRange(v.n, order) && Follows(key, gs, order)
    requires |Range(v.n) - Done(order)| > 0
    ensures Ready(v, Done(order), h) && Proj(key, order, key[h]) + [h] <= gs[key[h]]
    ensures v.step(Runs(v, Proj(key, order, key[h])).1, h).0
  {
    var y := FirstLeft(v, order);
    h := HeadOf(v, key, key[y], gs[key[y]], order, y);
    HeadIsReady(v, order, y, h);
  }

  lemma FollowsSnoc<K>(key: seq<K>, gs: map<K, seq<int>>, order: seq<int>, h: int)
    requires InRange(|key|, order) && Follows(key, gs, order) && 0 <= h < |key|
    requires key[h] in gs && Proj(key, order, key[h]) + [h] <= gs[key[h]]
    ensures Follows(key, gs, order + [h])
  {
    forall k | k in gs ensures Proj(key, order + [h], k) <= gs[k] {
      ProjSnoc(key, order, h, k);
      assert key[h] != k ==> Proj(key, order + [h], k) == Proj(key, order, k);
    }
  }

  lemma WholeExtends<K, S>(v: Problem<S>, key: seq<K>, order: seq<int>, h: int)
    requires WellFormed(v) && |key| == v.n && Legal(Whole(v, key), order) && Ready(v, Done(order), h)
    requires v.step(Runs(v, Proj(key, order, key[h])).1, h).0
    ensures Legal(Whole(v, key), order + [h])
  {
    var w := Whole(v, key);
    ProjState(v, key, order, key[h]);
    WholeStep(v, key, Runs(w, order).1, h, key[h]);
    forall y | 0 <= y < v.n && y !in Done(order) ensures !Precedes(w, y, h) {
      assert !Precedes(v, y, h);
    }
    LegalExtends(w, order, h);
  }

  lemma {:induction false} Merge<K, S>(v: Problem<S>, key: seq<K>, gs: map<K, seq<int>>, order: seq<int>)
    requires WellFormed(v) && |key| == v.n && Parts(v, key, gs) && Legal(Whole(v, key), order)
    requires Follows(key, gs, order)
    ensures Linearizable(Whole(v, key))
    decreases |Range(v.n) - Done(order)|
  {
    if |Range(v.n) - Done(order)| > 0 {
      var longer := MergeOne(v, key, gs, order);
      Merge(v, key, gs, longer);
    } else {
      NoneLeft(v.n, order);
    }
  }

  lemma MergeOne<K, S>(v: Problem<S>, key: seq<K>, gs: map<K, seq<int>>, order: seq<int>) returns (longer: seq<int>)
    requires WellFormed(v) && |key| == v.n && Parts(v, key, gs) && Legal(Whole(v, key), order)
    requires Follows(key, gs, order)
    requires |Range(v.n) - Done(order)| > 0
    ensures Legal(Whole(v, key), longer) && Follows(key, gs, longer)
    ensures |Range(v.n) - Done(longer)| < |Range(v.n) - Done(order)|
  {
    var h := NextOf(v, key, gs, order);
    longer := order + [h];
    WholeExtends(v, key, order, h);
    FollowsSnoc(key, gs, order, h);
    FewerLeft(v.n, order, h);
  }

  lemma FewerLeft(n: nat, order: seq<int>, h: int)
    requires h in Range(n) && h !in order
    ensures |Range(n) - Done(order + [h])| < |Range(n) - Done(order)|
  {
    DoneSnoc(order, h);
    assert Range(n) - Done(order + [h]) == (Range(n) - Done(order)) - {h};
    assert h in Range(n) - Done(order);
  }

  lemma NoneLeft(n: nat, order: seq<int>)
    requires InRange(n, order) && Distinct(order) && |Range(n) - Done(order)| == 0
    ensures |order| == n
  {
    DoneSize(order);
    assert Done(order) <= Range(n);
    assert Range(n) == Done(order) + (Range(n) - Done(order));
  }

  ghost function OrderFor<K, S>(v: Problem<S>, key: seq<K>, k: K): (g: seq<int>)
    requires WellFormed(v) && |key| == v.n && KeyLinearizable(v, key, k)
    ensures CompleteKey(v, key, k, g)
  {
    var g :| CompleteKey(v, key, k, g);
    g
  }

  /** Linearizability is a property of each key by itself. */
  lemma Local<K, S>(v: Problem<S>, key: seq<K>)
    requires WellFormed(v) && |key| == v.n
    ensures Linearizable(Whole(v, key)) <==> forall k | k in key :: KeyLinearizable(v, key, k)
  {
    var w := Whole(v, key);
    if Linearizable(w) {
      var order :| Legal(w, order) && |order| == w.n;
      forall k | k in key ensures KeyLinearizable(v, key, k) {
        ProjLegal(v, key, order, k);
        forall x | 0 <= x < v.n && key[x] == k ensures x in Proj(key, order, k) {
          AllOps(v.n, order, x);
        }
        assert CompleteKey(v, key, k, Proj(key, order, k));
      }
    }
    if forall k | k in key :: KeyLinearizable(v, key, k) {
      var gs := map k | k in key :: OrderFor(v, key, k);
      Merge(v, key, gs, []);
    }
  }
}
