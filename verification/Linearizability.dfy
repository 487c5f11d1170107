/**
  What it means for a history to be linearizable, and why a depth-first search that never enters
  the same (set of operations, state) twice still decides it.
 */
module Linearizability {
  import opened Sets

  /** One history to check: operation x is called at call[x] and returns at ret[x]; step runs an
      operation against a state and says whether its output is possible. */
  datatype Problem<!S> = Problem(
    n: nat, init: S, call: seq<int>, ret: seq<int>, step: (S, int) -> (bool, S), equal: (S, S) -> bool)

  ghost predicate WellFormed<S>(p: Problem<S>) {
    && |p.call| == |p.ret| == p.n
    && forall x | 0 <= x < p.n :: p.call[x] <= p.ret[x]
  }

  /** Equal states cannot be told apart by any step. */
  ghost predicate Congruent<S(!new)>(p: Problem<S>) {
    && (forall a :: p.equal(a, a))
    && (forall a, b, c :: p.equal(a, b) && p.equal(b, c) ==> p.equal(a, c))
    && (forall a, b, x {:trigger p.equal(a, b), p.step(a, x)} | p.equal(a, b) ::
          && p.step(a, x).0 == p.step(b, x).0
          && (p.step(a, x).0 ==> p.equal(p.step(a, x).1, p.step(b, x).1)))
  }

  /** Run the operations in this order; the flag says whether every output was possible. */
  function Runs<S>(p: Problem<S>, order: seq<int>): (bool, S) {
    if order == [] then (true, p.init)
    else
      var (ok, s) := Runs(p, order[..|order| - 1]);
      var (yes, t) := p.step(s, order[|order| - 1]);
      (ok && yes, t)
  }

  predicate Precedes<S>(p: Problem<S>, x: int, y: int)
    requires WellFormed(p) && 0 <= x < p.n && 0 <= y < p.n
  {
    p.ret[x] < p.call[y]
  }

  ghost predicate InRange(n: nat, order: seq<int>) {
    forall i | 0 <= i < |order| :: 0 <= order[i] < n
  }

  /** Whatever returned before an operation of the order was called stands before it. */
  ghost predicate RespectsRealTime<S>(p: Problem<S>, order: seq<int>)
    requires WellFormed(p) && InRange(p.n, order)
  {
    forall j, x | 0 <= j < |order| && 0 <= x < p.n && Precedes(p, x, order[j]) :: x in order[..j]
  }

  /** The beginning of a linearization: distinct operations, real time respected, outputs possible. */
  ghost predicate Legal<S>(p: Problem<S>, order: seq<int>)
    requires WellFormed(p)
  {
    InRange(p.n, order) && Distinct(order) && RespectsRealTime(p, order) && Runs(p, order).0
  }

  ghost predicate Linearizable<S>(p: Problem<S>)
    requires WellFormed(p)
  {
    exists order :: Legal(p, order) && |order| == p.n
  }

  // ---- one step ----

  ghost function Done(order: seq<int>): set<int> { Elements(order) }

  /** x may come next after the operations in D. */
  ghost predicate Ready<S>(p: Problem<S>, D: set<int>, x: int)
    requires WellFormed(p)
  {
    && 0 <= x < p.n && x !in D
    && forall y | 0 <= y < p.n && y !in D :: !Precedes(p, y, x)
  }

  lemma DoneSnoc(order: seq<int>, x: int)
    ensures Done(order + [x]) == Done(order) + {x}
  {
    forall y | y in Done(order) + {x} ensures y in Done(order + [x]) {
      if y == x { assert (order + [x])[|order|] == x; }
      else { var i :| 0 <= i < |order| && order[i] == y; assert (order + [x])[i] == y; }
    }
  }

  lemma RunsSnoc<S>(p: Problem<S>, order: seq<int>, x: int)
    ensures var (ok, s) := Runs(p, order);
      Runs(p, order + [x]) == (ok && p.step(s, x).0, p.step(s, x).1)
  {
    assert (order + [x])[..|order|] == order;
  }

  lemma LegalExtends<S>(p: Problem<S>, order: seq<int>, x: int)
    requires WellFormed(p) && Legal(p, order) && Ready(p, Done(order), x) && p.step(Runs(p, order).1, x).0
    ensures Legal(p, order + [x])
  {
    var longer := order + [x];
    RunsSnoc(p, order, x);
    assert longer[..|order|] == order;
    forall j, y | 0 <= j < |longer| && 0 <= y < p.n && Precedes(p, y, longer[j]) ensures y in longer[..j] {
      if j < |order| {
        assert longer[..j] == order[..j];
      } else {
        assert longer[..j] == order;
      }
    }
  }

  lemma LegalShrinks<S>(p: Problem<S>, order: seq<int>)
    requires WellFormed(p) && Legal(p, order) && order != []
    ensures var short, x := order[..|order| - 1], order[|order| - 1];
      Legal(p, short) && Ready(p, Done(short), x) && p.step(Runs(p, short).1, x).0
  {
    var k := |order| - 1;
    var short, x := order[..k], order[k];
    assert order == short + [x];
    RunsSnoc(p, short, x);
    forall j, y | 0 <= j < |short| && 0 <= y < p.n && Precedes(p, y, short[j]) ensures y in short[..j] {
      assert short[..j] == order[..j];
    }
    assert x !in short;
  }

  // ---- the search ----

  /** Adding x to (D, s) leads to something already seen. */
  ghost predicate Covered<S(!new)>(p: Problem<S>, seen: set<(set<int>, S)>, D: set<int>, s: S, x: int) {
    exists t :: (D + {x}, t) in seen && p.equal(p.step(s, x).1, t)
  }

  ghost predicate CoveredIfLegal<S(!new)>(p: Problem<S>, seen: set<(set<int>, S)>, D: set<int>, s: S, x: int)
    requires WellFormed(p)
  {
    Ready(p, D, x) && p.step(s, x).0 ==> Covered(p, seen, D, s, x)
  }

  /** Every way to go on from (D, s) with an operation called before `upTo` is covered. */
  ghost predicate Closed<S(!new)>(p: Problem<S>, seen: set<(set<int>, S)>, D: set<int>, s: S, upTo: int)
    requires WellFormed(p)
  {
    forall x {:trigger CoveredIfLegal(p, seen, D, s, x)} | 0 <= x < p.n && p.call[x] < upTo ::
      CoveredIfLegal(p, seen, D, s, x)
  }

  ghost predicate AllClosed<S(!new)>(p: Problem<S>, seen: set<(set<int>, S)>, D: set<int>, s: S)
    requires WellFormed(p)
  {
    forall x {:trigger CoveredIfLegal(p, seen, D, s, x)} | 0 <= x < p.n :: CoveredIfLegal(p, seen, D, s, x)
  }

  lemma ClosedGrows<S(!new)>(p: Problem<S>, seen: set<(set<int>, S)>, seen': set<(set<int>, S)>, D: set<int>, s: S,
                             upTo: int)
    requires WellFormed(p) && seen <= seen'
    ensures Closed(p, seen, D, s, upTo) ==> Closed(p, seen', D, s, upTo)
    ensures AllClosed(p, seen, D, s) ==> AllClosed(p, seen', D, s)
  {
    forall x | 0 <= x < p.n && CoveredIfLegal(p, seen, D, s, x) ensures CoveredIfLegal(p, seen', D, s, x) {
      if Covered(p, seen, D, s, x) {
        var t :| (D + {x}, t) in seen && p.equal(p.step(s, x).1, t);
        assert (D + {x}, t) in seen';
      }
    }
  }

  /** If everything seen is closed and so is the start, every legal order ends in something seen. */
  lemma {:induction false} LegalIsSeen<S(!new)>(p: Problem<S>, seen: set<(set<int>, S)>, order: seq<int>) returns (t: S)
    requires WellFormed(p) && Congruent(p) && Legal(p, order)
    requires AllClosed(p, seen, {}, p.init)
    requires forall D, s {:trigger AllClosed(p, seen, D, s)} | (D, s) in seen :: AllClosed(p, seen, D, s)
    ensures p.equal(Runs(p, order).1, t)
    ensures order != [] ==> (Done(order), t) in seen
    ensures order == [] ==> t == p.init
    decreases |order|
  {
    if order == [] {
      t := p.init;
    } else {
      var k := |order| - 1;
      var short, x := order[..k], order[k];
      LegalShrinks(p, order);
      var s := LegalIsSeen(p, seen, short);
      assert order == short + [x];
      RunsSnoc(p, short, x);
      DoneSnoc(short, x);
      assert p.step(s, x).0;
      assert short == [] ==> Done(short) == {};
      assert AllClosed(p, seen, Done(short), s);
      assert CoveredIfLegal(p, seen, Done(short), s, x);
      t :| (Done(short) + {x}, t) in seen && p.equal(p.step(s, x).1, t);
    }
  }
}
