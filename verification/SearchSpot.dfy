/** Where the search stands: the list, the finger in it, and the stack of lifted operations. */
module SearchSpot {
  import opened Linearizability
  import opened LinkedHistory
  import opened Search
  import opened SearchList
  import opened Sets

  /** One lifted operation: the list before, and where its call and its return were in it. */
  datatype Cut<V> = Cut(list: seq<Node<V>>, i: nat, j: nat)

  datatype Spot<!S, V> = Spot(
    list: seq<Node<V>>, at: nat, cuts: seq<Cut<V>>, order: seq<int>, states: seq<S>, ghost seen: set<(set<int>, S)>)

  ghost function ListAfter<S, V>(g: Spot<S, V>, k: nat): seq<Node<V>>
    requires k <= |g.cuts|
  {
    if k < |g.cuts| then g.cuts[k].list else g.list
  }

  ghost predicate CutOk<S, V>(p: Problem<S>, A: seq<Node<V>>, g: Spot<S, V>, k: nat)
    requires k < |g.cuts| == |g.order|
  {
    var c := g.cuts[k];
    && Holds(A, c.list, Done(g.order[..k])) && 1 <= c.i < c.j < |c.list|
    && c.list[c.i].id == g.order[k] && c.list[c.i].mate == c.list[c.j] && CallsBefore(c.list, c.i)
    && WithoutPair(c.list, c.i, c.j) == ListAfter(g, k + 1)
  }

  ghost predicate CutsOk<S, V>(p: Problem<S>, A: seq<Node<V>>, g: Spot<S, V>) {
    && |g.cuts| == |g.order|
    && forall k {:trigger CutOk(p, A, g, k)} | 0 <= k < |g.cuts| :: CutOk(p, A, g, k)
  }

  ghost predicate FingerOk<S, V>(A: seq<Node<V>>, g: Spot<S, V>) {
    && Holds(A, g.list, Done(g.order)) && CallsBefore(g.list, g.at)
    && 1 <= g.at <= |g.list| && (|g.list| > 1 ==> g.at < |g.list|)
  }

  ghost predicate SpotOk<S(!new), V>(p: Problem<S>, A: seq<Node<V>>, g: Spot<S, V>) {
    && Layout(p, A) && SearchInv(p, g.order, g.states, PosOf(A, g.list, g.at), g.seen)
    && FingerOk(A, g) && CutsOk(p, A, g)
  }

  lemma Begin<S(!new), V>(p: Problem<S>, A: seq<Node<V>>)
    requires WellFormed(p) && Layout(p, A)
    ensures SpotOk(p, A, Spot(A, 1, [], [], [p.init], {}))
  {
    forall k | 0 <= k < |A| ensures IsOf(A, A[k]) {
      assert k > 0 ==> NodeOk(p, A, k);
    }
    forall i, j | 0 <= i < j < |A| ensures A[i].place < A[j].place {
      assert IsOf(A, A[i]) && NodeOk(p, A, j) && (i > 0 ==> NodeOk(p, A, i));
    }
    forall x | 0 <= x < p.n ensures p.call[x] >= PosOf(A, A, 1) {
      assert OpOk(p, A, x) && (1 < |A| ==> NodeOk(p, A, 1));
    }
    assert Done([]) == {};
    SearchBegins(p, PosOf(A, A, 1));
  }

  // ---- the moves ----

  ghost function Skipped<S, V>(g: Spot<S, V>): Spot<S, V> {
    Spot(g.list, g.at + 1, g.cuts, g.order, g.states, g.seen)
  }

  lemma SkipGap<S, V>(p: Problem<S>, A: seq<Node<V>>, g: Spot<S, V>, y: int)
    requires WellFormed(p) && Layout(p, A) && FingerOk(A, g) && g.at < |g.list| && g.list[g.at].mate != null
    requires 0 <= y < p.n && PosOf(A, g.list, g.at) <= p.call[y] < PosOf(A, g.list, g.at + 1)
    ensures y == g.list[g.at].id || y in Done(g.order)
  {
    var D := Done(g.order);
    if p.call[y] == PosOf(A, g.list, g.at) {
      var j := CallIsReady(p, A, g.list, D, g.at);
      SameCall(p, A, g.list[g.at].id, y);
    } else {
      NothingBetween(p, A, g.list, D, g.at, y);
    }
  }

  lemma SkipFinger<S, V>(p: Problem<S>, A: seq<Node<V>>, g: Spot<S, V>)
    requires WellFormed(p) && Layout(p, A) && FingerOk(A, g) && CutsOk(p, A, g) && g.at < |g.list|
    requires g.list[g.at].mate != null
    ensures FingerOk(A, Skipped(g)) && CutsOk(p, A, Skipped(g)) && g.at + 1 < |g.list|
    ensures PosOf(A, g.list, g.at) < PosOf(A, g.list, g.at + 1)
  {
    var j := CallIsReady(p, A, g.list, Done(g.order), g.at);
    forall k | 0 <= k < |g.cuts| ensures CutOk(p, A, Skipped(g), k) {
      assert CutOk(p, A, g, k);
    }
  }

  lemma SkipSpot<S(!new), V>(p: Problem<S>, A: seq<Node<V>>, g: Spot<S, V>)
    requires SpotOk(p, A, g) && g.at < |g.list| && g.list[g.at].mate != null
    requires var s, x := g.states[|g.order|], g.list[g.at].id;
      !p.step(s, x).0 || Covered(p, g.seen, Done(g.order), s, x)
    ensures SpotOk(p, A, Skipped(g)) && g.at + 1 < |g.list|
    ensures PosOf(A, g.list, g.at) < PosOf(A, g.list, g.at + 1)
  {
    var x, pos, pos' := g.list[g.at].id, PosOf(A, g.list, g.at), PosOf(A, g.list, g.at + 1);
    var j := CallIsReady(p, A, g.list, Done(g.order), g.at);
    forall y | 0 <= y < p.n && pos <= p.call[y] < pos' ensures y == x || y in Done(g.order) {
      SkipGap(p, A, g, y);
    }
    SkipKeeps(p, g.order, g.states, pos, g.seen, x, pos');
    SkipFinger(p, A, g);
  }

  lemma SameCall<S, V>(p: Problem<S>, A: seq<Node<V>>, x: int, y: int)
    requires Layout(p, A) && 0 <= x < p.n && 0 <= y < p.n && p.call[x] == p.call[y]
    ensures x == y
  {
    assert OpOk(p, A, x) && OpOk(p, A, y);
  }

  ghost function Pushed<S, V>(p: Problem<S>, g: Spot<S, V>, j: nat): Spot<S, V>
    requires g.at < j < |g.list| && |g.states| == |g.order| + 1
  {
    var x := g.list[g.at].id;
    var t := p.step(g.states[|g.order|], x).1;
    Spot(WithoutPair(g.list, g.at, j), 1, g.cuts + [Cut(g.list, g.at, j)],
         g.order + [x], g.states + [t], g.seen + {(Done(g.order) + {x}, t)})
  }

  lemma PushSpot<S(!new), V>(p: Problem<S>, A: seq<Node<V>>, g: Spot<S, V>, j: nat)
    requires SpotOk(p, A, g) && Congruent(p) && g.at < j < |g.list| && g.list[g.at].mate == g.list[j]
    requires p.step(g.states[|g.order|], g.list[g.at].id).0
    ensures SpotOk(p, A, Pushed(p, g, j))
  {
    var D, x, pos, h := Done(g.order), g.list[g.at].id, PosOf(A, g.list, g.at), Pushed(p, g, j);
    var _ := CallIsReady(p, A, g.list, D, g.at);
    HoldsPair(p, A, g.list, D, g.at, j);
    DoneSnoc(g.order, x);
    forall y | 0 <= y < p.n && p.call[y] == pos ensures y == x {
      SameCall(p, A, x, y);
    }
    var pos' := PosOf(A, h.list, 1);
    forall y | 0 <= y < p.n && p.call[y] < pos' ensures y in D + {x} {
      assert OpOk(p, A, y);
      NothingBetween(p, A, h.list, D + {x}, 0, y);
    }
    PushKeeps(p, g.order, g.states, pos, g.seen, x, pos');
    CutsPush(p, A, g, j);
  }

  lemma CutsPush<S, V>(p: Problem<S>, A: seq<Node<V>>, g: Spot<S, V>, j: nat)
    requires FingerOk(A, g) && CutsOk(p, A, g) && |g.states| == |g.order| + 1
    requires g.at < j < |g.list| && g.list[g.at].mate == g.list[j]
    ensures CutsOk(p, A, Pushed(p, g, j))
  {
    var h := Pushed(p, g, j);
    forall k | 0 <= k < |h.cuts| ensures CutOk(p, A, h, k) {
      if k < |g.cuts| {
        assert CutOk(p, A, g, k) && h.cuts[k] == g.cuts[k] && h.order[..k] == g.order[..k];
        assert ListAfter(h, k + 1) == ListAfter(g, k + 1);
      } else {
        assert h.order[..k] == g.order;
      }
    }
  }

  ghost function Popped<S, V>(g: Spot<S, V>): Spot<S, V>
    requires 1 <= |g.cuts| == |g.order| && |g.states| == |g.order| + 1
  {
    var k := |g.cuts| - 1;
    Spot(g.cuts[k].list, g.cuts[k].i + 1, g.cuts[..k], g.order[..k], g.states[..k + 1], g.seen)
  }

  /** A return under the finger belongs to an operation that is left. */
  lemma ReturnSeen<S, V>(p: Problem<S>, A: seq<Node<V>>, g: Spot<S, V>)
    requires WellFormed(p) && Layout(p, A) && FingerOk(A, g) && g.at < |g.list| && g.list[g.at].mate == null
    ensures ReturnAt(p, g.list[g.at].id, PosOf(A, g.list, g.at)) && g.list[g.at].id !in Done(g.order)
  {
    InList(p, A, g.list, Done(g.order), g.at);
    var n := g.list[g.at];
    forall x | 0 <= x < p.n ensures p.call[x] != n.place - 1 {
      assert OpOk(p, A, x) && NodeOk(p, A, n.place);
    }
  }

  lemma PopFinger<S, V>(p: Problem<S>, A: seq<Node<V>>, g: Spot<S, V>)
    requires Layout(p, A) && CutsOk(p, A, g) && g.order != [] && |g.states| == |g.order| + 1 && InRange(p.n, g.order)
    ensures FingerOk(A, Popped(g)) && CutsOk(p, A, Popped(g))
    ensures p.call[g.order[|g.order| - 1]] < PosOf(A, Popped(g).list, Popped(g).at)
  {
    var k, h := |g.cuts| - 1, Popped(g);
    var c := g.cuts[k];
    assert CutOk(p, A, g, k);
    InList(p, A, c.list, Done(g.order[..k]), c.i);
    forall i | 0 <= i < |h.cuts| ensures CutOk(p, A, h, i) {
      assert CutOk(p, A, g, i) && h.order[..i] == g.order[..i];
      assert ListAfter(h, i + 1) == ListAfter(g, i + 1);
    }
  }

  lemma PopGap<S, V>(p: Problem<S>, A: seq<Node<V>>, g: Spot<S, V>, z: int)
    requires Layout(p, A) && CutsOk(p, A, g) && g.order != [] && |g.states| == |g.order| + 1 && InRange(p.n, g.order)
    requires 0 <= z < p.n && p.call[g.order[|g.order| - 1]] < p.call[z] < PosOf(A, Popped(g).list, Popped(g).at)
    ensures z in Done(g.order[..|g.order| - 1])
  {
    var k := |g.cuts| - 1;
    var c, D := g.cuts[k], Done(g.order[..k]);
    assert CutOk(p, A, g, k);
    InList(p, A, c.list, D, c.i);
    NothingBetween(p, A, c.list, D, c.i, z);
  }

  lemma PopSpot<S(!new), V>(p: Problem<S>, A: seq<Node<V>>, g: Spot<S, V>)
    requires SpotOk(p, A, g) && g.at < |g.list| && g.list[g.at].mate == null && g.order != []
    ensures SpotOk(p, A, Popped(g))
    ensures p.call[g.order[|g.order| - 1]] < PosOf(A, Popped(g).list, Popped(g).at)
  {
    var pos, pos', y := PosOf(A, g.list, g.at), PosOf(A, Popped(g).list, Popped(g).at), g.list[g.at].id;
    ReturnSeen(p, A, g);
    forall z | 0 <= z < p.n && p.call[g.order[|g.order| - 1]] < p.call[z] < pos'
      ensures z in Done(g.order[..|g.order| - 1])
    {
      PopGap(p, A, g, z);
    }
    PopKeeps(p, g.order, g.states, pos, g.seen, y, pos');
    PopFinger(p, A, g);
  }

  /** When nothing but the head is left, every operation is on the stack. */
  lemma AllLifted<S, V>(p: Problem<S>, A: seq<Node<V>>, g: Spot<S, V>)
    requires Layout(p, A) && FingerOk(A, g) && InRange(p.n, g.order) && Distinct(g.order) && |g.list| == 1
    ensures |g.order| == p.n
    ensures forall x | 0 <= x < p.n :: x in g.order
  {
    var D := Done(g.order);
    forall x | 0 <= x < p.n ensures x in g.order {
      if x !in D {
        var i, j := Finds(p, A, g.list, D, x);
        assert false;
      }
    }
    DoneSize(g.order);
    assert D == Range(p.n);
  }
}
