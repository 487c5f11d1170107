/** The heap side of the search: lifted nodes keep pointing to where they were. */
module SearchHeap {
  import opened Linearizability
  import opened LinkedHistory
  import opened SearchList
  import opened SearchSpot

  /** The nodes lifted at level k of the stack. */
  ghost predicate HangAt<S, V>(p: Problem<S>, A: seq<Node<V>>, g: Spot<S, V>, k: nat)
    requires k < |g.cuts| == |g.order|
    reads A
  {
    var c := g.cuts[k];
    && CutOk(p, A, g, k) && IsOf(A, c.list[c.i]) && IsOf(A, c.list[c.j])
    && Hangs(c.list, c.i, c.j)
  }

  ghost predicate HangAll<S, V>(p: Problem<S>, A: seq<Node<V>>, g: Spot<S, V>)
    reads A
  {
    && |g.cuts| == |g.order|
    && forall k {:trigger HangAt(p, A, g, k)} | 0 <= k < |g.cuts| :: HangAt(p, A, g, k)
  }

  ghost predicate Within<V>(A: seq<Node<V>>, L: seq<Node<V>>) {
    forall i {:trigger L[i]} | 0 <= i < |L| :: 0 <= L[i].place < |A| && L[i] == A[L[i].place]
  }

  lemma PartOf<V>(A: seq<Node<V>>, L: seq<Node<V>>, D: set<int>)
    requires Holds(A, L, D)
    ensures Within(A, L)
  {
    forall i | 0 <= i < |L| ensures 0 <= L[i].place < |A| && L[i] == A[L[i].place] {
      assert IsOf(A, L[i]);
    }
  }

  /** What hangs at level k is in none of the lists from which that operation is missing. */
  lemma HangsOutside<S, V>(p: Problem<S>, A: seq<Node<V>>, g: Spot<S, V>, k: nat, L: seq<Node<V>>, D: set<int>)
    requires Layout(p, A) && CutsOk(p, A, g) && k < |g.cuts| && Holds(A, L, D) && g.order[k] in D
    ensures var c := g.cuts[k]; 1 <= c.i < c.j < |c.list| && c.list[c.i] !in L && c.list[c.j] !in L
  {
    assert CutOk(p, A, g, k);
    var c, D' := g.cuts[k], Done(g.order[..k]);
    InList(p, A, c.list, D', c.i);
    InList(p, A, c.list, D', c.j);
    assert OpOk(p, A, g.order[k]);
    NotInList(p, A, L, D, c.list[c.i]);
    NotInList(p, A, L, D, c.list[c.j]);
  }

  method LiftSpot<S(!new), V>(entry: Node<V>, ghost p: Problem<S>, ghost A: seq<Node<V>>, ghost g: Spot<S, V>,
                              ghost j: nat)
    requires Layout(p, A) && FingerOk(A, g) && CutsOk(p, A, g) && |g.states| == |g.order| + 1
    requires g.at < j < |g.list| && entry == g.list[g.at] && entry.mate == g.list[j]
    requires Linked(g.list) && HangAll(p, A, g)
    modifies A
    ensures Linked(Pushed(p, g, j).list) && HangAll(p, A, Pushed(p, g, j))
  {
    ghost var h := Pushed(p, g, j);
    PartOf(A, g.list, Done(g.order));
    CutsPush(p, A, g, j);
    Lift(entry, g.list, g.at, j);
    assert IsOf(A, g.list[g.at]) && IsOf(A, g.list[j]);
    forall k | 0 <= k < |h.cuts| ensures HangAt(p, A, h, k) {
      assert CutOk(p, A, h, k);
      if k < |g.cuts| {
        assert old(HangAt(p, A, g, k)) && g.order[k] in g.order && h.cuts[k] == g.cuts[k];
        HangsOutside(p, A, g, k, g.list, Done(g.order));
      }
    }
  }

  method UnliftSpot<S(!new), V>(entry: Node<V>, ghost p: Problem<S>, ghost A: seq<Node<V>>, ghost g: Spot<S, V>)
    requires Layout(p, A) && CutsOk(p, A, g) && g.order != [] && |g.states| == |g.order| + 1 && InRange(p.n, g.order)
    requires var c := g.cuts[|g.cuts| - 1]; c.i < |c.list| && entry == c.list[c.i]
    requires Linked(g.list) && HangAll(p, A, g)
    modifies A
    ensures Linked(Popped(g).list) && HangAll(p, A, Popped(g))
  {
    ghost var last, h := |g.cuts| - 1, Popped(g);
    ghost var c, D := g.cuts[last], Done(g.order[..last]);
    assert HangAt(p, A, g, last);
    PartOf(A, c.list, D);
    PopFinger(p, A, g);
    Unlift(entry, c.list, c.i, c.j);
    forall k | 0 <= k < |h.cuts| ensures HangAt(p, A, h, k) {
      assert CutOk(p, A, h, k) && old(HangAt(p, A, g, k)) && h.cuts[k] == g.cuts[k];
      assert g.order[..last][k] == g.order[k];
      HangsOutside(p, A, g, k, c.list, D);
    }
  }
}
