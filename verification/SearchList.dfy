/** How the linked list, with operations lifted out of it, mirrors the abstract search. */
module SearchList {
  import opened Linearizability
  import opened LinkedHistory

  /** What a user of the checker supplies: a sequential specification. */
  datatype Model<!S, !V> = Model(init: S, step: (S, V, V) -> (bool, S), equal: (S, S) -> bool)

  ghost predicate EqualIsCongruent<S(!new), V(!new)>(m: Model<S, V>) {
    && (forall a :: m.equal(a, a))
    && (forall a, b, c :: m.equal(a, b) && m.equal(b, c) ==> m.equal(a, c))
    && (forall a, b, i, o {:trigger m.equal(a, b), m.step(a, i, o)} | m.equal(a, b) ::
          && m.step(a, i, o).0 == m.step(b, i, o).0
          && (m.step(a, i, o).0 ==> m.equal(m.step(a, i, o).1, m.step(b, i, o).1)))
  }

  /** The question that a list of entries poses. */
  ghost function ProblemOf<S, V>(m: Model<S, V>, es: seq<Entry<V>>, call: seq<int>, ret: seq<int>): (p: Problem<S>)
    requires Paired(es, call, ret)
    ensures WellFormed(p)
  {
    Problem(|call|, m.init, call, ret,
      (s: S, x: int) => if 0 <= x < |call| then m.step(s, es[call[x]].value, es[ret[x]].value) else (false, s),
      m.equal)
  }

  lemma ProblemCongruent<S(!new), V(!new)>(m: Model<S, V>, es: seq<Entry<V>>, call: seq<int>, ret: seq<int>)
    requires Paired(es, call, ret) && EqualIsCongruent(m)
    ensures Congruent(ProblemOf(m, es, call, ret))
  {
  }

  // ---- the nodes ----

  /** Node k stands for the entry k - 1 of the history. */
  ghost predicate NodeOk<S, V>(p: Problem<S>, A: seq<Node<V>>, k: int)
    requires |p.call| == |p.ret| == p.n && 1 <= k < |A|
  {
    && A[k].place == k && 0 <= A[k].id < p.n
    && if A[k].mate == null then p.ret[A[k].id] == k - 1 else p.call[A[k].id] == k - 1
  }

  /** Operation x has a node for its call, whose mate is the node of its return. */
  ghost predicate OpOk<S, V>(p: Problem<S>, A: seq<Node<V>>, x: int)
    requires |p.call| == |p.ret| == p.n && |A| == 2 * p.n + 1 && 0 <= x < p.n
  {
    && 0 <= p.call[x] < p.ret[x] < 2 * p.n
    && var c, r := A[p.call[x] + 1], A[p.ret[x] + 1];
    && c.id == x && c.mate == r && r.id == x && r.mate == null
  }

  /** A[0] is the head; then one node for every entry. */
  ghost predicate Layout<S, V>(p: Problem<S>, A: seq<Node<V>>) {
    && |A| == 2 * p.n + 1 && |p.call| == |p.ret| == p.n && A[0].place == 0
    && (forall k {:trigger NodeOk(p, A, k)} | 1 <= k < |A| :: NodeOk(p, A, k))
    && (forall x {:trigger OpOk(p, A, x)} | 0 <= x < p.n :: OpOk(p, A, x))
  }

  ghost predicate IsOf<V>(A: seq<Node<V>>, n: Node<V>) { 0 <= n.place < |A| && A[n.place] == n }

  ghost predicate HoldsAt<V>(A: seq<Node<V>>, L: seq<Node<V>>, D: set<int>, k: int)
    requires 1 <= k < |A|
  {
    A[k] in L <==> A[k].id !in D
  }

  /** The list holds the head and the calls and returns of the operations outside D. */
  ghost predicate Holds<V>(A: seq<Node<V>>, L: seq<Node<V>>, D: set<int>) {
    && |L| >= 1 && |A| >= 1 && L[0] == A[0] && Ascending(L)
    && (forall i {:trigger IsOf(A, L[i])} | 0 <= i < |L| :: IsOf(A, L[i]))
    && (forall k {:trigger HoldsAt(A, L, D, k)} | 1 <= k < |A| :: HoldsAt(A, L, D, k))
  }

  /** Where in the history the node i of a list stands; past the end, after everything. */
  ghost function PosOf<V>(A: seq<Node<V>>, L: seq<Node<V>>, i: nat): int {
    if i < |L| then L[i].place - 1 else |A| - 1
  }

  ghost predicate CallsBefore<V>(L: seq<Node<V>>, i: int) {
    forall k | 1 <= k < i && k < |L| :: L[k].mate != null
  }

  /** A node of the list, other than the head, belongs to an operation outside D. */
  lemma InList<S, V>(p: Problem<S>, A: seq<Node<V>>, L: seq<Node<V>>, D: set<int>, i: nat)
    requires Layout(p, A) && Holds(A, L, D) && 1 <= i < |L|
    ensures 1 <= L[i].place < |A| && A[L[i].place] == L[i] && 0 <= L[i].id < p.n && L[i].id !in D
    ensures if L[i].mate == null then p.ret[L[i].id] == L[i].place - 1 else p.call[L[i].id] == L[i].place - 1
  {
    assert IsOf(A, L[i]) && L[0].place < L[i].place;
    assert NodeOk(p, A, L[i].place) && HoldsAt(A, L, D, L[i].place);
  }

  /** An operation that is still in the list has its call and its return there. */
  lemma Finds<S, V>(p: Problem<S>, A: seq<Node<V>>, L: seq<Node<V>>, D: set<int>, x: int) returns (i: nat, j: nat)
    requires Layout(p, A) && Holds(A, L, D) && 0 <= x < p.n && x !in D
    ensures 1 <= i < j < |L| && L[i].place == p.call[x] + 1 && L[j].place == p.ret[x] + 1
    ensures L[i].id == x && L[i].mate == L[j] && L[j].mate == null
  {
    assert OpOk(p, A, x);
    var c, r := p.call[x] + 1, p.ret[x] + 1;
    assert NodeOk(p, A, c) && NodeOk(p, A, r);
    assert HoldsAt(A, L, D, c) && HoldsAt(A, L, D, r);
    i :| 0 <= i < |L| && L[i] == A[c];
    j :| 0 <= j < |L| && L[j] == A[r];
    assert L[0].place == 0;
  }

  /** The node under the finger is a call that may come next, and its return is further on. */
  lemma CallIsReady<S, V>(p: Problem<S>, A: seq<Node<V>>, L: seq<Node<V>>, D: set<int>, at: nat) returns (j: nat)
    requires WellFormed(p) && Layout(p, A) && Holds(A, L, D) && 1 <= at < |L| && CallsBefore(L, at)
    requires L[at].mate != null
    ensures at < j < |L| && L[at].mate == L[j] && Ready(p, D, L[at].id) && p.call[L[at].id] == L[at].place - 1
  {
    var x := L[at].id;
    InList(p, A, L, D, at);
    var i, j' := Finds(p, A, L, D, x);
    j := j';
    assert L[i].place == L[at].place;
    assert i == at;
    forall y | 0 <= y < p.n && y !in D ensures !Precedes(p, y, x) {
      var _, r := Finds(p, A, L, D, y);
      assert !(r < at);
    }
  }

  /** No operation that is left is called between two neighbours of the list. */
  lemma NothingBetween<S, V>(p: Problem<S>, A: seq<Node<V>>, L: seq<Node<V>>, D: set<int>, i: nat, y: int)
    requires Layout(p, A) && Holds(A, L, D) && i < |L| && 0 <= y < p.n
    requires L[i].place - 1 < p.call[y] < PosOf(A, L, i + 1)
    ensures y in D
  {
    if y !in D {
      var k, _ := Finds(p, A, L, D, y);
      assert false;
    }
  }

  lemma HoldsPair<S, V>(p: Problem<S>, A: seq<Node<V>>, L: seq<Node<V>>, D: set<int>, i: nat, j: nat)
    requires Layout(p, A) && Holds(A, L, D) && 1 <= i < j < |L| && L[i].mate == L[j]
    ensures Holds(A, WithoutPair(L, i, j), D + {L[i].id})
  {
    var x, Q := L[i].id, WithoutPair(L, i, j);
    PairShape(L, i, j);
    InList(p, A, L, D, i);
    assert OpOk(p, A, x);
    forall k | 0 <= k < |Q| ensures IsOf(A, Q[k]) {
      PairHas(L, i, j, Q[k]);
    }
    forall k | 1 <= k < |A| ensures HoldsAt(A, Q, D + {x}, k) {
      assert HoldsAt(A, L, D, k) && NodeOk(p, A, k);
      PairHas(L, i, j, A[k]);
    }
  }

  lemma NotInList<S, V>(p: Problem<S>, A: seq<Node<V>>, L: seq<Node<V>>, D: set<int>, n: Node<V>)
    requires Layout(p, A) && Holds(A, L, D) && n.id in D && 1 <= n.place < |A| && A[n.place] == n
    ensures n !in L
  {
    assert HoldsAt(A, L, D, n.place);
  }
}
