/** The doubly linked list of calls and returns that the search takes operations out of. */
module LinkedHistory {
  import opened Options
  import opened Sets

  datatype Entry<V> = Entry(isReturn: bool, value: V, id: int, time: int, clientId: int)

  /** A call if it has a mate, which is its return; otherwise a return. */
  class Node<V> {
    const value: Option<V>
    const mate: Node?<V>
    const id: int
    ghost const place: int
    var next: Node?<V>
    var prev: Node?<V>

    constructor (value: Option<V>, mate: Node?<V>, id: int, ghost place: int)
      ensures this.value == value && this.mate == mate && this.id == id && this.place == place
      ensures next == null && prev == null
    {
      this.value, this.mate, this.id, this.place := value, mate, id, place;
      next, prev := null, null;
    }
  }

  // ---- what is in the list ----

  ghost predicate Ascending<V>(C: seq<Node<V>>) {
    forall i, j | 0 <= i < j < |C| :: C[i].place < C[j].place
  }

  ghost function At<V>(C: seq<Node<V>>, i: int): Node?<V> {
    if 0 <= i < |C| then C[i] else null
  }

  /** Node i of the list points to its two neighbours. */
  ghost predicate Joined<V>(C: seq<Node<V>>, i: int)
    requires 0 <= i < |C|
    reads C[i]
  {
    C[i].next == At(C, i + 1) && C[i].prev == At(C, i - 1)
  }

  /** The nodes, in that order, are a doubly linked list. */
  ghost predicate Linked<V>(C: seq<Node<V>>)
    reads C
  {
    Ascending(C) && Chain(C)
  }

  ghost predicate Chain<V>(C: seq<Node<V>>)
    reads C
  {
    forall i {:trigger Joined(C, i)} | 0 <= i < |C| :: Joined(C, i)
  }

  ghost function Without<T>(C: seq<T>, i: nat): (r: seq<T>)
    requires i < |C|
    ensures |r| == |C| - 1
    ensures forall k {:trigger r[k]} | 0 <= k < |r| :: r[k] == if k < i then C[k] else C[k + 1]
  {
    seq(|C| - 1, k requires 0 <= k < |C| - 1 => if k < i then C[k] else C[k + 1])
  }

  lemma WithoutMisses<V>(C: seq<Node<V>>, i: nat)
    requires i < |C| && Ascending(C)
    ensures Ascending(Without(C, i)) && C[i] !in Without(C, i)
    ensures forall n | n in Without(C, i) :: n in C
  {
  }

  lemma WithoutKeeps<T>(C: seq<T>, i: nat, n: T)
    requires i < |C| && n in C && n != C[i]
    ensures n in Without(C, i)
  {
    var k :| 0 <= k < |C| && C[k] == n;
    assert Without(C, i)[if k < i then k else k - 1] == n;
  }

  // ---- taking a node out and putting it back ----

  /** Take a node out; it keeps its own pointers. */
  method Unlink<V>(n: Node<V>, ghost C: seq<Node<V>>, ghost i: nat)
    requires Linked(C) && 1 <= i < |C| && n == C[i]
    modifies C
    ensures Linked(Without(C, i)) && Joined(C, i)
  {
    ghost var R := Without(C, i);
    WithoutMisses(C, i);
    assert Joined(C, i) && n.prev == C[i - 1];
    n.prev.next := n.next;
    if n.next != null {
      assert n.next == C[i + 1];
      n.next.prev := n.prev;
    }
    forall k | 0 <= k < |R| ensures Joined(R, k) {
      assert old(Joined(C, k)) && old(Joined(C, k + 1));
    }
  }

  /** Put back a node that kept its pointers: the list is again what it was. */
  method Relink<V>(n: Node<V>, ghost C: seq<Node<V>>, ghost i: nat)
    requires Ascending(C) && 1 <= i < |C| && n == C[i] && Joined(C, i) && Chain(Without(C, i))
    modifies C
    ensures Chain(C)
  {
    ghost var R := Without(C, i);
    assert n.prev == C[i - 1] == R[i - 1] && n.next == At(C, i + 1);
    assert Joined(R, i - 1) && (i < |R| ==> R[i] == C[i + 1] && Joined(R, i));
    n.prev.next := n;
    if n.next != null {
      n.next.prev := n;
    }
    assert Joined(C, i - 1) && Joined(C, i) && (i + 1 < |C| ==> Joined(C, i + 1));
    forall k | 0 <= k < |C| ensures Joined(C, k) {
      if k < i - 1 {
        assert R[k] == C[k] && old(Joined(R, k));
      } else if k > i + 1 {
        assert R[k - 1] == C[k] && old(Joined(R, k - 1));
      }
    }
  }

  /** The list without a call and its return. */
  ghost function WithoutPair<T>(C: seq<T>, i: nat, j: nat): seq<T>
    requires i < j < |C|
  {
    Without(Without(C, i), j - 1)
  }

  lemma PairShape<V>(C: seq<Node<V>>, i: nat, j: nat)
    requires 1 <= i < j < |C| && Ascending(C)
    ensures var Q := WithoutPair(C, i, j);
      |Q| == |C| - 2 && Q[0] == C[0] && Ascending(Q)
  {
    WithoutMisses(C, i);
    WithoutMisses(Without(C, i), j - 1);
  }

  lemma PairHas<V>(C: seq<Node<V>>, i: nat, j: nat, n: Node<V>)
    requires i < j < |C| && Ascending(C)
    ensures n in WithoutPair(C, i, j) <==> n in C && n != C[i] && n != C[j]
  {
    var R := Without(C, i);
    assert R[j - 1] == C[j];
    WithoutMisses(C, i);
    WithoutMisses(R, j - 1);
    if n in C && n != C[i] {
      WithoutKeeps(C, i, n);
      if n != C[j] { WithoutKeeps(R, j - 1, n); }
    }
  }

  /** A lifted pair still points to where it was. */
  ghost predicate Hangs<V>(C: seq<Node<V>>, i: nat, j: nat)
    requires 1 <= i < j < |C|
    reads C[i], C[j]
  {
    Joined(C, i) && Joined(Without(C, i), j - 1)
  }

  method Lift<V>(entry: Node<V>, ghost C: seq<Node<V>>, ghost i: nat, ghost j: nat)
    requires Linked(C) && 1 <= i < j < |C| && entry == C[i] && entry.mate == C[j]
    modifies C
    ensures Linked(WithoutPair(C, i, j)) && Hangs(C, i, j)
  {
    WithoutMisses(C, i);
    ghost var R := Without(C, i);
    assert R[j - 1] == C[j] && entry !in R;
    Unlink(entry, C, i);
    Unlink(entry.mate, R, j - 1);
  }

  /** The exact inverse of Lift. */
  method Unlift<V>(entry: Node<V>, ghost C: seq<Node<V>>, ghost i: nat, ghost j: nat)
    requires Ascending(C) && 1 <= i < j < |C| && entry == C[i] && entry.mate == C[j]
    requires Hangs(C, i, j) && Chain(WithoutPair(C, i, j))
    modifies C
    ensures Linked(C)
  {
    WithoutMisses(C, i);
    ghost var R := Without(C, i);
    assert R[j - 1] == C[j] && entry !in R;
    ghost var next, prev := entry.next, entry.prev;
    Relink(entry.mate, R, j - 1);
    assert entry.next == next && entry.prev == prev;
    Relink(entry, C, i);
  }

  // ---- building the list ----

  /** Put n before the node i of a list; a list without nodes has no mark, and n becomes the list. */
  method InsertBefore<V>(n: Node<V>, mark: Node?<V>, ghost C: seq<Node<V>>, ghost i: nat) returns (r: Node<V>)
    requires Chain(C) && n.next == null && n.prev == null
    requires if mark == null then C == [] && i == 0 else i < |C| && mark == C[i]
    requires Ascending(Inserted(C, i, n))
    modifies n, C
    ensures r == n && Linked(Inserted(C, i, n))
  {
    ghost var M := Inserted(C, i, n);
    if mark != null {
      assert Joined(C, i) && mark == M[i + 1];
      var beforeMark := mark.prev;
      mark.prev := n;
      n.next := mark;
      if beforeMark != null {
        assert beforeMark == M[i - 1] && old(Joined(C, i - 1));
        n.prev := beforeMark;
        beforeMark.next := n;
      }
    }
    assert M[i] == n && Joined(M, i);
    forall k | 0 <= k < |M| ensures Joined(M, k) {
      if k < i {
        assert M[k] == C[k] && old(Joined(C, k));
      } else if k > i {
        assert M[k] == C[k - 1] && old(Joined(C, k - 1));
      }
    }
    return n;
  }

  method Length<V>(n: Node?<V>, ghost C: seq<Node<V>>) returns (l: nat)
    requires Linked(C) && n == At(C, 0)
    ensures l == |C|
  {
    l := 0;
    var m := n;
    while m != null
      invariant l <= |C| && m == At(C, l)
      decreases |C| - l
    {
      assert Joined(C, l);
      m := m.next;
      l := l + 1;
    }
  }

  /** Operation x is called by entry call[x] and returns with the later entry ret[x]; there is nothing else. */
  ghost predicate Paired<V>(es: seq<Entry<V>>, call: seq<int>, ret: seq<int>) {
    && |call| == |ret| && |es| == 2 * |call|
    && (forall x | 0 <= x < |call| :: 0 <= call[x] < ret[x] < |es|)
    && (forall x | 0 <= x < |call| :: !es[call[x]].isReturn && es[call[x]].id == x)
    && (forall x | 0 <= x < |call| :: es[ret[x]].isReturn && es[ret[x]].id == x)
    && (forall j | 0 <= j < |es| :: 0 <= es[j].id < |call|)
    && (forall j | 0 <= j < |es| :: j == if es[j].isReturn then ret[es[j].id] else call[es[j].id])
  }

  /** Node k of C stands for entry from + k, at place from + k + 1. */
  ghost predicate Stands<V>(es: seq<Entry<V>>, ret: seq<int>, C: seq<Node<V>>, from: nat, k: int)
    requires 0 <= k < |C| == |es| - from && 0 <= es[from + k].id < |ret|
  {
    var n, e := C[k], es[from + k];
    && n.value == Some(e.value) && n.id == e.id && n.place == from + k + 1
    && n.mate == if e.isReturn then null else At(C, ret[e.id] - from)
  }

  ghost predicate StandFor<V>(es: seq<Entry<V>>, call: seq<int>, ret: seq<int>, C: seq<Node<V>>, from: nat)
    requires Paired(es, call, ret)
  {
    && |C| == |es| - from
    && forall k {:trigger Stands(es, ret, C, from, k)} | 0 <= k < |C| :: Stands(es, ret, C, from, k)
  }

  lemma StandBefore<V>(es: seq<Entry<V>>, call: seq<int>, ret: seq<int>, C: seq<Node<V>>, i: nat, n: Node<V>)
    requires Paired(es, call, ret) && i < |es| && StandFor(es, call, ret, C, i + 1)
    requires n.value == Some(es[i].value) && n.id == es[i].id && n.place == i + 1
    requires n.mate == if es[i].isReturn then null else At(C, ret[es[i].id] - i - 1)
    ensures StandFor(es, call, ret, [n] + C, i)
    ensures Inserted(C, 0, n) == [n] + C && Ascending([n] + C)
  {
    var M := [n] + C;
    forall k | 0 <= k < |M| ensures Stands(es, ret, M, i, k) {
      if k > 0 {
        assert Stands(es, ret, C, i + 1, k - 1) && M[k] == C[k - 1];
        var e := es[i + k];
        assert !e.isReturn ==> ret[e.id] > i + k && At(M, ret[e.id] - i) == At(C, ret[e.id] - i - 1);
      }
    }
    assert Inserted(C, 0, n) == M;
    forall a, b | 0 <= a < b < |M| ensures M[a].place < M[b].place {
      assert Stands(es, ret, M, i, a) && Stands(es, ret, M, i, b);
    }
  }

  /** The nodes of the returns that stand already, by operation. */
  ghost predicate MatesOk<V>(mates: map<int, Node<V>>, ret: seq<int>, C: seq<Node<V>>, i: int) {
    forall x {:trigger ret[x]} | 0 <= x < |ret| && ret[x] >= i :: x in mates && mates[x] == At(C, ret[x] - i)
  }

  lemma MatesMore<V>(es: seq<Entry<V>>, call: seq<int>, ret: seq<int>, mates: map<int, Node<V>>, C: seq<Node<V>>,
                     i: nat, n: Node<V>)
    requires Paired(es, call, ret) && i < |es| && MatesOk(mates, ret, C, i + 1)
    ensures MatesOk(if es[i].isReturn then mates[es[i].id := n] else mates, ret, [n] + C, i)
  {
    var mates' := if es[i].isReturn then mates[es[i].id := n] else mates;
    forall x | 0 <= x < |ret| && ret[x] >= i ensures x in mates' && mates'[x] == At([n] + C, ret[x] - i) {
      assert ret[x] == i ==> x == es[i].id;
    }
  }

  method MakeLinkedEntries<V>(es: seq<Entry<V>>, ghost call: seq<int>, ghost ret: seq<int>)
    returns (root: Node?<V>, ghost C: seq<Node<V>>)
    requires Paired(es, call, ret)
    ensures Linked(C) && root == At(C, 0)
    ensures forall j | 0 <= j < |C| :: fresh(C[j])
    ensures StandFor(es, call, ret, C, 0)
  {
    root, C := null, [];
    var mates: map<int, Node<V>> := map[];
    var i := |es|;
    while i > 0
      invariant 0 <= i <= |es| && Linked(C) && root == At(C, 0)
      invariant forall j | 0 <= j < |C| :: fresh(C[j])
      invariant StandFor(es, call, ret, C, i) && MatesOk(mates, ret, C, i)
    {
      i := i - 1;
      var elem := es[i];
      var mate := if !elem.isReturn && elem.id in mates then mates[elem.id] else null;
      assert !elem.isReturn ==> ret[elem.id] > i && mate == At(C, ret[elem.id] - i - 1);
      var entry := new Node(Some(elem.value), mate, elem.id, i + 1);
      MatesMore(es, call, ret, mates, C, i, entry);
      StandBefore(es, call, ret, C, i, entry);
      if elem.isReturn {
        mates := mates[elem.id := entry];
      }
      root := InsertBefore(entry, root, C, 0);
      C := [entry] + C;
    }
  }
}
