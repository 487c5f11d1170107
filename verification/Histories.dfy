/** From operations with times to the list of entries that the search works on. */
module Histories {
  import opened Linearizability
  import opened LinkedHistory
  import opened SearchList
  import opened Sets

  datatype Operation<V> = Operation(clientId: int, input: V, call: int, output: V, ret: int)

  /** Earlier first; at the same time, calls before returns. */
  predicate Less<V>(a: Entry<V>, b: Entry<V>) {
    if a.time != b.time then a.time < b.time else !a.isReturn && b.isReturn
  }

  ghost predicate Sorted<V>(es: seq<Entry<V>>) {
    forall i, j | 0 <= i < j < |es| :: !Less(es[j], es[i])
  }

  /** es lists the elements of raw in the order perm; spots says where each went. */
  ghost predicate Arranges<T>(raw: seq<T>, es: seq<T>, perm: seq<int>, spots: seq<int>) {
    && |es| == |raw| == |perm| == |spots|
    && (forall i | 0 <= i < |es| :: 0 <= perm[i] < |raw| && es[i] == raw[perm[i]] && spots[perm[i]] == i)
    && (forall k | 0 <= k < |raw| :: 0 <= spots[k] < |es| && perm[spots[k]] == k)
  }

  ghost function Moved(spots: seq<int>, j: int): (r: seq<int>)
    ensures |r| == |spots| + 1 && r[|spots|] == j
    ensures forall k | 0 <= k < |spots| :: r[k] == if spots[k] >= j then spots[k] + 1 else spots[k]
  {
    seq(|spots|, k requires 0 <= k < |spots| => if spots[k] >= j then spots[k] + 1 else spots[k]) + [j]
  }

  lemma ArrangesMore<T>(raw: seq<T>, es: seq<T>, perm: seq<int>, spots: seq<int>, j: nat, e: T)
    requires Arranges(raw, es, perm, spots) && j <= |es|
    ensures Arranges(raw + [e], Inserted(es, j, e), Inserted(perm, j, |raw|), Moved(spots, j))
  {
  }

  lemma SortedMore<V>(es: seq<Entry<V>>, j: nat, e: Entry<V>)
    requires Sorted(es) && j <= |es|
    requires (forall i | 0 <= i < j :: !Less(e, es[i])) && (forall i | j <= i < |es| :: !Less(es[i], e))
    ensures Sorted(Inserted(es, j, e))
  {
  }

  method PlaceFor<V>(es: seq<Entry<V>>, e: Entry<V>) returns (j: nat)
    requires Sorted(es)
    ensures j <= |es| && (forall i | 0 <= i < j :: !Less(e, es[i])) && (forall i | j <= i < |es| :: Less(e, es[i]))
  {
    j := |es|;
    while j > 0 && Less(e, es[j - 1])
      invariant 0 <= j <= |es| && forall k | j <= k < |es| :: Less(e, es[k])
    {
      j := j - 1;
    }
    forall k | 0 <= k < j ensures !Less(e, es[k]) {
      assert k < j - 1 ==> !Less(es[j - 1], es[k]);
    }
  }

  /** Any sorting by Less would do; this one inserts. */
  method SortByTime<V>(raw: seq<Entry<V>>) returns (es: seq<Entry<V>>, ghost perm: seq<int>, ghost spots: seq<int>)
    ensures Sorted(es) && Arranges(raw, es, perm, spots)
  {
    es, perm, spots := [], [], [];
    for i := 0 to |raw|
      invariant Sorted(es) && Arranges(raw[..i], es, perm, spots)
    {
      var j := PlaceFor(es, raw[i]);
      SortedMore(es, j, raw[i]);
      ArrangesMore(raw[..i], es, perm, spots, j, raw[i]);
      assert raw[..i + 1] == raw[..i] + [raw[i]];
      es, perm, spots := Inserted(es, j, raw[i]), Inserted(perm, j, i), Moved(spots, j);
    }
    assert raw[..|raw|] == raw;
  }

  ghost predicate CallEntry<V>(e: Entry<V>, x: int, op: Operation<V>) {
    e == Entry(false, op.input, x, op.call, op.clientId)
  }

  ghost predicate ReturnEntry<V>(e: Entry<V>, x: int, op: Operation<V>) {
    e == Entry(true, op.output, x, op.ret, op.clientId)
  }

  /** The entries of a history, in order of time. */
  ghost predicate EntriesOf<V>(history: seq<Operation<V>>, es: seq<Entry<V>>, call: seq<int>, ret: seq<int>) {
    && Paired(es, call, ret) && |call| == |history|
    && (forall x | 0 <= x < |history| ::
        CallEntry(es[call[x]], x, history[x]) && ReturnEntry(es[ret[x]], x, history[x]))
    && (forall x, y | 0 <= x < |history| && 0 <= y < |history| ::
        ret[x] < call[y] <==> history[x].ret < history[y].call)
  }

  /** What the source demands of its callers: no operation returns before it is called. */
  ghost predicate Timed<V>(history: seq<Operation<V>>) {
    forall x | 0 <= x < |history| :: history[x].call <= history[x].ret
  }

  ghost predicate RawOf<V>(history: seq<Operation<V>>, raw: seq<Entry<V>>, n: nat)
    requires n <= |history|
  {
    && |raw| == 2 * n
    && forall x | 0 <= x < n :: CallEntry(raw[2 * x], x, history[x]) && ReturnEntry(raw[2 * x + 1], x, history[x])
  }

  ghost function Evens(spots: seq<int>, n: nat, off: nat): (r: seq<int>)
    requires |spots| == 2 * n && off < 2
    ensures |r| == n && forall x | 0 <= x < n :: r[x] == spots[2 * x + off]
  {
    seq(n, x requires 0 <= x < n => spots[2 * x + off])
  }

  lemma SortedPairs<V>(history: seq<Operation<V>>, raw: seq<Entry<V>>, es: seq<Entry<V>>, perm: seq<int>,
                       spots: seq<int>)
    requires Timed(history) && RawOf(history, raw, |history|) && Sorted(es) && Arranges(raw, es, perm, spots)
    ensures EntriesOf(history, es, Evens(spots, |history|, 0), Evens(spots, |history|, 1))
  {
    var n := |history|;
    var call, ret := Evens(spots, n, 0), Evens(spots, n, 1);
    PairsStand(history, raw, es, perm, spots);
    forall x, y | 0 <= x < n && 0 <= y < n ensures ret[x] < call[y] <==> history[x].ret < history[y].call {
      TimesRule(history, es, call, ret, x, y);
    }
    forall j | 0 <= j < |es|
      ensures 0 <= es[j].id < n && j == if es[j].isReturn then ret[es[j].id] else call[es[j].id]
    {
      EntryHasPlace(history, raw, es, perm, spots, j);
    }
    forall x | 0 <= x < n ensures call[x] < ret[x] {
      TimesRule(history, es, call, ret, x, x);
    }
  }

  lemma PairsStand<V>(history: seq<Operation<V>>, raw: seq<Entry<V>>, es: seq<Entry<V>>, perm: seq<int>,
                      spots: seq<int>)
    requires RawOf(history, raw, |history|) && Arranges(raw, es, perm, spots)
    ensures var n := |history|;
      Stand(history, es, Evens(spots, n, 0), Evens(spots, n, 1))
  {
    var n := |history|;
    var call, ret := Evens(spots, n, 0), Evens(spots, n, 1);
    forall x | 0 <= x < n
      ensures 0 <= call[x] < |es| && 0 <= ret[x] < |es|
      ensures CallEntry(es[call[x]], x, history[x]) && ReturnEntry(es[ret[x]], x, history[x])
    {
      assert es[spots[2 * x]] == raw[2 * x] && es[spots[2 * x + 1]] == raw[2 * x + 1];
    }
  }

  /** Every operation has its call and its return where the two lists say. */
  ghost predicate Stand<V>(history: seq<Operation<V>>, es: seq<Entry<V>>, call: seq<int>, ret: seq<int>) {
    && |call| == |ret| == |history|
    && forall x | 0 <= x < |history| ::
         && 0 <= call[x] < |es| && 0 <= ret[x] < |es|
         && CallEntry(es[call[x]], x, history[x]) && ReturnEntry(es[ret[x]], x, history[x])
  }

  lemma TimesRule<V>(history: seq<Operation<V>>, es: seq<Entry<V>>, call: seq<int>, ret: seq<int>, x: nat, y: nat)
    requires Stand(history, es, call, ret) && Sorted(es) && x < |history| && y < |history|
    ensures ret[x] != call[y] && (ret[x] < call[y] <==> history[x].ret < history[y].call)
  {
    var a, b := es[ret[x]], es[call[y]];
    assert ReturnEntry(a, x, history[x]) && CallEntry(b, y, history[y]);
  }

  lemma EntryHasPlace<V>(history: seq<Operation<V>>, raw: seq<Entry<V>>, es: seq<Entry<V>>, perm: seq<int>,
                         spots: seq<int>, j: nat)
    requires RawOf(history, raw, |history|) && Arranges(raw, es, perm, spots) && j < |es|
    ensures 0 <= es[j].id < |history|
    ensures j == Evens(spots, |history|, if es[j].isReturn then 1 else 0)[es[j].id]
  {
    var k := perm[j];
    var x := k / 2;
    assert k == 2 * x || k == 2 * x + 1;
    assert CallEntry(raw[2 * x], x, history[x]) && ReturnEntry(raw[2 * x + 1], x, history[x]);
  }

  method MakeEntries<V>(history: seq<Operation<V>>)
    returns (es: seq<Entry<V>>, ghost call: seq<int>, ghost ret: seq<int>)
    requires Timed(history)
    ensures EntriesOf(history, es, call, ret) && Sorted(es)
  {
    var raw: seq<Entry<V>> := [];
    var id := 0;
    for i := 0 to |history|
      invariant id == i && RawOf(history, raw, i)
    {
      var elem := history[i];
      raw := raw + [Entry(false, elem.input, id, elem.call, elem.clientId)];
      raw := raw + [Entry(true, elem.output, id, elem.ret, elem.clientId)];
      id := id + 1;
    }
    ghost var perm, spots;
    es, perm, spots := SortByTime(raw);
    call, ret := Evens(spots, |history|, 0), Evens(spots, |history|, 1);
    SortedPairs(history, raw, es, perm, spots);
  }

  // ---- the question, asked of times ----

  ghost function TimesProblem<S, V>(m: Model<S, V>, history: seq<Operation<V>>): (p: Problem<S>)
    requires Timed(history)
    ensures WellFormed(p)
  {
    Problem(|history|, m.init,
      seq(|history|, x requires 0 <= x < |history| => history[x].call),
      seq(|history|, x requires 0 <= x < |history| => history[x].ret),
      (s: S, x: int) => if 0 <= x < |history| then m.step(s, history[x].input, history[x].output) else (false, s),
      m.equal)
  }

  /** Two problems that differ only in how the times are written down. */
  ghost predicate Alike<S(!new)>(p: Problem<S>, q: Problem<S>) {
    && WellFormed(p) && WellFormed(q) && p.n == q.n && p.init == q.init
    && (forall s, x | 0 <= x < p.n :: p.step(s, x) == q.step(s, x))
    && (forall x, y | 0 <= x < p.n && 0 <= y < p.n :: Precedes(p, x, y) <==> Precedes(q, x, y))
  }

  lemma {:induction false} AlikeRuns<S(!new)>(p: Problem<S>, q: Problem<S>, order: seq<int>)
    requires Alike(p, q) && InRange(p.n, order)
    ensures Runs(p, order) == Runs(q, order)
    decreases |order|
  {
    if order != [] { AlikeRuns(p, q, order[..|order| - 1]); }
  }

  lemma AlikeLinearizable<S(!new)>(p: Problem<S>, q: Problem<S>)
    requires Alike(p, q)
    ensures Linearizable(p) <==> Linearizable(q)
  {
    forall order | InRange(p.n, order) ensures Legal(p, order) <==> Legal(q, order) {
      AlikeRuns(p, q, order);
    }
  }

  /** Sorting the entries by time, calls first, keeps the question. */
  lemma EntriesKeepMeaning<S(!new), V>(m: Model<S, V>, history: seq<Operation<V>>, es: seq<Entry<V>>, call: seq<int>,
                                       ret: seq<int>)
    requires Timed(history) && EntriesOf(history, es, call, ret)
    ensures Linearizable(ProblemOf(m, es, call, ret)) <==> Linearizable(TimesProblem(m, history))
  {
    var p, q := ProblemOf(m, es, call, ret), TimesProblem(m, history);
    forall s, x | 0 <= x < p.n ensures p.step(s, x) == q.step(s, x) {
      assert CallEntry(es[call[x]], x, history[x]) && ReturnEntry(es[ret[x]], x, history[x]);
    }
    AlikeLinearizable(p, q);
  }
}
