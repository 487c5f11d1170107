/** The linearizability checker itself. */
module Checker {
  import opened Bitset
  import opened Effort
  import opened Linearizability
  import opened LinkedHistory
  import opened Longest
  import opened Options
  import opened Search
  import opened SearchHeap
  import opened SearchList
  import opened SearchSpot
  import opened Sets

  datatype CacheEntry<!S> = CacheEntry(linearized: Words, state: S)
  type Cache<!S> = map<Word, seq<CacheEntry<S>>>

  datatype CallsEntry<!S, V> = CallsEntry(entry: Node<V>, state: S)

  // ---- the cache ----

  ghost predicate Stored<S>(cache: Cache<S>, words: nat, D: set<int>, s: S) {
    exists b: Words, i :: |b| == words && Members(b) == D && HashOf(b) in cache
      && 0 <= i < |cache[HashOf(b)]| && cache[HashOf(b)][i] == CacheEntry(b, s)
  }

  /** The cache holds exactly the pairs that have been seen, each under the hash of its bits. */
  ghost predicate CacheOk<S(!new)>(cache: Cache<S>, seen: set<(set<int>, S)>, words: nat) {
    && (forall h, i | h in cache && 0 <= i < |cache[h]| ::
          && HashOf(cache[h][i].linearized) == h && |cache[h][i].linearized| == words
          && (Members(cache[h][i].linearized), cache[h][i].state) in seen)
    && (forall D, s {:trigger Stored(cache, words, D, s)} | (D, s) in seen :: Stored(cache, words, D, s))
  }

  /** Whether the same set of operations was reached before in an equal state. */
  method CacheContains<S(!new), V>(m: Model<S, V>, cache: Cache<S>, entry: CacheEntry<S>,
                                   ghost seen: set<(set<int>, S)>)
    returns (found: bool)
    requires CacheOk(cache, seen, |entry.linearized|)
    ensures found <==> exists t :: (Members(entry.linearized), t) in seen && m.equal(entry.state, t)
  {
    var hash := Hash(entry.linearized);
    var bucket := if hash in cache then cache[hash] else [];
    for i := 0 to |bucket|
      invariant forall k | 0 <= k < i ::
          !(bucket[k].linearized == entry.linearized && m.equal(entry.state, bucket[k].state))
    {
      var elem := bucket[i];
      var same := Equals(entry.linearized, elem.linearized);
      if same && m.equal(entry.state, elem.state) {
        return true;
      }
    }
    forall t | (Members(entry.linearized), t) in seen ensures !m.equal(entry.state, t) {
      assert Stored(cache, |entry.linearized|, Members(entry.linearized), t);
      var b: Words, i :| |b| == |entry.linearized| && Members(b) == Members(entry.linearized) && HashOf(b) in cache
        && 0 <= i < |cache[HashOf(b)]| && cache[HashOf(b)][i] == CacheEntry(b, t);
      SameMembers(b, entry.linearized);
      assert bucket[i] == CacheEntry(b, t);
    }
    return false;
  }

  lemma CacheGrows<S(!new)>(cache: Cache<S>, seen: set<(set<int>, S)>, b: Words, s: S)
    requires CacheOk(cache, seen, |b|)
    ensures var h := HashOf(b);
      CacheOk(cache[h := (if h in cache then cache[h] else []) + [CacheEntry(b, s)]], seen + {(Members(b), s)}, |b|)
  {
    var h := HashOf(b);
    var bucket := if h in cache then cache[h] else [];
    var cache' := cache[h := bucket + [CacheEntry(b, s)]];
    forall D, t | (D, t) in seen + {(Members(b), s)} ensures Stored(cache', |b|, D, t) {
      if (D, t) in seen {
        assert Stored(cache, |b|, D, t);
        var c: Words, i :| |c| == |b| && Members(c) == D && HashOf(c) in cache
          && 0 <= i < |cache[HashOf(c)]| && cache[HashOf(c)][i] == CacheEntry(c, t);
        assert cache'[HashOf(c)][i] == CacheEntry(c, t);
      } else {
        assert cache'[HashOf(b)][|bucket|] == CacheEntry(b, s);
      }
    }
  }

  // ---- remembering the longest partial linearization ----

  function IdsOf<S, V>(calls: seq<CallsEntry<S, V>>): (ids: seq<int>)
    ensures |ids| == |calls| && forall i | 0 <= i < |ids| :: ids[i] == calls[i].entry.id
  {
    seq(|calls|, i requires 0 <= i < |calls| => calls[i].entry.id)
  }

  method CallIds<S, V>(calls: seq<CallsEntry<S, V>>) returns (ids: seq<int>)
    ensures ids == IdsOf(calls)
  {
    ids := [];
    for i := 0 to |calls|
      invariant ids == IdsOf(calls)[..i]
    {
      ids := ids + [calls[i].entry.id];
    }
  }

  method Remember<S, V>(longest: seq<Option<seq<int>>>, calls: seq<CallsEntry<S, V>>)
    returns (longest': seq<Option<seq<int>>>)
    requires InRange(|longest|, IdsOf(calls))
    ensures RaisedBy(longest, longest', IdsOf(calls))
  {
    ghost var order := IdsOf(calls);
    longest' := longest;
    var ids: Option<seq<int>> := None;
    for i := 0 to |calls|
      invariant |longest'| == |longest| && ids in {None, Some(order)}
      invariant forall x | 0 <= x < |longest| ::
        longest'[x] == if x in order[..i] then Raised(longest[x], order) else longest[x]
    {
      var id := calls[i].entry.id;
      assert id == order[i] && order[..i + 1] == order[..i] + [id];
      if longest'[id] == None || |calls| > |longest'[id].value| {
        if ids == None {
          var made := CallIds(calls);
          ids := Some(made);
        }
        longest' := longest'[id := ids];
      }
    }
    assert order[..|calls|] == order;
  }

  // ---- the search ----

  ghost predicate HasValue<V>(es: seq<Entry<V>>, A: seq<Node<V>>, k: int)
    requires 1 <= k < |A| == |es| + 1
  {
    A[k].value == Some(es[k - 1].value)
  }

  ghost predicate Values<V>(es: seq<Entry<V>>, A: seq<Node<V>>) {
    && |A| == |es| + 1
    && forall k {:trigger HasValue(es, A, k)} | 1 <= k < |A| :: HasValue(es, A, k)
  }

  lemma LayoutBuilt<S, V>(m: Model<S, V>, es: seq<Entry<V>>, call: seq<int>, ret: seq<int>, head: Node<V>,
                          C: seq<Node<V>>)
    requires Paired(es, call, ret) && StandFor(es, call, ret, C, 0) && head.place == 0
    ensures Layout(ProblemOf(m, es, call, ret), [head] + C) && Values(es, [head] + C)
    ensures Ascending([head] + C) && Inserted(C, 0, head) == [head] + C
  {
    var p, A := ProblemOf(m, es, call, ret), [head] + C;
    forall k | 1 <= k < |A| ensures NodeOk(p, A, k) && HasValue(es, A, k) {
      assert Stands(es, ret, C, 0, k - 1) && A[k] == C[k - 1];
    }
    forall x | 0 <= x < p.n ensures OpOk(p, A, x) {
      assert Stands(es, ret, C, 0, call[x]) && Stands(es, ret, C, 0, ret[x]);
    }
    forall i, j | 0 <= i < j < |A| ensures A[i].place < A[j].place {
      assert NodeOk(p, A, j) && (i > 0 ==> NodeOk(p, A, i));
    }
  }

  lemma StepIs<S, V>(m: Model<S, V>, es: seq<Entry<V>>, call: seq<int>, ret: seq<int>, A: seq<Node<V>>, n: Node<V>,
                     s: S)
    requires Paired(es, call, ret) && Layout(ProblemOf(m, es, call, ret), A) && Values(es, A)
    requires 1 <= n.place < |A| && A[n.place] == n && n.mate != null
    ensures n.value.Some? && n.mate.value.Some? && 0 <= n.id < |call|
    ensures ProblemOf(m, es, call, ret).step(s, n.id) == m.step(s, n.value.value, n.mate.value.value)
  {
    var p := ProblemOf(m, es, call, ret);
    assert NodeOk(p, A, n.place) && OpOk(p, A, n.id);
    assert HasValue(es, A, call[n.id] + 1) && HasValue(es, A, ret[n.id] + 1);
  }

  ghost predicate CallsMatch<S, V>(calls: seq<CallsEntry<S, V>>, g: Spot<S, V>) {
    && |calls| == |g.cuts| == |g.order| && |g.states| == |g.order| + 1
    && forall k {:trigger calls[k]} | 0 <= k < |calls| ::
         && g.cuts[k].i < |g.cuts[k].list| && calls[k].entry == g.cuts[k].list[g.cuts[k].i]
         && calls[k].entry.id == g.order[k] && calls[k].state == g.states[k]
  }

  ghost function Digits<S>(p: Problem<S>, order: seq<int>): (d: seq<int>)
    requires |p.call| == p.n && InRange(p.n, order)
    ensures |d| == |order| && forall i | 0 <= i < |d| :: d[i] == p.call[order[i]]
  {
    seq(|order|, i requires 0 <= i < |order| => p.call[order[i]])
  }

  ghost predicate Fits<S, V>(p: Problem<S>, A: seq<Node<V>>, g: Spot<S, V>) {
    && |p.call| == p.n && InRange(p.n, g.order) && |g.order| <= p.n
    && (forall i | 0 <= i < |g.order| :: 0 <= p.call[g.order[i]] < 2 * p.n)
    && 0 <= PosOf(A, g.list, g.at) <= 2 * p.n
  }

  /** What is left to do at a spot. */
  ghost function Remaining<S, V>(p: Problem<S>, A: seq<Node<V>>, g: Spot<S, V>): nat
    requires Fits(p, A, g)
  {
    Left(2 * p.n, p.n, Digits(p, g.order), PosOf(A, g.list, g.at))
  }

  lemma SpotFits<S(!new), V>(p: Problem<S>, A: seq<Node<V>>, g: Spot<S, V>)
    requires SpotOk(p, A, g)
    ensures Fits(p, A, g) && (g.at < |g.list| ==> PosOf(A, g.list, g.at) < 2 * p.n)
  {
    OrderFits(p, g.order);
    forall i | 0 <= i < |g.order| ensures 0 <= p.call[g.order[i]] < 2 * p.n {
      assert OpOk(p, A, g.order[i]);
    }
    if g.at < |g.list| {
      InList(p, A, g.list, Done(g.order), g.at);
    }
  }

  lemma OrderFits<S>(p: Problem<S>, order: seq<int>)
    requires InRange(p.n, order) && Distinct(order)
    ensures |order| <= p.n
  {
    DoneSize(order);
    SubsetSize(Done(order), Range(p.n));
  }

  // ---- the variables of the search ----

  datatype Locals<!S, V> = Locals(
    entry: Node?<V>, state: S, linearized: Words, cache: Cache<S>, calls: seq<CallsEntry<S, V>>,
    longest: seq<Option<seq<int>>>)

  ghost predicate BitsOk<S, V>(p: Problem<S>, l: Locals<S, V>, order: seq<int>) {
    p.n <= 64 * |l.linearized| && Members(l.linearized) == Done(order)
  }

  ghost predicate Nothing(longest: seq<Option<seq<int>>>) {
    forall x | 0 <= x < |longest| :: longest[x] == None
  }

  ghost predicate LongestOk<S(!new), V>(p: Problem<S>, partial: bool, l: Locals<S, V>, g: Spot<S, V>)
    requires WellFormed(p) && |g.states| == |g.order| + 1
  {
    && Sound(p, l.longest)
    && if partial then Recorded(g.order, g.states, g.seen, l.longest) else Nothing(l.longest)
  }

  /** The variables say what the spot says. */
  ghost predicate Agrees<S(!new), V>(p: Problem<S>, partial: bool, l: Locals<S, V>, g: Spot<S, V>)
    requires WellFormed(p)
  {
    && l.entry == At(g.list, g.at) && CallsMatch(l.calls, g) && l.state == g.states[|g.order|]
    && BitsOk(p, l, g.order) && CacheOk(l.cache, g.seen, |l.linearized|)
    && LongestOk(p, partial, l, g)
  }

  // ---- the moves ----

  lemma PushCalls<S, V>(p: Problem<S>, calls: seq<CallsEntry<S, V>>, g: Spot<S, V>, j: nat)
    requires CallsMatch(calls, g) && g.at < j < |g.list|
    ensures CallsMatch(calls + [CallsEntry(g.list[g.at], g.states[|g.order|])], Pushed(p, g, j))
  {
    var calls', h := calls + [CallsEntry(g.list[g.at], g.states[|g.order|])], Pushed(p, g, j);
    forall k | 0 <= k < |calls'|
      ensures h.cuts[k].i < |h.cuts[k].list| && calls'[k].entry == h.cuts[k].list[h.cuts[k].i]
      ensures calls'[k].entry.id == h.order[k] && calls'[k].state == h.states[k]
    {
      if k < |calls| { assert calls'[k] == calls[k] && h.cuts[k] == g.cuts[k]; }
    }
  }

  lemma PushBits<S, V>(p: Problem<S>, l: Locals<S, V>, order: seq<int>, x: int)
    requires BitsOk(p, l, order) && 0 <= x < p.n
    ensures Members(Set(l.linearized, x)) == Done(order) + {x} == Done(order + [x])
  {
    MembersOf(l.linearized, x);
    DoneSnoc(order, x);
  }

  lemma PushLongest<S(!new), V>(p: Problem<S>, partial: bool, l: Locals<S, V>, g: Spot<S, V>, j: nat)
    requires WellFormed(p) && g.at < j < |g.list| && |g.states| == |g.order| + 1 && LongestOk(p, partial, l, g)
    ensures LongestOk(p, partial, l, Pushed(p, g, j))
  {
    var x := g.list[g.at].id;
    if partial { RecordPush(g.order, g.states, g.seen, l.longest, x, p.step(g.states[|g.order|], x).1); }
  }

  function Pushing<S, V>(l: Locals<S, V>, t: S, entry: Node<V>, next: Node?<V>): Locals<S, V>
    requires 0 <= entry.id < 64 * |l.linearized|
  {
    var b := Set(l.linearized, entry.id);
    var hash := HashOf(b);
    var bucket := if hash in l.cache then l.cache[hash] else [];
    Locals(next, t, b, l.cache[hash := bucket + [CacheEntry(b, t)]], l.calls + [CallsEntry(entry, l.state)], l.longest)
  }

  lemma PushAgrees<S(!new), V>(p: Problem<S>, partial: bool, l: Locals<S, V>, g: Spot<S, V>, j: nat)
    requires WellFormed(p) && Agrees(p, partial, l, g) && g.at < j < |g.list| && 0 <= g.list[g.at].id < p.n
    ensures var x := g.list[g.at].id;
      Agrees(p, partial, Pushing(l, p.step(l.state, x).1, g.list[g.at], At(Pushed(p, g, j).list, 1)), Pushed(p, g, j))
  {
    var x, h := g.list[g.at].id, Pushed(p, g, j);
    PushCalls(p, l.calls, g, j);
    PushBits(p, l, g.order, x);
    CacheGrows(l.cache, g.seen, Set(l.linearized, x), p.step(l.state, x).1);
    PushLongest(p, partial, l, g, j);
  }

  lemma PopCalls<S, V>(calls: seq<CallsEntry<S, V>>, g: Spot<S, V>)
    requires CallsMatch(calls, g) && g.order != []
    ensures CallsMatch(calls[..|calls| - 1], Popped(g)) && IdsOf(calls) == g.order
    ensures calls[|calls| - 1].entry.id == g.order[|calls| - 1]
    ensures calls[|calls| - 1].state == g.states[|calls| - 1]
  {
  }

  lemma PopBits<S, V>(p: Problem<S>, l: Locals<S, V>, order: seq<int>)
    requires BitsOk(p, l, order) && InRange(p.n, order) && Distinct(order) && order != []
    ensures Members(Clear(l.linearized, order[|order| - 1])) == Done(order[..|order| - 1])
  {
    var k := |order| - 1;
    MembersOf(l.linearized, order[k]);
    assert order == order[..k] + [order[k]];
    DoneSnoc(order[..k], order[k]);
  }

  lemma PopLongest<S(!new), V>(p: Problem<S>, partial: bool, l: Locals<S, V>, g: Spot<S, V>, l': Locals<S, V>)
    requires WellFormed(p) && Legal(p, g.order) && g.order != [] && |g.cuts| == |g.order| && |g.states| == |g.order| + 1
    requires LongestOk(p, partial, l, g)
    requires if partial then RaisedBy(l.longest, l'.longest, g.order) else l'.longest == l.longest
    ensures LongestOk(p, partial, l', Popped(g))
  {
    if partial {
      RaiseSound(p, l.longest, l'.longest, g.order);
      RecordPop(g.order, g.states, g.seen, l.longest, l'.longest);
    }
  }

  function Popping<S, V>(l: Locals<S, V>, next: Node?<V>, longest: seq<Option<seq<int>>>): Locals<S, V>
    requires l.calls != [] && 0 <= l.calls[|l.calls| - 1].entry.id < 64 * |l.linearized|
  {
    var k := |l.calls| - 1;
    Locals(next, l.calls[k].state, Clear(l.linearized, l.calls[k].entry.id), l.cache, l.calls[..k], longest)
  }

  lemma PopAgrees<S(!new), V>(p: Problem<S>, partial: bool, l: Locals<S, V>, g: Spot<S, V>,
                              longest: seq<Option<seq<int>>>)
    requires WellFormed(p) && Agrees(p, partial, l, g) && Legal(p, g.order) && g.order != []
    requires if partial then RaisedBy(l.longest, longest, g.order) else longest == l.longest
    ensures 0 <= l.calls[|l.calls| - 1].entry.id < 64 * |l.linearized|
    ensures Agrees(p, partial, Popping(l, At(Popped(g).list, Popped(g).at), longest), Popped(g))
  {
    PopCalls(l.calls, g);
    PopBits(p, l, g.order);
    PopLongest(p, partial, l, g, Popping(l, null, longest));
  }

  // ---- each move gets nearer to the end ----

  lemma SkipLower<S, V>(p: Problem<S>, A: seq<Node<V>>, g: Spot<S, V>)
    requires Fits(p, A, g) && Fits(p, A, Skipped(g)) && PosOf(A, g.list, g.at) < PosOf(A, g.list, g.at + 1)
    ensures Remaining(p, A, Skipped(g)) < Remaining(p, A, g)
  {
    SkipLess(2 * p.n, p.n, Digits(p, g.order), PosOf(A, g.list, g.at), PosOf(A, g.list, g.at + 1));
  }

  lemma SkipProgress<S(!new), V>(p: Problem<S>, A: seq<Node<V>>, g: Spot<S, V>)
    requires SpotOk(p, A, g) && SpotOk(p, A, Skipped(g)) && PosOf(A, g.list, g.at) < PosOf(A, g.list, g.at + 1)
    ensures Fits(p, A, g) && Fits(p, A, Skipped(g)) && Remaining(p, A, Skipped(g)) < Remaining(p, A, g)
  {
    SpotFits(p, A, g);
    SpotFits(p, A, Skipped(g));
    SkipLower(p, A, g);
  }

  lemma PushLower<S, V>(p: Problem<S>, A: seq<Node<V>>, g: Spot<S, V>, j: nat)
    requires Layout(p, A) && FingerOk(A, g) && |g.states| == |g.order| + 1
    requires g.at < j < |g.list| && g.list[g.at].mate == g.list[j]
    requires Fits(p, A, g) && Fits(p, A, Pushed(p, g, j))
    ensures Remaining(p, A, Pushed(p, g, j)) < Remaining(p, A, g)
  {
    var h, pos := Pushed(p, g, j), PosOf(A, g.list, g.at);
    InList(p, A, g.list, Done(g.order), g.at);
    assert Digits(p, h.order) == Digits(p, g.order) + [pos];
    PushLess(2 * p.n, p.n, Digits(p, g.order), pos, PosOf(A, h.list, h.at));
  }

  lemma PushProgress<S(!new), V>(p: Problem<S>, A: seq<Node<V>>, g: Spot<S, V>, j: nat)
    requires SpotOk(p, A, g) && g.at < j < |g.list| && g.list[g.at].mate == g.list[j] && SpotOk(p, A, Pushed(p, g, j))
    ensures Fits(p, A, g) && Fits(p, A, Pushed(p, g, j)) && Remaining(p, A, Pushed(p, g, j)) < Remaining(p, A, g)
  {
    SpotFits(p, A, g);
    SpotFits(p, A, Pushed(p, g, j));
    PushLower(p, A, g, j);
  }

  lemma PopProgress<S(!new), V>(p: Problem<S>, A: seq<Node<V>>, g: Spot<S, V>)
    requires SpotOk(p, A, g) && g.order != [] && g.at < |g.list| && SpotOk(p, A, Popped(g))
    requires p.call[g.order[|g.order| - 1]] < PosOf(A, Popped(g).list, Popped(g).at)
    ensures Fits(p, A, g) && Fits(p, A, Popped(g)) && Remaining(p, A, Popped(g)) < Remaining(p, A, g)
  {
    var h := Popped(g);
    SpotFits(p, A, g);
    SpotFits(p, A, h);
    assert Digits(p, h.order) == Digits(p, g.order)[..|g.order| - 1];
    PopLess(2 * p.n, p.n, Digits(p, g.order), PosOf(A, g.list, g.at), PosOf(A, h.list, h.at));
  }

  // ---- the program ----

  ghost predicate Running<S(!new), V>(p: Problem<S>, A: seq<Node<V>>, partial: bool, l: Locals<S, V>, g: Spot<S, V>)
    reads A
  {
    && SpotOk(p, A, g) && Fits(p, A, g) && Agrees(p, partial, l, g)
    && Within(A, g.list) && Linked(g.list) && HangAll(p, A, g)
  }

  /** Linearize the operation of the call under the finger. */
  method Push<S(!new), V>(head: Node<V>, entry: Node<V>, l: Locals<S, V>, newState: S, ghost partial: bool,
                          ghost p: Problem<S>, ghost A: seq<Node<V>>, ghost g: Spot<S, V>, ghost j: nat)
    returns (l': Locals<S, V>)
    requires Congruent(p) && Running(p, A, partial, l, g) && g.at < j < |g.list| && |A| > 0 && head == A[0]
    requires entry == g.list[g.at] && entry.mate == g.list[j] && 0 <= entry.id < p.n
    requires p.step(l.state, entry.id) == (true, newState)
    modifies A
    ensures Running(p, A, partial, l', Pushed(p, g, j))
    ensures Remaining(p, A, Pushed(p, g, j)) < Remaining(p, A, g)
  {
    var newLinearized := Set(l.linearized, entry.id);
    var hash := Hash(newLinearized);
    var bucket := if hash in l.cache then l.cache[hash] else [];
    var cache := l.cache[hash := bucket + [CacheEntry(newLinearized, newState)]];
    PushSpot(p, A, g, j);
    PushProgress(p, A, g, j);
    LiftSpot(entry, p, A, g, j);
    ghost var h := Pushed(p, g, j);
    PartOf(A, h.list, Done(h.order));
    assert Joined(h.list, 0);
    PushAgrees(p, partial, l, g, j);
    l' := Locals(head.next, newState, newLinearized, cache, l.calls + [CallsEntry(entry, l.state)], l.longest);
  }

  /** Take back the operation on top of the stack and go on behind its call. */
  method Backtrack<S(!new), V>(l: Locals<S, V>, computePartial: bool, ghost p: Problem<S>, ghost A: seq<Node<V>>,
                               ghost g: Spot<S, V>)
    returns (l': Locals<S, V>)
    requires Running(p, A, computePartial, l, g) && |l.calls| > 0 && g.at < |g.list| && g.list[g.at].mate == null
    modifies A
    ensures Running(p, A, computePartial, l', Popped(g))
    ensures Remaining(p, A, Popped(g)) < Remaining(p, A, g)
  {
    PopCalls(l.calls, g);
    var longest := l.longest;
    if computePartial {
      longest := Remember(l.longest, l.calls);
    }
    PopAgrees(p, computePartial, l, g, longest);
    PopSpot(p, A, g);
    PopProgress(p, A, g);
    var callsTop := l.calls[|l.calls| - 1];
    UnliftSpot(callsTop.entry, p, A, g);
    ghost var h := Popped(g);
    PartOf(A, h.list, Done(h.order));
    assert Joined(h.list, h.at - 1);
    l' := Locals(callsTop.entry.next, callsTop.state, Clear(l.linearized, callsTop.entry.id), l.cache,
                 l.calls[..|l.calls| - 1], longest);
  }

  lemma SkipHang<S, V>(p: Problem<S>, A: seq<Node<V>>, g: Spot<S, V>)
    requires HangAll(p, A, g)
    ensures HangAll(p, A, Skipped(g))
  {
    forall k | 0 <= k < |g.cuts| ensures HangAt(p, A, Skipped(g), k) {
      assert HangAt(p, A, g, k);
    }
  }

  lemma SkipAgrees<S(!new), V>(p: Problem<S>, partial: bool, l: Locals<S, V>, g: Spot<S, V>)
    requires WellFormed(p) && Agrees(p, partial, l, g)
    ensures Agrees(p, partial, l.(entry := At(g.list, g.at + 1)), Skipped(g))
  {
  }

  lemma SkipMoves<S(!new), V>(p: Problem<S>, A: seq<Node<V>>, g: Spot<S, V>)
    requires SpotOk(p, A, g) && g.at < |g.list| && g.list[g.at].mate != null
    requires var s, x := g.states[|g.order|], g.list[g.at].id;
      !p.step(s, x).0 || Covered(p, g.seen, Done(g.order), s, x)
    ensures SpotOk(p, A, Skipped(g)) && Fits(p, A, g) && Fits(p, A, Skipped(g))
    ensures Remaining(p, A, Skipped(g)) < Remaining(p, A, g)
  {
    SkipSpot(p, A, g);
    SkipProgress(p, A, g);
  }

  lemma SkipRunning<S(!new), V>(p: Problem<S>, A: seq<Node<V>>, partial: bool, l: Locals<S, V>, g: Spot<S, V>)
    requires Running(p, A, partial, l, g) && g.at < |g.list| && g.list[g.at].mate != null
    requires var x := g.list[g.at].id;
      !p.step(l.state, x).0 || Covered(p, g.seen, Done(g.order), l.state, x)
    ensures Running(p, A, partial, l.(entry := g.list[g.at].next), Skipped(g))
    ensures Remaining(p, A, Skipped(g)) < Remaining(p, A, g)
  {
    SkipMoves(p, A, g);
    SkipHang(p, A, g);
    SkipAgrees(p, partial, l, g);
    assert Joined(g.list, g.at);
  }

  /** The call under the finger: linearize it now if that is possible and new, else pass it by. */
  method TryCall<S(!new), V>(m: Model<S, V>, head: Node<V>, entry: Node<V>, l: Locals<S, V>, ghost partial: bool,
                             ghost es: seq<Entry<V>>, ghost call: seq<int>, ghost ret: seq<int>, ghost p: Problem<S>,
                             ghost A: seq<Node<V>>, ghost g: Spot<S, V>)
    returns (l': Locals<S, V>, ghost h: Spot<S, V>)
    requires Paired(es, call, ret) && p == ProblemOf(m, es, call, ret) && Congruent(p) && Values(es, A)
    requires Running(p, A, partial, l, g) && g.at < |g.list| && entry == g.list[g.at] && entry.mate != null && |A| > 0
    requires head == A[0]
    modifies A
    ensures Running(p, A, partial, l', h) && Remaining(p, A, h) < Remaining(p, A, g)
  {
    var matching := entry.mate;
    InList(p, A, g.list, Done(g.order), g.at);
    StepIs(m, es, call, ret, A, entry, l.state);
    var (yes, newState) := m.step(l.state, entry.value.value, matching.value.value);
    if yes {
      var newLinearized := Set(l.linearized, entry.id);
      PushBits(p, l, g.order, entry.id);
      var known := CacheContains(m, l.cache, CacheEntry(newLinearized, newState), g.seen);
      if !known {
        ghost var j := CallIsReady(p, A, g.list, Done(g.order), g.at);
        l' := Push(head, entry, l, newState, partial, p, A, g, j);
        return l', Pushed(p, g, j);
      }
    }
    SkipRunning(p, A, partial, l, g);
    return l.(entry := entry.next), Skipped(g);
  }

  lemma BeginAgrees<S(!new), V>(p: Problem<S>, A: seq<Node<V>>, partial: bool, l: Locals<S, V>, n: nat)
    requires WellFormed(p) && n == p.n && l == Locals(At(A, 1), p.init, Bitset.Fresh(n), map[], [], l.longest)
    requires |l.longest| == n && forall x | 0 <= x < n :: l.longest[x] == None
    ensures Agrees(p, partial, l, Spot(A, 1, [], [], [p.init], {}))
  {
    FreshIsEmpty(n);
    assert Done([]) == {};
  }

  lemma BeginRunning<S(!new), V>(p: Problem<S>, A: seq<Node<V>>, partial: bool, l: Locals<S, V>, n: nat)
    requires WellFormed(p) && Layout(p, A) && Linked(A)
    requires n == p.n && l == Locals(At(A, 1), p.init, Bitset.Fresh(n), map[], [], l.longest)
    requires |l.longest| == n && forall x | 0 <= x < n :: l.longest[x] == None
    ensures Running(p, A, partial, l, Spot(A, 1, [], [], [p.init], {}))
  {
    var g: Spot<S, V> := Spot(A, 1, [], [], [p.init], {});
    Begin(p, A);
    SpotFits(p, A, g);
    BeginAgrees(p, A, partial, l, n);
    PartOf(A, A, {});
  }

  /** Build the list, with a head in front. */
  method Prepare<S(!new), V>(m: Model<S, V>, history: seq<Entry<V>>, ghost call: seq<int>, ghost ret: seq<int>)
    returns (headEntry: Node<V>, entry: Node?<V>, n: nat, ghost A: seq<Node<V>>)
    requires Paired(history, call, ret)
    ensures Layout(ProblemOf(m, history, call, ret), A) && Linked(A) && Values(history, A)
    ensures n == |call| && headEntry == A[0] && entry == At(A, 1)
    ensures forall k | 0 <= k < |A| :: fresh(A[k])
  {
    ghost var C;
    entry, C := MakeLinkedEntries(history, call, ret);
    var length := Length(entry, C);
    n := length / 2;
    headEntry := new Node(None, null, -1, 0);
    LayoutBuilt(m, history, call, ret, headEntry, C);
    headEntry := InsertBefore(headEntry, entry, C, 0);
    A := [headEntry] + C;
  }

  /** The list, and the variables before the first turn of the loop. */
  method SetUp<S(!new), V>(m: Model<S, V>, history: seq<Entry<V>>, partial: bool, ghost call: seq<int>,
                           ghost ret: seq<int>)
    returns (headEntry: Node<V>, n: nat, l: Locals<S, V>, ghost A: seq<Node<V>>, ghost g: Spot<S, V>)
    requires Paired(history, call, ret)
    ensures Running(ProblemOf(m, history, call, ret), A, partial, l, g) && Values(history, A)
    ensures n == |call| && headEntry == A[0] && forall k | 0 <= k < |A| :: fresh(A[k])
  {
    ghost var p := ProblemOf(m, history, call, ret);
    var entry;
    headEntry, entry, n, A := Prepare(m, history, call, ret);
    l := Locals(entry, m.init, Bitset.Fresh(n), map[], [], seq(n, _ => None));
    g := Spot(A, 1, [], [], [p.init], {});
    BeginRunning(p, A, partial, l, n);
  }

  lemma UnderFinger<S(!new), V>(p: Problem<S>, A: seq<Node<V>>, partial: bool, l: Locals<S, V>, g: Spot<S, V>)
    requires Running(p, A, partial, l, g)
    ensures |A| > 0 && IdsOf(l.calls) == g.order
    ensures if A[0].next != null then g.at < |g.list| && l.entry == g.list[g.at] else |g.list| == 1
  {
    assert Joined(g.list, 0);
  }

  /** With an empty stack and a return under the finger, the answer is no. */
  lemma Refuted<S(!new), V>(p: Problem<S>, A: seq<Node<V>>, partial: bool, l: Locals<S, V>, g: Spot<S, V>)
    requires Congruent(p) && SpotOk(p, A, g) && Agrees(p, partial, l, g)
    requires |l.calls| == 0 && g.at < |g.list| && g.list[g.at].mate == null
    ensures !Linearizable(p) && Sound(p, l.longest) && if partial then Maximal(p, l.longest) else Nothing(l.longest)
  {
    var pos, y := PosOf(A, g.list, g.at), g.list[g.at].id;
    ReturnSeen(p, A, g);
    GiveUp(p, g.states, pos, g.seen, y);
    if partial { GaveUpMaximal(p, g.states, pos, g.seen, y, l.longest); }
  }

  /** With nothing but the head left, the stack is a linearization, and nothing can be longer. */
  lemma Confirmed<S(!new), V>(p: Problem<S>, A: seq<Node<V>>, g: Spot<S, V>, longest: seq<Option<seq<int>>>)
    requires SpotOk(p, A, g) && |g.list| == 1
    requires |longest| == p.n && forall x | 0 <= x < p.n :: longest[x] == Some(g.order)
    ensures Linearizable(p) && Sound(p, longest) && Maximal(p, longest)
  {
    AllLifted(p, A, g);
    forall order, x | Legal(p, order) && x in order ensures longest[x].Some? && |order| <= |longest[x].value| {
      OrderFits(p, order);
    }
  }

  /** One turn of the search; it is stuck when there is nothing to go back to. */
  method Turn<S(!new), V>(m: Model<S, V>, head: Node<V>, l: Locals<S, V>, partial: bool, ghost es: seq<Entry<V>>,
                          ghost call: seq<int>, ghost ret: seq<int>, ghost p: Problem<S>, ghost A: seq<Node<V>>,
                          ghost g: Spot<S, V>)
    returns (stuck: bool, l': Locals<S, V>, ghost h: Spot<S, V>)
    requires Paired(es, call, ret) && p == ProblemOf(m, es, call, ret) && Congruent(p) && Values(es, A)
    requires Running(p, A, partial, l, g) && |A| > 0 && head == A[0] && head.next != null
    modifies A
    ensures stuck ==> !Linearizable(p) && Sound(p, l'.longest)
    ensures stuck ==> if partial then Maximal(p, l'.longest) else Nothing(l'.longest)
    ensures !stuck ==> Running(p, A, partial, l', h) && Remaining(p, A, h) < Remaining(p, A, g)
  {
    UnderFinger(p, A, partial, l, g);
    var entry := l.entry;
    if entry.mate != null {
      l', h := TryCall(m, head, entry, l, partial, es, call, ret, p, A, g);
      return false, l', h;
    }
    if |l.calls| == 0 {
      Refuted(p, A, partial, l, g);
      return true, l, g;
    }
    l' := Backtrack(l, partial, p, A, g);
    return false, l', Popped(g);
  }

  /**
    Whether the history is linearizable. With computePartial, and always when it is, the second
    result gives for every operation a longest legal order that contains it.
   */
  method CheckSingle<S(!new), V(!new)>(m: Model<S, V>, history: seq<Entry<V>>, computePartial: bool,
                                       ghost call: seq<int>, ghost ret: seq<int>)
    returns (ok: bool, longest: seq<Option<seq<int>>>)
    requires Paired(history, call, ret) && EqualIsCongruent(m)
    ensures ok <==> Linearizable(ProblemOf(m, history, call, ret))
    ensures Sound(ProblemOf(m, history, call, ret), longest)
    ensures if ok || computePartial then Maximal(ProblemOf(m, history, call, ret), longest) else Nothing(longest)
  {
    ghost var p := ProblemOf(m, history, call, ret);
    ProblemCongruent(m, history, call, ret);
    var headEntry, n, l, A, g := SetUp(m, history, computePartial, call, ret);
    while headEntry.next != null
      invariant Running(p, A, computePartial, l, g)
      invariant forall k | 0 <= k < |A| :: fresh(A[k])
      decreases Remaining(p, A, g)
    {
      var stuck;
      stuck, l, g := Turn(m, headEntry, l, computePartial, history, call, ret, p, A, g);
      if stuck {
        return false, l.longest;
      }
    }
    UnderFinger(p, A, computePartial, l, g);
    var ids := CallIds(l.calls);
    longest := seq(n, _ => Some(ids));
    ok := true;
    Confirmed(p, A, g, longest);
  }
}
