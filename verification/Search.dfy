/** The state of the backtracking search, abstractly: its moves keep what makes it complete. */
module Search {
  import opened Linearizability
  import opened Sets

  ghost predicate StateAt<S>(p: Problem<S>, order: seq<int>, states: seq<S>, i: int)
    requires 0 <= i <= |order| && |states| == |order| + 1
  {
    states[i] == Runs(p, order[..i]).1
  }

  /** The operations on the stack are a legal order, and states[i] is the state after i of them. */
  ghost predicate Path<S>(p: Problem<S>, order: seq<int>, states: seq<S>)
    requires WellFormed(p)
  {
    && Legal(p, order) && |states| == |order| + 1
    && forall i {:trigger StateAt(p, order, states, i)} | 0 <= i <= |order| :: StateAt(p, order, states, i)
  }

  ghost predicate LevelAt<S(!new)>(p: Problem<S>, order: seq<int>, states: seq<S>, seen: set<(set<int>, S)>, i: int)
    requires WellFormed(p) && Path(p, order, states) && 0 <= i < |order|
  {
    && (Done(order[..i + 1]), states[i + 1]) in seen
    && Closed(p, seen, Done(order[..i]), states[i], p.call[order[i]] + 1)
  }

  /** Each level of the stack is in the cache, and below it everything called no later than the
      branch that was taken is covered. */
  ghost predicate Stacked<S(!new)>(p: Problem<S>, order: seq<int>, states: seq<S>, seen: set<(set<int>, S)>)
    requires WellFormed(p) && Path(p, order, states)
  {
    forall i {:trigger LevelAt(p, order, states, seen, i)} | 0 <= i < |order| :: LevelAt(p, order, states, seen, i)
  }

  ghost predicate OnStack<S>(order: seq<int>, states: seq<S>, D: set<int>, s: S)
    requires |states| == |order| + 1
  {
    exists i {:trigger states[i]} :: 1 <= i <= |order| && D == Done(order[..i]) && s == states[i]
  }

  /** What has been seen is still being explored, or leads only to what has been seen. */
  ghost predicate Finished<S(!new)>(p: Problem<S>, order: seq<int>, states: seq<S>, seen: set<(set<int>, S)>)
    requires WellFormed(p) && |states| == |order| + 1
  {
    forall D, s {:trigger AllClosed(p, seen, D, s)} | (D, s) in seen ::
      OnStack(order, states, D, s) || AllClosed(p, seen, D, s)
  }

  /** Nothing seen contains every operation, unless the search stands there. */
  ghost predicate NotFull<S(!new)>(p: Problem<S>, order: seq<int>, seen: set<(set<int>, S)>) {
    forall D, s | (D, s) in seen :: |D| == p.n ==> |order| == p.n
  }

  ghost predicate SearchInv<S(!new)>(p: Problem<S>, order: seq<int>, states: seq<S>, pos: int,
                                     seen: set<(set<int>, S)>) {
    && WellFormed(p) && Path(p, order, states) && Stacked(p, order, states, seen) && Finished(p, order, states, seen)
    && Closed(p, seen, Done(order), states[|order|], pos)
    && NotFull(p, order, seen)
  }

  lemma SearchBegins<S(!new)>(p: Problem<S>, pos: int)
    requires WellFormed(p) && forall x | 0 <= x < p.n :: p.call[x] >= pos
    ensures SearchInv(p, [], [p.init], pos, {})
  {
  }

  lemma DoneSize(order: seq<int>)
    requires Distinct(order)
    ensures |Done(order)| == |order|
  {
    ElementsSize(order);
  }

  // ---- push ----

  lemma PathPush<S>(p: Problem<S>, order: seq<int>, states: seq<S>, x: int)
    requires WellFormed(p) && Path(p, order, states)
    requires Ready(p, Done(order), x) && p.step(states[|order|], x).0
    ensures Path(p, order + [x], states + [p.step(states[|order|], x).1])
  {
    var k, o', s' := |order|, order + [x], states + [p.step(states[|order|], x).1];
    assert order[..k] == order && StateAt(p, order, states, k);
    LegalExtends(p, order, x);
    RunsSnoc(p, order, x);
    forall i | 0 <= i <= k + 1 ensures StateAt(p, o', s', i) {
      if i <= k {
        assert o'[..i] == order[..i] && StateAt(p, order, states, i);
      } else {
        assert o'[..i] == o';
      }
    }
  }

  lemma StackedPush<S(!new)>(p: Problem<S>, order: seq<int>, states: seq<S>, seen: set<(set<int>, S)>, x: int)
    requires WellFormed(p) && Path(p, order, states) && Stacked(p, order, states, seen)
    requires Ready(p, Done(order), x) && Closed(p, seen, Done(order), states[|order|], p.call[x])
    requires p.step(states[|order|], x).0 && p.equal(p.step(states[|order|], x).1, p.step(states[|order|], x).1)
    requires forall y | 0 <= y < p.n && p.call[y] == p.call[x] :: y == x
    requires Path(p, order + [x], states + [p.step(states[|order|], x).1])
    ensures var t := p.step(states[|order|], x).1;
      Stacked(p, order + [x], states + [t], seen + {(Done(order) + {x}, t)})
  {
    var k, t := |order|, p.step(states[|order|], x).1;
    var o', s', seen' := order + [x], states + [t], seen + {(Done(order) + {x}, t)};
    DoneSnoc(order, x);
    forall i | 0 <= i < k + 1 ensures LevelAt(p, o', s', seen', i) {
      if i < k {
        assert LevelAt(p, order, states, seen, i);
        assert o'[..i] == order[..i] && o'[..i + 1] == order[..i + 1] && o'[i] == order[i];
        ClosedGrows(p, seen, seen', Done(order[..i]), states[i], p.call[order[i]] + 1);
      } else {
        assert o'[..i] == order && o'[..i + 1] == o';
        ClosedGrows(p, seen, seen', Done(order), states[k], p.call[x]);
        assert Covered(p, seen', Done(order), states[k], x);
        forall y | 0 <= y < p.n && p.call[y] < p.call[x] + 1
          ensures CoveredIfLegal(p, seen', Done(order), states[k], y)
        {
        }
      }
    }
  }

  lemma FinishedPush<S(!new)>(p: Problem<S>, order: seq<int>, states: seq<S>, seen: set<(set<int>, S)>, x: int, t: S)
    requires WellFormed(p) && |states| == |order| + 1 && Finished(p, order, states, seen)
    ensures Finished(p, order + [x], states + [t], seen + {(Done(order) + {x}, t)})
  {
    var k := |order|;
    var o', s', seen' := order + [x], states + [t], seen + {(Done(order) + {x}, t)};
    DoneSnoc(order, x);
    forall D, s | (D, s) in seen' ensures OnStack(o', s', D, s) || AllClosed(p, seen', D, s) {
      if (D, s) in seen {
        if OnStack(order, states, D, s) {
          var i :| 1 <= i <= k && D == Done(order[..i]) && s == states[i];
          assert o'[..i] == order[..i] && s'[i] == states[i];
        } else {
          assert AllClosed(p, seen, D, s);
          ClosedGrows(p, seen, seen', D, s, 0);
        }
      } else {
        assert o'[..k + 1] == o' && s'[k + 1] == t;
      }
    }
  }

  lemma NotFullPush<S(!new)>(p: Problem<S>, order: seq<int>, seen: set<(set<int>, S)>, x: int, t: S)
    requires NotFull(p, order, seen) && Distinct(order) && InRange(p.n, order) && |order| < p.n && 0 <= x < p.n
    requires x !in Done(order)
    ensures NotFull(p, order + [x], seen + {(Done(order) + {x}, t)})
  {
    DoneSize(order);
  }

  lemma PushKeeps<S(!new)>(p: Problem<S>, order: seq<int>, states: seq<S>, pos: int, seen: set<(set<int>, S)>, x: int,
                           pos': int)
    requires SearchInv(p, order, states, pos, seen) && Congruent(p)
    requires Ready(p, Done(order), x) && p.call[x] == pos && p.step(states[|order|], x).0
    requires forall y | 0 <= y < p.n && p.call[y] == pos :: y == x
    requires forall y | 0 <= y < p.n && p.call[y] < pos' :: y in Done(order) + {x}
    ensures var t := p.step(states[|order|], x).1;
      SearchInv(p, order + [x], states + [t], pos', seen + {(Done(order) + {x}, t)})
  {
    var t := p.step(states[|order|], x).1;
    var o', seen' := order + [x], seen + {(Done(order) + {x}, t)};
    PathPush(p, order, states, x);
    StackedPush(p, order, states, seen, x);
    FinishedPush(p, order, states, seen, x, t);
    DoneSnoc(order, x);
    RoomFor(p, order, x);
    NotFullPush(p, order, seen, x, t);
    forall y | 0 <= y < p.n && p.call[y] < pos' ensures CoveredIfLegal(p, seen', Done(o'), t, y) {
    }
  }

  /** A legal order that misses an operation is shorter than n. */
  lemma RoomFor<S>(p: Problem<S>, order: seq<int>, x: int)
    requires WellFormed(p) && Legal(p, order) && 0 <= x < p.n && x !in Done(order)
    ensures |order| < p.n
  {
    DoneSize(order);
    SubsetSize(Done(order) + {x}, Range(p.n));
  }

  // ---- skip ----

  lemma SkipKeeps<S(!new)>(p: Problem<S>, order: seq<int>, states: seq<S>, pos: int, seen: set<(set<int>, S)>, x: int,
                           pos': int)
    requires SearchInv(p, order, states, pos, seen) && 0 <= x < p.n && p.call[x] == pos
    requires !p.step(states[|order|], x).0 || Covered(p, seen, Done(order), states[|order|], x)
    requires forall y | 0 <= y < p.n && pos <= p.call[y] < pos' :: y == x || y in Done(order)
    ensures SearchInv(p, order, states, pos', seen)
  {
    forall y | 0 <= y < p.n && p.call[y] < pos' ensures CoveredIfLegal(p, seen, Done(order), states[|order|], y) {
    }
  }

  // ---- pop ----

  /** Operation y returns at pos, and nothing is called there. */
  ghost predicate ReturnAt<S>(p: Problem<S>, y: int, pos: int)
    requires WellFormed(p)
  {
    0 <= y < p.n && p.ret[y] == pos && forall x | 0 <= x < p.n :: p.call[x] != pos
  }

  /** When the first return of what is left is reached, every way to go on has been tried. */
  lemma DeadEnd<S(!new)>(p: Problem<S>, order: seq<int>, states: seq<S>, pos: int, seen: set<(set<int>, S)>, y: int)
    requires SearchInv(p, order, states, pos, seen) && ReturnAt(p, y, pos) && y !in Done(order)
    ensures AllClosed(p, seen, Done(order), states[|order|])
  {
    forall x | 0 <= x < p.n ensures CoveredIfLegal(p, seen, Done(order), states[|order|], x) {
      if Ready(p, Done(order), x) {
        assert !Precedes(p, y, x);
      }
    }
  }

  lemma PathPop<S>(p: Problem<S>, order: seq<int>, states: seq<S>)
    requires WellFormed(p) && Path(p, order, states) && order != []
    ensures Path(p, order[..|order| - 1], states[..|order|])
  {
    var k := |order| - 1;
    LegalShrinks(p, order);
    var o', s' := order[..k], states[..k + 1];
    forall i | 0 <= i <= k ensures StateAt(p, o', s', i) {
      assert o'[..i] == order[..i] && StateAt(p, order, states, i);
    }
  }

  lemma StackedPop<S(!new)>(p: Problem<S>, order: seq<int>, states: seq<S>, seen: set<(set<int>, S)>)
    requires WellFormed(p) && Path(p, order, states) && Stacked(p, order, states, seen) && order != []
    requires Path(p, order[..|order| - 1], states[..|order|])
    ensures Stacked(p, order[..|order| - 1], states[..|order|], seen)
  {
    var k := |order| - 1;
    var o', s' := order[..k], states[..k + 1];
    forall i | 0 <= i < k ensures LevelAt(p, o', s', seen, i) {
      assert LevelAt(p, order, states, seen, i);
      assert o'[..i] == order[..i] && o'[..i + 1] == order[..i + 1] && o'[i] == order[i];
    }
  }

  lemma FinishedPop<S(!new)>(p: Problem<S>, order: seq<int>, states: seq<S>, seen: set<(set<int>, S)>)
    requires WellFormed(p) && |states| == |order| + 1 && order != [] && Finished(p, order, states, seen)
    requires AllClosed(p, seen, Done(order), states[|order|])
    ensures Finished(p, order[..|order| - 1], states[..|order|], seen)
  {
    var k := |order| - 1;
    var o' := order[..k];
    forall D, s | (D, s) in seen ensures OnStack(o', states[..k + 1], D, s) || AllClosed(p, seen, D, s) {
      if !AllClosed(p, seen, D, s) {
        var i :| 1 <= i <= k + 1 && D == Done(order[..i]) && s == states[i];
        assert order[..k + 1] == order;
        assert o'[..i] == order[..i] && states[..k + 1][i] == s;
      }
    }
  }

  lemma PopKeeps<S(!new)>(p: Problem<S>, order: seq<int>, states: seq<S>, pos: int, seen: set<(set<int>, S)>, y: int,
                          pos': int)
    requires SearchInv(p, order, states, pos, seen) && order != []
    requires ReturnAt(p, y, pos) && y !in Done(order)
    requires var x := order[|order| - 1];
      forall z | 0 <= z < p.n && p.call[x] < p.call[z] < pos' :: z in Done(order[..|order| - 1])
    ensures SearchInv(p, order[..|order| - 1], states[..|order|], pos', seen)
  {
    var k := |order| - 1;
    var o', x := order[..k], order[k];
    DeadEnd(p, order, states, pos, seen, y);
    PathPop(p, order, states);
    StackedPop(p, order, states, seen);
    FinishedPop(p, order, states, seen);
    assert LevelAt(p, order, states, seen, k);
    forall z | 0 <= z < p.n && p.call[z] < pos' ensures CoveredIfLegal(p, seen, Done(o'), states[k], z) {
    }
    RoomFor(p, order, y);
  }

  // ---- the verdict ----

  /** The search gives up only when there is no linearization. */
  lemma GiveUp<S(!new)>(p: Problem<S>, states: seq<S>, pos: int, seen: set<(set<int>, S)>, y: int)
    requires SearchInv(p, [], states, pos, seen) && Congruent(p) && ReturnAt(p, y, pos)
    ensures !Linearizable(p)
    ensures forall order {:trigger Legal(p, order)} | Legal(p, order) && order != [] ::
        exists s :: (Done(order), s) in seen
  {
    DeadEnd(p, [], states, pos, seen, y);
    assert Done([]) == {};
    assert StateAt(p, [], states, 0);
    forall D, s | (D, s) in seen ensures AllClosed(p, seen, D, s) {
      assert !OnStack([], states, D, s);
    }
    forall order | Legal(p, order) && order != [] ensures exists s :: (Done(order), s) in seen {
      var s := LegalIsSeen(p, seen, order);
    }
    forall order | Legal(p, order) ensures |order| != p.n {
      DoneSize(order);
    }
  }
}
