/** The longest partial linearizations that the search remembers. */
module Longest {
  import opened Linearizability
  import opened Options
  import opened Search
  import opened Sets

  /** What is remembered for an operation is a legal order that contains it. */
  ghost predicate Sound<S>(p: Problem<S>, longest: seq<Option<seq<int>>>)
    requires WellFormed(p)
  {
    && |longest| == p.n
    && forall x | 0 <= x < p.n && longest[x].Some? :: Legal(p, longest[x].value) && x in longest[x].value
  }

  /** No legal order that contains an operation is longer than what is remembered for it. */
  ghost predicate Maximal<S>(p: Problem<S>, longest: seq<Option<seq<int>>>)
    requires WellFormed(p) && |longest| == p.n
  {
    forall order, x {:trigger Legal(p, order), longest[x]} | Legal(p, order) && x in order ::
      longest[x].Some? && |order| <= |longest[x].value|
  }

  ghost predicate AtLeast(longest: seq<Option<seq<int>>>, D: set<int>) {
    forall x | x in D :: 0 <= x < |longest| && longest[x].Some? && |D| <= |longest[x].value|
  }

  /** What has been seen and left again is accounted for. */
  ghost predicate Recorded<S(!new)>(order: seq<int>, states: seq<S>, seen: set<(set<int>, S)>,
                                    longest: seq<Option<seq<int>>>)
    requires |states| == |order| + 1
  {
    forall D, s {:trigger OnStack(order, states, D, s)} | (D, s) in seen ::
      OnStack(order, states, D, s) || AtLeast(longest, D)
  }

  /** The better of what is remembered and this order. */
  function Raised(was: Option<seq<int>>, order: seq<int>): Option<seq<int>> {
    if was == None || |order| > |was.value| then Some(order) else was
  }

  ghost predicate RaisedBy(longest: seq<Option<seq<int>>>, longest': seq<Option<seq<int>>>, order: seq<int>) {
    && |longest'| == |longest|
    && forall x | 0 <= x < |longest| :: longest'[x] == if x in order then Raised(longest[x], order) else longest[x]
  }

  lemma RaiseSound<S>(p: Problem<S>, longest: seq<Option<seq<int>>>, longest': seq<Option<seq<int>>>, order: seq<int>)
    requires WellFormed(p) && Sound(p, longest) && Legal(p, order) && RaisedBy(longest, longest', order)
    ensures Sound(p, longest')
  {
  }

  lemma RecordPush<S(!new)>(order: seq<int>, states: seq<S>, seen: set<(set<int>, S)>, longest: seq<Option<seq<int>>>,
                            x: int, t: S)
    requires |states| == |order| + 1 && Recorded(order, states, seen, longest)
    ensures Recorded(order + [x], states + [t], seen + {(Done(order) + {x}, t)}, longest)
  {
    var k, o', s' := |order|, order + [x], states + [t];
    DoneSnoc(order, x);
    forall D, s | (D, s) in seen + {(Done(order) + {x}, t)} ensures OnStack(o', s', D, s) || AtLeast(longest, D) {
      if (D, s) in seen {
        if OnStack(order, states, D, s) {
          var i :| 1 <= i <= k && D == Done(order[..i]) && s == states[i];
          assert o'[..i] == order[..i] && s'[i] == states[i];
        }
      } else {
        assert o'[..k + 1] == o' && s'[k + 1] == t;
      }
    }
  }

  lemma RecordPop<S(!new)>(order: seq<int>, states: seq<S>, seen: set<(set<int>, S)>, longest: seq<Option<seq<int>>>,
                           longest': seq<Option<seq<int>>>)
    requires |states| == |order| + 1 && order != [] && Distinct(order) && InRange(|longest|, order)
    requires Recorded(order, states, seen, longest) && RaisedBy(longest, longest', order)
    ensures Recorded(order[..|order| - 1], states[..|order|], seen, longest')
  {
    var k := |order| - 1;
    var o', s' := order[..k], states[..k + 1];
    forall D, s | (D, s) in seen ensures OnStack(o', s', D, s) || AtLeast(longest', D) {
      if OnStack(order, states, D, s) {
        var i :| 1 <= i <= k + 1 && D == Done(order[..i]) && s == states[i];
        if i <= k {
          assert o'[..i] == order[..i] && s'[i] == states[i];
        } else {
          assert order[..i] == order;
          DoneSize(order);
        }
      } else {
        assert AtLeast(longest, D);
      }
    }
  }

  /** When the search gives up, everything remembered is as long as can be. */
  lemma GaveUpMaximal<S(!new)>(p: Problem<S>, states: seq<S>, pos: int, seen: set<(set<int>, S)>, y: int,
                               longest: seq<Option<seq<int>>>)
    requires SearchInv(p, [], states, pos, seen) && Congruent(p) && ReturnAt(p, y, pos)
    requires Sound(p, longest) && Recorded([], states, seen, longest)
    ensures Maximal(p, longest)
  {
    GiveUp(p, states, pos, seen, y);
    forall order, x | Legal(p, order) && x in order ensures longest[x].Some? && |order| <= |longest[x].value| {
      var s :| (Done(order), s) in seen;
      assert !OnStack([], states, Done(order), s);
      assert AtLeast(longest, Done(order)) && x in Done(order);
      DoneSize(order);
    }
  }
}
