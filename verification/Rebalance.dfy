/** How the shard controller spreads shards over groups. */
module Rebalance {
  import opened Sets
  import ShardSpec

  const N: nat := ShardSpec.NSHARDS

  /** For each group, the shards it owns, in the order in which they would be taken away. */
  type Lists = map<int, seq<int>>

  function At(l: Lists, g: int): seq<int> { if g in l then l[g] else [] }

  ghost predicate ListOk(a: seq<int>, l: Lists, g: int)
    requires |a| == N && g in l
  {
    Distinct(l[g]) && forall s | s in l[g] :: 0 <= s < N && a[s] == g
  }

  ghost predicate ShardOk(a: seq<int>, l: Lists, s: int)
    requires |a| == N && 0 <= s < N
  {
    a[s] in l && s in l[a[s]]
  }

  /** Every shard is in exactly one list, once: that of its owner. */
  ghost predicate Describes(a: seq<int>, l: Lists) {
    && |a| == N
    && (forall g {:trigger ListOk(a, l, g)} | g in l :: ListOk(a, l, g))
    && (forall s {:trigger ShardOk(a, l, s)} | 0 <= s < N :: ShardOk(a, l, s))
  }

  ghost predicate FewerOrFirst(l: Lists, r: int, g: int)
    requires r in l && g in l
  {
    |l[r]| < |l[g]| || (|l[r]| == |l[g]| && r <= g)
  }

  ghost predicate MoreOrFirst(l: Lists, r: int, g: int)
    requires r in l && g in l
  {
    |l[r]| > |l[g]| || (|l[r]| == |l[g]| && r <= g)
  }

  ghost predicate NoGroup(l: Lists) { forall g | g in l :: g == 0 }

  /** The group with the fewest shards, the smallest of them; group 0 does not take part. */
  ghost predicate IsMin(l: Lists, r: int) {
    if NoGroup(l) then r == -1
    else r in l && r != 0 && forall g | g in l && g != 0 :: FewerOrFirst(l, r, g)
  }

  /** Group 0 while it has shards, else the group with the most shards, the smallest of them. */
  ghost predicate IsMax(l: Lists, r: int) {
    if |At(l, 0)| > 0 then r == 0
    else if |l| == 0 then r == -1
    else r in l && forall g | g in l :: MoreOrFirst(l, r, g)
  }

  lemma {:induction false} MinExists(l: Lists, keys: set<int>) returns (r: int)
    requires keys <= l.Keys && |keys| > 0
    ensures r in keys && forall g | g in keys :: FewerOrFirst(l, r, g)
    decreases |keys|
  {
    r := Element(keys);
    var rest := keys - {r};
    var first := r;
    if |rest| > 0 {
      var q := MinExists(l, rest);
      if FewerOrFirst(l, q, r) { r := q; }
    }
    forall g | g in keys ensures FewerOrFirst(l, r, g) {
      assert g == first || g in rest;
    }
  }

  lemma {:induction false} MaxExists(l: Lists, keys: set<int>) returns (r: int)
    requires keys <= l.Keys && |keys| > 0
    ensures r in keys && forall g | g in keys :: MoreOrFirst(l, r, g)
    decreases |keys|
  {
    r := Element(keys);
    var rest := keys - {r};
    var first := r;
    if |rest| > 0 {
      var q := MaxExists(l, rest);
      if MoreOrFirst(l, q, r) { r := q; }
    }
    forall g | g in keys ensures MoreOrFirst(l, r, g) {
      assert g == first || g in rest;
    }
  }

  lemma HasMin(l: Lists) returns (r: int)
    ensures IsMin(l, r)
  {
    if NoGroup(l) {
      r := -1;
    } else {
      var g :| g in l && g != 0;
      assert g in l.Keys - {0};
      r := MinExists(l, l.Keys - {0});
    }
  }

  lemma HasMax(l: Lists) returns (r: int)
    ensures IsMax(l, r)
  {
    if |At(l, 0)| > 0 { r := 0; }
    else if |l| == 0 { r := -1; }
    else {
      assert |l.Keys| == |l|;
      r := MaxExists(l, l.Keys);
    }
  }

  /** Both choices are fixed by the lists: the order in which the map is walked does not matter. */
  lemma ChoicesUnique(l: Lists, r: int, q: int)
    ensures IsMin(l, r) && IsMin(l, q) ==> r == q
    ensures IsMax(l, r) && IsMax(l, q) ==> r == q
  {
    if IsMin(l, r) && IsMin(l, q) && !NoGroup(l) {
      assert FewerOrFirst(l, r, q) && FewerOrFirst(l, q, r);
    }
    if IsMax(l, r) && IsMax(l, q) && |At(l, 0)| == 0 && |l| > 0 {
      assert MoreOrFirst(l, r, q) && MoreOrFirst(l, q, r);
    }
  }

  ghost function MinGid(l: Lists): (r: int)
    ensures IsMin(l, r)
  {
    assert exists r :: IsMin(l, r) by { var r := HasMin(l); }
    var r :| IsMin(l, r);
    r
  }

  ghost function MaxGid(l: Lists): (r: int)
    ensures IsMax(l, r)
  {
    assert exists r :: IsMax(l, r) by { var r := HasMax(l); }
    var r :| IsMax(l, r);
    r
  }

  // ---- one move ----

  /** The first shard of one list goes to the end of another. */
  function Shift(l: Lists, src: int, dst: int): Lists
    requires src in l && l[src] != []
  {
    l[dst := At(l, dst) + [l[src][0]]][src := l[src][1..]]
  }

  lemma ShiftDescribes(a: seq<int>, l: Lists, src: int, dst: int)
    requires Describes(a, l) && src in l && l[src] != [] && src != dst
    ensures 0 <= l[src][0] < N && Describes(a[l[src][0] := dst], Shift(l, src, dst))
  {
    var s, l' := l[src][0], Shift(l, src, dst);
    assert ListOk(a, l, src) && s in l[src];
    var a' := a[s := dst];
    DistinctTail(l[src]);
    forall g | g in l' ensures ListOk(a', l', g) {
      if g == src {
        assert forall t | t in l'[src] :: t in l[src] && t != s;
      } else if g == dst {
        assert dst in l ==> ListOk(a, l, dst);
        assert s !in At(l, dst);
        DistinctSnoc(At(l, dst), s);
      } else {
        assert ListOk(a, l, g) && l'[g] == l[g];
      }
    }
    forall t | 0 <= t < N ensures ShardOk(a', l', t) {
      assert ShardOk(a, l, t);
      if t == s {
        assert l'[dst][|At(l, dst)|] == s;
      } else if a[t] == src {
        var i :| 0 <= i < |l[src]| && l[src][i] == t;
        assert l'[src][i - 1] == t;
      } else if a[t] == dst {
        var i :| 0 <= i < |l[dst]| && l[dst][i] == t;
        assert l'[dst][i] == t;
      }
    }
  }

  /** Somebody has a shard. */
  lemma SomeShard(a: seq<int>, l: Lists) returns (g: int)
    requires Describes(a, l)
    ensures g in l && l[g] != []
  {
    assert ShardOk(a, l, 0);
    g := a[0];
  }

  lemma ListSmall(a: seq<int>, l: Lists, g: int)
    requires |a| == N && g in l && ListOk(a, l, g)
    ensures |l[g]| <= N
  {
    ElementsSize(l[g]);
    SubsetSize(Elements(l[g]), Range(N));
  }

  // ---- the loop of Join ----

  ghost predicate Stops(l: Lists) {
    var src, dst := MaxGid(l), MinGid(l);
    src != 0 && |At(l, src)| - |At(l, dst)| <= 1
  }

  /** While the loop goes on there is a shard to move, and it moves to another group. */
  lemma GoesOn(a: seq<int>, l: Lists)
    requires Describes(a, l) && !Stops(l)
    ensures var src, dst := MaxGid(l), MinGid(l);
      src in l && l[src] != [] && dst != 0 && src != dst && (src != 0 ==> dst in l && |l[src]| >= |l[dst]| + 2)
  {
    var src, dst := MaxGid(l), MinGid(l);
    var g := SomeShard(a, l);
    if |At(l, 0)| == 0 {
      assert |l| > 0;
      assert MoreOrFirst(l, src, g);
      assert g != 0 && !NoGroup(l);
    }
  }

  ghost function Tops(l: Lists): set<int> { set g | g in l && |l[g]| == |At(l, MaxGid(l))| }

  lemma SettleEnds(a: seq<int>, l: Lists)
    requires Describes(a, l) && !Stops(l)
    ensures var src, dst := MaxGid(l), MinGid(l);
      && src in l && l[src] != []
      && var l' := Shift(l, src, dst);
      || |At(l', 0)| < |At(l, 0)|
      || (|At(l', 0)| == |At(l, 0)| && (|At(l', MaxGid(l'))| < |At(l, MaxGid(l))|
           || (|At(l', MaxGid(l'))| == |At(l, MaxGid(l))| && |Tops(l')| < |Tops(l)|)))
  {
    GoesOn(a, l);
    var src, dst := MaxGid(l), MinGid(l);
    var l' := Shift(l, src, dst);
    if src != 0 {
      assert |At(l', 0)| == |At(l, 0)| == 0 && |l'| > 0;
      var top := MaxGid(l');
      assert top in l' && top in l && MoreOrFirst(l, src, top);
      assert |l'[top]| <= |l[src]|;
      if |l'[top]| == |l[src]| {
        assert Tops(l') <= Tops(l) - {src};
        SubsetSize(Tops(l'), Tops(l) - {src});
      }
    }
  }

  /** What the loop makes of an assignment and its lists. */
  ghost function Settle(a: seq<int>, l: Lists): (r: (seq<int>, Lists))
    requires Describes(a, l)
    ensures Describes(r.0, r.1) && Stops(r.1)
    decreases |At(l, 0)|, |At(l, MaxGid(l))|, |Tops(l)|
  {
    if Stops(l) then (a, l)
    else
      GoesOn(a, l);
      SettleEnds(a, l);
      var src, dst := MaxGid(l), MinGid(l);
      ShiftDescribes(a, l, src, dst);
      Settle(a[l[src][0] := dst], Shift(l, src, dst))
  }

  // ---- what the loop achieves ----

  /** Nothing is left without a group, and no group has two shards more than another. */
  lemma SettledIsEven(a: seq<int>, l: Lists)
    requires Describes(a, l) && Stops(l)
    ensures forall s | 0 <= s < N :: a[s] != 0
    ensures forall g, h | g in l && h in l && g != 0 && h != 0 :: |l[g]| <= |l[h]| + 1
  {
    var src, dst := MaxGid(l), MinGid(l);
    forall s | 0 <= s < N ensures a[s] != 0 {
      assert ShardOk(a, l, s);
    }
    forall g, h | g in l && h in l && g != 0 && h != 0 ensures |l[g]| <= |l[h]| + 1 {
      assert MoreOrFirst(l, src, g) && FewerOrFirst(l, dst, h);
    }
  }

  /** One turn of the loop. */
  lemma OneMove(a: seq<int>, l: Lists) returns (s: int, a': seq<int>, l': Lists)
    requires Describes(a, l) && !Stops(l)
    ensures var src, dst := MaxGid(l), MinGid(l);
      && src in l && l[src] != [] && dst != 0 && src != dst && s == l[src][0] && 0 <= s < N && a[s] == src
      && a' == a[s := dst] && l' == Shift(l, src, dst)
    ensures Describes(a', l') && Settle(a, l) == Settle(a', l') && Moves(a, l) == [s] + Moves(a', l')
    ensures || |At(l', 0)| < |At(l, 0)|
            || (|At(l', 0)| == |At(l, 0)| && (|At(l', MaxGid(l'))| < |At(l, MaxGid(l))|
                || (|At(l', MaxGid(l'))| == |At(l, MaxGid(l))| && |Tops(l')| < |Tops(l)|)))
  {
    GoesOn(a, l);
    SettleEnds(a, l);
    var src, dst := MaxGid(l), MinGid(l);
    ShiftDescribes(a, l, src, dst);
    assert ListOk(a, l, src) && l[src][0] in l[src];
    s, a', l' := l[src][0], a[l[src][0] := dst], Shift(l, src, dst);
  }

  /** The groups that take part: those that had a list, and -1 if no group did. */
  lemma {:induction false} SettleKeys(a: seq<int>, l: Lists)
    requires Describes(a, l)
    ensures var l' := Settle(a, l).1;
      l.Keys <= l'.Keys <= l.Keys + (if NoGroup(l) then {-1} else {}) && (NoGroup(l) ==> -1 in l')
    decreases |At(l, 0)|, |At(l, MaxGid(l))|, |Tops(l)|
  {
    if Stops(l) {
      var g := SomeShard(a, l);
      assert NoGroup(l) ==> g == 0;
    } else {
      var s, a', l' := OneMove(a, l);
      SettleKeys(a', l');
      assert MinGid(l) in l' && MinGid(l) != 0;
    }
  }

  /** A group that has a shard never loses its last one. */
  lemma {:induction false} SettleKeepsOwners(a: seq<int>, l: Lists, g: int)
    requires Describes(a, l) && g in l && g != 0 && l[g] != []
    ensures g in Settle(a, l).1 && Settle(a, l).1[g] != []
    decreases |At(l, 0)|, |At(l, MaxGid(l))|, |Tops(l)|
  {
    if !Stops(l) {
      GoesOn(a, l);
      var s, a', l' := OneMove(a, l);
      SettleKeepsOwners(a', l', g);
    }
  }

  // ---- minimal movement ----

  /** The old groups are even among themselves, the new ones too, and no new one is ahead by more than one. */
  ghost predicate Leaning(l: Lists, joined: set<int>) {
    forall g, h {:trigger l[g], l[h]} | g in l && h in l && g != 0 && h != 0 && (g in joined || h !in joined) ::
      |l[g]| <= |l[h]| + 1
  }

  lemma LeaningMove(a: seq<int>, l: Lists, joined: set<int>)
    requires Describes(a, l) && !Stops(l) && Leaning(l, joined)
    ensures var src, dst := MaxGid(l), MinGid(l);
      src in l && l[src] != [] && (src != 0 ==> src !in joined && dst in joined) && Leaning(Shift(l, src, dst), joined)
  {
    GoesOn(a, l);
    var src, dst := MaxGid(l), MinGid(l);
    var l' := Shift(l, src, dst);
    forall g, h | g in l' && h in l' && g != 0 && h != 0 && (g in joined || h !in joined)
      ensures |l'[g]| <= |l'[h]| + 1
    {
      assert !NoGroup(l) ==> FewerOrFirst(l, dst, h);
      assert src != 0 ==> MoreOrFirst(l, src, g);
    }
  }

  /** Only a shard that had no group, or that goes to a new group, moves. */
  lemma {:induction false} SettleMovesLittle(a: seq<int>, l: Lists, joined: set<int>, s: int)
    requires Describes(a, l) && Leaning(l, joined) && 0 <= s < N
    ensures var a' := Settle(a, l).0;
      a'[s] == a[s] || a[s] == 0 || (a[s] !in joined && a'[s] in joined)
    decreases |At(l, 0)|, |At(l, MaxGid(l))|, |Tops(l)|
  {
    if !Stops(l) {
      LeaningMove(a, l, joined);
      var moved, a', l' := OneMove(a, l);
      SettleMovesLittle(a', l', joined, s);
    }
  }

  /** The shards that the loop moves, in turn. */
  ghost function Moves(a: seq<int>, l: Lists): seq<int>
    requires Describes(a, l)
    decreases |At(l, 0)|, |At(l, MaxGid(l))|, |Tops(l)|
  {
    if Stops(l) then []
    else
      GoesOn(a, l);
      SettleEnds(a, l);
      var src, dst := MaxGid(l), MinGid(l);
      ShiftDescribes(a, l, src, dst);
      [l[src][0]] + Moves(a[l[src][0] := dst], Shift(l, src, dst))
  }

  /** A group that has at most one shard more than any other. */
  ghost predicate Low(l: Lists, g: int) {
    g in l && g != 0 && forall h | h in l && h != 0 :: |l[g]| <= |l[h]| + 1
  }

  /** A group that takes a shard is low from then on, and a low group gives none away. */
  lemma LowStays(a: seq<int>, l: Lists, g: int)
    requires Describes(a, l) && !Stops(l) && (Low(l, g) || g == MinGid(l))
    ensures var src, dst := MaxGid(l), MinGid(l);
      src in l && l[src] != [] && g != src && Low(Shift(l, src, dst), g)
  {
    GoesOn(a, l);
    var src, dst := MaxGid(l), MinGid(l);
    var l' := Shift(l, src, dst);
    forall h | h in l' && h != 0 ensures |l'[g]| <= |l'[h]| + 1 {
      assert dst in l && h in l ==> FewerOrFirst(l, dst, h);
    }
  }

  /** No shard moves twice, nor does one of those that have moved already, which are all with low groups. */
  lemma {:induction false} MovedOnce(a: seq<int>, l: Lists, done: set<int>)
    requires Describes(a, l) && forall s | s in done :: 0 <= s < N && Low(l, a[s])
    ensures Distinct(Moves(a, l)) && forall s | s in Moves(a, l) :: 0 <= s < N && s !in done
    decreases |At(l, 0)|, |At(l, MaxGid(l))|, |Tops(l)|
  {
    if !Stops(l) {
      var s, a', l' := OneMove(a, l);
      LowStays(a, l, MinGid(l));
      forall t | t in done ensures a[t] != MaxGid(l) && Low(l', a[t]) {
        LowStays(a, l, a[t]);
      }
      MovedOnce(a', l', done + {s});
      DistinctCons(s, Moves(a', l'));
    }
  }

  /** If the groups lean, a shard that moves had no group or was with an old one. */
  lemma {:induction false} MovedFromOld(a: seq<int>, l: Lists, joined: set<int>, s: int)
    requires Describes(a, l) && Leaning(l, joined) && s in Moves(a, l)
    ensures 0 <= s < N && (a[s] == 0 || a[s] !in joined)
    decreases |At(l, 0)|, |At(l, MaxGid(l))|, |Tops(l)|
  {
    if !Stops(l) {
      var first, a', l' := OneMove(a, l);
      LeaningMove(a, l, joined);
      if s != first { MovedFromOld(a', l', joined, s); }
    }
  }

  // ---- which shards move ----

  /** A shard that does not move is where it was. */
  lemma {:induction false} UnmovedStays(a: seq<int>, l: Lists, s: int)
    requires Describes(a, l) && 0 <= s < N && s !in Moves(a, l)
    ensures Settle(a, l).0[s] == a[s]
    decreases |At(l, 0)|, |At(l, MaxGid(l))|, |Tops(l)|
  {
    if !Stops(l) {
      var moved, a', l' := OneMove(a, l);
      assert moved in Moves(a, l) && forall x | x in Moves(a', l') :: x in Moves(a, l);
      UnmovedStays(a', l', s);
    }
  }

  ghost predicate AlignedAt(a0: seq<int>, q: seq<int>, g: int, i: int, j: int) {
    0 <= i < j < |q| && 0 <= q[i] < |a0| && 0 <= q[j] < |a0| && a0[q[j]] == g ==> a0[q[i]] == g && q[i] < q[j]
  }

  /** The shards that a group had at first stand before all others in its list, in ascending order. */
  ghost predicate Aligned(a0: seq<int>, l: Lists, g: int) {
    forall i, j {:trigger AlignedAt(a0, At(l, g), g, i, j)} :: AlignedAt(a0, At(l, g), g, i, j)
  }

  lemma AlignedMove(a0: seq<int>, l: Lists, src: int, dst: int, g: int)
    requires |a0| == N && Aligned(a0, l, g) && src in l && l[src] != [] && src != dst
    requires 0 <= l[src][0] < N && a0[l[src][0]] == src
    ensures Aligned(a0, Shift(l, src, dst), g)
  {
    var q, q' := At(l, g), At(Shift(l, src, dst), g);
    forall i, j ensures AlignedAt(a0, q', g, i, j) {
      if g == src {
        var x, y := i + 1, j + 1;
        assert AlignedAt(a0, q, g, x, y);
      } else {
        assert AlignedAt(a0, q, g, i, j);
      }
    }
  }

  /** What has moved is with low groups, and everything else is where it was at first. */
  ghost predicate Tracks(a0: seq<int>, a: seq<int>, l: Lists, done: set<int>) {
    && |a0| == |a| == N
    && (forall x | x in done :: 0 <= x < N && Low(l, a[x]))
    && (forall x | 0 <= x < N && x !in done :: a[x] == a0[x])
  }

  lemma TracksMove(a0: seq<int>, a: seq<int>, l: Lists, done: set<int>)
    requires Describes(a, l) && Tracks(a0, a, l, done) && !Stops(l)
    ensures var src, dst := MaxGid(l), MinGid(l);
      && src in l && l[src] != [] && 0 <= l[src][0] < N && a0[l[src][0]] == src
      && Tracks(a0, a[l[src][0] := dst], Shift(l, src, dst), done + {l[src][0]})
  {
    var s, a', l' := OneMove(a, l);
    LowStays(a, l, MinGid(l));
    forall x | x in done ensures x != s && Low(l', a'[x]) {
      LowStays(a, l, a[x]);
    }
  }

  /** A group gives its lowest shards away: if it loses s and keeps t, then s is the lower one. */
  lemma {:induction false} GivesLowest(a0: seq<int>, a: seq<int>, l: Lists, done: set<int>, s: int, t: int)
    requires Describes(a, l) && Tracks(a0, a, l, done) && forall g :: Aligned(a0, l, g)
    requires 0 <= s < N && 0 <= t < N && s !in done && t !in done && a0[s] == a0[t]
    requires Settle(a, l).0[s] != a0[s] && Settle(a, l).0[t] == a0[t]
    ensures s < t
    decreases |At(l, 0)|, |At(l, MaxGid(l))|, |Tops(l)|
  {
    if !Stops(l) {
      var moved, a', l' := OneMove(a, l);
      TracksMove(a0, a, l, done);
      if moved == s {
        FirstIsLowest(a0, a, l, s, t);
      } else {
        forall g ensures Aligned(a0, l', g) { AlignedMove(a0, l, MaxGid(l), MinGid(l), g); }
        if moved == t {
          MovedOnce(a', l', done + {t});
          UnmovedStays(a', l', t);
        } else {
          GivesLowest(a0, a', l', done + {moved}, s, t);
        }
      }
    }
  }

  lemma FirstIsLowest(a0: seq<int>, a: seq<int>, l: Lists, s: int, t: int)
    requires Describes(a, l) && |a0| == N && 0 <= s < N && 0 <= t < N && s != t && a0[s] == a0[t] == a[s] == a[t]
    requires a[s] in l && l[a[s]] != [] && l[a[s]][0] == s && Aligned(a0, l, a[s])
    ensures s < t
  {
    assert ShardOk(a, l, t);
    var q := l[a[s]];
    var j :| 0 <= j < |q| && q[j] == t;
    assert AlignedAt(a0, At(l, a[s]), a[s], 0, j);
  }

  // ---- Leave ----

  ghost predicate Outside(a: seq<int>, l: Lists, s: int)
    requires |a| == N
  {
    0 <= s < N && (a[s] in l ==> s !in l[a[s]])
  }

  /** Every shard is in the list of its owner, except those that are waiting for a group. */
  ghost predicate Partial(a: seq<int>, l: Lists, waiting: seq<int>) {
    && |a| == N && Distinct(waiting)
    && (forall g {:trigger ListOk(a, l, g)} | g in l :: ListOk(a, l, g))
    && (forall s {:trigger Outside(a, l, s)} | s in waiting :: Outside(a, l, s))
    && (forall s {:trigger ShardOk(a, l, s)} | 0 <= s < N && s !in waiting :: ShardOk(a, l, s))
  }

  ghost predicate Even(l: Lists) {
    forall g, h {:trigger l[g], l[h]} | g in l && h in l && g != 0 && h != 0 :: |l[g]| <= |l[h]| + 1
  }

  /** One group goes: its shards wait. */
  lemma DropOne(a: seq<int>, l: Lists, waiting: seq<int>, g: int)
    requires Partial(a, l, waiting) && g in l
    ensures Partial(a, l - {g}, waiting + l[g]) && (Even(l) ==> Even(l - {g}))
  {
    var l', w' := l - {g}, waiting + l[g];
    assert ListOk(a, l, g);
    forall s | s in l[g] ensures s !in waiting {
      assert s in waiting ==> Outside(a, l, s);
    }
    DistinctConcat(waiting, l[g]);
    forall h | h in l' ensures ListOk(a, l', h) {
      assert ListOk(a, l, h);
    }
    forall s | s in w' ensures Outside(a, l', s) {
      assert s in waiting ==> Outside(a, l, s);
    }
    forall s | 0 <= s < N && s !in w' ensures ShardOk(a, l', s) {
      assert ShardOk(a, l, s);
    }
  }

  /** The groups that leave, one after the other: the lists that stay, and the shards that wait. */
  function Drop(l: Lists, gids: seq<int>): (Lists, seq<int>) {
    if gids == [] then (l, [])
    else
      var (l', waiting) := Drop(l, gids[..|gids| - 1]);
      var g := gids[|gids| - 1];
      if g in l' then (l' - {g}, waiting + l'[g]) else (l', waiting)
  }

  lemma {:induction false} DropPartial(a: seq<int>, l: Lists, gids: seq<int>)
    requires Describes(a, l)
    ensures Partial(a, Drop(l, gids).0, Drop(l, gids).1) && (Even(l) ==> Even(Drop(l, gids).0))
    ensures Drop(l, gids).0.Keys == l.Keys - Elements(gids)
    ensures forall s | 0 <= s < N :: s in Drop(l, gids).1 <==> a[s] in gids
    decreases |gids|
  {
    if gids != [] {
      var short, g := gids[..|gids| - 1], gids[|gids| - 1];
      assert gids == short + [g];
      DropPartial(a, l, short);
      var (l', waiting) := Drop(l, short);
      if g in l' {
        DropOne(a, l', waiting, g);
        assert ListOk(a, l', g);
        forall s | 0 <= s < N ensures s in waiting + l'[g] <==> a[s] in gids {
          assert s !in waiting ==> ShardOk(a, l', s);
        }
      } else {
        forall s | 0 <= s < N ensures s in waiting <==> a[s] in gids {
          assert s !in waiting ==> ShardOk(a, l', s);
        }
      }
    }
  }

  lemma AdoptLists(a: seq<int>, l: Lists, waiting: seq<int>, g: int, h: int)
    requires Partial(a, l, waiting) && waiting != [] && 0 <= waiting[0] < N
    requires h in l[g := At(l, g) + [waiting[0]]] && waiting[0] !in At(l, g)
    ensures ListOk(a[waiting[0] := g], l[g := At(l, g) + [waiting[0]]], h)
  {
    var s := waiting[0];
    assert h in l ==> ListOk(a, l, h);
    assert Outside(a, l, s);
    if h == g {
      assert g in l ==> ListOk(a, l, g);
      DistinctSnoc(At(l, g), s);
    }
  }

  lemma AdoptWaits(a: seq<int>, l: Lists, waiting: seq<int>, g: int, t: int)
    requires Partial(a, l, waiting) && waiting != [] && 0 <= waiting[0] < N && t in waiting && t != waiting[0]
    ensures Outside(a[waiting[0] := g], l[g := At(l, g) + [waiting[0]]], t)
  {
    assert Outside(a, l, t);
  }

  lemma AdoptShards(a: seq<int>, l: Lists, waiting: seq<int>, g: int, t: int)
    requires Partial(a, l, waiting) && waiting != [] && 0 <= waiting[0] < N
    requires 0 <= t < N && (t in waiting ==> t == waiting[0])
    ensures ShardOk(a[waiting[0] := g], l[g := At(l, g) + [waiting[0]]], t)
  {
    var s := waiting[0];
    if t == s {
      assert (At(l, g) + [s])[|At(l, g)|] == s;
    } else {
      assert ShardOk(a, l, t);
    }
  }

  /** Giving to the group with the fewest keeps the lists even. */
  lemma AdoptEven(l: Lists, s: int)
    requires Even(l)
    ensures Even(l[MinGid(l) := At(l, MinGid(l)) + [s]])
  {
    var g := MinGid(l);
    var l' := l[g := At(l, g) + [s]];
    forall h, k | h in l' && k in l' && h != 0 && k != 0 ensures |l'[h]| <= |l'[k]| + 1 {
      assert !NoGroup(l) && k in l ==> FewerOrFirst(l, g, k);
    }
  }

  /** The first waiting shard goes to the group with the fewest. */
  lemma AdoptOne(a: seq<int>, l: Lists, waiting: seq<int>)
    requires Partial(a, l, waiting) && waiting != []
    ensures var s, g := waiting[0], MinGid(l);
      && 0 <= s < N && g != 0
      && Partial(a[s := g], l[g := At(l, g) + [s]], waiting[1..])
      && (Even(l) ==> Even(l[g := At(l, g) + [s]]))
  {
    var s, g := waiting[0], MinGid(l);
    DistinctTail(waiting);
    assert Outside(a, l, s);
    assert g in l ==> ListOk(a, l, g);
    var a', l', w' := a[s := g], l[g := At(l, g) + [s]], waiting[1..];
    assert waiting == [s] + w';
    forall h | h in l' ensures ListOk(a', l', h) {
      AdoptLists(a, l, waiting, g, h);
    }
    forall t | t in w' ensures Outside(a', l', t) {
      AdoptWaits(a, l, waiting, g, t);
    }
    forall t | 0 <= t < N && t !in w' ensures ShardOk(a', l', t) {
      AdoptShards(a, l, waiting, g, t);
    }
    if Even(l) { AdoptEven(l, s); }
  }

  ghost function Adopt(a: seq<int>, l: Lists, waiting: seq<int>): (r: (seq<int>, Lists))
    requires Partial(a, l, waiting)
    ensures Describes(r.0, r.1)
    decreases |waiting|
  {
    if waiting == [] then (a, l)
    else
      AdoptOne(a, l, waiting);
      var s, g := waiting[0], MinGid(l);
      Adopt(a[s := g], l[g := At(l, g) + [s]], waiting[1..])
  }

  /** Shards that do not wait stay where they are; the others get a group that was there. */
  lemma {:induction false} AdoptKeeps(a: seq<int>, l: Lists, waiting: seq<int>, s: int)
    requires Partial(a, l, waiting) && 0 <= s < N
    ensures var (a', l') := Adopt(a, l, waiting);
      && (s !in waiting ==> a'[s] == a[s])
      && (s in waiting ==> a'[s] != 0 && (!NoGroup(l) ==> a'[s] in l))
      && (!NoGroup(l) ==> l'.Keys == l.Keys) && (Even(l) ==> Even(l'))
    decreases |waiting|
  {
    if waiting != [] {
      AdoptOne(a, l, waiting);
      DistinctTail(waiting);
      var t, g := waiting[0], MinGid(l);
      var l1 := l[g := At(l, g) + [t]];
      assert g in l1 && g != 0;
      AdoptKeeps(a[t := g], l1, waiting[1..], s);
    }
  }
}
