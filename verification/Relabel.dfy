/** The operations of one key, numbered by themselves or as part of the whole history. */
module Relabel {
  import opened Linearizability
  import opened Locality
  import opened Search
  import opened Sets

  /** p is what v says of the operations e[0], e[1], ..., which are those on key k. */
  ghost predicate Embeds<K, S(!new)>(p: Problem<S>, v: Problem<S>, key: seq<K>, k: K, e: seq<int>) {
    && WellFormed(p) && WellFormed(v) && |key| == v.n && |e| == p.n && p.init == v.init
    && (forall i | 0 <= i < p.n :: 0 <= e[i] < v.n && key[e[i]] == k)
    && (forall i | 0 <= i < p.n :: p.call[i] == v.call[e[i]] && p.ret[i] == v.ret[e[i]])
    && (forall i, j | 0 <= i < j < p.n :: e[i] < e[j])
    && (forall x | 0 <= x < v.n && key[x] == k :: x in e)
    && (forall s, i | 0 <= i < p.n :: p.step(s, i) == v.step(s, e[i]))
  }

  ghost function Image(e: seq<int>, o: seq<int>): (g: seq<int>)
    requires InRange(|e|, o)
    ensures |g| == |o| && forall i | 0 <= i < |o| :: g[i] == e[o[i]]
  {
    seq(|o|, i requires 0 <= i < |o| => e[o[i]])
  }

  lemma ImageHas(e: seq<int>, o: seq<int>, x: int, j: nat)
    requires InRange(|e|, o) && 0 <= x < |e| && j <= |o| && forall a, b | 0 <= a < b < |e| :: e[a] < e[b]
    ensures e[x] in Image(e, o)[..j] <==> x in o[..j]
  {
    var g := Image(e, o);
    if x in o[..j] {
      var i :| 0 <= i < j && o[i] == x;
      assert g[..j][i] == e[x];
    }
    if e[x] in g[..j] {
      var i :| 0 <= i < j && g[i] == e[x];
      assert o[..j][i] == x;
    }
  }

  lemma {:induction false} ImageDistinct(e: seq<int>, o: seq<int>)
    requires InRange(|e|, o) && forall a, b | 0 <= a < b < |e| :: e[a] < e[b]
    ensures Distinct(Image(e, o)) <==> Distinct(o)
    decreases |o|
  {
    if o != [] {
      var k := |o| - 1;
      ImageDistinct(e, o[..k]);
      assert Image(e, o)[..k] == Image(e, o[..k]);
      ImageHas(e, o, o[k], k);
    }
  }

  lemma {:induction false} ImageRuns<K, S(!new)>(p: Problem<S>, v: Problem<S>, key: seq<K>, k: K, e: seq<int>,
                                                 o: seq<int>)
    requires Embeds(p, v, key, k, e) && InRange(p.n, o)
    ensures Runs(p, o) == Runs(v, Image(e, o))
    decreases |o|
  {
    if o != [] {
      var m := |o| - 1;
      ImageRuns(p, v, key, k, e, o[..m]);
      assert Image(e, o)[..m] == Image(e, o[..m]);
    }
  }

  lemma ImageLegal<K, S(!new)>(p: Problem<S>, v: Problem<S>, key: seq<K>, k: K, e: seq<int>, o: seq<int>)
    requires Embeds(p, v, key, k, e) && InRange(p.n, o)
    ensures Legal(p, o) <==> LegalKey(v, key, k, Image(e, o))
  {
    var g := Image(e, o);
    ImageRuns(p, v, key, k, e, o);
    ImageDistinct(e, o);
    if RespectsRealTime(p, o) {
      forall j, y | 0 <= j < |g| && 0 <= y < v.n && key[y] == k && Precedes(v, y, g[j]) ensures y in g[..j] {
        var x :| 0 <= x < |e| && e[x] == y;
        assert Precedes(p, x, o[j]);
        ImageHas(e, o, x, j);
      }
    }
    if LegalKey(v, key, k, g) {
      forall j, x | 0 <= j < |o| && 0 <= x < p.n && Precedes(p, x, o[j]) ensures x in o[..j] {
        assert Precedes(v, e[x], g[j]);
        ImageHas(e, o, x, j);
      }
    }
  }

  ghost function Rank(e: seq<int>, x: int): (i: int)
    requires x in e
    ensures 0 <= i < |e| && e[i] == x
  {
    var i :| 0 <= i < |e| && e[i] == x;
    i
  }

  ghost function Ranks(e: seq<int>, g: seq<int>): (o: seq<int>)
    requires forall i | 0 <= i < |g| :: g[i] in e
    ensures InRange(|e|, o) && Image(e, o) == g
  {
    seq(|g|, i requires 0 <= i < |g| => Rank(e, g[i]))
  }

  /** An order is complete if it has every operation. */
  lemma CompleteSize(n: nat, o: seq<int>)
    requires InRange(n, o) && Distinct(o)
    ensures |o| == n <==> forall x | 0 <= x < n :: x in o
  {
    DoneSize(o);
    if |o| == n {
      forall x | 0 <= x < n ensures x in o { AllOps(n, o, x); }
    }
    if forall x | 0 <= x < n :: x in o {
      assert Done(o) == Range(n);
    }
  }

  lemma PartGivesKey<K, S(!new)>(p: Problem<S>, v: Problem<S>, key: seq<K>, k: K, e: seq<int>, o: seq<int>)
    requires Embeds(p, v, key, k, e) && Legal(p, o) && |o| == p.n
    ensures CompleteKey(v, key, k, Image(e, o))
  {
    ImageLegal(p, v, key, k, e, o);
    CompleteSize(p.n, o);
    forall x | 0 <= x < v.n && key[x] == k ensures x in Image(e, o) {
      var i := Rank(e, x);
      ImageHas(e, o, i, |o|);
      assert o[..|o|] == o && Image(e, o)[..|o|] == Image(e, o);
    }
  }

  lemma KeyGivesPart<K, S(!new)>(p: Problem<S>, v: Problem<S>, key: seq<K>, k: K, e: seq<int>, g: seq<int>)
    requires Embeds(p, v, key, k, e) && CompleteKey(v, key, k, g)
    ensures Linearizable(p)
  {
    var o := Ranks(e, g);
    ImageLegal(p, v, key, k, e, o);
    forall i | 0 <= i < p.n ensures i in o {
      ImageHas(e, o, i, |o|);
      assert o[..|o|] == o && Image(e, o)[..|o|] == g;
    }
    CompleteSize(p.n, o);
  }

  /** A part is linearizable by itself exactly when its key is in the whole history. */
  lemma PartIsKey<K, S(!new)>(p: Problem<S>, v: Problem<S>, key: seq<K>, k: K, e: seq<int>)
    requires Embeds(p, v, key, k, e)
    ensures Linearizable(p) <==> KeyLinearizable(v, key, k)
  {
    if Linearizable(p) {
      var o :| Legal(p, o) && |o| == p.n;
      PartGivesKey(p, v, key, k, e, o);
    }
    if KeyLinearizable(v, key, k) {
      var g :| CompleteKey(v, key, k, g);
      KeyGivesPart(p, v, key, k, e, g);
    }
  }
}
