/** Finite sets and sequences: picking an element, sizes, repetition, and the majorities argument. */
module Sets {
  /** A set that is not empty has an element. */
  lemma Element<T>(s: set<T>) returns (x: T)
    requires |s| > 0
    ensures x in s
  {
    x :| x in s;
  }

  ghost function Range(n: nat): (r: set<int>)
    ensures forall x :: x in r <==> 0 <= x < n
    ensures |r| == n
  {
    if n == 0 then {} else Range(n - 1) + {n - 1}
  }

  lemma {:induction false} SubsetSize<T>(a: set<T>, b: set<T>)
    requires a <= b
    ensures |a| <= |b|
    decreases |a|
  {
    if |a| > 0 {
      var x :| x in a;
      SubsetSize(a - {x}, b - {x});
    }
  }

  /** x put in at position i. */
  function Inserted<T>(s: seq<T>, i: nat, x: T): (r: seq<T>)
    requires i <= |s|
    ensures |r| == |s| + 1
    ensures forall k | 0 <= k < |r| :: r[k] == if k < i then s[k] else if k == i then x else s[k - 1]
  {
    s[..i] + [x] + s[i..]
  }

  lemma InsertedHas<T>(s: seq<T>, i: nat, x: T)
    requires i <= |s|
    ensures forall y :: y in Inserted(s, i, x) <==> y in s || y == x
  {
    var r := Inserted(s, i, x);
    assert r[i] == x;
    forall y | y in s ensures y in r {
      var k :| 0 <= k < |s| && s[k] == y;
      assert r[if k < i then k else k + 1] == y;
    }
  }

  /** No element twice. */
  ghost predicate Distinct<T>(s: seq<T>) {
    s != [] ==> Distinct(s[..|s| - 1]) && s[|s| - 1] !in s[..|s| - 1]
  }

  ghost function Elements<T>(s: seq<T>): set<T> { set x | x in s }

  lemma {:induction false} ElementsSize<T>(s: seq<T>)
    requires Distinct(s)
    ensures |Elements(s)| == |s|
  {
    if s != [] {
      var k := |s| - 1;
      ElementsSize(s[..k]);
      assert s == s[..k] + [s[k]];
      assert Elements(s) == Elements(s[..k]) + {s[k]};
    }
  }

  lemma {:induction false} DistinctTail<T>(s: seq<T>)
    requires Distinct(s) && s != []
    ensures Distinct(s[1..]) && s[0] !in s[1..]
  {
    var k := |s| - 1;
    if k > 0 {
      DistinctTail(s[..k]);
      assert s[1..][..k - 1] == s[..k][1..];
      assert s[1..] == s[..k][1..] + [s[k]];
    }
  }

  lemma DistinctSnoc<T>(s: seq<T>, x: T)
    requires Distinct(s) && x !in s
    ensures Distinct(s + [x])
  {
    assert (s + [x])[..|s|] == s;
  }

  lemma {:induction false} DistinctCons<T>(x: T, s: seq<T>)
    requires Distinct(s) && x !in s
    ensures Distinct([x] + s)
  {
    if s != [] {
      var k := |s| - 1;
      DistinctCons(x, s[..k]);
      assert ([x] + s)[..k + 1] == [x] + s[..k];
    }
  }

  lemma {:induction false} DistinctConcat<T>(s: seq<T>, t: seq<T>)
    requires Distinct(s) && Distinct(t) && forall x | x in t :: x !in s
    ensures Distinct(s + t)
    decreases |t|
  {
    if t == [] {
      assert s + t == s;
    } else {
      var k := |t| - 1;
      DistinctConcat(s, t[..k]);
      DistinctSnoc(s + t[..k], t[k]);
      assert s + t == s + t[..k] + [t[k]];
    }
  }

  /** Two majorities of the same n peers share one. */
  lemma QuorumsMeet(n: nat, a: set<int>, b: set<int>) returns (q: int)
    requires forall x | x in a + b :: 0 <= x < n
    requires 2 * |a| > n && 2 * |b| > n
    ensures q in a && q in b
  {
    var common := a * b;
    assert |a + b| == |a| + |b| - |common|;
    SubsetSize(a + b, Range(n));
    assert |common| > 0;
    q :| q in common;
  }
}
