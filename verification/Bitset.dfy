/** Sets of small numbers packed 64 to a word; a word is its 64 bits, the lowest first. */
module Bitset {
  type Word = w: seq<bool> | |w| == 64 witness seq(64, _ => false)
  /** Word i holds the numbers 64 * i to 64 * i + 63. */
  type Words = seq<Word>

  const ZERO: Word := seq(64, _ => false)

  function Fresh(bits: nat): (b: Words)
    ensures |b| == (bits + 63) / 64
  {
    var extra := if bits % 64 != 0 then 1 else 0;
    seq(bits / 64 + extra, _ => ZERO)
  }

  predicate Get(b: Words, x: nat)
    requires x < 64 * |b|
  {
    b[x / 64][x % 64]
  }

  function Set(b: Words, x: nat): Words
    requires x < 64 * |b|
  {
    b[x / 64 := b[x / 64][x % 64 := true]]
  }

  function Clear(b: Words, x: nat): Words
    requires x < 64 * |b|
  {
    b[x / 64 := b[x / 64][x % 64 := false]]
  }

  /** The set that the words stand for. */
  function Members(b: Words): set<int> { set x: int | 0 <= x < 64 * |b| && Get(b, x) }

  lemma MembersOf(b: Words, x: nat)
    requires x < 64 * |b|
    ensures Members(Set(b, x)) == Members(b) + {x}
    ensures Members(Clear(b, x)) == Members(b) - {x}
  {
    forall y: int | 0 <= y < 64 * |b|
      ensures Get(Set(b, x), y) == (y == x || Get(b, y)) && Get(Clear(b, x), y) == (y != x && Get(b, y))
    {
      assert x / 64 == y / 64 && x % 64 == y % 64 ==> x == y;
    }
  }

  lemma FreshIsEmpty(bits: nat)
    ensures Members(Fresh(bits)) == {} && bits <= 64 * |Fresh(bits)|
  {
  }

  /** Equal length and equal members make equal words: nothing is lost in the packing. */
  lemma SameMembers(a: Words, b: Words)
    requires |a| == |b| && Members(a) == Members(b)
    ensures a == b
  {
    forall i, k | 0 <= i < |a| && 0 <= k < 64 ensures a[i][k] == b[i][k] {
      var x := 64 * i + k;
      assert x / 64 == i && x % 64 == k;
      assert Get(a, x) == (x in Members(a)) == (x in Members(b)) == Get(b, x);
    }
    forall i | 0 <= i < |a| ensures a[i] == b[i] {
    }
  }

  // ---- the hash ----

  function Ones(w: seq<bool>): nat {
    if w == [] then 0 else Ones(w[..|w| - 1]) + if w[|w| - 1] then 1 else 0
  }

  function OnesOf(b: Words): nat {
    if b == [] then 0 else OnesOf(b[..|b| - 1]) + Ones(b[|b| - 1])
  }

  function Power(k: nat): (r: nat)
    ensures r > 0
  {
    if k == 0 then 1 else 2 * Power(k - 1)
  }

  /** The low 64 bits of a number. */
  function BitsOf(n: nat): Word { seq(64, k requires 0 <= k < 64 => (n / Power(k)) % 2 == 1) }

  function Xor(a: Word, b: Word): Word { seq(64, k requires 0 <= k < 64 => a[k] != b[k]) }

  function XorAll(seed: Word, b: Words): Word {
    if b == [] then seed else Xor(XorAll(seed, b[..|b| - 1]), b[|b| - 1])
  }

  function HashOf(b: Words): Word { XorAll(BitsOf(OnesOf(b)), b) }

  method Popcnt(b: Words) returns (total: nat)
    ensures total == |Members(b)|
    ensures total == OnesOf(b)
  {
    total := 0;
    for i := 0 to |b|
      invariant total == OnesOf(b[..i])
    {
      assert b[..i + 1][..i] == b[..i];
      total := total + Ones(b[i]);
    }
    assert b[..|b|] == b;
    CountsMembers(b);
  }

  /** The bits that are set are as many as the members. */
  lemma {:induction false} CountsMembers(b: Words)
    ensures OnesOf(b) == |Members(b)|
  {
    if b != [] {
      var k := |b| - 1;
      CountsMembers(b[..k]);
      CountsWord(b[k], 64 * k);
      var low, top := Members(b[..k]), Shifted(b[k], 64 * k);
      assert Members(b) == low + top by {
        forall x | x in low + top ensures x in Members(b) {
          assert x in low ==> Get(b[..k], x) && b[..k][x / 64] == b[x / 64];
        }
        forall x | x in Members(b) ensures x in low + top {
          assert x < 64 * k ==> b[..k][x / 64] == b[x / 64];
          assert x >= 64 * k ==> x / 64 == k && x % 64 == x - 64 * k;
        }
      }
      assert low !! top;
    }
  }

  ghost predicate BitFrom(w: seq<bool>, from: nat, x: int) { from <= x < from + |w| && w[x - from] }

  ghost function Shifted(w: seq<bool>, from: nat): set<int> { set x | from <= x < from + |w| && BitFrom(w, from, x) }

  lemma {:induction false} CountsWord(w: seq<bool>, from: nat)
    ensures Ones(w) == |Shifted(w, from)|
  {
    if w != [] {
      var k := |w| - 1;
      CountsWord(w[..k], from);
      assert Shifted(w, from) == Shifted(w[..k], from) + if w[k] then {from + k} else {};
    }
  }

  method Hash(b: Words) returns (h: Word)
    ensures h == HashOf(b)
  {
    var total := Popcnt(b);
    var seed := BitsOf(total);
    h := seed;
    for i := 0 to |b|
      invariant h == XorAll(seed, b[..i])
    {
      assert b[..i + 1][..i] == b[..i];
      h := Xor(h, b[i]);
    }
    assert b[..|b|] == b;
  }

  /** Whether two bitsets are the same, word by word. */
  method Equals(a: Words, b: Words) returns (same: bool)
    ensures same <==> |a| == |b| && Members(a) == Members(b)
    ensures same <==> a == b
  {
    assert |a| == |b| && Members(a) == Members(b) ==> a == b by {
      if |a| == |b| && Members(a) == Members(b) { SameMembers(a, b); }
    }
    if |a| != |b| {
      return false;
    }
    for i := 0 to |a|
      invariant a[..i] == b[..i]
    {
      if a[i] != b[i] {
        return false;
      }
      assert a[..i + 1] == a[..i] + [a[i]] && b[..i + 1] == b[..i] + [b[i]];
    }
    assert a[..|a|] == a && b[..|b|] == b;
    return true;
  }
}
