/** Why the search ends: it walks a tree of bounded width and depth from left to right. */
module Effort {
  /** a times t, by repeated addition. */
  ghost function Times(a: nat, t: nat): nat { if a == 0 then 0 else Times(a - 1, t) + t }

  /** More than the moves in a tree of this depth whose nodes have m children. */
  ghost function Tree(m: nat, depth: nat): (r: nat)
    ensures r > 0
  {
    if depth == 0 then 1 else Times(m, Tree(m, depth - 1)) + Tree(m, depth - 1)
  }

  /** What is left to visit: the digits are the branches taken, pos is the next one to try. */
  ghost function Left(m: nat, depth: nat, digits: seq<int>, pos: int): nat
    requires |digits| <= depth && 0 <= pos <= m && forall i | 0 <= i < |digits| :: 0 <= digits[i] < m
    decreases |digits|
  {
    if digits == [] then Times(m - pos, Tree(m, depth))
    else Times(m - digits[0] - 1, Tree(m, depth)) + Left(m, depth - 1, digits[1..], pos)
  }

  lemma {:induction false} Scaled(a: nat, b: nat, t: nat)
    requires a < b
    ensures Times(a, t) + t <= Times(b, t)
    decreases b
  {
    if a < b - 1 { Scaled(a, b - 1, t); }
  }

  lemma {:induction false} SkipLess(m: nat, depth: nat, digits: seq<int>, pos: int, pos': int)
    requires |digits| <= depth && 0 <= pos < pos' <= m && forall i | 0 <= i < |digits| :: 0 <= digits[i] < m
    ensures Left(m, depth, digits, pos') < Left(m, depth, digits, pos)
    decreases |digits|
  {
    if digits == [] {
      Scaled(m - pos', m - pos, Tree(m, depth));
    } else {
      SkipLess(m, depth - 1, digits[1..], pos, pos');
    }
  }

  lemma {:induction false} PushLess(m: nat, depth: nat, digits: seq<int>, pos: int, pos': int)
    requires |digits| < depth && 0 <= pos < m && 0 <= pos' <= m && forall i | 0 <= i < |digits| :: 0 <= digits[i] < m
    ensures Left(m, depth, digits + [pos], pos') < Left(m, depth, digits, pos)
    decreases |digits|
  {
    var longer := digits + [pos];
    if digits == [] {
      var t := Tree(m, depth - 1);
      assert longer[1..] == [];
      assert Left(m, depth, longer, pos') == Times(m - pos - 1, Tree(m, depth)) + Times(m - pos', t);
      Scaled(m - pos - 1, m - pos, Tree(m, depth));
      Scaled(m - pos', m + 1, t);
    } else {
      assert longer[1..] == digits[1..] + [pos];
      PushLess(m, depth - 1, digits[1..], pos, pos');
    }
  }

  lemma {:induction false} PopLess(m: nat, depth: nat, digits: seq<int>, pos: int, pos': int)
    requires 1 <= |digits| <= depth && 0 <= pos < m && forall i | 0 <= i < |digits| :: 0 <= digits[i] < m
    requires digits[|digits| - 1] < pos' <= m
    ensures Left(m, depth, digits[..|digits| - 1], pos') < Left(m, depth, digits, pos)
    decreases |digits|
  {
    var short := digits[..|digits| - 1];
    if short == [] {
      assert digits[1..] == [];
      var d, t := digits[0], Tree(m, depth);
      if pos' > d + 1 { Scaled(m - pos', m - d - 1, t); }
      Scaled(0, m - pos, Tree(m, depth - 1));
    } else {
      assert short[1..] == digits[1..][..|digits| - 2];
      PopLess(m, depth - 1, digits[1..], pos, pos');
    }
  }
}
