/** Map and reduce over hashed partitions, against map and reduce in one place. */
module MapReduce {
  import opened Sets
  import opened Strings

  datatype KeyValue = KeyValue(key: string, value: string)

  /** A line of output. */
  datatype Line = Line(key: string, output: string)

  type Reduce = (string, seq<string>) -> string

  /** The values of a key, in order. */
  function Vals(kvs: seq<KeyValue>, k: string): seq<string> {
    if kvs == [] then []
    else
      var kv := kvs[|kvs| - 1];
      Vals(kvs[..|kvs| - 1], k) + if kv.key == k then [kv.value] else []
  }

  predicate HasKey(kvs: seq<KeyValue>, k: string) { exists i | 0 <= i < |kvs| :: kvs[i].key == k }

  /** What goes to one reduce task. */
  function Slot(kvs: seq<KeyValue>, hash: string -> nat, nReduce: nat, r: nat): seq<KeyValue>
    requires nReduce > 0
  {
    if kvs == [] then []
    else
      var kv := kvs[|kvs| - 1];
      Slot(kvs[..|kvs| - 1], hash, nReduce, r) + if hash(kv.key) % nReduce == r then [kv] else []
  }

  lemma ValsSnoc(kvs: seq<KeyValue>, kv: KeyValue, k: string)
    ensures Vals(kvs + [kv], k) == Vals(kvs, k) + if kv.key == k then [kv.value] else []
  {
    assert (kvs + [kv])[..|kvs|] == kvs;
  }

  lemma SlotSnoc(kvs: seq<KeyValue>, kv: KeyValue, hash: string -> nat, nReduce: nat, r: nat)
    requires nReduce > 0
    ensures Slot(kvs + [kv], hash, nReduce, r) ==
      Slot(kvs, hash, nReduce, r) + if hash(kv.key) % nReduce == r then [kv] else []
  {
    assert (kvs + [kv])[..|kvs|] == kvs;
  }

  lemma {:induction false} SlotConcat(a: seq<KeyValue>, b: seq<KeyValue>, hash: string -> nat, nReduce: nat, r: nat)
    requires nReduce > 0
    ensures Slot(a + b, hash, nReduce, r) == Slot(a, hash, nReduce, r) + Slot(b, hash, nReduce, r)
    decreases |b|
  {
    if b == [] {
      assert a + b == a;
    } else {
      var n := |b| - 1;
      SlotConcat(a, b[..n], hash, nReduce, r);
      assert a + b == a + b[..n] + [b[n]];
      SlotSnoc(a + b[..n], b[n], hash, nReduce, r);
    }
  }

  /** A key is found, with all its values in order, in the slot of its hash and in no other. */
  lemma {:induction false} SlotVals(kvs: seq<KeyValue>, hash: string -> nat, nReduce: nat, r: nat, k: string)
    requires nReduce > 0
    ensures Vals(Slot(kvs, hash, nReduce, r), k) == if hash(k) % nReduce == r then Vals(kvs, k) else []
  {
    if kvs != [] {
      var n := |kvs| - 1;
      var kv, s := kvs[n], Slot(kvs[..n], hash, nReduce, r);
      SlotVals(kvs[..n], hash, nReduce, r, k);
      ValsSnoc(s, kv, k);
      assert s + [] == s && Vals(s, k) + [] == Vals(s, k) && Vals(kvs[..n], k) + [] == Vals(kvs[..n], k);
    }
  }

  lemma {:induction false} HasKeyMeans(kvs: seq<KeyValue>, k: string)
    ensures HasKey(kvs, k) <==> Vals(kvs, k) != []
  {
    if kvs != [] {
      var n := |kvs| - 1;
      HasKeyMeans(kvs[..n], k);
      if HasKey(kvs, k) {
        var i :| 0 <= i < |kvs| && kvs[i].key == k;
        assert i < n ==> kvs[..n][i] == kvs[i];
      }
      if HasKey(kvs[..n], k) {
        var i :| 0 <= i < n && kvs[..n][i].key == k;
        assert kvs[i].key == k;
      }
    }
  }

  // ---- order does not matter ----

  /** A reduce function that does not depend on the order of the values. */
  ghost predicate OrderInsensitive(reducef: Reduce) {
    forall k, a, b {:trigger reducef(k, a), reducef(k, b)} | multiset(a) == multiset(b) ::
      reducef(k, a) == reducef(k, b)
  }

  lemma {:induction false} CountVals(kvs: seq<KeyValue>, k: string, v: string)
    ensures multiset(Vals(kvs, k))[v] == multiset(kvs)[KeyValue(k, v)]
  {
    if kvs != [] {
      var n := |kvs| - 1;
      CountVals(kvs[..n], k, v);
      assert kvs == kvs[..n] + [kvs[n]];
    }
  }

  lemma PermutedVals(a: seq<KeyValue>, b: seq<KeyValue>, k: string)
    requires multiset(a) == multiset(b)
    ensures multiset(Vals(a, k)) == multiset(Vals(b, k))
  {
    forall v ensures multiset(Vals(a, k))[v] == multiset(Vals(b, k))[v] {
      CountVals(a, k, v);
      CountVals(b, k, v);
    }
  }

  // ---- one reduce task ----

  ghost predicate SortedByKey(kvs: seq<KeyValue>) {
    forall i, j | 0 <= i < j < |kvs| :: !Before(kvs[j].key, kvs[i].key)
  }

  ghost predicate LineOk(lines: seq<Line>, kvs: seq<KeyValue>, reducef: Reduce, i: int)
    requires 0 <= i < |lines|
  {
    HasKey(kvs, lines[i].key) && lines[i].output == reducef(lines[i].key, Vals(kvs, lines[i].key))
  }

  ghost predicate Covered(lines: seq<Line>, k: string) { exists i :: 0 <= i < |lines| && lines[i].key == k }

  /** One line for each key, with what reduce makes of all its values. */
  ghost predicate Reduced(lines: seq<Line>, kvs: seq<KeyValue>, reducef: Reduce) {
    && (forall i, j | 0 <= i < j < |lines| :: lines[i].key != lines[j].key)
    && (forall i {:trigger LineOk(lines, kvs, reducef, i)} | 0 <= i < |lines| :: LineOk(lines, kvs, reducef, i))
    && (forall k {:trigger HasKey(kvs, k)} {:trigger Covered(lines, k)} | HasKey(kvs, k) :: Covered(lines, k))
  }

  lemma {:induction false} ValsConcat(a: seq<KeyValue>, b: seq<KeyValue>, k: string)
    ensures Vals(a + b, k) == Vals(a, k) + Vals(b, k)
    decreases |b|
  {
    if b == [] {
      assert a + b == a;
    } else {
      var n := |b| - 1;
      ValsConcat(a, b[..n], k);
      assert a + b == a + b[..n] + [b[n]];
      ValsSnoc(a + b[..n], b[n], k);
    }
  }

  ghost predicate AllHave(kvs: seq<KeyValue>, k: string) { forall i | 0 <= i < |kvs| :: kvs[i].key == k }

  lemma {:induction false} ValsOther(kvs: seq<KeyValue>, k: string, other: string)
    requires AllHave(kvs, k) && k != other
    ensures Vals(kvs, other) == []
  {
    if kvs != [] { ValsOther(kvs[..|kvs| - 1], k, other); }
  }

  /** The lines so far, and one more for the next key with all its values. */
  lemma ReducedMore(lines: seq<Line>, a: seq<KeyValue>, b: seq<KeyValue>, k: string, reducef: Reduce)
    requires Reduced(lines, a, reducef) && b != [] && AllHave(b, k) && !HasKey(a, k)
    ensures Reduced(lines + [Line(k, reducef(k, Vals(b, k)))], a + b, reducef)
  {
    var lines', n := lines + [Line(k, reducef(k, Vals(b, k)))], |lines|;
    assert b[0].key == k && (a + b)[|a|] == b[0];
    ValsConcat(a, b, k);
    HasKeyMeans(a, k);
    assert Vals(a + b, k) == Vals(b, k);
    forall i | 0 <= i < |lines'| ensures LineOk(lines', a + b, reducef, i) {
      if i < n { KeepsLine(lines, a, b, k, reducef, i); }
    }
    forall i, j | 0 <= i < j < |lines'| ensures lines'[i].key != lines'[j].key {
      assert LineOk(lines, a, reducef, i);
    }
    forall q | HasKey(a + b, q) ensures Covered(lines', q) {
      if q == k {
        assert lines'[n].key == q;
      } else {
        HasKeyMeans(a + b, q);
        HasKeyMeans(a, q);
        ValsConcat(a, b, q);
        ValsOther(b, k, q);
        assert Covered(lines, q);
        var i :| 0 <= i < n && lines[i].key == q;
        assert lines'[i].key == q;
      }
    }
  }

  lemma KeepsLine(lines: seq<Line>, a: seq<KeyValue>, b: seq<KeyValue>, k: string, reducef: Reduce, i: nat)
    requires i < |lines| && LineOk(lines, a, reducef, i) && AllHave(b, k) && !HasKey(a, k)
    ensures lines[i].key != k && HasKey(a + b, lines[i].key)
    ensures lines[i].output == reducef(lines[i].key, Vals(a + b, lines[i].key))
  {
    var q := lines[i].key;
    ValsConcat(a, b, q);
    ValsOther(b, k, q);
    HasKeyMeans(a, q);
    HasKeyMeans(a + b, q);
    assert Vals(a, q) + [] == Vals(a, q);
  }

  lemma NotBefore(kvs: seq<KeyValue>, j: nat, i: nat)
    requires SortedByKey(kvs) && j < i < |kvs| && kvs[i - 1].key != kvs[i].key
    ensures kvs[j].key != kvs[i].key
  {
    BeforeTotal(kvs[i - 1].key, kvs[i].key);
    assert Before(kvs[i - 1].key, kvs[i].key);
    assert j < i - 1 ==> !Before(kvs[i - 1].key, kvs[j].key);
  }

  lemma NewKey(kvs: seq<KeyValue>, i: nat)
    requires SortedByKey(kvs) && i < |kvs| && (i > 0 ==> kvs[i - 1].key != kvs[i].key)
    ensures !HasKey(kvs[..i], kvs[i].key)
  {
    forall j | 0 <= j < i ensures kvs[..i][j].key != kvs[i].key {
      NotBefore(kvs, j, i);
    }
  }

  /** Where the run of equal keys that starts at i ends. */
  method RunEnd(kvs: seq<KeyValue>, i: nat) returns (j: nat)
    requires i < |kvs|
    ensures i < j <= |kvs| && AllHave(kvs[i..j], kvs[i].key) && (j < |kvs| ==> kvs[j - 1].key != kvs[j].key)
  {
    j := i + 1;
    while j < |kvs| && kvs[j].key == kvs[i].key
      invariant i < j <= |kvs| && AllHave(kvs[i..j], kvs[i].key) && kvs[j - 1].key == kvs[i].key
    {
      assert kvs[i..j + 1] == kvs[i..j] + [kvs[j]];
      j := j + 1;
    }
  }

  method ValuesOf(kvs: seq<KeyValue>, i: nat, j: nat) returns (values: seq<string>)
    requires i < j <= |kvs| && AllHave(kvs[i..j], kvs[i].key)
    ensures values == Vals(kvs[i..j], kvs[i].key)
  {
    values := [];
    for k := i to j
      invariant values == Vals(kvs[i..k], kvs[i].key)
    {
      assert kvs[i..k + 1] == kvs[i..k] + [kvs[k]] && kvs[i..j][k - i] == kvs[k];
      ValsSnoc(kvs[i..k], kvs[k], kvs[i].key);
      values := values + [kvs[k].value];
    }
  }

  /** The loop over runs of equal keys. */
  method GroupAndReduce(kvs: seq<KeyValue>, reducef: Reduce) returns (lines: seq<Line>)
    requires SortedByKey(kvs)
    ensures Reduced(lines, kvs, reducef)
  {
    lines := [];
    var i := 0;
    while i < |kvs|
      invariant 0 <= i <= |kvs| && Reduced(lines, kvs[..i], reducef)
      invariant 0 < i < |kvs| ==> kvs[i - 1].key != kvs[i].key
    {
      var j := RunEnd(kvs, i);
      var values := ValuesOf(kvs, i, j);
      NewKey(kvs, i);
      ReducedMore(lines, kvs[..i], kvs[i..j], kvs[i].key, reducef);
      assert kvs[..i] + kvs[i..j] == kvs[..j];
      lines := lines + [Line(kvs[i].key, reducef(kvs[i].key, values))];
      i := j;
    }
    assert kvs[..i] == kvs;
  }

  // ---- sorting; any sorting by key would do ----

  method PlaceFor(kvs: seq<KeyValue>, kv: KeyValue) returns (j: nat)
    requires SortedByKey(kvs)
    ensures j <= |kvs| && SortedByKey(Inserted(kvs, j, kv))
  {
    j := |kvs|;
    while j > 0 && Before(kv.key, kvs[j - 1].key)
      invariant 0 <= j <= |kvs| && forall i | j <= i < |kvs| :: Before(kv.key, kvs[i].key)
    {
      j := j - 1;
    }
    forall i | j <= i < |kvs| ensures !Before(kvs[i].key, kv.key) {
      BeforeStrict(kv.key, kvs[i].key);
    }
    forall i | 0 <= i < j ensures !Before(kv.key, kvs[i].key) {
      if Before(kv.key, kvs[i].key) {
        BeforeTotal(kvs[i].key, kvs[j - 1].key);
        assert i < j - 1 ==> !Before(kvs[j - 1].key, kvs[i].key);
        if Before(kvs[i].key, kvs[j - 1].key) { BeforeTransitive(kv.key, kvs[i].key, kvs[j - 1].key); }
        assert false;
      }
    }
  }

  lemma InsertedBag(kvs: seq<KeyValue>, j: nat, kv: KeyValue)
    requires j <= |kvs|
    ensures multiset(Inserted(kvs, j, kv)) == multiset(kvs) + multiset{kv}
  {
    assert kvs == kvs[..j] + kvs[j..];
  }

  method SortByKey(kvs: seq<KeyValue>) returns (s: seq<KeyValue>)
    ensures SortedByKey(s) && multiset(s) == multiset(kvs)
  {
    s := [];
    for i := 0 to |kvs|
      invariant SortedByKey(s) && multiset(s) == multiset(kvs[..i])
    {
      var j := PlaceFor(s, kvs[i]);
      InsertedBag(s, j, kvs[i]);
      assert kvs[..i + 1] == kvs[..i] + [kvs[i]];
      s := Inserted(s, j, kvs[i]);
    }
    assert kvs[..|kvs|] == kvs;
  }

  /** Sorting first makes no difference to what the lines say. */
  lemma ReducedPermuted(lines: seq<Line>, s: seq<KeyValue>, kvs: seq<KeyValue>, reducef: Reduce)
    requires Reduced(lines, s, reducef) && multiset(s) == multiset(kvs) && OrderInsensitive(reducef)
    ensures Reduced(lines, kvs, reducef)
  {
    forall k ensures HasKey(s, k) <==> HasKey(kvs, k) {
      SameKeys(s, kvs, k);
    }
    forall i | 0 <= i < |lines| ensures LineOk(lines, kvs, reducef, i) {
      assert LineOk(lines, s, reducef, i);
      PermutedVals(s, kvs, lines[i].key);
    }
  }

  lemma SameKeys(a: seq<KeyValue>, b: seq<KeyValue>, k: string)
    requires multiset(a) == multiset(b)
    ensures HasKey(a, k) <==> HasKey(b, k)
  {
    PermutedVals(a, b, k);
    HasKeyMeans(a, k);
    HasKeyMeans(b, k);
    assert |multiset(Vals(a, k))| == |Vals(a, k)| && |multiset(Vals(b, k))| == |Vals(b, k)|;
  }

  /** Sort, group and reduce; the tail of a reduce task and of the sequential program alike. */
  method ReduceAll(kvs: seq<KeyValue>, reducef: Reduce) returns (lines: seq<Line>)
    requires OrderInsensitive(reducef)
    ensures Reduced(lines, kvs, reducef)
  {
    var s := SortByKey(kvs);
    lines := GroupAndReduce(s, reducef);
    ReducedPermuted(lines, s, kvs, reducef);
  }

  // ---- one map task ----

  /** Put every pair into the slot of its hash. */
  method DoMap(immediate: seq<KeyValue>, hash: string -> nat, nReduce: nat) returns (slots: seq<seq<KeyValue>>)
    requires nReduce > 0
    ensures |slots| == nReduce && forall r | 0 <= r < nReduce :: slots[r] == Slot(immediate, hash, nReduce, r)
  {
    var slot := new seq<KeyValue>[nReduce](_ => []);
    for i := 0 to |immediate|
      invariant forall r | 0 <= r < nReduce :: slot[r] == Slot(immediate[..i], hash, nReduce, r)
    {
      var kva := immediate[i];
      var index := hash(kva.key) % nReduce;
      forall r | 0 <= r < nReduce
        ensures Slot(immediate[..i + 1], hash, nReduce, r) ==
          Slot(immediate[..i], hash, nReduce, r) + if r == index then [kva] else []
      {
        assert immediate[..i + 1] == immediate[..i] + [kva];
        SlotSnoc(immediate[..i], kva, hash, nReduce, r);
      }
      slot[index] := slot[index] + [kva];
    }
    assert immediate[..|immediate|] == immediate;
    slots := slot[..];
  }

  // ---- the whole job ----

  function Concat<T>(parts: seq<seq<T>>): seq<T> {
    if parts == [] then [] else Concat(parts[..|parts| - 1]) + parts[|parts| - 1]
  }

  /** The r-th slots of all map tasks, one after the other, are the r-th slot of everything. */
  lemma {:induction false} Gathered(mapped: seq<seq<KeyValue>>, hash: string -> nat, nReduce: nat, r: nat)
    requires nReduce > 0
    ensures Concat(seq(|mapped|, t requires 0 <= t < |mapped| => Slot(mapped[t], hash, nReduce, r)))
         == Slot(Concat(mapped), hash, nReduce, r)
  {
    var slots := seq(|mapped|, t requires 0 <= t < |mapped| => Slot(mapped[t], hash, nReduce, r));
    if mapped != [] {
      var n := |mapped| - 1;
      Gathered(mapped[..n], hash, nReduce, r);
      assert slots[..n] == seq(n, t requires 0 <= t < n => Slot(mapped[..n][t], hash, nReduce, r));
      SlotConcat(Concat(mapped[..n]), mapped[n], hash, nReduce, r);
    }
  }

  /** Read the r-th file of every map task, and reduce. */
  method DoReduce(files: seq<seq<seq<KeyValue>>>, r: nat, reducef: Reduce)
    returns (lines: seq<Line>, ghost read: seq<KeyValue>)
    requires OrderInsensitive(reducef) && forall t | 0 <= t < |files| :: r < |files[t]|
    ensures read == Concat(seq(|files|, t requires 0 <= t < |files| => files[t][r]))
    ensures Reduced(lines, read, reducef)
  {
    var intermediate: seq<KeyValue> := [];
    ghost var parts := seq(|files|, t requires 0 <= t < |files| => files[t][r]);
    for t := 0 to |files|
      invariant intermediate == Concat(parts[..t])
    {
      assert parts[..t + 1][..t] == parts[..t];
      intermediate := intermediate + files[t][r];
    }
    assert parts[..|files|] == parts;
    read := intermediate;
    lines := ReduceAll(intermediate, reducef);
  }

  /** Every line that reduce should give, and no other. */
  ghost predicate IsLine(kvs: seq<KeyValue>, reducef: Reduce, line: Line) {
    HasKey(kvs, line.key) && line.output == reducef(line.key, Vals(kvs, line.key))
  }

  lemma ReducedHas(lines: seq<Line>, kvs: seq<KeyValue>, reducef: Reduce, line: Line)
    requires Reduced(lines, kvs, reducef)
    ensures line in lines <==> IsLine(kvs, reducef, line)
  {
    if line in lines {
      var i :| 0 <= i < |lines| && lines[i] == line;
      assert LineOk(lines, kvs, reducef, i);
    }
    if IsLine(kvs, reducef, line) {
      assert Covered(lines, line.key);
      var i :| 0 <= i < |lines| && lines[i].key == line.key;
      assert LineOk(lines, kvs, reducef, i);
      assert lines[i] == line;
    }
  }

  lemma {:induction false} KeysDiffer(lines: seq<Line>)
    requires forall i, j | 0 <= i < j < |lines| :: lines[i].key != lines[j].key
    ensures Distinct(lines)
  {
    if lines != [] { KeysDiffer(lines[..|lines| - 1]); }
  }

  /** The outputs of all reduce tasks together: each line once, and in one of them. */
  lemma {:induction false} ConcatHas(outs: seq<seq<Line>>, line: Line)
    ensures line in Concat(outs) <==> exists r :: 0 <= r < |outs| && line in outs[r]
  {
    if outs != [] {
      var n := |outs| - 1;
      ConcatHas(outs[..n], line);
      if r :| 0 <= r < |outs| && line in outs[r] {
        assert r < n ==> line in outs[..n][r];
      }
      if r :| 0 <= r < n && line in outs[..n][r] {
        assert line in outs[r];
      }
    }
  }

  ghost predicate OutOk(kvs: seq<KeyValue>, hash: string -> nat, nReduce: nat, outs: seq<seq<Line>>, reducef: Reduce,
                        r: nat)
    requires nReduce > 0 && r < |outs|
  {
    Reduced(outs[r], Slot(kvs, hash, nReduce, r), reducef)
  }

  lemma InSlot(kvs: seq<KeyValue>, hash: string -> nat, nReduce: nat, outs: seq<seq<Line>>, reducef: Reduce, r: nat,
               line: Line)
    requires nReduce > 0 && r < |outs| && OutOk(kvs, hash, nReduce, outs, reducef, r)
    ensures line in outs[r] <==> IsLine(kvs, reducef, line) && hash(line.key) % nReduce == r
  {
    var slot, k := Slot(kvs, hash, nReduce, r), line.key;
    ReducedHas(outs[r], slot, reducef, line);
    SlotVals(kvs, hash, nReduce, r, k);
    HasKeyMeans(kvs, k);
    HasKeyMeans(slot, k);
  }

  lemma {:induction false} ConcatDistinct(kvs: seq<KeyValue>, hash: string -> nat, nReduce: nat, outs: seq<seq<Line>>,
                                          reducef: Reduce, n: nat)
    requires nReduce > 0 && n <= |outs| && forall r | 0 <= r < |outs| :: OutOk(kvs, hash, nReduce, outs, reducef, r)
    ensures Distinct(Concat(outs[..n]))
  {
    if n > 0 {
      var m := n - 1;
      ConcatDistinct(kvs, hash, nReduce, outs, reducef, m);
      assert outs[..n][..m] == outs[..m] && OutOk(kvs, hash, nReduce, outs, reducef, m);
      KeysDiffer(outs[m]);
      forall line | line in outs[m] ensures line !in Concat(outs[..m]) {
        InSlot(kvs, hash, nReduce, outs, reducef, m, line);
        ConcatHas(outs[..m], line);
        forall r | 0 <= r < m ensures line !in outs[..m][r] {
          assert OutOk(kvs, hash, nReduce, outs, reducef, r);
          InSlot(kvs, hash, nReduce, outs, reducef, r, line);
        }
      }
      DistinctConcat(Concat(outs[..m]), outs[m]);
    }
  }

  lemma SameBag(a: seq<Line>, b: seq<Line>)
    requires Distinct(a) && Distinct(b) && forall x :: x in a <==> x in b
    ensures multiset(a) == multiset(b)
  {
    forall x ensures multiset(a)[x] == multiset(b)[x] {
      OnceEach(a, x);
      OnceEach(b, x);
    }
  }

  lemma {:induction false} OnceEach(a: seq<Line>, x: Line)
    requires Distinct(a)
    ensures multiset(a)[x] == if x in a then 1 else 0
  {
    if a != [] {
      var n := |a| - 1;
      OnceEach(a[..n], x);
      assert a == a[..n] + [a[n]];
    }
  }

  /** Reducing slot by slot gives the lines of reducing everything in one place, each once. */
  lemma SlotsMakeTheWhole(kvs: seq<KeyValue>, hash: string -> nat, nReduce: nat, outs: seq<seq<Line>>,
                          whole: seq<Line>, reducef: Reduce)
    requires nReduce > 0 && |outs| == nReduce && Reduced(whole, kvs, reducef)
    requires forall r | 0 <= r < |outs| :: OutOk(kvs, hash, nReduce, outs, reducef, r)
    ensures multiset(Concat(outs)) == multiset(whole)
  {
    ConcatDistinct(kvs, hash, nReduce, outs, reducef, nReduce);
    assert outs[..nReduce] == outs;
    KeysDiffer(whole);
    forall line ensures line in Concat(outs) <==> line in whole {
      ConcatHas(outs, line);
      ReducedHas(whole, kvs, reducef, line);
      var r := hash(line.key) % nReduce;
      assert OutOk(kvs, hash, nReduce, outs, reducef, r);
      InSlot(kvs, hash, nReduce, outs, reducef, r, line);
      forall q | 0 <= q < nReduce && line in outs[q] ensures IsLine(kvs, reducef, line) {
        assert OutOk(kvs, hash, nReduce, outs, reducef, q);
        InSlot(kvs, hash, nReduce, outs, reducef, q, line);
      }
    }
    SameBag(Concat(outs), whole);
  }

  /** The sequential program. */
  method Sequential(mapped: seq<seq<KeyValue>>, reducef: Reduce) returns (lines: seq<Line>)
    requires OrderInsensitive(reducef)
    ensures Reduced(lines, Concat(mapped), reducef)
  {
    var intermediate: seq<KeyValue> := [];
    for t := 0 to |mapped|
      invariant intermediate == Concat(mapped[..t])
    {
      assert mapped[..t + 1][..t] == mapped[..t];
      intermediate := intermediate + mapped[t];
    }
    assert mapped[..|mapped|] == mapped;
    lines := ReduceAll(intermediate, reducef);
  }

  /** The distributed job: all map tasks, then all reduce tasks; it prints what the sequential program prints. */
  method Distributed(mapped: seq<seq<KeyValue>>, hash: string -> nat, nReduce: nat, reducef: Reduce,
                     ghost whole: seq<Line>)
    returns (outs: seq<seq<Line>>)
    requires nReduce > 0 && OrderInsensitive(reducef) && Reduced(whole, Concat(mapped), reducef)
    ensures |outs| == nReduce && multiset(Concat(outs)) == multiset(whole)
  {
    var files: seq<seq<seq<KeyValue>>> := [];
    for t := 0 to |mapped|
      invariant |files| == t && forall u | 0 <= u < t :: |files[u]| == nReduce
      invariant forall u, r | 0 <= u < t && 0 <= r < nReduce :: files[u][r] == Slot(mapped[u], hash, nReduce, r)
    {
      var slots := DoMap(mapped[t], hash, nReduce);
      files := files + [slots];
    }
    outs := [];
    for r := 0 to nReduce
      invariant |outs| == r && forall q | 0 <= q < r :: OutOk(Concat(mapped), hash, nReduce, outs, reducef, q)
    {
      var lines, read := DoReduce(files, r, reducef);
      assert seq(|files|, t requires 0 <= t < |files| => files[t][r])
          == seq(|mapped|, t requires 0 <= t < |mapped| => Slot(mapped[t], hash, nReduce, r));
      Gathered(mapped, hash, nReduce, r);
      ghost var before := outs;
      outs := outs + [lines];
      forall q | 0 <= q < r + 1 ensures OutOk(Concat(mapped), hash, nReduce, outs, reducef, q) {
        assert q < r ==> OutOk(Concat(mapped), hash, nReduce, before, reducef, q);
      }
    }
    SlotsMakeTheWhole(Concat(mapped), hash, nReduce, outs, whole, reducef);
  }
}
