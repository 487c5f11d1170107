/** The key/value specification that the tests of the labs check histories against. */
module KvModel {
  import opened Checker
  import opened Histories
  import opened Linearizability
  import opened Locality
  import opened Relabel
  import opened SearchList
  import opened Sets
  import opened Strings
  import Writes

  datatype KvValue = KvInput(op: int, key: string, value: string) | KvOutput(value: string)

  type KvOperation = Operation<KvValue>

  /** One key: get and append-with-return must have answered the value before; put and append always may. */
  function KvStep(st: string, input: KvValue, output: KvValue): (bool, string) {
    if !input.KvInput? || !output.KvOutput? then (false, st)
    else if input.op == 0 then (output.value == st, st)
    else if input.op == 1 then (true, input.value)
    else if input.op == 2 then (true, st + input.value)
    else (output.value == st, st + input.value)
  }

  function KvModel(): (m: Model<string, KvValue>)
    ensures EqualIsCongruent(m)
  {
    Model("", KvStep, (a: string, b: string) => a == b)
  }

  /** Inputs are inputs and outputs are outputs, and nothing returns before it is called. */
  ghost predicate KvHistory(history: seq<KvOperation>) {
    Timed(history) && forall x | 0 <= x < |history| :: history[x].input.KvInput? && history[x].output.KvOutput?
  }

  ghost function KeysOf(history: seq<KvOperation>): (r: seq<string>)
    requires KvHistory(history)
    ensures |r| == |history| && forall x | 0 <= x < |r| :: r[x] == history[x].input.key
  {
    seq(|history|, x requires 0 <= x < |history| => history[x].input.key)
  }

  /** The history as one of a whole map of strings, in which absent keys hold the empty string. */
  ghost function MapProblem(history: seq<KvOperation>): (p: Problem<map<string, string>>)
    requires KvHistory(history)
    ensures WellFormed(p)
  {
    Whole(TimesProblem(KvModel(), history), KeysOf(history))
  }

  // ---- what a history means ----

  function WriteOf(input: KvValue): Writes.Write {
    if !input.KvInput? || input.op == 0 then Writes.NoWrite
    else if input.op == 1 then Writes.Put(input.key, input.value)
    else Writes.Append(input.key, input.value)
  }

  /** A get, or an append that returns what was there. */
  predicate Reads(input: KvValue) { input.KvInput? && input.op != 1 && input.op != 2 }

  /** The writes of some operations of a history, in a given order. */
  function WritesIn(history: seq<KvOperation>, order: seq<int>): (ws: seq<Writes.Write>)
    requires forall i | 0 <= i < |order| :: 0 <= order[i] < |history|
    ensures |ws| == |order| && forall i | 0 <= i < |order| :: ws[i] == WriteOf(history[order[i]].input)
  {
    seq(|order|, i requires 0 <= i < |order| => WriteOf(history[order[i]].input))
  }

  /** Operation i of the order, if it reads, was answered with what the operations before it wrote. */
  ghost predicate AnsweredAt(history: seq<KvOperation>, order: seq<int>, i: int)
    requires KvHistory(history) && InRange(|history|, order) && 0 <= i < |order|
  {
    var op := history[order[i]];
    Reads(op.input) ==> op.output.value == Writes.ValueOf(WritesIn(history, order[..i]), op.input.key)
  }

  ghost predicate Answered(history: seq<KvOperation>, order: seq<int>)
    requires KvHistory(history) && InRange(|history|, order)
  {
    forall i {:trigger AnsweredAt(history, order, i)} | 0 <= i < |order| :: AnsweredAt(history, order, i)
  }

  /** Nothing stands behind an operation that had returned before it was called. */
  ghost predicate InRealTime(history: seq<KvOperation>, order: seq<int>)
    requires InRange(|history|, order)
  {
    forall i, j | 0 <= i < j < |order| :: !(history[order[j]].ret < history[order[i]].call)
  }

  /** An order of all operations of a history that explains every answer. */
  ghost predicate Explains(history: seq<KvOperation>, order: seq<int>)
    requires KvHistory(history)
  {
    && Distinct(order) && (forall x :: x in order <==> 0 <= x < |history|)
    && InRange(|history|, order) && InRealTime(history, order) && Answered(history, order)
  }

  /** An order of all operations on a key that explains every answer. */
  ghost predicate ExplainsKey(history: seq<KvOperation>, k: string, order: seq<int>)
    requires KvHistory(history)
  {
    && Distinct(order) && (forall x :: x in order <==> 0 <= x < |history| && history[x].input.key == k)
    && InRange(|history|, order) && InRealTime(history, order) && Answered(history, order)
  }

  lemma AnsweredSnoc(history: seq<KvOperation>, order: seq<int>, x: int)
    requires KvHistory(history) && InRange(|history|, order + [x]) && InRange(|history|, order) && 0 <= x < |history|
    ensures WritesIn(history, order + [x]) == WritesIn(history, order) + [WriteOf(history[x].input)]
    ensures Answered(history, order + [x]) <==> Answered(history, order) && AnsweredAt(history, order + [x], |order|)
  {
    var longer := order + [x];
    forall i | 0 <= i < |order| ensures AnsweredAt(history, longer, i) <==> AnsweredAt(history, order, i) {
      assert longer[..i] == order[..i] && longer[i] == order[i];
    }
  }

  /** What one step of the specification means, for an operation on the key. */
  lemma StepMeans(history: seq<KvOperation>, order: seq<int>, x: int)
    requires KvHistory(history) && InRange(|history|, order) && InRange(|history|, order + [x]) && 0 <= x < |history|
    ensures var op, ws := history[x], WritesIn(history, order);
      var st := Writes.ValueOf(ws, op.input.key);
      && KvStep(st, op.input, op.output).0 == AnsweredAt(history, order + [x], |order|)
      && KvStep(st, op.input, op.output).1 == Writes.ValueOf(ws + [WriteOf(op.input)], op.input.key)
  {
    var op, ws := history[x], WritesIn(history, order);
    assert (order + [x])[..|order|] == order;
    Writes.ValueSnoc(ws, WriteOf(op.input), op.input.key);
  }

  /** Running operations on one key, in some order, is possible exactly when every answer is explained, and
      leaves what they wrote. */
  lemma {:induction false} KeyRunsMean(history: seq<KvOperation>, k: string, order: seq<int>)
    requires KvHistory(history) && InRange(|history|, order)
    requires forall i | 0 <= i < |order| :: history[order[i]].input.key == k
    ensures Runs(TimesProblem(KvModel(), history), order).0 <==> Answered(history, order)
    ensures Runs(TimesProblem(KvModel(), history), order).1 == Writes.ValueOf(WritesIn(history, order), k)
    decreases |order|
  {
    if order != [] {
      var short, x := order[..|order| - 1], order[|order| - 1];
      assert order == short + [x];
      KeyRunsMean(history, k, short);
      AnsweredSnoc(history, short, x);
      StepMeans(history, short, x);
      RunsSnoc(TimesProblem(KvModel(), history), short, x);
    }
  }

  /** The same of a whole map. */
  lemma {:induction false} MapRunsMean(history: seq<KvOperation>, order: seq<int>, k: string)
    requires KvHistory(history) && InRange(|history|, order)
    ensures Runs(MapProblem(history), order).0 <==> Answered(history, order)
    ensures Lookup(Runs(MapProblem(history), order).1, k, "") == Writes.ValueOf(WritesIn(history, order), k)
    decreases |order|
  {
    if order != [] {
      var short, x := order[..|order| - 1], order[|order| - 1];
      assert order == short + [x];
      var v, w, key := TimesProblem(KvModel(), history), MapProblem(history), history[x].input.key;
      MapRunsMean(history, short, k);
      MapRunsMean(history, short, key);
      AnsweredSnoc(history, short, x);
      StepMeans(history, short, x);
      RunsSnoc(w, short, x);
      WholeStep(v, KeysOf(history), Runs(w, short).1, x, k);
      if k != key { Writes.ValueSnoc(WritesIn(history, short), WriteOf(history[x].input), k); }
    }
  }

  /** What had returned before an operation was called stands before it, in an order that respects real
      time. */
  lemma StandsBefore(history: seq<KvOperation>, order: seq<int>, j: nat, x: int)
    requires KvHistory(history) && InRange(|history|, order) && InRealTime(history, order)
    requires j < |order| && x in order && history[x].ret < history[order[j]].call
    ensures x in order[..j]
  {
    var m :| 0 <= m < |order| && order[m] == x;
    assert m < j;
    assert order[..j][m] == x;
  }

  lemma NotBehind(history: seq<KvOperation>, order: seq<int>, i: nat, j: nat)
    requires InRange(|history|, order) && Distinct(order) && i < j < |order|
    requires history[order[j]].ret < history[order[i]].call ==> order[j] in order[..i]
    ensures !(history[order[j]].ret < history[order[i]].call)
  {
    if order[j] in order[..i] {
      var m :| 0 <= m < i && order[..i][m] == order[j];
      DistinctAt(order, m, j);
      assert false;
    }
  }

  /** A key is linearizable exactly when some order of its operations explains every answer. */
  lemma KeyMeans(history: seq<KvOperation>, k: string)
    requires KvHistory(history)
    ensures KeyLinearizable(TimesProblem(KvModel(), history), KeysOf(history), k) <==>
      exists order :: ExplainsKey(history, k, order)
  {
    var v, key := TimesProblem(KvModel(), history), KeysOf(history);
    forall order ensures CompleteKey(v, key, k, order) <==> ExplainsKey(history, k, order) {
      OrderMeans(history, k, order);
    }
  }

  lemma OrderMeans(history: seq<KvOperation>, k: string, order: seq<int>)
    requires KvHistory(history)
    ensures CompleteKey(TimesProblem(KvModel(), history), KeysOf(history), k, order) <==> ExplainsKey(history, k, order)
  {
    var v, key := TimesProblem(KvModel(), history), KeysOf(history);
    if CompleteKey(v, key, k, order) {
      assert forall i | 0 <= i < |order| :: order[i] in order;
      assert forall x :: x in order <==> 0 <= x < |history| && key[x] == k;
      SameOrder(history, k, order);
    } else if ExplainsKey(history, k, order) {
      assert forall i | 0 <= i < |order| :: order[i] in order;
      SameOrder(history, k, order);
    }
  }

  lemma SameOrder(history: seq<KvOperation>, k: string, order: seq<int>)
    requires KvHistory(history) && InRange(|history|, order) && Distinct(order)
    requires forall x :: x in order <==> 0 <= x < |history| && history[x].input.key == k
    ensures CompleteKey(TimesProblem(KvModel(), history), KeysOf(history), k, order) <==>
      InRealTime(history, order) && Answered(history, order)
  {
    forall i | 0 <= i < |order| ensures history[order[i]].input.key == k {
      assert order[i] in order;
    }
    KeyRunsMean(history, k, order);
    KeyRealTime(history, k, order);
  }

  lemma KeyRealTime(history: seq<KvOperation>, k: string, order: seq<int>)
    requires KvHistory(history) && InRange(|history|, order) && Distinct(order)
    requires forall x :: x in order <==> 0 <= x < |history| && history[x].input.key == k
    ensures var v, key := TimesProblem(KvModel(), history), KeysOf(history);
      InRealTime(history, order) <==>
      forall j, x | 0 <= j < |order| && 0 <= x < v.n && key[x] == k && Precedes(v, x, order[j]) :: x in order[..j]
  {
    var v, key := TimesProblem(KvModel(), history), KeysOf(history);
    if InRealTime(history, order) {
      forall j, x | 0 <= j < |order| && 0 <= x < v.n && key[x] == k && Precedes(v, x, order[j])
        ensures x in order[..j]
      {
        StandsBefore(history, order, j, x);
      }
    }
    if forall j, x | 0 <= j < |order| && 0 <= x < v.n && key[x] == k && Precedes(v, x, order[j]) :: x in order[..j] {
      forall i, j | 0 <= i < j < |order| ensures !(history[order[j]].ret < history[order[i]].call) {
        var x := order[j];
        assert x in order && key[x] == k;
        assert Precedes(v, x, order[i]) ==> x in order[..i];
        NotBehind(history, order, i, j);
      }
    }
  }

  lemma MapRealTime(history: seq<KvOperation>, order: seq<int>)
    requires KvHistory(history) && InRange(|history|, order) && Distinct(order)
    requires forall x :: x in order <==> 0 <= x < |history|
    ensures InRealTime(history, order) <==> RespectsRealTime(MapProblem(history), order)
  {
    var p := MapProblem(history);
    if InRealTime(history, order) {
      forall j, x | 0 <= j < |order| && 0 <= x < p.n && Precedes(p, x, order[j]) ensures x in order[..j] {
        StandsBefore(history, order, j, x);
      }
    }
    if RespectsRealTime(p, order) {
      forall i, j | 0 <= i < j < |order| ensures !(history[order[j]].ret < history[order[i]].call) {
        var x := order[j];
        assert Precedes(p, x, order[i]) ==> x in order[..i];
        NotBehind(history, order, i, j);
      }
    }
  }

  /** The whole history is linearizable exactly when some order of all its operations explains every answer. */
  lemma MapMeans(history: seq<KvOperation>)
    requires KvHistory(history)
    ensures Linearizable(MapProblem(history)) <==> exists order :: Explains(history, order)
  {
    forall order ensures Legal(MapProblem(history), order) && |order| == |history| <==> Explains(history, order) {
      WholeOrderMeans(history, order);
    }
  }

  lemma WholeOrderMeans(history: seq<KvOperation>, order: seq<int>)
    requires KvHistory(history)
    ensures Legal(MapProblem(history), order) && |order| == |history| <==> Explains(history, order)
  {
    var n, p := |history|, MapProblem(history);
    if Legal(p, order) && |order| == n {
      forall x ensures x in order <==> 0 <= x < n {
        if 0 <= x < n { AllOps(n, order, x); }
      }
    }
    if Explains(history, order) {
      ElementsSize(order);
      assert Elements(order) == Range(n);
    }
    if (Legal(p, order) && |order| == n) || Explains(history, order) {
      MapRunsMean(history, order, "");
      MapRealTime(history, order);
    }
  }

  // ---- partitions ----

  predicate IsOn(op: KvOperation, k: string) { op.input.KvInput? && op.input.key == k }

  /** The operations on a key, in order. */
  function Only(history: seq<KvOperation>, k: string): seq<KvOperation> {
    if history == [] then []
    else
      var op := history[|history| - 1];
      Only(history[..|history| - 1], k) + if IsOn(op, k) then [op] else []
  }

  /** Where they stand in the history. */
  ghost function Where(history: seq<KvOperation>, k: string): seq<int> {
    if history == [] then []
    else
      var n := |history| - 1;
      Where(history[..n], k) + if IsOn(history[n], k) then [n] else []
  }

  ghost predicate Stands(history: seq<KvOperation>, k: string, part: seq<KvOperation>, e: seq<int>, i: int)
    requires 0 <= i < |e| == |part|
  {
    0 <= e[i] < |history| && part[i] == history[e[i]] && IsOn(part[i], k)
  }

  ghost predicate Locates(history: seq<KvOperation>, k: string, part: seq<KvOperation>, e: seq<int>) {
    && |e| == |part|
    && (forall i | 0 <= i < |e| :: Stands(history, k, part, e, i))
    && (forall i, j | 0 <= i < j < |e| :: e[i] < e[j])
    && (forall x | 0 <= x < |history| && IsOn(history[x], k) :: x in e)
  }

  lemma LocatesMore(history: seq<KvOperation>, k: string, part: seq<KvOperation>, e: seq<int>, op: KvOperation)
    requires Locates(history, k, part, e)
    ensures IsOn(op, k) ==> Locates(history + [op], k, part + [op], e + [|history|])
    ensures !IsOn(op, k) ==> Locates(history + [op], k, part, e)
  {
    var h := history + [op];
    forall i | 0 <= i < |e| ensures Stands(h, k, part, e, i) { assert Stands(history, k, part, e, i); }
    forall x | 0 <= x < |history| && IsOn(h[x], k) ensures x in e { assert h[x] == history[x]; }
    if IsOn(op, k) {
      var part', e' := part + [op], e + [|history|];
      forall i | 0 <= i < |e'| ensures Stands(h, k, part', e', i) {
        assert i < |e| ==> Stands(h, k, part, e, i);
      }
      forall i, j | 0 <= i < j < |e'| ensures e'[i] < e'[j] {
        assert i < |e| && Stands(history, k, part, e, i);
      }
      forall x | 0 <= x < |h| && IsOn(h[x], k) ensures x in e' {
        assert x == |history| ==> e'[|e|] == x;
      }
    }
  }

  lemma {:induction false} WhereLocates(history: seq<KvOperation>, k: string)
    ensures Locates(history, k, Only(history, k), Where(history, k))
  {
    if history != [] {
      var n := |history| - 1;
      var part, e := Only(history[..n], k), Where(history[..n], k);
      WhereLocates(history[..n], k);
      LocatesMore(history[..n], k, part, e, history[n]);
      assert history == history[..n] + [history[n]];
      assert part + [] == part && e + [] == e;
    }
  }

  // ---- strings in order ----

  ghost predicate InOrder(keys: seq<string>) {
    forall i, j | 0 <= i < j < |keys| :: Before(keys[i], keys[j])
  }

  method InsertKey(keys: seq<string>, k: string) returns (r: seq<string>)
    requires InOrder(keys) && k !in keys
    ensures InOrder(r) && forall x :: x in r <==> x in keys || x == k
  {
    var j := |keys|;
    while j > 0 && Before(k, keys[j - 1])
      invariant 0 <= j <= |keys| && forall i | j <= i < |keys| :: Before(k, keys[i])
    {
      j := j - 1;
    }
    forall i | 0 <= i < j ensures Before(keys[i], k) {
      BeforeTotal(k, keys[j - 1]);
      if i < j - 1 { BeforeTransitive(keys[i], keys[j - 1], k); }
    }
    InsertedHas(keys, j, k);
    r := Inserted(keys, j, k);
  }

  method SortKeys(all: set<string>) returns (keys: seq<string>)
    ensures InOrder(keys) && forall k :: k in keys <==> k in all
  {
    keys := [];
    var left := all;
    while |left| > 0
      invariant left <= all && InOrder(keys) && forall k :: k in keys <==> k in all - left
    {
      ghost var some := Element(left);
      var k :| k in left;
      left := left - {k};
      keys := InsertKey(keys, k);
    }
  }

  /** The map holds, for every key that occurs, the operations on it. */
  ghost predicate Grouped(m: map<string, seq<KvOperation>>, history: seq<KvOperation>) {
    forall k {:trigger Only(history, k)} :: if k in m then m[k] == Only(history, k) != [] else Only(history, k) == []
  }

  lemma OnlySnoc(history: seq<KvOperation>, op: KvOperation, k: string)
    ensures Only(history + [op], k) == Only(history, k) + if IsOn(op, k) then [op] else []
  {
    assert (history + [op])[..|history|] == history;
  }

  lemma GroupedMore(m: map<string, seq<KvOperation>>, history: seq<KvOperation>, op: KvOperation)
    requires Grouped(m, history) && op.input.KvInput?
    ensures var k := op.input.key;
      Grouped(m[k := (if k in m then m[k] else []) + [op]], history + [op])
  {
    var key := op.input.key;
    var m' := m[key := (if key in m then m[key] else []) + [op]];
    forall k ensures if k in m' then m'[k] == Only(history + [op], k) != [] else Only(history + [op], k) == [] {
      OnlySnoc(history, op, k);
      assert Only(history, k) + [] == Only(history, k);
    }
  }

  lemma {:induction false} OnlyOccurs(history: seq<KvOperation>, k: string)
    requires KvHistory(history)
    ensures Only(history, k) != [] <==> k in KeysOf(history)
  {
    var e := Where(history, k);
    WhereLocates(history, k);
    if e != [] {
      assert Stands(history, k, Only(history, k), e, 0);
      assert KeysOf(history)[e[0]] == k;
    }
    if k in KeysOf(history) {
      var x :| 0 <= x < |history| && KeysOf(history)[x] == k;
      assert IsOn(history[x], k) && x in e;
    }
  }

  method GroupByKey(history: seq<KvOperation>) returns (m: map<string, seq<KvOperation>>)
    requires KvHistory(history)
    ensures Grouped(m, history)
  {
    m := map[];
    for i := 0 to |history|
      invariant Grouped(m, history[..i])
    {
      var v := history[i];
      var key := v.input.key;
      GroupedMore(m, history[..i], v);
      assert history[..i + 1] == history[..i] + [v];
      m := m[key := (if key in m then m[key] else []) + [v]];
    }
    assert history[..|history|] == history;
  }

  /** One part for every key of the history, in the order of the keys; each part keeps the order of the history. */
  method Partition(history: seq<KvOperation>) returns (parts: seq<seq<KvOperation>>, ghost keys: seq<string>)
    requires KvHistory(history)
    ensures |parts| == |keys| && InOrder(keys) && forall k :: k in keys <==> k in KeysOf(history)
    ensures forall i | 0 <= i < |parts| :: parts[i] == Only(history, keys[i])
  {
    var m := GroupByKey(history);
    var sorted := SortKeys(m.Keys);
    forall k ensures k in m <==> k in KeysOf(history) {
      OnlyOccurs(history, k);
    }
    parts, keys := [], sorted;
    for i := 0 to |sorted|
      invariant |parts| == i && forall j | 0 <= j < i :: parts[j] == Only(history, sorted[j])
    {
      assert sorted[i] in m.Keys && m[sorted[i]] == Only(history, sorted[i]);
      parts := parts + [m[sorted[i]]];
    }
  }

  // ---- the verdict ----

  /** A part is itself a history, and is linearizable exactly when its key is. */
  lemma PartMeans(history: seq<KvOperation>, k: string)
    requires KvHistory(history)
    ensures KvHistory(Only(history, k))
    ensures Linearizable(TimesProblem(KvModel(), Only(history, k)))
       <==> KeyLinearizable(TimesProblem(KvModel(), history), KeysOf(history), k)
  {
    var part, e := Only(history, k), Where(history, k);
    WhereLocates(history, k);
    forall i | 0 <= i < |part|
      ensures part[i].input.KvInput? && part[i].output.KvOutput? && part[i].call <= part[i].ret
    {
      assert Stands(history, k, part, e, i);
    }
    var p, v, key := TimesProblem(KvModel(), part), TimesProblem(KvModel(), history), KeysOf(history);
    forall i | 0 <= i < p.n
      ensures 0 <= e[i] < v.n && key[e[i]] == k && p.call[i] == v.call[e[i]] && p.ret[i] == v.ret[e[i]]
      ensures forall s :: p.step(s, i) == v.step(s, e[i])
    {
      assert Stands(history, k, part, e, i);
    }
    forall x | 0 <= x < v.n && key[x] == k ensures x in e {
      assert IsOn(history[x], k);
    }
    PartIsKey(p, v, key, k, e);
  }

  method CheckPart(part: seq<KvOperation>, verbose: bool) returns (ok: bool)
    requires KvHistory(part)
    ensures ok <==> Linearizable(TimesProblem(KvModel(), part))
  {
    var es, call, ret := MakeEntries(part);
    EntriesKeepMeaning(KvModel(), part, es, call, ret);
    var longest;
    ok, longest := CheckSingle(KvModel(), es, verbose, call, ret);
  }

  ghost predicate UpTo(history: seq<KvOperation>, keys: seq<string>, i: nat)
    requires KvHistory(history) && i <= |keys|
  {
    forall j | 0 <= j < i :: KeyLinearizable(TimesProblem(KvModel(), history), KeysOf(history), keys[j])
  }

  datatype CheckResult = Ok | Illegal | Unknown

  /**
    Check a history of a key/value store: split it by key, and check every part. The answer is yes
    exactly when the whole history is linearizable as one of the whole map. An empty history has no
    part whose result could be waited for, and gets no answer before the time is up.
   */
  method CheckOperations(history: seq<KvOperation>, verbose: bool) returns (result: CheckResult)
    requires KvHistory(history)
    ensures result == Unknown <==> history == []
    ensures result == Ok ==> Linearizable(MapProblem(history))
    ensures result == Illegal ==> !Linearizable(MapProblem(history))
    ensures history != [] ==> (result == Ok <==> exists order :: Explains(history, order))
    ensures history != [] ==>
      (result == Ok <==> forall k | k in KeysOf(history) :: exists order :: ExplainsKey(history, k, order))
  {
    var parts, keys := Partition(history);
    SomeKey(history, keys);
    if |parts| == 0 {
      return Unknown;
    }
    var ok := true;
    for i := 0 to |parts|
      invariant ok <==> UpTo(history, keys, i)
    {
      PartMeans(history, keys[i]);
      var answer := CheckPart(parts[i], verbose);
      ok := ok && answer;
    }
    AllKeys(history, keys);
    VerdictMeans(history);
    return if ok then Ok else Illegal;
  }

  lemma VerdictMeans(history: seq<KvOperation>)
    requires KvHistory(history)
    ensures Linearizable(MapProblem(history)) <==> exists order :: Explains(history, order)
    ensures Linearizable(MapProblem(history)) <==>
      forall k | k in KeysOf(history) :: exists order :: ExplainsKey(history, k, order)
  {
    MapMeans(history);
    Local(TimesProblem(KvModel(), history), KeysOf(history));
    forall k | k in KeysOf(history)
      ensures KeyLinearizable(TimesProblem(KvModel(), history), KeysOf(history), k) <==>
        exists order :: ExplainsKey(history, k, order)
    {
      KeyMeans(history, k);
    }
  }

  lemma SomeKey(history: seq<KvOperation>, keys: seq<string>)
    requires KvHistory(history) && forall k :: k in keys <==> k in KeysOf(history)
    ensures keys == [] <==> history == []
  {
    var all := KeysOf(history);
    if history != [] { assert all[0] in keys; }
    if keys != [] { assert keys[0] in all; }
  }

  lemma AllKeys(history: seq<KvOperation>, keys: seq<string>)
    requires KvHistory(history) && forall k :: k in keys <==> k in KeysOf(history)
    ensures UpTo(history, keys, |keys|) <==> Linearizable(MapProblem(history))
  {
    var v, key := TimesProblem(KvModel(), history), KeysOf(history);
    Local(v, key);
    if forall k | k in key :: KeyLinearizable(v, key, k) {
      forall j | 0 <= j < |keys| ensures KeyLinearizable(v, key, keys[j]) {
        assert keys[j] in key;
      }
    }
    if UpTo(history, keys, |keys|) {
      forall k | k in key ensures KeyLinearizable(v, key, k) {
        assert k in keys;
      }
    }
  }
}
