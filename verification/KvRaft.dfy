/** The replicated key/value server: what applying a log with repeated requests amounts to. */
module KvRaft {
  import Writes

  datatype Kind = Get | Put | Append
  datatype Op = Op(kind: Kind, key: string, val: string, seqNo: nat, client: int)
  datatype Result = Result(lastSeq: nat, err: string, value: string)

  const ErrKeyNotExist: string := "KeyNotExist"

  /** The database and, for each client, the result of its latest request. */
  datatype Data = Data(db: map<string, string>, history: map<int, Result>)

  const EMPTY: Data := Data(map[], map[])

  function Execute(db: map<string, string>, op: Op): (map<string, string>, Result) {
    match op.kind
    case Get =>
      if op.key in db then (db, Result(op.seqNo, "", db[op.key]))
      else (db, Result(op.seqNo, ErrKeyNotExist, ""))
    case Put => (db[op.key := op.val], Result(op.seqNo, "", ""))
    case Append =>
      (db[op.key := if op.key in db then db[op.key] + op.val else op.val], Result(op.seqNo, "", ""))
  }

  /** A request is new if the client has no result yet, or an older one. */
  predicate IsNew(d: Data, op: Op) { op.client in d.history ==> d.history[op.client].lastSeq < op.seqNo }

  function Apply(d: Data, op: Op): Data {
    if IsNew(d, op) then
      var (db, res) := Execute(d.db, op);
      Data(db, d.history[op.client := res])
    else d
  }

  /** Apply a whole log. */
  function Replay(log: seq<Op>): Data {
    if log == [] then EMPTY else Apply(Replay(log[..|log| - 1]), log[|log| - 1])
  }

  // ---- without repetition ----

  /** Execute every operation, without looking for repetitions. */
  function Run(ops: seq<Op>): Data {
    if ops == [] then EMPTY
    else
      var d, op := Run(ops[..|ops| - 1]), ops[|ops| - 1];
      var (db, res) := Execute(d.db, op);
      Data(db, d.history[op.client := res])
  }

  // ---- what executing means ----

  function WriteOf(op: Op): Writes.Write {
    match op.kind
    case Get => Writes.NoWrite
    case Put => Writes.Put(op.key, op.val)
    case Append => Writes.Append(op.key, op.val)
  }

  function Written(ops: seq<Op>): (ws: seq<Writes.Write>)
    ensures |ws| == |ops| && forall i | 0 <= i < |ops| :: ws[i] == WriteOf(ops[i])
  {
    seq(|ops|, i requires 0 <= i < |ops| => WriteOf(ops[i]))
  }

  /** The database holds exactly the keys that were written, each with its last Put and what was appended
      after it. */
  lemma {:induction false} RunMeans(ops: seq<Op>, k: string)
    ensures k in Run(ops).db <==> Writes.Named(Written(ops), k)
    ensures k in Run(ops).db ==> Run(ops).db[k] == Writes.ValueOf(Written(ops), k)
    decreases |ops|
  {
    if ops != [] {
      var short, op := ops[..|ops| - 1], ops[|ops| - 1];
      RunMeans(short, k);
      assert Written(ops) == Written(short) + [WriteOf(op)];
      Writes.NamedSnoc(Written(short), WriteOf(op), k);
      Writes.ValueSnoc(Written(short), WriteOf(op), k);
      if !Writes.Named(Written(short), k) { Writes.UnnamedIsEmpty(Written(short), k); }
    }
  }

  /** The answer to operation i: a Get is told the value at that point, or that there is none. */
  ghost function AnswerTo(ops: seq<Op>, i: nat): Result
    requires i < |ops|
  {
    var op, before := ops[i], Written(ops[..i]);
    if op.kind != Get then Result(op.seqNo, "", "")
    else if Writes.Named(before, op.key) then Result(op.seqNo, "", Writes.ValueOf(before, op.key))
    else Result(op.seqNo, ErrKeyNotExist, "")
  }

  /** The last operation of a client. */
  ghost predicate LastFrom(ops: seq<Op>, c: int, i: int) {
    From(ops, c, i) && forall j | From(ops, c, j) :: j <= i
  }

  /** The table holds exactly the answers to the last operations of the clients. */
  lemma {:induction false} SavedMeans(ops: seq<Op>, c: int, i: int)
    requires LastFrom(ops, c, i)
    ensures c in Run(ops).history && Run(ops).history[c] == AnswerTo(ops, i)
    decreases |ops|
  {
    var n := |ops| - 1;
    var short, op := ops[..n], ops[n];
    if i == n {
      RunMeans(short, op.key);
    } else {
      assert !From(ops, c, n);
      assert From(short, c, i);
      assert forall j | From(short, c, j) :: From(ops, c, j);
      SavedMeans(short, c, i);
      assert short[..i] == ops[..i];
    }
  }

  /** Positions of the log that are executed. */
  function Executed(log: seq<Op>): seq<nat> {
    if log == [] then []
    else
      var n := |log| - 1;
      Executed(log[..n]) + if IsNew(Replay(log[..n]), log[n]) then [n] else []
  }

  predicate From(log: seq<Op>, c: int, j: int) { 0 <= j < |log| && log[j].client == c }

  /** Request q of a client is in the log. */
  predicate Has(log: seq<Op>, c: int, q: int) { exists j | 0 <= j < |log| :: From(log, c, j) && log[j].seqNo == q }

  predicate Occurs(log: seq<Op>, op: Op) { Has(log, op.client, op.seqNo) }

  /** Positions at which a request stands in the log for the first time. */
  function Firsts(log: seq<Op>): seq<nat> {
    if log == [] then []
    else
      var n := |log| - 1;
      Firsts(log[..n]) + if Occurs(log[..n], log[n]) then [] else [n]
  }

  ghost predicate Within(at: seq<nat>, n: nat) { forall i | 0 <= i < |at| :: at[i] < n }

  function Pick(log: seq<Op>, at: seq<nat>): (r: seq<Op>)
    requires forall i | 0 <= i < |at| :: at[i] < |log|
  {
    seq(|at|, i requires 0 <= i < |at| => log[at[i]])
  }

  lemma {:induction false} ExecutedWithin(log: seq<Op>)
    ensures Within(Executed(log), |log|) && Within(Firsts(log), |log|)
  {
    if log != [] { ExecutedWithin(log[..|log| - 1]); }
  }

  /** q is the greatest number among the requests of a client. */
  ghost predicate Greatest(log: seq<Op>, c: int, q: int) {
    && Has(log, c, q)
    && (forall j | From(log, c, j) :: log[j].seqNo <= q)
  }

  lemma FromSnoc(log: seq<Op>, op: Op, c: int)
    ensures forall j :: From(log + [op], c, j) <==> From(log, c, j) || (j == |log| && op.client == c)
  {
  }

  lemma GreatestSnoc(log: seq<Op>, op: Op, c: int, q: int)
    requires (Greatest(log, c, q) && op.seqNo <= q) || (Greatest(log, c, q) && op.client != c)
          || (op.client == c && op.seqNo == q && forall j | From(log, c, j) :: log[j].seqNo <= q)
    ensures Greatest(log + [op], c, q)
  {
    FromSnoc(log, op, c);
    if op.client == c && op.seqNo == q {
      assert From(log + [op], c, |log|);
    } else {
      var j :| From(log, c, j) && log[j].seqNo == q;
      assert From(log + [op], c, j);
    }
  }

  /** The table holds, for each client, the greatest number among its requests in the log. */
  lemma {:induction false} TableIsGreatest(log: seq<Op>, c: int)
    ensures c in Replay(log).history <==> exists j :: From(log, c, j)
    ensures c in Replay(log).history ==> Greatest(log, c, Replay(log).history[c].lastSeq)
  {
    if log != [] {
      var n := |log| - 1;
      var short, op, h0, h := log[..n], log[n], Replay(log[..n]).history, Replay(log).history;
      assert log == short + [op];
      TableIsGreatest(short, c);
      FromSnoc(short, op, c);
      if c in h { GreatestSnoc(short, op, c, h[c].lastSeq); }
      assert op.client == c ==> From(log, c, n);
    }
  }

  /** So a request is executed exactly when every earlier one of its client has a smaller number. */
  lemma NewMeans(log: seq<Op>, op: Op)
    ensures IsNew(Replay(log), op) <==> forall j | From(log, op.client, j) :: log[j].seqNo < op.seqNo
  {
    TableIsGreatest(log, op.client);
  }

  lemma PickSnoc(log: seq<Op>, op: Op, at: seq<nat>)
    requires Within(at, |log|)
    ensures Pick(log + [op], at) == Pick(log, at) && Pick(log + [op], at + [|log|]) == Pick(log, at) + [op]
  {
  }

  /** Applying the log is executing some of its entries, each once, in order. */
  lemma {:induction false} ReplayIsRun(log: seq<Op>)
    ensures Within(Executed(log), |log|) && Replay(log) == Run(Pick(log, Executed(log)))
  {
    ExecutedWithin(log);
    if log != [] {
      var n := |log| - 1;
      var short, op := log[..n], log[n];
      ReplayIsRun(short);
      assert log == short + [op];
      PickSnoc(short, op, Executed(short));
      var ops := Pick(short, Executed(short));
      assert (ops + [op])[..|ops|] == ops;
      assert Executed(short) + [] == Executed(short);
    }
  }

  /** What a log with repeated requests leaves: the writes that are executed, and no others. */
  lemma ReplayMeans(log: seq<Op>, k: string)
    ensures Within(Executed(log), |log|)
    ensures var d, ws := Replay(log), Written(Pick(log, Executed(log)));
      (k in d.db <==> Writes.Named(ws, k)) && (k in d.db ==> d.db[k] == Writes.ValueOf(ws, k))
  {
    ReplayIsRun(log);
    RunMeans(Pick(log, Executed(log)), k);
  }

  /** A request whose client's earlier ones all have smaller numbers is executed, and the answer that is
      saved for it is that of the writes executed before it. */
  lemma SavedAnswer(log: seq<Op>, op: Op)
    requires forall j | From(log, op.client, j) :: log[j].seqNo < op.seqNo
    ensures Within(Executed(log), |log|)
    ensures var before, h := Pick(log, Executed(log)), Replay(log + [op]).history;
      op.client in h && h[op.client] == AnswerTo(before + [op], |before|)
  {
    NewMeans(log, op);
    ReplayIsRun(log);
    var before := Pick(log, Executed(log));
    assert (log + [op])[..|log|] == log && (before + [op])[..|before|] == before;
    assert Replay(log + [op]) == Run(before + [op]);
    assert From(before + [op], op.client, |before|);
    SavedMeans(before + [op], op.client, |before|);
  }

  /** No request enters the log for the first time behind a later one of its client. */
  ghost predicate InClientOrder(log: seq<Op>) {
    forall i, j | 0 <= i < j < |log| && log[i].client == log[j].client && log[i].seqNo > log[j].seqNo ::
      Occurs(log[..j], log[j])
  }

  lemma InOrderSnoc(log: seq<Op>, op: Op)
    ensures InClientOrder(log + [op]) <==>
      InClientOrder(log) && (Occurs(log, op) || forall j | From(log, op.client, j) :: log[j].seqNo <= op.seqNo)
  {
    var longer, n := log + [op], |log|;
    assert longer[..n] == log;
    assert forall j | 0 <= j < n :: longer[..j] == log[..j];
    if InClientOrder(longer) {
      forall i, j | 0 <= i < j < n && log[i].client == log[j].client && log[i].seqNo > log[j].seqNo
        ensures Occurs(log[..j], log[j])
      {
        assert longer[i] == log[i] && longer[j] == log[j];
      }
      forall j | From(log, op.client, j) && log[j].seqNo > op.seqNo ensures Occurs(log, op) {
        assert longer[j] == log[j] && longer[n] == op;
      }
    }
  }

  /** The log is executed as if every request stood in it once, at its first place, exactly when no
      request enters it for the first time behind a later one of its client. */
  lemma {:induction false} ExactlyFirsts(log: seq<Op>)
    ensures Executed(log) == Firsts(log) <==> InClientOrder(log)
  {
    if log != [] {
      var n := |log| - 1;
      var short, op := log[..n], log[n];
      assert log == short + [op];
      ExactlyFirsts(short);
      ExecutedWithin(short);
      NewMeans(short, op);
      InOrderSnoc(short, op);
      LastDiffers(Executed(short), Firsts(short), n, IsNew(Replay(short), op), !Occurs(short, op));
    }
  }

  /** Then applying the log is executing each of its requests once, where it first stands. */
  lemma InOrderRunsFirsts(log: seq<Op>)
    requires InClientOrder(log)
    ensures Within(Firsts(log), |log|) && Replay(log) == Run(Pick(log, Firsts(log)))
  {
    ExactlyFirsts(log);
    ReplayIsRun(log);
  }

  lemma LastDiffers(a: seq<nat>, b: seq<nat>, n: nat, inA: bool, inB: bool)
    requires Within(a, n) && Within(b, n)
    ensures a + (if inA then [n] else []) == b + (if inB then [n] else []) <==> a == b && inA == inB
  {
    var a', b' := a + (if inA then [n] else []), b + (if inB then [n] else []);
    if a' == b' {
      if inA { assert a'[|a|] == n; }
      if inB { assert b'[|b|] == n; }
      assert inA == inB;
      assert a == a'[..|a|] && b == b'[..|b|];
    }
  }

  /** Two requests of one client in the wrong order: the one that is late is never executed. */
  lemma LateRequestIsLost()
    ensures var late, early := Op(Put, "k", "late", 1, 7), Op(Put, "k", "early", 2, 7);
      var log := [early, late];
      !InClientOrder(log) && Executed(log) == [0] && Firsts(log) == [0, 1] && Replay(log).db == map["k" := "early"]
  {
    var late, early := Op(Put, "k", "late", 1, 7), Op(Put, "k", "early", 2, 7);
    var log, one := [early, late], [early];
    assert log[..1] == one && one[..0] == [] && one[0] == early && log[1] == late;
    assert Replay([]) == EMPTY && Replay(one) == Apply(EMPTY, early);
    assert Replay(one) == Data(map["k" := "early"], map[7 := Result(2, "", "")]);
    assert !IsNew(Replay(one), late) && Replay(log) == Replay(one);
    assert !Has([], 7, 2) && !Occurs([], early);
    assert Executed(one) == Executed([]) + [0] && Firsts(one) == Firsts([]) + [0];
    assert !Has(one, 7, 1) && !Occurs(one, late);
    assert Executed(log) == Executed(one) + [] && Firsts(log) == Firsts(one) + [1];
    assert log[0].seqNo > log[1].seqNo && !Occurs(log[..1], log[1]);
  }

  /** A client sends its next request only when the one before is answered, so it is in the log already. */
  ghost predicate OneAtATime(log: seq<Op>) {
    forall j, q {:trigger Has(log[..j], log[j].client, q)} | 0 <= j < |log| && 0 <= q < log[j].seqNo ::
      Has(log[..j], log[j].client, q)
  }

  /** For such clients every request takes effect exactly once, where it first stands in the log. */
  lemma OneAtATimeIsInOrder(log: seq<Op>)
    requires OneAtATime(log)
    ensures InClientOrder(log) && Executed(log) == Firsts(log)
    ensures Within(Firsts(log), |log|) && Replay(log) == Run(Pick(log, Firsts(log)))
  {
    forall i, j | 0 <= i < j < |log| && log[i].client == log[j].client && log[i].seqNo > log[j].seqNo
      ensures Occurs(log[..j], log[j])
    {
      assert Has(log[..i], log[i].client, log[j].seqNo);
      var k :| 0 <= k < i && From(log[..i], log[i].client, k) && log[..i][k].seqNo == log[j].seqNo;
      assert From(log[..j], log[j].client, k) && log[..j][k] == log[k];
    }
    ExactlyFirsts(log);
    InOrderRunsFirsts(log);
  }
}
