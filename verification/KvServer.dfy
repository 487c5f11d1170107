/** The server loop: log entries and snapshots arrive, some of them late or twice. */
module KvServer {
  import opened KvRaft
  import opened Options
  import Writes

  datatype Msg = Command(index: nat, op: Op) | Snapshot(index: nat, data: Option<Data>)

  datatype Server = Server(data: Data, lastApplied: nat)

  /** An entry that is not newer than what is applied is passed over; a snapshot that is not older is
      loaded, unless it is empty. */
  function Deliver(s: Server, msg: Msg): Server {
    match msg
    case Command(index, op) =>
      if index <= s.lastApplied then s else Server(Apply(s.data, op), index)
    case Snapshot(index, data) =>
      if index >= s.lastApplied then Server(if data.Some? then data.value else s.data, index) else s
  }

  function DeliverAll(s: Server, msgs: seq<Msg>): Server {
    if msgs == [] then s else Deliver(DeliverAll(s, msgs[..|msgs| - 1]), msgs[|msgs| - 1])
  }

  /** A server that has just started: it takes the stored snapshot, but counts from 0 again. */
  function Started(snapShot: Option<Data>): Server {
    Server(if snapShot.Some? then snapShot.value else EMPTY, 0)
  }

  /** The server has what the first k entries of the log lead to; it may have counted fewer of them. */
  ghost predicate Holds(log: seq<Op>, s: Server, k: nat) {
    s.lastApplied <= k <= |log| && s.data == Replay(log[..k])
  }

  /** What may arrive for a given log when a server has its first k entries: its entries without a gap,
      again or late, and snapshots of it. */
  ghost predicate Fits(log: seq<Op>, k: nat, msg: Msg) {
    match msg
    case Command(index, op) => 1 <= index <= |log| && op == log[index - 1] && index <= k + 1
    case Snapshot(index, data) =>
      index <= |log| && if data.Some? then data.value == Replay(log[..index]) else index <= k
  }

  /** How many entries the server has after a message. */
  function Reach(s: Server, k: nat, msg: Msg): nat {
    match msg
    case Command(index, _) => if index <= s.lastApplied || index <= k then k else index
    case Snapshot(index, data) => if index >= s.lastApplied && data.Some? then index else k
  }

  function ReachAll(s: Server, k: nat, msgs: seq<Msg>): nat {
    if msgs == [] then k
    else
      var before := msgs[..|msgs| - 1];
      Reach(DeliverAll(s, before), ReachAll(s, k, before), msgs[|msgs| - 1])
  }

  ghost predicate AllFit(log: seq<Op>, s: Server, k: nat, msgs: seq<Msg>) {
    forall i {:trigger msgs[i]} | 0 <= i < |msgs| :: Fits(log, ReachAll(s, k, msgs[..i]), msgs[i])
  }

  /** An entry that the server has already is a repeated request to it. */
  lemma OldEntryIsKnown(log: seq<Op>, k: nat, index: nat)
    requires 1 <= index <= k <= |log|
    ensures Apply(Replay(log[..k]), log[index - 1]) == Replay(log[..k])
  {
    var short, op := log[..k], log[index - 1];
    NewMeans(short, op);
    assert From(short, op.client, index - 1);
  }

  /** One message keeps the server on the log. It goes back exactly when it is given a snapshot between
      what it has counted and what it has. */
  lemma DeliverKeeps(log: seq<Op>, s: Server, k: nat, msg: Msg)
    requires Holds(log, s, k) && Fits(log, k, msg)
    ensures Holds(log, Deliver(s, msg), Reach(s, k, msg)) && s.lastApplied <= Deliver(s, msg).lastApplied
    ensures msg.index <= Deliver(s, msg).lastApplied
    ensures Reach(s, k, msg) < k <==> msg.Snapshot? && msg.data.Some? && s.lastApplied <= msg.index < k
  {
    if msg.Command? && s.lastApplied < msg.index {
      if msg.index <= k {
        OldEntryIsKnown(log, k, msg.index);
      } else {
        assert log[..msg.index][..k] == log[..k];
      }
    }
  }

  /** Whatever arrives, the server is always where a full replay of some part of the log would be. */
  lemma {:induction false} SnapshotsAreInvisible(log: seq<Op>, s: Server, k: nat, msgs: seq<Msg>)
    requires Holds(log, s, k) && AllFit(log, s, k, msgs)
    ensures Holds(log, DeliverAll(s, msgs), ReachAll(s, k, msgs))
    decreases |msgs|
  {
    if msgs != [] {
      var n := |msgs| - 1;
      forall i | 0 <= i < n ensures Fits(log, ReachAll(s, k, msgs[..n][..i]), msgs[..n][i]) {
        assert msgs[..n][..i] == msgs[..i] && msgs[..n][i] == msgs[i];
      }
      SnapshotsAreInvisible(log, s, k, msgs[..n]);
      assert Fits(log, ReachAll(s, k, msgs[..n]), msgs[n]);
      DeliverKeeps(log, DeliverAll(s, msgs[..n]), ReachAll(s, k, msgs[..n]), msgs[n]);
    }
  }

  /** What a server holds, in terms of the requests of its log alone. */
  lemma ServerMeans(log: seq<Op>, s: Server, k: nat, key: string)
    requires Holds(log, s, k)
    ensures Within(Executed(log[..k]), k)
    ensures var ws := Written(Pick(log[..k], Executed(log[..k])));
      (key in s.data.db <==> Writes.Named(ws, key)) && (key in s.data.db ==> s.data.db[key] == Writes.ValueOf(ws, key))
  {
    ReplayMeans(log[..k], key);
  }

  // ---- restart ----

  /** The entries of the log from position j up to position n, one after the other. */
  function Commands(log: seq<Op>, j: nat, n: nat): (r: seq<Msg>)
    requires j <= n <= |log|
    ensures |r| == n - j && forall i | 0 <= i < n - j :: r[i] == Command(j + i + 1, log[j + i])
  {
    seq(n - j, i requires 0 <= i < n - j => Command(j + i + 1, log[j + i]))
  }

  /** A server that has the first k entries and gets all that follow, perhaps some of the old ones
      before them, ends up where a full replay of the log does. */
  lemma {:induction false} CatchesUp(log: seq<Op>, s: Server, k: nat, j: nat, n: nat)
    requires Holds(log, s, k) && j <= k && j <= n <= |log|
    ensures var s' := DeliverAll(s, Commands(log, j, n));
      Holds(log, s', if n <= k then k else n) && (j < n ==> n <= s'.lastApplied)
    decreases n
  {
    if j < n {
      var msgs, m := Commands(log, j, n), n - 1;
      assert msgs[..|msgs| - 1] == Commands(log, j, m);
      CatchesUp(log, s, k, j, m);
      DeliverKeeps(log, DeliverAll(s, Commands(log, j, m)), if m <= k then k else m, Command(n, log[m]));
    }
  }

  /** Whoever holds the first k entries, and from there on gets the rest, holds the whole. */
  ghost predicate Resumes(s: Server, log: seq<Op>, k: nat) {
    && Holds(log, s, k)
    && forall j {:trigger Commands(log, j, |log|)} | 0 <= j <= k ::
        DeliverAll(s, Commands(log, j, |log|)).data == Replay(log)
  }

  /** Restoring a snapshot and applying the rest is a full replay. */
  lemma RestoreThenReplay(log: seq<Op>, s: Server, k: nat)
    requires Holds(log, s, k)
    ensures Resumes(Started(Some(s.data)), log, k)
  {
    var s' := Started(Some(s.data));
    forall j | 0 <= j <= k ensures DeliverAll(s', Commands(log, j, |log|)).data == Replay(log) {
      CatchesUp(log, s', k, j, |log|);
      assert log[..|log|] == log;
    }
  }

  // ---- a snapshot that takes the server back ----

  /** The entry at position j is executed when the log is replayed. */
  predicate New(log: seq<Op>, j: nat)
    requires j < |log|
  {
    IsNew(Replay(log[..j]), log[j])
  }

  ghost predicate NewBetween(log: seq<Op>, i: nat, k: nat)
    requires k <= |log|
  {
    exists j | i <= j < k :: New(log, j)
  }

  /** Some request that had its result in the table has it no longer. */
  ghost predicate Loses(d: Data, d': Data) {
    exists c | c in d.history :: c in d'.history ==> d'.history[c].lastSeq < d.history[c].lastSeq
  }

  /** Replaying more of a log loses nothing, and changes nothing if and only if nothing is executed. */
  lemma {:induction false} ReplayMore(log: seq<Op>, i: nat, k: nat)
    requires i <= k <= |log|
    ensures !Loses(Replay(log[..i]), Replay(log[..k]))
    ensures Loses(Replay(log[..k]), Replay(log[..i])) <==> NewBetween(log, i, k)
    ensures !NewBetween(log, i, k) ==> Replay(log[..k]) == Replay(log[..i])
    decreases k
  {
    if i < k {
      var m := k - 1;
      ReplayMore(log, i, m);
      assert log[..k][..m] == log[..m] && log[..k][m] == log[m];
      var a, d, d', op := Replay(log[..i]), Replay(log[..m]), Replay(log[..k]), log[m];
      if New(log, m) {
        assert op.client in d'.history && d'.history[op.client].lastSeq == op.seqNo;
        var c := op.client;
        assert c in a.history ==> c in d.history && a.history[c].lastSeq <= d.history[c].lastSeq;
      }
    }
  }

  /** A snapshot loses results exactly when it is loaded and something the server has was executed
      behind it. */
  lemma OldSnapshotTakesBack(log: seq<Op>, s: Server, k: nat, index: nat)
    requires Holds(log, s, k) && index <= |log|
    ensures Loses(s.data, Deliver(s, Snapshot(index, Some(Replay(log[..index])))).data) <==>
      s.lastApplied <= index && NewBetween(log, index, k)
  {
    if index <= k {
      ReplayMore(log, index, k);
    } else {
      ReplayMore(log, k, index);
    }
  }

  /** So a server that restarts from a snapshot of two entries and is then given one of the first entry
      forgets the second. */
  lemma RestartedServerGoesBack()
    ensures var first, second := Op(Put, "k", "a", 0, 7), Op(Put, "k", "b", 1, 7);
      var s := Started(Some(Replay([first, second])));
      && s.data.db == map["k" := "b"]
      && Deliver(s, Snapshot(1, Some(Replay([first])))).data.db == map["k" := "a"]
  {
    var first, second := Op(Put, "k", "a", 0, 7), Op(Put, "k", "b", 1, 7);
    assert [first, second][..1] == [first] && [first][..0] == [];
    assert Replay([]) == EMPTY && Replay([first]) == Apply(EMPTY, first);
    assert Replay([first, second]) == Apply(Replay([first]), second);
  }

  class KVServer {
    var db: map<string, string>
    var historyMap: map<int, Result>
    var lastApplied: nat

    function View(): Server
      reads this
    {
      Server(Data(db, historyMap), lastApplied)
    }

    /** StartKVServer: the stored snapshot is loaded, the count starts at 0. */
    constructor (snapShot: Option<Data>)
      ensures View() == Started(snapShot)
    {
      db, historyMap, lastApplied := map[], map[], 0;
      new;
      LoadSnapShot(snapShot);
    }

    method DBExecute(op: Op) returns (res: Result)
      modifies this`db
      ensures (db, res) == Execute(old(db), op)
      ensures forall k | k != op.key :: (k in db <==> k in old(db)) && (k in db ==> db[k] == old(db)[k])
      ensures op.kind == Append && op.key in old(db) ==> op.key in db && db[op.key] == old(db)[op.key] + op.val
    {
      match op.kind
      case Get =>
        if op.key in db {
          return Result(op.seqNo, "", db[op.key]);
        } else {
          return Result(op.seqNo, ErrKeyNotExist, "");
        }
      case Put =>
        db := db[op.key := op.val];
        return Result(op.seqNo, "", "");
      case Append =>
        if op.key in db {
          db := db[op.key := db[op.key] + op.val];
        } else {
          db := db[op.key := op.val];
        }
        return Result(op.seqNo, "", "");
    }

    method ApplyCommand(index: nat, op: Op) returns (res: Option<Result>)
      modifies this
      ensures View() == Deliver(old(View()), Command(index, op))
      ensures index > old(lastApplied) && res.Some? ==>
        op.client in historyMap && res.value == historyMap[op.client] && res.value.lastSeq == op.seqNo
      ensures index > old(lastApplied) && res == None ==>
        old(op.client in historyMap && historyMap[op.client].lastSeq > op.seqNo)
    {
      res := None;
      if index <= lastApplied {
        return;
      }
      lastApplied := index;
      var needApply := false;
      if op.client in historyMap {
        if historyMap[op.client].lastSeq == op.seqNo {
          res := Some(historyMap[op.client]);
        } else if historyMap[op.client].lastSeq < op.seqNo {
          needApply := true;
        }
      } else {
        needApply := true;
      }
      if needApply {
        var r := DBExecute(op);
        historyMap := historyMap[op.client := r];
        res := Some(r);
      }
    }

    /** Whatever part of a log the server has, a server started from the snapshot goes on from there. */
    method GenSnapShot() returns (snapShot: Data)
      ensures snapShot == View().data
      ensures forall log, k | Holds(log, View(), k) :: Resumes(Started(Some(snapShot)), log, k)
    {
      snapShot := Data(db, historyMap);
      forall log, k | Holds(log, View(), k) ensures Resumes(Started(Some(snapShot)), log, k) {
        RestoreThenReplay(log, View(), k);
      }
    }

    method LoadSnapShot(snapShot: Option<Data>)
      modifies this`db, this`historyMap
      ensures Data(db, historyMap) == if snapShot.Some? then snapShot.value else old(Data(db, historyMap))
    {
      if snapShot.Some? {
        db, historyMap := snapShot.value.db, snapShot.value.history;
      }
    }

    /** The loop of the server over what arrives. */
    method ApplyHandler(msgs: seq<Msg>)
      modifies this
      ensures View() == DeliverAll(old(View()), msgs)
    {
      for i := 0 to |msgs|
        invariant View() == DeliverAll(old(View()), msgs[..i])
      {
        assert msgs[..i + 1][..i] == msgs[..i];
        match msgs[i]
        case Command(index, op) =>
          var res := ApplyCommand(index, op);
        case Snapshot(index, data) =>
          if index >= lastApplied {
            LoadSnapShot(data);
            lastApplied := index;
          }
      }
      assert msgs[..|msgs|] == msgs;
    }
  }

  /** A crash and a restart: the new server goes on where the snapshot was taken. */
  method Restart(kv: KVServer) returns (kv': KVServer)
    ensures fresh(kv')
    ensures forall log, k | Holds(log, kv.View(), k) :: Resumes(kv'.View(), log, k)
  {
    var snapShot := kv.GenSnapShot();
    kv' := new KVServer(Some(snapShot));
  }
}
