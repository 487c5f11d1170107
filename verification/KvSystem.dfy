/**
  A Raft cluster with a key/value server on every peer. What a peer hands up waits in its channel
  until the server takes it; the server cuts the log off with its own snapshots, and both restart
  together, from what was stored.
 */
module KvSystem {
  import opened KvCluster
  import KvRaft
  import KvServer
  import RaftSafety
  import RaftSpec
  import RaftSystem
  import Writes

  /** A server, the one whose snapshot is stored, and the messages on their way to it. */
  datatype Node = Node(life: Life, saved: Life, queue: seq<RaftSystem.Handed>)

  /** The states of the Raft cluster up to now, and the servers. */
  datatype Cluster = Cluster(run: seq<RaftSystem.System>, nodes: seq<Node>)

  ghost predicate Init(c: Cluster) {
    && |c.run| == 1 && RaftSystem.Init(c.run[0]) && |c.nodes| == |c.run[0].peers|
    && forall i | 0 <= i < |c.nodes| :: c.nodes[i] == Node(Empty, Empty, [])
  }

  /** Everything runs as in the Raft cluster; only, a snapshot is taken of what the server has. */
  ghost predicate CanStep(c: Cluster, e: RaftSystem.Event) {
    && c.run != []
    && var sys := c.run[|c.run| - 1];
      && RaftSystem.Shape(sys) && RaftSystem.Enabled(sys, e) && |c.nodes| == |sys.peers|
      && (e.TakeSnapshot? ==> e.index <= |LogOf(c.nodes[e.i].life)|)
  }

  /** CommitChecker: the committed entries above lastApplied that are still in the log, in order. */
  function Batch(s: RaftSpec.Peer, me: int): (r: seq<RaftSystem.Handed>)
    requires 0 <= s.base
  {
    var lo, hi := RaftSpec.Max(s.applied, s.base), RaftSpec.Min(s.commit, |s.log| - 1);
    if hi <= lo then []
    else seq(hi - lo, k requires 0 <= k < hi - lo => RaftSystem.Handed(me, lo + 1 + k, s.log[lo + 1 + k]))
  }

  function NodeAfter(node: Node, s: RaftSpec.Peer, e: RaftSystem.Event): Node
    requires 0 <= s.base
  {
    match e
    case HandUp(i, _) => node.(queue := node.queue + Batch(s, i))
    case TakeSnapshot(_, index) =>
      if RaftSpec.OnSnapshot(s, index).base == s.base then node else node.(saved := node.life)
    case Restart(_) => Node(Restarted(node.saved), node.saved, [])
    case _ => node
  }

  ghost function AfterStep(c: Cluster, e: RaftSystem.Event): Cluster
    requires CanStep(c, e)
  {
    var sys, i := c.run[|c.run| - 1], RaftSystem.Actor(e);
    Cluster(c.run + [RaftSystem.Apply(sys, e)], c.nodes[i := NodeAfter(c.nodes[i], sys.peers[i], e)])
  }

  predicate CanTake(c: Cluster, i: int) {
    0 <= i < |c.nodes| && c.nodes[i].queue != [] && c.nodes[i].queue[0].index >= 0
  }

  /** The server takes the next message from its channel. */
  function Taken(node: Node, decode: RaftSpec.Command -> KvRaft.Op): Node
    requires node.queue != [] && node.queue[0].index >= 0
  {
    var a := node.queue[0];
    node.(life := Applied(node.life, a.index, decode(a.entry.command)), queue := node.queue[1..])
  }

  function AfterTake(c: Cluster, decode: RaftSpec.Command -> KvRaft.Op, i: int): Cluster
    requires CanTake(c, i)
  {
    c.(nodes := c.nodes[i := Taken(c.nodes[i], decode)])
  }

  ghost predicate Next(decode: RaftSpec.Command -> KvRaft.Op, c: Cluster, c': Cluster) {
    || (exists e :: CanStep(c, e) && c' == AfterStep(c, e))
    || (exists i :: CanTake(c, i) && c' == AfterTake(c, decode, i))
  }

  ghost predicate IsHistory(decode: RaftSpec.Command -> KvRaft.Op, cs: seq<Cluster>) {
    && |cs| > 0 && Init(cs[0])
    && forall k | 0 <= k < |cs| - 1 :: Next(decode, cs[k], cs[k + 1])
  }

  // ---- what every step keeps ----

  /** A message on its way follows what the server has, or the message before it. */
  ghost predicate FollowsAt(n: nat, q: seq<RaftSystem.Handed>, j: int)
    requires 0 <= j < |q|
  {
    1 <= q[j].index && (q[j].index <= n + 1 || (j > 0 && q[j].index <= q[j - 1].index + 1))
  }

  ghost predicate Follows(n: nat, q: seq<RaftSystem.Handed>) {
    forall j {:trigger FollowsAt(n, q, j)} | 0 <= j < |q| :: FollowsAt(n, q, j)
  }

  /** How far the server will be when it has taken everything. */
  function Reached(n: nat, q: seq<RaftSystem.Handed>): int {
    if q == [] then n else RaftSpec.Max(n, q[|q| - 1].index)
  }

  ghost predicate AllHanded(run: seq<RaftSystem.System>, q: seq<RaftSystem.Handed>) {
    forall a | a in q :: exists k :: 0 <= k < |run| && a in run[k].handed
  }

  ghost predicate Sound(run: seq<RaftSystem.System>, decode: RaftSpec.Command -> KvRaft.Op, life: Life) {
    FromRun(run, decode, life) && GapFree(life)
  }

  ghost predicate NodeOk(run: seq<RaftSystem.System>, decode: RaftSpec.Command -> KvRaft.Op, node: Node,
                         s: RaftSpec.Peer) {
    && Sound(run, decode, node.life) && Sound(run, decode, node.saved) && AllHanded(run, node.queue)
    && QueueOk(|LogOf(node.life)|, node.queue, |LogOf(node.saved)|, s)
  }

  ghost predicate QueueOk(n: nat, q: seq<RaftSystem.Handed>, saved: nat, s: RaftSpec.Peer) {
    0 <= s.base <= n && s.base <= saved && s.applied <= Reached(n, q) && Follows(n, q)
  }

  ghost predicate ClusterOk(decode: RaftSpec.Command -> KvRaft.Op, c: Cluster) {
    && RaftSystem.IsRun(c.run) && |c.nodes| == |c.run[|c.run| - 1].peers|
    && forall i {:trigger c.nodes[i]} | 0 <= i < |c.nodes| ::
        NodeOk(c.run, decode, c.nodes[i], c.run[|c.run| - 1].peers[i])
  }

  // ---- a longer run ----

  lemma HandedGrows(run: seq<RaftSystem.System>, sys: RaftSystem.System, decode: RaftSpec.Command -> KvRaft.Op,
                    index: int, op: KvRaft.Op)
    requires WasHanded(run, decode, index, op)
    ensures WasHanded(run + [sys], decode, index, op)
  {
    var k, a :| 0 <= k < |run| && a in run[k].handed && a.index == index && decode(a.entry.command) == op;
    assert (run + [sys])[k] == run[k];
  }

  lemma {:induction false} FromRunGrows(run: seq<RaftSystem.System>, sys: RaftSystem.System,
                                        decode: RaftSpec.Command -> KvRaft.Op, life: Life)
    requires FromRun(run, decode, life)
    ensures FromRun(run + [sys], decode, life)
  {
    match life
    case Empty =>
    case Restarted(source) => FromRunGrows(run, sys, decode, source);
    case Applied(before, index, op) =>
      FromRunGrows(run, sys, decode, before);
      HandedGrows(run, sys, decode, index, op);
  }

  lemma AllHandedGrows(run: seq<RaftSystem.System>, sys: RaftSystem.System, q: seq<RaftSystem.Handed>)
    requires AllHanded(run, q)
    ensures AllHanded(run + [sys], q)
  {
    forall a | a in q ensures exists k :: 0 <= k < |run + [sys]| && a in (run + [sys])[k].handed {
      var k :| 0 <= k < |run| && a in run[k].handed;
      assert (run + [sys])[k] == run[k];
    }
  }

  lemma NodeGrows(run: seq<RaftSystem.System>, sys: RaftSystem.System, decode: RaftSpec.Command -> KvRaft.Op,
                  node: Node, s: RaftSpec.Peer)
    requires NodeOk(run, decode, node, s)
    ensures NodeOk(run + [sys], decode, node, s)
  {
    FromRunGrows(run, sys, decode, node.life);
    FromRunGrows(run, sys, decode, node.saved);
    AllHandedGrows(run, sys, node.queue);
  }

  // ---- the steps ----

  /** Only these three steps touch what a server relies on. */
  lemma OtherSteps(sys: RaftSystem.System, e: RaftSystem.Event)
    requires RaftSystem.Shape(sys) && RaftSystem.Enabled(sys, e) && !e.HandUp? && !e.TakeSnapshot? && !e.Restart?
    ensures var s, s' := sys.peers[RaftSystem.Actor(e)], RaftSystem.After(sys, e);
      s'.base == s.base && s'.applied == s.applied
  {
  }

  /** A batch goes on where what is on its way ends, and reaches to the commit index. */
  lemma BatchFollows(n: nat, q: seq<RaftSystem.Handed>, saved: nat, s: RaftSpec.Peer, me: int, upTo: int)
    requires QueueOk(n, q, saved, s) && s.commit < |s.log| && upTo <= s.commit
    ensures QueueOk(n, q + Batch(s, me), saved, s.(applied := upTo))
  {
    var b := Batch(s, me);
    var r := q + b;
    forall j | 0 <= j < |r| ensures FollowsAt(n, r, j) {
      if j < |q| { assert FollowsAt(n, q, j); }
    }
  }

  lemma BatchHanded(s: RaftSpec.Peer, me: int)
    requires 0 <= s.base
    ensures forall a | a in Batch(s, me) :: a in RaftSystem.Buffer(s, me)
  {
  }

  lemma TakeFollows(n: nat, q: seq<RaftSystem.Handed>, saved: nat, s: RaftSpec.Peer)
    requires QueueOk(n, q, saved, s) && q != []
    ensures 1 <= q[0].index <= n + 1 && QueueOk(if q[0].index == n + 1 then n + 1 else n, q[1..], saved, s)
  {
    assert FollowsAt(n, q, 0);
    var m, r := if q[0].index == n + 1 then n + 1 else n, q[1..];
    forall j | 0 <= j < |r| ensures FollowsAt(m, r, j) {
      assert FollowsAt(n, q, j + 1);
    }
  }

  lemma TakeKeeps(run: seq<RaftSystem.System>, decode: RaftSpec.Command -> KvRaft.Op, node: Node, s: RaftSpec.Peer)
    requires NodeOk(run, decode, node, s) && node.queue != []
    ensures node.queue[0].index >= 0 && NodeOk(run, decode, Taken(node, decode), s)
  {
    var n, q := |LogOf(node.life)|, node.queue;
    TakeFollows(n, q, |LogOf(node.saved)|, s);
    assert q[0] in q && forall a | a in q[1..] :: a in q;
    assert WasHanded(run, decode, q[0].index, decode(q[0].entry.command));
  }

  lemma HandUpKeeps(run: seq<RaftSystem.System>, sys: RaftSystem.System, decode: RaftSpec.Command -> KvRaft.Op,
                    node: Node, s: RaftSpec.Peer, i: int, upTo: int)
    requires NodeOk(run, decode, node, s) && s.commit < |s.log| && upTo <= s.commit
    requires RaftSystem.Buffer(s, i) <= sys.handed
    ensures NodeOk(run + [sys], decode, node.(queue := node.queue + Batch(s, i)), s.(applied := upTo))
  {
    NodeGrows(run, sys, decode, node, s);
    BatchFollows(|LogOf(node.life)|, node.queue, |LogOf(node.saved)|, s, i, upTo);
    BatchHanded(s, i);
    var longer, q := run + [sys], node.queue + Batch(s, i);
    forall a | a in q ensures exists k :: 0 <= k < |longer| && a in longer[k].handed {
      if a in Batch(s, i) {
        assert longer[|run|] == sys && a in sys.handed;
      }
    }
  }

  lemma SnapshotKeeps(run: seq<RaftSystem.System>, decode: RaftSpec.Command -> KvRaft.Op, node: Node, s: RaftSpec.Peer,
                      i: int, index: int)
    requires NodeOk(run, decode, node, s) && index <= |LogOf(node.life)|
    ensures NodeOk(run, decode, NodeAfter(node, s, RaftSystem.TakeSnapshot(i, index)), RaftSpec.OnSnapshot(s, index))
  {
  }

  lemma RestartKeeps(run: seq<RaftSystem.System>, decode: RaftSpec.Command -> KvRaft.Op, node: Node, s: RaftSpec.Peer,
                     i: int)
    requires NodeOk(run, decode, node, s)
    ensures NodeOk(run, decode, NodeAfter(node, s, RaftSystem.Restart(i)), RaftSpec.OnRestart(s))
  {
  }

  /** The node at which a step of Raft happens. */
  lemma ActorKeeps(run: seq<RaftSystem.System>, decode: RaftSpec.Command -> KvRaft.Op, node: Node,
                   sys: RaftSystem.System, e: RaftSystem.Event)
    requires RaftSystem.Shape(sys) && RaftSystem.Enabled(sys, e)
    requires var s := sys.peers[RaftSystem.Actor(e)]; NodeOk(run, decode, node, s) && s.commit < |s.log|
    requires e.TakeSnapshot? ==> e.index <= |LogOf(node.life)|
    ensures var s, sys' := sys.peers[RaftSystem.Actor(e)], RaftSystem.Apply(sys, e);
      NodeOk(run + [sys'], decode, NodeAfter(node, s, e), RaftSystem.After(sys, e))
  {
    var sys', s := RaftSystem.Apply(sys, e), sys.peers[RaftSystem.Actor(e)];
    if e.HandUp? {
      HandUpKeeps(run, sys', decode, node, s, e.i, e.upTo);
    } else {
      NodeGrows(run, sys', decode, node, s);
      if e.TakeSnapshot? {
        SnapshotKeeps(run + [sys'], decode, node, s, e.i, e.index);
      } else if e.Restart? {
        RestartKeeps(run + [sys'], decode, node, s, e.i);
      } else {
        OtherSteps(sys, e);
      }
    }
  }

  lemma RunGrows(run: seq<RaftSystem.System>, e: RaftSystem.Event)
    requires RaftSystem.IsRun(run)
    requires var sys := run[|run| - 1]; RaftSystem.Shape(sys) && RaftSystem.Enabled(sys, e)
    ensures RaftSystem.IsRun(run + [RaftSystem.Apply(run[|run| - 1], e)])
  {
    var longer := run + [RaftSystem.Apply(run[|run| - 1], e)];
    forall k | 0 <= k < |longer| - 1 ensures RaftSystem.Next(longer[k], longer[k + 1]) {
      if k < |run| - 1 { assert RaftSystem.Next(run[k], run[k + 1]); }
    }
  }

  lemma StepKeeps(decode: RaftSpec.Command -> KvRaft.Op, c: Cluster, e: RaftSystem.Event)
    requires ClusterOk(decode, c) && CanStep(c, e)
    ensures ClusterOk(decode, AfterStep(c, e))
  {
    var sys, i, c' := c.run[|c.run| - 1], RaftSystem.Actor(e), AfterStep(c, e);
    var sys' := RaftSystem.Apply(sys, e);
    RunGrows(c.run, e);
    RaftSafety.PeersStayWellFormed(c.run, |c.run| - 1);
    assert sys'.peers == sys.peers[i := RaftSystem.After(sys, e)];
    forall j | 0 <= j < |c'.nodes| ensures NodeOk(c'.run, decode, c'.nodes[j], sys'.peers[j]) {
      if j == i {
        ActorKeeps(c.run, decode, c.nodes[i], sys, e);
      } else {
        NodeGrows(c.run, sys', decode, c.nodes[j], sys.peers[j]);
      }
    }
  }

  lemma {:induction false} HistoryOk(decode: RaftSpec.Command -> KvRaft.Op, cs: seq<Cluster>, k: nat)
    requires IsHistory(decode, cs) && k < |cs|
    ensures ClusterOk(decode, cs[k])
  {
    if k > 0 {
      HistoryOk(decode, cs, k - 1);
      var c, c' := cs[k - 1], cs[k];
      assert Next(decode, c, c');
      if e :| CanStep(c, e) && c' == AfterStep(c, e) {
        StepKeeps(decode, c, e);
      } else {
        var i :| CanTake(c, i) && c' == AfterTake(c, decode, i);
        TakeStep(decode, c, i);
      }
    }
  }

  lemma TakeStep(decode: RaftSpec.Command -> KvRaft.Op, c: Cluster, i: int)
    requires ClusterOk(decode, c) && CanTake(c, i)
    ensures ClusterOk(decode, AfterTake(c, decode, i))
  {
    TakeKeeps(c.run, decode, c.nodes[i], c.run[|c.run| - 1].peers[i]);
  }

  // ---- the theorem ----

  lemma {:induction false} LaterLife(decode: RaftSpec.Command -> KvRaft.Op, cs: seq<Cluster>, k: nat, m: nat,
                                     life: Life)
    requires IsHistory(decode, cs) && k <= m < |cs| && FromRun(cs[k].run, decode, life)
    ensures FromRun(cs[m].run, decode, life)
    decreases m
  {
    if k < m {
      LaterLife(decode, cs, k, m - 1, life);
      var c, c' := cs[m - 1], cs[m];
      assert Next(decode, c, c');
      if e :| CanStep(c, e) && c' == AfterStep(c, e) {
        FromRunGrows(c.run, RaftSystem.Apply(c.run[|c.run| - 1], e), decode, life);
      }
    }
  }

  /** Every server, at every moment: its database holds exactly the keys written by the requests that are
      executed in the log it has, each with its last Put and what was appended after it. */
  lemma ServersMean(decode: RaftSpec.Command -> KvRaft.Op, cs: seq<Cluster>, k: nat, i: nat, key: string)
    requires IsHistory(decode, cs) && k < |cs| && i < |cs[k].nodes|
    ensures var log := LogOf(cs[k].nodes[i].life); KvRaft.Within(KvRaft.Executed(log), |log|)
    ensures var log, db := LogOf(cs[k].nodes[i].life), ServerOf(cs[k].nodes[i].life).data.db;
      var ws := KvRaft.Written(KvRaft.Pick(log, KvRaft.Executed(log)));
      (key in db <==> Writes.Named(ws, key)) && (key in db ==> db[key] == Writes.ValueOf(ws, key))
  {
    HistoryOk(decode, cs, k);
    var life := cs[k].nodes[i].life;
    var log := LogOf(life);
    LifeHolds(cs[k].run, decode, life);
    assert log[..|log|] == log;
    KvServer.ServerMeans(log, ServerOf(life), |log|, key);
  }

  /** Any two servers, at any moments, after any crashes and restarts: one has the first entries of the
      other, is where a replay of them would be, and if it has equally many, has the same data and the
      same saved results. */
  lemma ServersAlwaysAgree(decode: RaftSpec.Command -> KvRaft.Op, cs: seq<Cluster>, k: nat, i: nat, m: nat, j: nat)
    requires IsHistory(decode, cs) && k < |cs| && m < |cs| && i < |cs[k].nodes| && j < |cs[m].nodes|
    requires |LogOf(cs[k].nodes[i].life)| <= |LogOf(cs[m].nodes[j].life)|
    ensures var a, b := cs[k].nodes[i].life, cs[m].nodes[j].life;
      && LogOf(a) <= LogOf(b) && KvServer.Holds(LogOf(b), ServerOf(a), |LogOf(a)|)
      && (|LogOf(a)| == |LogOf(b)| ==> ServerOf(a).data == ServerOf(b).data)
  {
    var a, b, z := cs[k].nodes[i].life, cs[m].nodes[j].life, if k <= m then m else k;
    HistoryOk(decode, cs, k);
    HistoryOk(decode, cs, m);
    HistoryOk(decode, cs, z);
    LaterLife(decode, cs, k, z, a);
    LaterLife(decode, cs, m, z, b);
    ServersAgree(cs[z].run, decode, a, b);
  }
}
