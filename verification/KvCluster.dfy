/** The key/value servers on top of Raft: what its messages, snapshots and restarts make of them. */
module KvCluster {
  import opened KvServer
  import opened Options
  import KvRaft
  import RaftSafety
  import RaftSpec
  import RaftSystem

  /** How a server came to be what it is: it took entries from its peer, and was started again from a
      snapshot of itself or of another one. */
  datatype Life = Empty | Applied(before: Life, index: nat, op: KvRaft.Op) | Restarted(source: Life)

  function ServerOf(life: Life): Server {
    match life
    case Empty => Started(None)
    case Applied(before, index, op) => Deliver(ServerOf(before), Command(index, op))
    case Restarted(source) => Started(Some(ServerOf(source).data))
  }

  /** The entries that the server has: each one when it is the next. */
  function LogOf(life: Life): seq<KvRaft.Op> {
    match life
    case Empty => []
    case Applied(before, index, op) => LogOf(before) + if index == |LogOf(before)| + 1 then [op] else []
    case Restarted(source) => LogOf(source)
  }

  /** No entry arrives before the one in front of it; it may arrive late or again. */
  predicate GapFree(life: Life) {
    match life
    case Empty => true
    case Applied(before, index, _) => GapFree(before) && 1 <= index <= |LogOf(before)| + 1
    case Restarted(source) => GapFree(source)
  }

  /** Some peer handed this entry up at some moment of the run. */
  ghost predicate WasHanded(run: seq<RaftSystem.System>, decode: RaftSpec.Command -> KvRaft.Op, index: int,
                            op: KvRaft.Op) {
    exists k, a | 0 <= k < |run| && a in run[k].handed :: a.index == index && decode(a.entry.command) == op
  }

  ghost predicate FromRun(run: seq<RaftSystem.System>, decode: RaftSpec.Command -> KvRaft.Op, life: Life) {
    match life
    case Empty => true
    case Applied(before, index, op) => FromRun(run, decode, before) && WasHanded(run, decode, index, op)
    case Restarted(source) => FromRun(run, decode, source)
  }

  lemma HandedOnce(run: seq<RaftSystem.System>, decode: RaftSpec.Command -> KvRaft.Op, index: int, op: KvRaft.Op,
                   op': KvRaft.Op)
    requires RaftSystem.IsRun(run) && WasHanded(run, decode, index, op) && WasHanded(run, decode, index, op')
    ensures op == op'
  {
    var k, a :| 0 <= k < |run| && a in run[k].handed && a.index == index && decode(a.entry.command) == op;
    var m, b :| 0 <= m < |run| && b in run[m].handed && b.index == index && decode(b.entry.command) == op';
    RaftSafety.ApplySafety(run, k, m, a, b);
  }

  lemma {:induction false} LogWasHanded(run: seq<RaftSystem.System>, decode: RaftSpec.Command -> KvRaft.Op, life: Life,
                                        i: nat)
    requires FromRun(run, decode, life) && i < |LogOf(life)|
    ensures WasHanded(run, decode, i + 1, LogOf(life)[i])
  {
    match life
    case Empty =>
    case Restarted(source) => LogWasHanded(run, decode, source, i);
    case Applied(before, index, op) =>
      if i < |LogOf(before)| {
        LogWasHanded(run, decode, before, i);
      }
  }

  /** The server is where a replay of the entries it has would be, through snapshots and restarts. */
  lemma {:induction false} LifeHolds(run: seq<RaftSystem.System>, decode: RaftSpec.Command -> KvRaft.Op, life: Life)
    requires RaftSystem.IsRun(run) && FromRun(run, decode, life) && GapFree(life)
    ensures Holds(LogOf(life), ServerOf(life), |LogOf(life)|)
  {
    match life
    case Empty =>
    case Restarted(source) => LifeHolds(run, decode, source);
    case Applied(before, index, op) =>
      LifeHolds(run, decode, before);
      var had, has := LogOf(before), LogOf(life);
      var n := |had|;
      assert has[..n] == had && had[..n] == had && has[..|has|] == has;
      if index <= n {
        LogWasHanded(run, decode, before, index - 1);
        HandedOnce(run, decode, index, op, had[index - 1]);
      }
      DeliverKeeps(has, ServerOf(before), n, Command(index, op));
  }

  /** Any two servers agree on the entries that both have, and a server that has no more than another
      is where a replay of the other's entries would be; so two that have equally many hold the same
      data and the same saved results. */
  lemma ServersAgree(run: seq<RaftSystem.System>, decode: RaftSpec.Command -> KvRaft.Op, a: Life, b: Life)
    requires RaftSystem.IsRun(run) && FromRun(run, decode, a) && FromRun(run, decode, b) && GapFree(a) && GapFree(b)
    requires |LogOf(a)| <= |LogOf(b)|
    ensures LogOf(a) <= LogOf(b) && Holds(LogOf(b), ServerOf(a), |LogOf(a)|)
    ensures |LogOf(a)| == |LogOf(b)| ==> ServerOf(a).data == ServerOf(b).data
  {
    var la, lb := LogOf(a), LogOf(b);
    forall i | 0 <= i < |la| ensures la[i] == lb[i] {
      LogWasHanded(run, decode, a, i);
      LogWasHanded(run, decode, b, i);
      HandedOnce(run, decode, i + 1, la[i], lb[i]);
    }
    LifeHolds(run, decode, a);
    LifeHolds(run, decode, b);
    assert la == lb[..|la|] && la[..|la|] == la && lb[..|lb|] == lb;
  }
}
