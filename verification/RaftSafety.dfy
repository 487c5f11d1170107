/**
  What Raft promises, for every run of the cluster: elections, appends, crashes, restarts and
  local compaction in any interleaving, with any loss, delay and reordering of messages.
 */
module RaftSafety {
  import opened RaftSpec
  import opened RaftSystem
  import opened RaftHistory
  import opened RaftInvariant
  import opened RaftSteps
  import opened RaftReplication
  import opened Sets

  const NO_HISTORY := History(map[], map[], map[], map[])

  lemma InitHolds(sys: System)
    requires Init(sys)
    ensures Inv(sys, NO_HISTORY)
  {
    var n := |sys.peers|;
    forall i | 0 <= i < n ensures PeerInv(i, sys.peers[i], NO_HISTORY, n, sys.returned) {
      assert sys.peers[i] == Fresh(n);
    }
  }

  lemma StepHolds(sys: System, h: History, e: Event)
    requires Inv(sys, h) && Shape(sys) && Enabled(sys, e)
    ensures Keeps(sys, h, e)
  {
    match e
    case Timeout(i) => if sys.peers[i].role == Candidate { CampaignKeeps(sys, h, i); } else { QuietKeeps(sys, h, e); }
    case PreVotePassed(_) => QuietKeeps(sys, h, e);
    case HandleVote(i, a) => HandleVoteKeeps(sys, h, i, a);
    case VoteReturns(r) => VoteReturnsKeeps(sys, h, r);
    case SendAppend(i, to) => SendAppendKeeps(sys, h, i, to);
    case HandleAppend(q) => HandleAppendKeeps(sys, h, q);
    case AppendReturns(r) => AppendReturnsKeeps(sys, h, r);
    case StartCommand(i, c) => StartKeeps(sys, h, i, c);
    case TakeSnapshot(_, _) => QuietKeeps(sys, h, e);
    case Restart(_) => QuietKeeps(sys, h, e);
    case HandUp(i, upTo) => HandUpKeeps(sys, h, i, upTo);
  }

  // ---- histories of whole runs ----

  /** The part of growth that composes over any number of steps. */
  ghost predicate Extends(h: History, h': History) {
    && (forall t {:trigger t in h.reigns} | t in h.reigns ::
          t in h'.reigns && Grown(h.reigns[t], h'.reigns[t], t))
    && (forall q, t {:trigger (q, t) in h.acks} | (q, t) in h.acks ::
          (q, t) in h'.acks && h.acks[(q, t)] <= h'.acks[(q, t)])
  }

  lemma ExtendsTrans(a: History, b: History, c: History)
    requires Extends(a, b) && Extends(b, c)
    ensures Extends(a, c)
  {
    forall t | t in a.reigns ensures t in c.reigns && Grown(a.reigns[t], c.reigns[t], t) {
      assert t in b.reigns && t in c.reigns;
      assert Grown(a.reigns[t], b.reigns[t], t) && Grown(b.reigns[t], c.reigns[t], t);
    }
    forall q, t | (q, t) in a.acks ensures (q, t) in c.acks && a.acks[(q, t)] <= c.acks[(q, t)] {
      assert (q, t) in b.acks;
    }
  }

  ghost predicate Explains(run: seq<System>, hs: seq<History>) {
    && |hs| == |run|
    && (forall k {:trigger Inv(run[k], hs[k])} | 0 <= k < |run| :: Inv(run[k], hs[k]))
    && (forall k, m {:trigger Extends(hs[k], hs[m])} | 0 <= k <= m < |run| :: Extends(hs[k], hs[m]))
    && (forall k {:trigger |run[k].peers|} | 0 <= k < |run| :: |run[k].peers| == |run[0].peers|)
  }

  lemma NextExplained(sys: System, sys': System, h: History) returns (h': History)
    requires Inv(sys, h) && Next(sys, sys')
    ensures Inv(sys', h') && Extends(h, h') && |sys'.peers| == |sys.peers|
  {
    var e :| Enabled(sys, e) && sys' == Apply(sys, e);
    StepHolds(sys, h, e);
    h' := Remember(sys, h, e);
  }

  /** Every run has a history that satisfies the invariant throughout and only ever grows. */
  lemma {:induction false} RunExplained(run: seq<System>) returns (hs: seq<History>)
    requires IsRun(run)
    ensures Explains(run, hs)
  {
    var last := |run| - 1;
    if last == 0 {
      InitHolds(run[0]);
      hs := [NO_HISTORY];
    } else {
      var shorter := run[..last];
      assert forall k | 0 <= k < last - 1 :: Next(shorter[k], shorter[k + 1]) by {
        forall k | 0 <= k < last - 1 ensures Next(shorter[k], shorter[k + 1]) { assert Next(run[k], run[k + 1]); }
      }
      var prior := RunExplained(shorter);
      var h := prior[last - 1];
      assert Inv(shorter[last - 1], h);
      assert Next(run[last - 1], run[last]);
      var h' := NextExplained(run[last - 1], run[last], h);
      hs := prior + [h'];
      ExplainedStep(run, prior, h');
    }
  }

  lemma ExplainedStep(run: seq<System>, prior: seq<History>, h': History)
    requires |run| > 1 && Explains(run[..|run| - 1], prior)
    requires Inv(run[|run| - 1], h') && |run[|run| - 1].peers| == |run[|run| - 2].peers|
    requires Extends(prior[|run| - 2], h')
    ensures Explains(run, prior + [h'])
  {
    var last, hs := |run| - 1, prior + [h'];
    assert Extends(h', h');
    forall k, m | 0 <= k <= m < |run| ensures Extends(hs[k], hs[m]) {
      if m == last && k < last {
        assert Extends(prior[k], prior[last - 1]);
        ExtendsTrans(prior[k], prior[last - 1], h');
      } else if m < last {
        assert Extends(prior[k], prior[m]);
      }
    }
    forall k | 0 <= k < |run| ensures Inv(run[k], hs[k]) {
      if k < last { assert Inv(run[..last][k], prior[k]); }
    }
    forall k | 0 <= k < |run| ensures |run[k].peers| == |run[0].peers| {
      assert |run[..last][last - 1].peers| == |run[..last][0].peers|;
      if k < last { assert |run[..last][k].peers| == |run[..last][0].peers|; }
    }
  }

  lemma ChosenExtends(h: History, h': History, n: nat, t: int, j: int)
    requires Extends(h, h') && Chosen(h, n, t, j)
    ensures Chosen(h', n, t, j)
    ensures Agree(h.reigns[t].log, h'.reigns[t].log, |h.reigns[t].log|)
  {
    assert Grown(h.reigns[t], h'.reigns[t], t);
    assert AckSet(h, n, t, j) <= AckSet(h', n, t, j);
    SubsetSize(AckSet(h, n, t, j), AckSet(h', n, t, j));
  }

  lemma CommittedExtends(h: History, h': History, n: nat, l: seq<Entry>, c: int, term: int)
    requires Extends(h, h') && Committed(h, n, l, c, term)
    ensures Committed(h', n, l, c, term)
  {
    if c > 0 {
      var t, j :| ChosenPast(h, n, l, c, term, t, j);
      ChosenExtends(h, h', n, t, j);
      assert ChosenPast(h', n, l, c, term, t, j);
    }
  }

  // ---- the theorems ----

  /** A moment of a run and a peer. */
  ghost predicate At(run: seq<System>, k: int, i: int) {
    0 <= k < |run| && 0 <= i < |run[k].peers|
  }

  /** At most one leader per term, over the whole run: a late refusal that demotes a leader and
      a candidate state re-entered in the same term do not make room for a second winner. */
  lemma ElectionSafety(run: seq<System>, k: int, i: int, m: int, j: int)
    requires IsRun(run) && At(run, k, i) && At(run, m, j)
    requires run[k].peers[i].role == Leader && run[m].peers[j].role == Leader
    requires run[k].peers[i].term == run[m].peers[j].term
    ensures i == j
  {
    if k <= m {
      ElectionSafetyLater(run, k, i, m, j);
    } else {
      ElectionSafetyLater(run, m, j, k, i);
    }
  }

  lemma ElectionSafetyLater(run: seq<System>, k: int, i: int, m: int, j: int)
    requires IsRun(run) && At(run, k, i) && At(run, m, j) && k <= m
    requires run[k].peers[i].role == Leader && run[m].peers[j].role == Leader
    requires run[k].peers[i].term == run[m].peers[j].term
    ensures i == j
  {
    var hs := RunExplained(run);
    assert Inv(run[k], hs[k]) && Inv(run[m], hs[m]) && Extends(hs[k], hs[m]);
    assert PeerInv(i, run[k].peers[i], hs[k], |run[k].peers|, run[k].returned);
    assert PeerInv(j, run[m].peers[j], hs[m], |run[m].peers|, run[m].returned);
  }

  /** Two logs, of any peers at any moments, that hold an entry of the same term at the same
      index are identical up to that index. */
  lemma LogMatching(run: seq<System>, k: int, i: int, m: int, j: int, x: int)
    requires IsRun(run) && At(run, k, i) && At(run, m, j)
    requires 0 <= x < |run[k].peers[i].log| && x < |run[m].peers[j].log|
    requires run[k].peers[i].log[x].term == run[m].peers[j].log[x].term
    ensures run[k].peers[i].log[..x + 1] == run[m].peers[j].log[..x + 1]
  {
    var hs := RunExplained(run);
    var z := if k <= m then m else k;
    var a, b := run[k].peers[i].log, run[m].peers[j].log;
    BackedInRun(run, hs, k, i, z);
    BackedInRun(run, hs, m, j, z);
    LogsMatch(hs[z].reigns, a, b, x);
  }

  lemma BackedInRun(run: seq<System>, hs: seq<History>, k: int, i: int, z: int)
    requires Explains(run, hs) && At(run, k, i) && k <= z < |run|
    ensures Backed(hs[z].reigns, run[k].peers[i].log)
  {
    var l := run[k].peers[i].log;
    assert Inv(run[k], hs[k]) && PeerInv(i, run[k].peers[i], hs[k], |run[k].peers|, run[k].returned);
    assert Extends(hs[k], hs[z]);
    forall x | 1 <= x < |l| ensures BackedAt(hs[z].reigns, l, x) {
      assert BackedAt(hs[k].reigns, l, x);
      var t := l[x].term;
      AgreeTrans(l, hs[k].reigns[t].log, hs[z].reigns[t].log, x + 1, |hs[k].reigns[t].log|);
    }
  }

  lemma CommittedInRun(run: seq<System>, hs: seq<History>, k: int, i: int, c: int, z: int)
    requires Explains(run, hs) && At(run, k, i) && k <= z < |run|
    requires 0 <= c <= run[k].peers[i].commit
    ensures Inv(run[z], hs[z]) && |run[z].peers| == |run[k].peers|
    ensures Committed(hs[z], |run[z].peers|, run[k].peers[i].log, c, run[k].peers[i].term)
    ensures run[k].peers[i].log[0] == ORIGIN
  {
    var s, n := run[k].peers[i], |run[k].peers|;
    assert Inv(run[k], hs[k]) && PeerInv(i, s, hs[k], n, run[k].returned);
    assert Inv(run[z], hs[z]) && Extends(hs[k], hs[z]);
    CommittedBelow(hs[k], n, s.log, s.commit, c, s.term);
    CommittedExtends(hs[k], hs[z], n, s.log, c, s.term);
  }

  /** State machine safety: whenever two peers, at any two moments, have commitIndex at or above x,
      their logs hold the same entries up to x. */
  lemma StateMachineSafety(run: seq<System>, k: int, i: int, m: int, j: int, x: int)
    requires IsRun(run) && At(run, k, i) && At(run, m, j)
    requires 0 <= x <= run[k].peers[i].commit && x <= run[m].peers[j].commit
    ensures x < |run[k].peers[i].log| && x < |run[m].peers[j].log|
    ensures run[k].peers[i].log[..x + 1] == run[m].peers[j].log[..x + 1]
  {
    var hs := RunExplained(run);
    var z := if k <= m then m else k;
    CommittedInRun(run, hs, k, i, x, z);
    CommittedInRun(run, hs, m, j, x, z);
    var s, t := run[k].peers[i], run[m].peers[j];
    CommittedAgree(hs[z], |run[z].peers|, s.log, x, s.term, t.log, x, t.term);
  }

  /** Leader completeness: what is committed at a peer in some term is in the log of every leader
      of a later term, at every moment of its leadership, before or after. */
  lemma LeadersAreComplete(run: seq<System>, k: int, i: int, m: int, j: int, x: int)
    requires IsRun(run) && At(run, k, i) && At(run, m, j)
    requires 0 <= x <= run[k].peers[i].commit
    requires run[m].peers[j].role == Leader && run[k].peers[i].term < run[m].peers[j].term
    ensures x < |run[k].peers[i].log| && x < |run[m].peers[j].log|
    ensures run[k].peers[i].log[..x + 1] == run[m].peers[j].log[..x + 1]
  {
    var hs := RunExplained(run);
    var z := if k <= m then m else k;
    var s, l, n := run[k].peers[i], run[m].peers[j], |run[z].peers|;
    CommittedInRun(run, hs, k, i, x, z);
    assert Inv(run[m], hs[m]) && Extends(hs[m], hs[z]);
    assert PeerInv(j, l, hs[m], |run[m].peers|, run[m].returned);
    assert Grown(hs[m].reigns[l.term], hs[z].reigns[l.term], l.term);
    if x > 0 {
      var t, y :| ChosenPast(hs[z], n, s.log, x, s.term, t, y);
      LeaderCompleteness(hs[z], n, t, y, l.term);
      HeldByLeader(hs[z], l.log, t, y, l.term, x, s.log);
    }
  }

  lemma HeldByLeader(h: History, l: seq<Entry>, t: int, y: int, u: int, x: int, a: seq<Entry>)
    requires OwnIndex(h, t, y) && t < u && u in h.reigns && Holds(h, h.reigns[u].log, t, y)
    requires Agree(l, h.reigns[u].log, |l|) && forall k | |l| <= k < |h.reigns[u].log| :: h.reigns[u].log[k].term == u
    requires 0 <= x <= y && Agree(a, h.reigns[t].log, x + 1)
    ensures Agree(a, l, x + 1)
  {
    assert h.reigns[u].log[y].term == t;
    assert y < |l|;
  }

  /** No two messages ever handed up for the same index differ, at any peers in any incarnations. */
  lemma ApplySafety(run: seq<System>, k: int, m: int, a: Handed, b: Handed)
    requires IsRun(run) && 0 <= k < |run| && 0 <= m < |run|
    requires a in run[k].handed && b in run[m].handed && a.index == b.index
    ensures a.entry == b.entry
  {
    var hs := RunExplained(run);
    var z := if k <= m then m else k;
    var n := |run[z].peers|;
    assert Inv(run[z], hs[z]);
    HandedInRun(run, hs, k, a, z);
    HandedInRun(run, hs, m, b, z);
    var t, i :| Chosen(hs[z], n, t, i) && a.index <= i && hs[z].reigns[t].log[a.index] == a.entry;
    var u, j :| Chosen(hs[z], n, u, j) && b.index <= j && hs[z].reigns[u].log[b.index] == b.entry;
    ChosenAgree(hs[z], n, t, i, u, j, a.index);
  }

  lemma HandedInRun(run: seq<System>, hs: seq<History>, k: int, a: Handed, z: int)
    requires Explains(run, hs) && 0 <= k <= z < |run| && a in run[k].handed
    ensures HandedOk(a, hs[z], |run[z].peers|)
  {
    var n := |run[k].peers|;
    assert n == |run[z].peers|;
    assert Inv(run[k], hs[k]) && HandedOk(a, hs[k], n) && Extends(hs[k], hs[z]);
    var t, i :| Chosen(hs[k], n, t, i) && a.index <= i && hs[k].reigns[t].log[a.index] == a.entry;
    ChosenExtends(hs[k], hs[z], n, t, i);
  }

  /** No handler ever indexes outside its log or its index tables: the shape every step relies on
      holds in every reachable state, so no run is cut short by it. */
  lemma PeersStayWellFormed(run: seq<System>, k: int)
    requires IsRun(run) && 0 <= k < |run|
    ensures Shape(run[k])
    ensures forall i | 0 <= i < |run[k].peers| :: run[k].peers[i].commit < |run[k].peers[i].log|
  {
    var hs := RunExplained(run);
    assert Inv(run[k], hs[k]);
    forall i | 0 <= i < |run[k].peers|
      ensures WellFormed(run[k].peers[i], |run[k].peers|) && run[k].peers[i].commit < |run[k].peers[i].log|
    {
      assert PeerInv(i, run[k].peers[i], hs[k], |run[k].peers|, run[k].returned);
    }
  }

  /** Every append message reaches at least to its leaderCommit, so wherever it is accepted,
      clamping by the follower's last index commits exactly what the Raft paper's rule commits. */
  lemma CommitShortcut(run: seq<System>, k: int, q: AppendReq)
    requires IsRun(run) && 0 <= k < |run| && q in run[k].appendReqs
    ensures q.args.leaderCommit <= q.args.prevLogIndex + |q.args.entries|
    ensures IsPeer(run[k], q.to)
    ensures var a, s := q.args, run[k].peers[q.to];
      Accepts(s, a) && a.leaderCommit > s.commit ==>
        OnAppend(s, a).commit == Min(a.leaderCommit, a.prevLogIndex + |a.entries|)
  {
    var hs := RunExplained(run);
    var h, n, s := hs[k], |run[k].peers|, run[k].peers;
    assert Inv(run[k], h) && AppendReqOk(q, h, n);
    assert PeerInv(q.to, s[q.to], h, n, run[k].returned);
    if Accepts(s[q.to], q.args) {
      ClampIsExact(h, n, s[q.to], q);
    }
  }

  /** A reply answers a message of its own sender's log, so its match index fits the log. */
  lemma RepliesFit(run: seq<System>, k: int, r: AppendRep)
    requires IsRun(run) && 0 <= k < |run| && r in run[k].appendReps
    ensures IsPeer(run[k], r.args.leader) && IsPeer(run[k], r.from) && r.from != r.args.leader
    ensures var s := run[k].peers[r.args.leader];
      r.args.term <= s.term && (r.args.term == s.term ==> r.args.prevLogIndex + |r.args.entries| < |s.log|)
  {
    var hs := RunExplained(run);
    var h, n, i := hs[k], |run[k].peers|, r.args.leader;
    assert Inv(run[k], h) && AppendRepOk(r, run[k].appendReqs, h);
    assert AppendReqOk(AppendReq(r.from, r.args), h, n) && ReignOk(h, n, r.args.term);
    assert PeerInv(i, run[k].peers[i], h, n, run[k].returned);
  }

  /** What a peer has once committed stays in its own log for ever, through restarts too. */
  lemma {:induction false} CommittedIsDurable(run: seq<System>, k: int, i: int, m: int)
    requires IsRun(run) && At(run, k, i) && k <= m < |run|
    ensures At(run, m, i)
    ensures var c := run[k].peers[i].commit;
      && 0 <= c < |run[k].peers[i].log| && c < |run[m].peers[i].log|
      && run[k].peers[i].log[..c + 1] == run[m].peers[i].log[..c + 1]
  {
    var hs := RunExplained(run);
    KeptSince(run, hs, k, i, m);
  }

  lemma {:induction false} KeptSince(run: seq<System>, hs: seq<History>, k: int, i: int, m: int)
    requires IsRun(run) && Explains(run, hs) && At(run, k, i) && k <= m < |run|
    ensures At(run, m, i)
    ensures var c := run[k].peers[i].commit;
      && Committed(hs[m], |run[m].peers|, run[m].peers[i].log, c, run[m].peers[i].term)
      && Agree(run[k].peers[i].log, run[m].peers[i].log, c + 1)
    decreases m
  {
    if k == m {
      assert Inv(run[k], hs[k]) && PeerInv(i, run[k].peers[i], hs[k], |run[k].peers|, run[k].returned);
    } else {
      KeptSince(run, hs, k, i, m - 1);
      var c := run[k].peers[i].commit;
      KeptInRun(run, hs, m, i, c);
      AgreeTrans(run[k].peers[i].log, run[m - 1].peers[i].log, run[m].peers[i].log, c + 1, c + 1);
    }
  }

  lemma KeptInRun(run: seq<System>, hs: seq<History>, m: int, i: int, c: int)
    requires IsRun(run) && Explains(run, hs) && 1 <= m < |run| && At(run, m - 1, i)
    requires Committed(hs[m - 1], |run[m - 1].peers|, run[m - 1].peers[i].log, c, run[m - 1].peers[i].term)
    ensures At(run, m, i) && Agree(run[m - 1].peers[i].log, run[m].peers[i].log, c + 1)
    ensures Committed(hs[m], |run[m].peers|, run[m].peers[i].log, c, run[m].peers[i].term)
  {
    assert Inv(run[m - 1], hs[m - 1]) && Extends(hs[m - 1], hs[m]) && Next(run[m - 1], run[m]);
    KeptOnce(run[m - 1], run[m], hs[m - 1], hs[m], i, c);
  }

  /** Unless a peer accepts an AppendEntries message, its log only grows. */
  lemma LogOnlyGrows(sys: System, e: Event, i: int)
    requires Shape(sys) && Enabled(sys, e) && IsPeer(sys, i)
    requires !(e.HandleAppend? && i == e.req.to && Accepts(sys.peers[i], e.req.args))
    ensures var s, s' := sys.peers[i], Apply(sys, e).peers[i];
      Agree(s.log, s'.log, |s.log|) && s.term <= s'.term
  {
  }

  lemma KeptOnce(sys: System, sys': System, h: History, h': History, i: int, c: int)
    requires Inv(sys, h) && Next(sys, sys') && Extends(h, h') && IsPeer(sys, i)
    requires Committed(h, |sys.peers|, sys.peers[i].log, c, sys.peers[i].term)
    ensures IsPeer(sys', i) && |sys'.peers| == |sys.peers| && Agree(sys.peers[i].log, sys'.peers[i].log, c + 1)
    ensures Committed(h', |sys.peers|, sys'.peers[i].log, c, sys'.peers[i].term)
  {
    var e :| Enabled(sys, e) && sys' == Apply(sys, e);
    KeptByStep(sys, h, e, i, c);
    CommittedExtends(h, h', |sys.peers|, sys'.peers[i].log, c, sys'.peers[i].term);
  }

  lemma KeptByStep(sys: System, h: History, e: Event, i: int, c: int)
    requires Inv(sys, h) && Shape(sys) && Enabled(sys, e) && IsPeer(sys, i)
    requires Committed(h, |sys.peers|, sys.peers[i].log, c, sys.peers[i].term)
    ensures var s, s' := sys.peers[i], Apply(sys, e).peers[i];
      Committed(h, |sys.peers|, s'.log, c, s'.term) && Agree(s.log, s'.log, c + 1)
  {
    if e.HandleAppend? && i == e.req.to && Accepts(sys.peers[i], e.req.args) {
      assert PeerInv(i, sys.peers[i], h, |sys.peers|, sys.returned) && AppendReqOk(e.req, h, |sys.peers|);
      KeptByMerge(h, |sys.peers|, sys.peers[i], e.req, c);
    } else {
      LogOnlyGrows(sys, e, i);
      KeptByGrowth(h, |sys.peers|, i, sys.peers[i], Apply(sys, e).peers[i], c);
    }
  }

  lemma KeptByMerge(h: History, n: nat, s: Peer, q: AppendReq, c: int)
    requires HistoryInv(h, n) && Backed(h.reigns, s.log) && AppendReqOk(q, h, n) && Accepts(s, q.args)
    requires Committed(h, n, s.log, c, s.term)
    ensures var s' := OnAppend(s, q.args); Committed(h, n, s'.log, c, s'.term) && Agree(s.log, s'.log, c + 1)
  {
    MergeCommitted(h, n, s, q.args, c);
  }

  lemma KeptByGrowth(h: History, n: nat, i: int, s: Peer, s': Peer, c: int)
    requires Committed(h, n, s.log, c, s.term) && Agree(s.log, s'.log, |s.log|) && s.term <= s'.term
    ensures Committed(h, n, s'.log, c, s'.term) && Agree(s.log, s'.log, c + 1)
  {
    GrowsRefl(h, i, s.term);
    CommittedGrows(h, h, i, s.term, n, s.log, s'.log, c, s.term, s'.term);
  }

  /** No leader is ever sent a message of its own term. */
  lemma RequestsFit(run: seq<System>, k: int, q: AppendReq)
    requires IsRun(run) && 0 <= k < |run| && q in run[k].appendReqs
    ensures IsPeer(run[k], q.to)
    ensures q.args.term == run[k].peers[q.to].term ==> run[k].peers[q.to].role != Leader
  {
    var hs := RunExplained(run);
    assert Inv(run[k], hs[k]) && AppendReqOk(q, hs[k], |run[k].peers|);
    assert PeerInv(q.to, run[k].peers[q.to], hs[k], |run[k].peers|, run[k].returned);
  }

  // ---- compaction ----

  /** The same peer had it never compacted its log. */
  function Uncompacted(s: Peer): Peer { s.(base := 0) }

  lemma {:induction false} ScanIgnoresBase(s: Peer, me: int, N: int)
    requires N < |s.log| && 0 <= s.commit
    ensures ScanCommit(Uncompacted(s), me, N) == ScanCommit(s, me, N)
    decreases N - s.commit
  {
    if N > s.commit {
      assert Holders(Uncompacted(s), me, N) == Holders(s, me, N);
      ScanIgnoresBase(s, me, N - 1);
    }
  }

  /** Compaction is invisible: votes, merges, commits and successful replies come out the same as on
      the whole log, for every message that does not reach below the snapshot point. The vote handlers
      never look at the snapshot point here; that the cut-off log and its index arithmetic give what
      these handlers say is proved in RaftPeer. */
  lemma CompactionIsInvisible(s: Peer, n: nat, me: int, p: int, v: VoteArgs, w: VoteReply, a: AppendArgs,
                              r: AppendReply)
    requires WellFormed(s, n) && 0 <= p < n
    ensures VoteReplyTo(Uncompacted(s), v) == VoteReplyTo(s, v)
    ensures OnRequestVote(Uncompacted(s), v) == Uncompacted(OnRequestVote(s, v))
    ensures OnVoteReply(Uncompacted(s), n, v, w) == Uncompacted(OnVoteReply(s, n, v, w))
    ensures s.base <= a.prevLogIndex ==> AppendReplyTo(Uncompacted(s), a) == AppendReplyTo(s, a)
    ensures s.base <= a.prevLogIndex ==> OnAppend(Uncompacted(s), a) == Uncompacted(OnAppend(s, a))
    ensures r.success ==> OnAppendReply(Uncompacted(s), me, p, a, r) == Uncompacted(OnAppendReply(s, me, p, a, r))
  {
    CompactedMerge(s, a);
    CompactedReply(s, n, me, p, a, r);
  }

  lemma CompactedMerge(s: Peer, a: AppendArgs)
    requires 0 <= s.base <= a.prevLogIndex || s.base > a.prevLogIndex
    ensures s.base <= a.prevLogIndex ==> AppendReplyTo(Uncompacted(s), a) == AppendReplyTo(s, a)
    ensures s.base <= a.prevLogIndex ==> OnAppend(Uncompacted(s), a) == Uncompacted(OnAppend(s, a))
  {
  }

  lemma CompactedReply(s: Peer, n: nat, me: int, p: int, a: AppendArgs, r: AppendReply)
    requires WellFormed(s, n) && 0 <= p < n
    ensures r.success ==> OnAppendReply(Uncompacted(s), me, p, a, r) == Uncompacted(OnAppendReply(s, me, p, a, r))
  {
    var k := a.prevLogIndex + |a.entries|;
    ScanIgnoresBase(s.(matchIndex := s.matchIndex[p := k], nextIndex := s.nextIndex[p := k + 1]), me, |s.log| - 1);
  }
}
