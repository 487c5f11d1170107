/**
  What Raft does, beside what it never does: when a vote is given, when an election is won, when entries
  are taken and committed, what a delivered message brings about, and where entries come from.
 */
module RaftProgress {
  import opened RaftSpec
  import opened RaftSystem
  import opened RaftHistory
  import opened RaftInvariant
  import opened RaftReplication
  import opened RaftSafety
  import opened Sets

  // ---- elections ----

  /** A vote is given exactly to a candidate whose term is not behind, if the vote of that term has not
      gone to another one, and if its log is not behind: a later last term, or the same and no shorter. */
  lemma VoteIsGiven(s: Peer, a: VoteArgs)
    requires |s.log| > 0
    ensures VoteReplyTo(s, a).granted <==>
      && (a.term > s.term || (a.term == s.term && (s.votedFor == NOBODY || s.votedFor == a.candidate)))
      && (a.lastLogTerm > LastTerm(s.log) || (a.lastLogTerm == LastTerm(s.log) && a.lastLogIndex >= |s.log|))
    ensures VoteReplyTo(s, a).granted ==>
      var s' := OnRequestVote(s, a);
      s'.votedFor == a.candidate && s'.term == a.term == VoteReplyTo(s, a).term && s'.role == Follower
    ensures OnRequestVote(s, a).log == s.log && OnRequestVote(s, a).commit == s.commit
    ensures OnRequestVote(s, a).term == Max(s.term, a.term)
  {
  }

  /** In every run: a peer asked for its vote by a candidate of a later term that has a log like its own
      gives it, and the reply is on its way. */
  lemma LikeLogsAgree(run: seq<System>, k: int, i: int, a: VoteArgs)
    requires IsRun(run) && At(run, k, i) && a in run[k].voteReqs && a.candidate != i && Shape(run[k])
    requires a.term > run[k].peers[i].term
    requires a.lastLogIndex == |run[k].peers[i].log| && a.lastLogTerm == LastTerm(run[k].peers[i].log)
    ensures var sys' := Apply(run[k], HandleVote(i, a));
      sys'.peers[i].votedFor == a.candidate && VoteRep(a, i, VoteReply(a.term, true)) in sys'.voteReps
  {
    VoteIsGiven(run[k].peers[i], a);
  }

  /** The reply that makes a majority makes the candidate the leader, who knows of nobody's log yet. */
  lemma MajorityWins(s: Peer, n: nat, a: VoteArgs, r: VoteReply)
    requires |s.nextIndex| == |s.matchIndex| == n && r.term != 0 && r.granted && a.term == s.term
    requires s.role == Candidate && s.voteCount <= n / 2
    ensures var s' := OnVoteReply(s, n, a, r);
      && s'.voteCount == s.voteCount + 1 && s'.log == s.log && s'.term == s.term
      && (s'.role == Leader <==> 2 * s'.voteCount > n)
      && (s'.role == Leader ==> forall p | 0 <= p < n :: s'.nextIndex[p] == |s.log| && s'.matchIndex[p] == 0)
  {
  }

  /** A refusal in its own term makes a peer a follower, whatever it was; a lost reply or one for another
      term changes nothing. */
  lemma RefusalDemotes(s: Peer, n: nat, a: VoteArgs, r: VoteReply)
    requires !r.granted
    ensures OnVoteReply(s, n, a, r) == if r.term != 0 && a.term == s.term then s.(role := Follower) else s
  {
  }

  // ---- replication ----

  /** Entries are taken exactly from a leader whose term is not behind, if the entry before them is there,
      not behind the snapshot point, and of the same term. Then they are all in the log, what stood before
      them still is, and what the leader has committed of them is committed. */
  lemma EntriesAreTaken(s: Peer, a: AppendArgs)
    requires 0 <= s.base
    ensures AppendReplyTo(s, a).success <==>
      a.term >= s.term && s.base <= a.prevLogIndex < |s.log| && s.log[a.prevLogIndex].term == a.prevLogTerm
    ensures AppendReplyTo(s, a).success ==>
      var s', last := OnAppend(s, a), a.prevLogIndex + |a.entries|;
      && s'.term == a.term && last < |s'.log| && s'.log[..a.prevLogIndex + 1] == s.log[..a.prevLogIndex + 1]
      && (forall j | 0 <= j < |a.entries| :: s'.log[a.prevLogIndex + 1 + j].term == a.entries[j].term)
      && Min(a.leaderCommit, last) <= s'.commit
    ensures !AppendReplyTo(s, a).success ==> OnAppend(s, a).log == s.log && OnAppend(s, a).commit == s.commit
    ensures OnAppend(s, a).term == Max(s.term, a.term)
    ensures a.term > s.term ==> OnAppend(s, a).votedFor == NOBODY && OnAppend(s, a).role == Follower
  {
    if Accepts(s, a) {
      var m := MatchLen(s.log, a.prevLogIndex + 1, a.entries);
      var log := Merge(s.log, a.prevLogIndex, a.entries);
      assert log[..a.prevLogIndex + 1] == s.log[..a.prevLogIndex + 1];
      forall j | 0 <= j < |a.entries| ensures log[a.prevLogIndex + 1 + j].term == a.entries[j].term {
        if m < |a.entries| && j >= m { assert log[a.prevLogIndex + 1 + j] == a.entries[j]; }
      }
    }
  }

  /** A message that a leader sends in state k and that a peer takes in a later state brings that peer the
      whole log of the leader in state k, and all that it had committed. */
  lemma DeliveryReplicates(run: seq<System>, k: int, m: int, i: int, j: int)
    requires IsRun(run) && 0 <= k <= m < |run| && Shape(run[k]) && Enabled(run[k], SendAppend(i, j)) && Shape(run[m])
    requires var q := AppendReq(j, AppendArgsFor(run[k].peers[i], i, j));
      q in run[m].appendReqs && IsPeer(run[m], j) && AppendReplyTo(run[m].peers[j], q.args).success
    ensures var q, L := AppendReq(j, AppendArgsFor(run[k].peers[i], i, j)), run[k].peers[i].log;
      var s' := Apply(run[m], HandleAppend(q)).peers[j];
      |L| <= |s'.log| && s'.log[..|L|] == L && run[k].peers[i].commit <= s'.commit
  {
    var hs := RunExplained(run);
    var q := AppendReq(j, AppendArgsFor(run[k].peers[i], i, j));
    assert Inv(run[k], hs[k]) && Inv(run[m], hs[m]) && Extends(hs[k], hs[m]);
    SentLog(run[k], hs[k], hs[m], i, j);
    Taken(run[m], hs[m], q, run[k].peers[i].log);
  }

  lemma SentLog(sys: System, h: History, h': History, i: int, j: int)
    requires Inv(sys, h) && Extends(h, h') && Shape(sys) && Enabled(sys, SendAppend(i, j))
    ensures var a, L := AppendArgsFor(sys.peers[i], i, j), sys.peers[i].log;
      && a.term in h'.reigns && Agree(L, h'.reigns[a.term].log, |L|)
      && |L| == a.prevLogIndex + |a.entries| + 1 && a.leaderCommit == sys.peers[i].commit
  {
    var s := sys.peers[i];
    assert PeerInv(i, s, h, |sys.peers|, sys.returned);
    assert Grown(h.reigns[s.term], h'.reigns[s.term], s.term);
  }

  lemma Taken(sys: System, h: History, q: AppendReq, L: seq<Entry>)
    requires Inv(sys, h) && Shape(sys) && q in sys.appendReqs && IsPeer(sys, q.to) && Accepts(sys.peers[q.to], q.args)
    requires q.args.term in h.reigns && Agree(L, h.reigns[q.args.term].log, |L|)
    requires |L| == q.args.prevLogIndex + |q.args.entries| + 1
    ensures var s' := Apply(sys, HandleAppend(q)).peers[q.to];
      |L| <= |s'.log| && s'.log[..|L|] == L && q.args.leaderCommit <= s'.commit
  {
    var n := |sys.peers|;
    assert PeerInv(q.to, sys.peers[q.to], h, n, sys.returned) && AppendReqOk(q, h, n);
    TakenFrom(h, n, sys.peers[q.to], q, L);
  }

  lemma TakenFrom(h: History, n: nat, s: Peer, q: AppendReq, L: seq<Entry>)
    requires HistoryInv(h, n) && Backed(h.reigns, s.log) && AppendReqOk(q, h, n) && Accepts(s, q.args)
    requires Agree(L, h.reigns[q.args.term].log, |L|) && |L| == q.args.prevLogIndex + |q.args.entries| + 1
    ensures var s' := OnAppend(s, q.args); |L| <= |s'.log| && s'.log[..|L|] == L && q.args.leaderCommit <= s'.commit
  {
    ClampIsExact(h, n, s, q);
  }

  /** A refusal makes the leader step back for that peer, as long as there is anything to step back over. */
  lemma RefusalStepsBack(s: Peer, n: nat, me: int, p: int, a: AppendArgs, r: AppendReply)
    requires WellFormed(s, n) && 0 <= p < n && s.role == Leader
    requires !r.success && r.term == s.term && a.term == s.term && s.base < s.nextIndex[p]
    ensures var s' := OnAppendReply(s, me, p, a, r);
      s.base <= s'.nextIndex[p] < s.nextIndex[p] && s' == s.(nextIndex := s.nextIndex[p := s'.nextIndex[p]])
  {
  }

  /** A refusal that tells of a later term makes the leader a follower of that term. */
  lemma LaterTermDemotes(s: Peer, n: nat, me: int, p: int, a: AppendArgs, r: AppendReply)
    requires WellFormed(s, n) && 0 <= p < n && !r.success && r.term > s.term && a.term >= s.term
    ensures var s' := OnAppendReply(s, me, p, a, r);
      s'.role == Follower && s'.term == r.term && s'.votedFor == NOBODY && s'.log == s.log && s'.commit == s.commit
  {
  }

  /** A success is noted, and whatever a majority is then known to have of an entry of the leader's own
      term is committed. */
  lemma MajorityCommits(s: Peer, n: nat, me: int, p: int, a: AppendArgs, r: AppendReply, N: int, others: set<int>)
    requires WellFormed(s, n) && 0 <= p < n && 0 <= me < n && r.success && a.term >= s.term
    requires a.prevLogIndex + |a.entries| < |s.log|
    requires 0 <= N < |s.log| && s.log[N].term == s.term && 2 * (1 + |others|) > n
    requires forall x | x in others ::
      0 <= x < n && x != me && N <= if x == p then a.prevLogIndex + |a.entries| else s.matchIndex[x]
    ensures var s' := OnAppendReply(s, me, p, a, r);
      && s'.matchIndex == s.matchIndex[p := a.prevLogIndex + |a.entries|]
      && s'.nextIndex == s.nextIndex[p := a.prevLogIndex + |a.entries| + 1]
      && s'.commit >= N && s'.commit >= s.commit && s'.log == s.log
  {
    var k := a.prevLogIndex + |a.entries|;
    var t := s.(matchIndex := s.matchIndex[p := k], nextIndex := s.nextIndex[p := k + 1]);
    assert others <= Holders(t, me, N);
    SubsetSize(others, Holders(t, me, N));
    assert HasMajority(t, me, N);
  }

  /** A snapshot of what is committed, and not behind an earlier one, moves the snapshot point there; the
      log as a whole stays, and nothing that the snapshot holds is handed up again. */
  lemma SnapshotCuts(s: Peer, index: int)
    requires s.commit < |s.log|
    ensures var s' := OnSnapshot(s, index);
      && s'.log == s.log && s'.commit == s.commit && s'.term == s.term && s'.votedFor == s.votedFor
      && s'.base == (if s.base < index <= s.commit then index else s.base)
      && s'.applied == if s.base < index <= s.commit then Max(s.applied, index) else s.applied
  {
  }

  /** All that is committed, above what was handed up before and still in the log, is handed up. */
  lemma CommittedIsHandedUp(run: seq<System>, k: int, i: int, upTo: int, x: int)
    requires IsRun(run) && At(run, k, i) && Shape(run[k]) && Enabled(run[k], HandUp(i, upTo))
    requires run[k].peers[i].applied < x <= run[k].peers[i].commit && run[k].peers[i].base < x
    ensures x < |run[k].peers[i].log|
    ensures Handed(i, x, run[k].peers[i].log[x]) in Apply(run[k], HandUp(i, upTo)).handed
  {
    PeersStayWellFormed(run, k);
  }

  // ---- where entries come from ----

  /** In state k a leader of the entry's term was given the entry's command. */
  ghost predicate StartedAt(run: seq<System>, k: int, i: int, e: Entry) {
    && 0 <= k < |run| - 1 && Shape(run[k]) && IsPeer(run[k], i)
    && run[k].peers[i].role == Leader && run[k].peers[i].term == e.term
    && run[k + 1] == Apply(run[k], StartCommand(i, e.command))
  }

  ghost predicate Started(run: seq<System>, m: int, e: Entry) { exists k, i | 0 <= k < m :: StartedAt(run, k, i, e) }

  ghost predicate LogStarted(run: seq<System>, m: int, log: seq<Entry>) {
    forall x {:trigger log[x]} | 1 <= x < |log| :: Started(run, m, log[x])
  }

  ghost predicate AllStarted(run: seq<System>, m: int, es: seq<Entry>) {
    forall x {:trigger es[x]} | 0 <= x < |es| :: Started(run, m, es[x])
  }

  ghost predicate StartedBefore(run: seq<System>, m: int)
    requires 0 <= m < |run|
  {
    && (forall i {:trigger run[m].peers[i]} | 0 <= i < |run[m].peers| :: LogStarted(run, m, run[m].peers[i].log))
    && (forall q | q in run[m].appendReqs :: AllStarted(run, m, q.args.entries))
    && (forall a | a in run[m].handed :: Started(run, m, a.entry))
  }

  lemma StaysStarted(run: seq<System>, m: int, e: Entry)
    requires Started(run, m, e)
    ensures Started(run, m + 1, e)
  {
    var k, i :| 0 <= k < m && StartedAt(run, k, i, e);
    assert StartedAt(run, k, i, e);
  }

  /** An entry of a log was there before, or was in the message, or is new with a command. */
  lemma EntrySource(sys: System, e: Event, i: int, x: int)
    requires Shape(sys) && Enabled(sys, e) && IsPeer(sys, i) && 1 <= x < |Apply(sys, e).peers[i].log|
    ensures var s, y := sys.peers[i], Apply(sys, e).peers[i].log[x];
      || (x < |s.log| && y == s.log[x])
      || (e.HandleAppend? && y in e.req.args.entries)
      || (e.StartCommand? && e.i == i && s.role == Leader && y == Entry(s.term, e.command))
  {
    var s, s' := sys.peers[i], Apply(sys, e).peers[i];
    if e.HandleAppend? && e.req.to == i && Accepts(s, e.req.args) {
      MergeSource(s.log, e.req.args.prevLogIndex, e.req.args.entries, x);
    }
  }

  lemma MergeSource(log: seq<Entry>, prev: nat, entries: seq<Entry>, x: nat)
    requires prev < |log| && x < |Merge(log, prev, entries)|
    ensures var y := Merge(log, prev, entries)[x]; (x < |log| && y == log[x]) || y in entries
  {
    var m := MatchLen(log, prev + 1, entries);
    if m < |entries| { SpliceSource(log, prev + 1 + m, entries, m, x); }
  }

  lemma SpliceSource(log: seq<Entry>, at: nat, entries: seq<Entry>, m: nat, x: nat)
    requires at <= |log| && m <= |entries| && x < at + |entries| - m
    ensures var y := (log[..at] + entries[m..])[x]; (x < |log| && y == log[x]) || y in entries
  {
    if x >= at {
      assert (log[..at] + entries[m..])[x] == entries[m + x - at];
    }
  }

  lemma LogStep(run: seq<System>, m: int, e: Event, i: int)
    requires 0 <= m < |run| - 1 && Shape(run[m]) && Enabled(run[m], e) && run[m + 1] == Apply(run[m], e)
    requires StartedBefore(run, m) && IsPeer(run[m], i)
    ensures LogStarted(run, m + 1, run[m + 1].peers[i].log)
  {
    var s, log := run[m].peers[i], run[m + 1].peers[i].log;
    forall x | 1 <= x < |log| ensures Started(run, m + 1, log[x]) {
      EntrySource(run[m], e, i, x);
      if x < |s.log| && log[x] == s.log[x] {
        assert LogStarted(run, m, s.log) && Started(run, m, s.log[x]);
        StaysStarted(run, m, log[x]);
      } else if e.HandleAppend? && log[x] in e.req.args.entries {
        assert AllStarted(run, m, e.req.args.entries);
        StaysStarted(run, m, log[x]);
      } else {
        assert StartedAt(run, m, i, log[x]);
      }
    }
  }

  lemma MessageStep(run: seq<System>, m: int, e: Event, q: AppendReq)
    requires 0 <= m < |run| - 1 && Shape(run[m]) && Enabled(run[m], e) && run[m + 1] == Apply(run[m], e)
    requires StartedBefore(run, m) && q in run[m + 1].appendReqs
    ensures AllStarted(run, m + 1, q.args.entries)
  {
    var es := q.args.entries;
    forall x | 0 <= x < |es| ensures Started(run, m + 1, es[x]) {
      if q in run[m].appendReqs {
        assert AllStarted(run, m, es);
      } else {
        var s := run[m].peers[e.i];
        assert LogStarted(run, m, s.log) && es[x] == s.log[PrevFor(s, e.to) + 1 + x];
      }
      StaysStarted(run, m, es[x]);
    }
  }

  lemma HandedStep(run: seq<System>, m: int, e: Event, a: Handed)
    requires 0 <= m < |run| - 1 && Shape(run[m]) && Enabled(run[m], e) && run[m + 1] == Apply(run[m], e)
    requires StartedBefore(run, m) && a in run[m + 1].handed
    ensures Started(run, m + 1, a.entry)
  {
    if a !in run[m].handed {
      var s := run[m].peers[e.i];
      assert LogStarted(run, m, s.log) && a.entry == s.log[a.index];
    }
    StaysStarted(run, m, a.entry);
  }

  lemma {:induction false} RunStarted(run: seq<System>, m: int)
    requires IsRun(run) && 0 <= m < |run|
    ensures StartedBefore(run, m)
    decreases m
  {
    if m > 0 {
      RunStarted(run, m - 1);
      assert Next(run[m - 1], run[m]);
      var e :| Enabled(run[m - 1], e) && run[m] == Apply(run[m - 1], e);
      StartedStep(run, m - 1, e);
    } else {
      NothingStarted(run);
    }
  }

  lemma NothingStarted(run: seq<System>)
    requires run != [] && Init(run[0])
    ensures StartedBefore(run, 0)
  {
    forall i | 0 <= i < |run[0].peers| ensures LogStarted(run, 0, run[0].peers[i].log) {
      assert run[0].peers[i] == Fresh(|run[0].peers|);
    }
  }

  lemma StartedStep(run: seq<System>, m: int, e: Event)
    requires 0 <= m < |run| - 1 && Shape(run[m]) && Enabled(run[m], e) && run[m + 1] == Apply(run[m], e)
    requires StartedBefore(run, m)
    ensures StartedBefore(run, m + 1)
  {
    var next := m + 1;
    forall i | 0 <= i < |run[next].peers| ensures LogStarted(run, next, run[next].peers[i].log) {
      LogStep(run, m, e, i);
    }
    forall q | q in run[next].appendReqs ensures AllStarted(run, next, q.args.entries) {
      MessageStep(run, m, e, q);
    }
    forall a | a in run[next].handed ensures Started(run, next, a.entry) {
      HandedStep(run, m, e, a);
    }
  }

  /** Every command that is ever handed up was given, earlier in the run, to a leader of the term that its
      entry carries. */
  lemma HandedWasStarted(run: seq<System>, m: int, a: Handed)
    requires IsRun(run) && 0 <= m < |run| && a in run[m].handed
    ensures exists k, i | 0 <= k < m :: StartedAt(run, k, i, a.entry)
  {
    RunStarted(run, m);
    assert Started(run, m, a.entry);
  }
}
