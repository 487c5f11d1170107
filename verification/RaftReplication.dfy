/** The events that move entries, commit, compact and restart keep the invariant. */
module RaftReplication {
  import opened RaftSpec
  import opened RaftSystem
  import opened RaftHistory
  import opened RaftInvariant
  import opened RaftSteps
  import opened Sets

  // ---- AppendEntries ----

  lemma AckGrows(h: History, n: nat, i: int, s: Peer, t: int, k: int, h': History)
    requires HistoryInv(h, n) && PeerAcks(i, s, h) && 0 <= i < n
    requires forall u | (u, i) in h.votes :: u <= s.term
    requires s.term <= t && t in h.reigns && h.reigns[t].winner != i && 0 <= k < |h.reigns[t].log|
    requires h' == WithAck(h, i, t, k)
    ensures Grows(h, h', i, s.term) && HistoryInv(h', n)
  {
    assert (i, t) in h.acks ==> AckOk(h, n, i, t);
    assert Grows(h, h', i, s.term);
    assert AckOk(h', n, i, t);
    HistoryStep(h, h', n, i, s.term);
  }

  lemma ReignBacked(h: History, n: nat, t: int)
    requires HistoryInv(h, n) && t in h.reigns
    ensures Backed(h.reigns, h.reigns[t].log)
  {
    assert ReignOk(h, n, t);
  }

  /** After the merge, everything the peer ever matched is still there or was dropped by a leader. */
  lemma MergeCovers(h: History, n: nat, i: int, s: Peer, a: AppendArgs, h': History)
    requires HistoryInv(h, n) && PeerAcks(i, s, h) && Backed(h.reigns, s.log)
    requires a.term in h.reigns && Accepts(s, a)
    requires Stretch(h.reigns[a.term].log, a.prevLogIndex, a.entries)
    requires a.prevLogTerm == h.reigns[a.term].log[a.prevLogIndex].term
    requires h' == WithAck(h, i, a.term, a.prevLogIndex + |a.entries|)
    ensures Covers(h', i, Merge(s.log, a.prevLogIndex, a.entries), a.term + 1, a.term)
  {
    var L, T := h.reigns[a.term].log, a.term;
    var m := Merge(s.log, a.prevLogIndex, a.entries);
    ReignBacked(h, n, T);
    MergeFollows(h.reigns, s.log, L, a.prevLogIndex, a.entries);
    forall t, j | t < T + 1 && AckedAt(h', i, t, j)
      ensures Holds(h', m, t, j) || Dropped(h', t, j, T)
    {
      var X := h.reigns[t].log;
      if !(t == T && j <= a.prevLogIndex + |a.entries|) {
        assert AckedAt(h, i, t, j);
        if Holds(h, s.log, t, j) {
          if Agree(L, X, j + 1) {
            MergeKeeps(h.reigns, s.log, L, a.prevLogIndex, a.entries, X, j + 1);
          } else {
            assert !Holds(h', h'.reigns[T].log, t, j);
          }
        } else {
          var u :| t < u <= s.term && u in h.reigns && !Holds(h, h.reigns[u].log, t, j);
          assert !Holds(h', h'.reigns[u].log, t, j);
        }
      }
    }
  }

  /** The merge keeps every committed prefix. */
  lemma MergeCommitted(h: History, n: nat, s: Peer, a: AppendArgs, c: int)
    requires HistoryInv(h, n) && Backed(h.reigns, s.log) && Committed(h, n, s.log, c, s.term)
    requires a.term in h.reigns && Accepts(s, a)
    requires Stretch(h.reigns[a.term].log, a.prevLogIndex, a.entries)
    requires a.prevLogTerm == h.reigns[a.term].log[a.prevLogIndex].term
    ensures var m := Merge(s.log, a.prevLogIndex, a.entries);
      Committed(h, n, m, c, a.term) && Agree(m, s.log, c + 1)
  {
    var L := h.reigns[a.term].log;
    ReignBacked(h, n, a.term);
    MergeFollows(h.reigns, s.log, L, a.prevLogIndex, a.entries);
    if c > 0 {
      var t, j :| ChosenPast(h, n, s.log, c, s.term, t, j);
      if t < a.term {
        LeaderCompleteness(h, n, t, j, a.term);
      }
      var X := h.reigns[t].log;
      MergeKeeps(h.reigns, s.log, L, a.prevLogIndex, a.entries, X, c + 1);
      assert ChosenPast(h, n, Merge(s.log, a.prevLogIndex, a.entries), c, a.term, t, j);
    }
  }

  /** Clamping leaderCommit by the follower's own last index never changes it: the message
      reaches past leaderCommit, so this is the rule of the Raft paper. */
  lemma ClampIsExact(h: History, n: nat, s: Peer, q: AppendReq)
    requires HistoryInv(h, n) && Backed(h.reigns, s.log)
    requires AppendReqOk(q, h, n) && Accepts(s, q.args)
    ensures var a := q.args; var m := Merge(s.log, a.prevLogIndex, a.entries);
      && Agree(m, h.reigns[a.term].log, a.prevLogIndex + |a.entries| + 1)
      && Min(a.leaderCommit, |m| - 1) == Min(a.leaderCommit, a.prevLogIndex + |a.entries|) == a.leaderCommit
  {
    var a := q.args;
    ReignBacked(h, n, a.term);
    MergeFollows(h.reigns, s.log, h.reigns[a.term].log, a.prevLogIndex, a.entries);
  }

  lemma NewCommit(h: History, n: nat, s: Peer, q: AppendReq)
    requires HistoryInv(h, n) && Backed(h.reigns, s.log)
    requires AppendReqOk(q, h, n) && Accepts(s, q.args)
    ensures var a := q.args; Committed(h, n, Merge(s.log, a.prevLogIndex, a.entries), a.leaderCommit, a.term)
  {
    var a := q.args;
    var L, m := h.reigns[a.term].log, Merge(s.log, a.prevLogIndex, a.entries);
    ClampIsExact(h, n, s, q);
    if a.leaderCommit > 0 {
      var t, j :| ChosenPast(h, n, L, a.leaderCommit, a.term, t, j);
      AgreeTrans(m, L, h.reigns[t].log, a.prevLogIndex + |a.entries| + 1, a.leaderCommit + 1);
      assert ChosenPast(h, n, m, a.leaderCommit, a.term, t, j);
    }
  }

  lemma MergeBacked(h: History, n: nat, s: Peer, a: AppendArgs)
    requires HistoryInv(h, n) && Backed(h.reigns, s.log) && LastTerm(s.log) <= s.term
    requires a.term in h.reigns && Accepts(s, a)
    requires Stretch(h.reigns[a.term].log, a.prevLogIndex, a.entries)
    requires a.prevLogTerm == h.reigns[a.term].log[a.prevLogIndex].term
    ensures var m := Merge(s.log, a.prevLogIndex, a.entries);
      Backed(h.reigns, m) && LastTerm(m) <= a.term && s.base < |m|
  {
    var L, m := h.reigns[a.term].log, Merge(s.log, a.prevLogIndex, a.entries);
    ReignBacked(h, n, a.term);
    MergeFollows(h.reigns, s.log, L, a.prevLogIndex, a.entries);
    if m != s.log {
      var k := a.prevLogIndex + |a.entries| + 1;
      LeaderPrefix(h, n, a.term, k);
    }
  }

  lemma LeaderPrefix(h: History, n: nat, t: int, k: int)
    requires HistoryInv(h, n) && t in h.reigns && 0 < k <= |h.reigns[t].log|
    ensures var m := h.reigns[t].log[..k]; Backed(h.reigns, m) && LastTerm(m) <= t
  {
    var L := h.reigns[t].log;
    var m := L[..k];
    assert ReignOk(h, n, t);
    assert L[k - 1].term <= LastTerm(L);
    forall x | 1 <= x < |m| ensures BackedAt(h.reigns, m, x) {
      assert BackedAt(h.reigns, L, x);
      AgreeTrans(m, L, h.reigns[L[x].term].log, k, x + 1);
    }
  }

  lemma AcceptPeer(h: History, n: nat, returned: set<(int, int, int)>, s: Peer, q: AppendReq, h': History)
    requires HistoryInv(h, n) && PeerInv(q.to, s, h, n, returned) && 0 <= q.to < n
    requires AppendReqOk(q, h, n) && Accepts(s, q.args)
    requires h' == WithAck(h, q.to, q.args.term, q.args.prevLogIndex + |q.args.entries|)
    ensures Grows(h, h', q.to, s.term) && HistoryInv(h', n)
    ensures PeerInv(q.to, OnAppend(s, q.args), h', n, returned)
  {
    var a, i := q.args, q.to;
    AckGrows(h, n, i, s, a.term, a.prevLogIndex + |a.entries|, h');
    AcceptedPeer(h, n, returned, s, q, h');
  }

  lemma AcceptedLog(h: History, n: nat, s: Peer, q: AppendReq, h': History)
    requires HistoryInv(h, n) && PeerLog(s, h, n)
    requires AppendReqOk(q, h, n) && Accepts(s, q.args)
    requires h' == WithAck(h, q.to, q.args.term, q.args.prevLogIndex + |q.args.entries|)
    requires Grows(h, h', q.to, s.term)
    requires s.role == Leader ==> s.term < q.args.term
    ensures PeerLog(OnAppend(s, q.args), h', n)
  {
    var s' := OnAppend(s, q.args);
    MergeBacked(h, n, s, q.args);
    AcceptedCommit(h, n, s, q);
    CommittedGrows(h, h', q.to, s.term, n, s'.log, s'.log, s'.commit, s'.term, s'.term);
  }

  lemma AcceptedCommit(h: History, n: nat, s: Peer, q: AppendReq)
    requires HistoryInv(h, n) && PeerLog(s, h, n)
    requires AppendReqOk(q, h, n) && Accepts(s, q.args)
    ensures var s' := OnAppend(s, q.args); Committed(h, n, s'.log, s'.commit, s'.term) && s.commit <= s'.commit
  {
    MergeCommitted(h, n, s, q.args, s.commit);
    NewCommit(h, n, s, q);
    ClampIsExact(h, n, s, q);
  }

  lemma AcceptedPeer(h: History, n: nat, returned: set<(int, int, int)>, s: Peer, q: AppendReq, h': History)
    requires HistoryInv(h, n) && PeerInv(q.to, s, h, n, returned) && 0 <= q.to < n
    requires AppendReqOk(q, h, n) && Accepts(s, q.args)
    requires h' == WithAck(h, q.to, q.args.term, q.args.prevLogIndex + |q.args.entries|)
    requires Grows(h, h', q.to, s.term)
    ensures PeerInv(q.to, OnAppend(s, q.args), h', n, returned)
  {
    AcceptedReign(h, n, s, q, h');
    AcceptedLog(h, n, s, q, h');
    AcceptedAcks(h, n, s, q, h');
    AcceptedVote(h, n, returned, s, q, h');
  }

  /** Whoever takes entries from a leader is not the leader of that term. */
  lemma AcceptedReign(h: History, n: nat, s: Peer, q: AppendReq, h': History)
    requires PeerReign(q.to, s, h, n) && AppendReqOk(q, h, n) && Accepts(s, q.args)
    requires h' == WithAck(h, q.to, q.args.term, q.args.prevLogIndex + |q.args.entries|)
    ensures PeerReign(q.to, OnAppend(s, q.args), h', n) && (s.role == Leader ==> s.term < q.args.term)
  {
  }

  lemma AcceptedAcks(h: History, n: nat, s: Peer, q: AppendReq, h': History)
    requires HistoryInv(h, n) && PeerLog(s, h, n) && PeerAcks(q.to, s, h)
    requires AppendReqOk(q, h, n) && Accepts(s, q.args)
    requires h' == WithAck(h, q.to, q.args.term, q.args.prevLogIndex + |q.args.entries|)
    ensures PeerAcks(q.to, OnAppend(s, q.args), h')
  {
    MergeCovers(h, n, q.to, s, q.args, h');
  }

  lemma AcceptedVote(h: History, n: nat, returned: set<(int, int, int)>, s: Peer, q: AppendReq, h': History)
    requires PeerVote(q.to, s, h) && PeerCampaign(q.to, s, h, n, returned)
    requires AppendReqOk(q, h, n) && Accepts(s, q.args)
    requires h' == WithAck(h, q.to, q.args.term, q.args.prevLogIndex + |q.args.entries|)
    ensures PeerVote(q.to, OnAppend(s, q.args), h') && PeerCampaign(q.to, OnAppend(s, q.args), h', n, returned)
  {
    assert Supporters(h', n, returned, q.to, s.term) == Supporters(h, n, returned, q.to, s.term);
  }

  lemma HandleAppendKeeps(sys: System, h: History, q: AppendReq)
    requires Inv(sys, h) && Shape(sys) && Enabled(sys, HandleAppend(q))
    ensures Keeps(sys, h, HandleAppend(q))
  {
    assert AppendReqOk(q, h, |sys.peers|);
    HandleAppendInv(sys, h, q, Apply(sys, HandleAppend(q)), Remember(sys, h, HandleAppend(q)));
  }

  lemma HandleAppendInv(sys: System, h: History, q: AppendReq, sys': System, h': History)
    requires Inv(sys, h) && IsPeer(sys, q.to) && q in sys.appendReqs && AppendReqOk(q, h, |sys.peers|)
    requires var i, s := q.to, sys.peers[q.to];
      && sys' == sys.(peers := sys.peers[i := OnAppend(s, q.args)],
                      appendReps := sys.appendReps + {AppendRep(q.args, i, AppendReplyTo(s, q.args))})
      && h' == (if Accepts(s, q.args) then WithAck(h, i, q.args.term, q.args.prevLogIndex + |q.args.entries|) else h)
    ensures Inv(sys', h') && Grows(h, h', q.to, sys.peers[q.to].term)
  {
    var i, n, s := q.to, |sys.peers|, sys.peers[q.to];
    assert PeerInv(i, s, h, n, sys.returned);
    HandledPeer(h, n, sys.returned, s, q, h');
    NetKept(sys, h, h', i, s.term);
    AppendsMore(sys.appendReqs, sys.appendReps, {}, {AppendRep(q.args, i, AppendReplyTo(s, q.args))}, h', n);
    assert sys.appendReqs + {} == sys.appendReqs;
    StepInv(sys, sys', h, h', i, sys'.peers[i]);
  }

  lemma HandledPeer(h: History, n: nat, returned: set<(int, int, int)>, s: Peer, q: AppendReq, h': History)
    requires HistoryInv(h, n) && PeerInv(q.to, s, h, n, returned) && 0 <= q.to < n && AppendReqOk(q, h, n)
    requires h' ==
      if Accepts(s, q.args) then WithAck(h, q.to, q.args.term, q.args.prevLogIndex + |q.args.entries|) else h
    ensures Grows(h, h', q.to, s.term) && HistoryInv(h', n) && PeerInv(q.to, OnAppend(s, q.args), h', n, returned)
  {
    if Accepts(s, q.args) {
      AcceptPeer(h, n, returned, s, q, h');
    } else {
      GrowsRefl(h, q.to, s.term);
      if q.args.term > s.term {
        AdoptStep(h, n, returned, q.to, s, OnAppend(s, q.args));
      }
    }
  }

  // ---- the leader's side ----

  lemma SendAppendKeeps(sys: System, h: History, i: int, to: int)
    requires Inv(sys, h) && Shape(sys) && Enabled(sys, SendAppend(i, to))
    ensures Keeps(sys, h, SendAppend(i, to))
  {
    var n := |sys.peers|;
    var s, sys' := sys.peers[i], Apply(sys, SendAppend(i, to));
    assert PeerInv(i, s, h, n, sys.returned);
    GrowsRefl(h, i, s.term);
    assert AppendReqOk(AppendReq(to, AppendArgsFor(s, i, to)), h, n);
    AppendsMore(sys.appendReqs, sys.appendReps, {AppendReq(to, AppendArgsFor(s, i, to))}, {}, h, n);
    assert sys.appendReps + {} == sys.appendReps;
    StepInv(sys, sys', h, h, i, s);
  }

  /** The commit scan only commits what a majority has matched in the current term. */
  lemma ScanChooses(h: History, n: nat, i: int, s: Peer, N: int)
    requires HistoryInv(h, n) && PeerReign(i, s, h, n) && Reigns(i, s, h) && 0 <= i < n && 2 <= n
    requires s.commit < N < |s.log| && 0 <= s.commit && HasMajority(s, i, N)
    ensures Chosen(h, n, s.term, N)
  {
    var H := Holders(s, i, N);
    assert |H| > 0;
    var p :| p in H;
    assert ReignOk(h, n, s.term);
    assert H + {i} <= AckSet(h, n, s.term, N);
    SubsetSize(H + {i}, AckSet(h, n, s.term, N));
  }

  lemma CommitScanned(h: History, n: nat, i: int, s: Peer)
    requires HistoryInv(h, n) && PeerReign(i, s, h, n) && Reigns(i, s, h) && 0 <= i < n && 2 <= n
    requires WellFormed(s, n) && Committed(h, n, s.log, s.commit, s.term)
    ensures Committed(h, n, s.log, ScanCommit(s, i, |s.log| - 1), s.term)
  {
    var N := ScanCommit(s, i, |s.log| - 1);
    if N > s.commit {
      ScanChooses(h, n, i, s, N);
      assert ChosenPast(h, n, s.log, N, s.term, s.term, N);
    }
  }

  lemma SuccessPeer(h: History, n: nat, returned: set<(int, int, int)>, i: int, s: Peer, p: int, a: AppendArgs,
                    r: AppendReply)
    requires HistoryInv(h, n) && PeerInv(i, s, h, n, returned) && 0 <= i < n && 0 <= p < n && p != i
    requires a.leader == i && a.term == s.term && Reigns(i, s, h) && r.success
    requires a.prevLogIndex + |a.entries| < |s.log|
    requires (p, a.term) in h.acks && a.prevLogIndex + |a.entries| <= h.acks[(p, a.term)]
    ensures PeerInv(i, OnAppendReply(s, i, p, a, r), h, n, returned)
  {
    var k := a.prevLogIndex + |a.entries|;
    var t := s.(matchIndex := s.matchIndex[p := k], nextIndex := s.nextIndex[p := k + 1]);
    MatchedReign(h, n, i, s, p, k, t);
    CommitScanned(h, n, i, t);
    assert OnAppendReply(s, i, p, a, r) == t.(commit := ScanCommit(t, i, |t.log| - 1));
    ScannedPeer(h, n, returned, i, s, t, ScanCommit(t, i, |t.log| - 1));
  }

  lemma MatchedReign(h: History, n: nat, i: int, s: Peer, p: int, k: int, t: Peer)
    requires PeerReign(i, s, h, n) && WellFormed(s, n) && Reigns(i, s, h) && 0 <= p < n && 0 <= k < |s.log|
    requires (p, s.term) in h.acks && k <= h.acks[(p, s.term)]
    requires t == s.(matchIndex := s.matchIndex[p := k], nextIndex := s.nextIndex[p := k + 1])
    ensures PeerReign(i, t, h, n) && WellFormed(t, n)
  {
  }

  lemma ScannedPeer(h: History, n: nat, returned: set<(int, int, int)>, i: int, s: Peer, t: Peer, c: int)
    requires PeerInv(i, s, h, n, returned) && PeerReign(i, t, h, n) && WellFormed(t, n)
    requires t == s.(matchIndex := t.matchIndex, nextIndex := t.nextIndex)
    requires s.commit <= c && Committed(h, n, s.log, c, s.term)
    ensures PeerInv(i, t.(commit := c), h, n, returned)
  {
    VolatileStep(h, n, returned, returned, i, s, t.(commit := c));
  }

  lemma RefusalPeer(h: History, n: nat, returned: set<(int, int, int)>, i: int, s: Peer, p: int, a: AppendArgs,
                    r: AppendReply)
    requires HistoryInv(h, n) && PeerInv(i, s, h, n, returned) && 0 <= i < n && 0 <= p < n
    requires !r.success || a.term < s.term
    ensures PeerInv(i, OnAppendReply(s, i, p, a, r), h, n, returned)
  {
    var s' := OnAppendReply(s, i, p, a, r);
    if s'.term > s.term {
      AdoptStep(h, n, returned, i, s, s');
    } else {
      VolatileStep(h, n, returned, returned, i, s, s');
    }
  }

  lemma AppendReturnsKeeps(sys: System, h: History, r: AppendRep)
    requires Inv(sys, h) && Shape(sys) && Enabled(sys, AppendReturns(r))
    ensures Keeps(sys, h, AppendReturns(r))
  {
    var i, n := r.args.leader, |sys.peers|;
    var s, sys' := sys.peers[i], Apply(sys, AppendReturns(r));
    assert PeerInv(i, s, h, n, sys.returned) && AppendRepOk(r, sys.appendReqs, h);
    assert AppendReqOk(AppendReq(r.from, r.args), h, n);
    GrowsRefl(h, i, s.term);
    ReturnedPeer(h, n, sys.returned, i, s, r);
    StepInv(sys, sys', h, h, i, sys'.peers[i]);
  }

  lemma ReturnedPeer(h: History, n: nat, returned: set<(int, int, int)>, i: int, s: Peer, r: AppendRep)
    requires HistoryInv(h, n) && PeerInv(i, s, h, n, returned) && 0 <= i < n && 0 <= r.from < n && r.args.leader == i
    requires AppendReqOk(AppendReq(r.from, r.args), h, n)
    requires r.reply.success ==>
      (r.from, r.args.term) in h.acks && r.args.prevLogIndex + |r.args.entries| <= h.acks[(r.from, r.args.term)]
    ensures PeerInv(i, OnAppendReply(s, i, r.from, r.args, r.reply), h, n, returned)
  {
    assert ReignOk(h, n, r.args.term);
    if r.reply.success && s.term <= r.args.term {
      SuccessPeer(h, n, returned, i, s, r.from, r.args, r.reply);
    } else {
      RefusalPeer(h, n, returned, i, s, r.from, r.args, r.reply);
    }
  }

  // ---- a new command ----

  lemma EntryGrows(h: History, n: nat, i: int, s: Peer, e: Entry, h': History)
    requires HistoryInv(h, n) && PeerReign(i, s, h, n) && Reigns(i, s, h) && 0 <= i < n
    requires PeerVote(i, s, h) && PeerAcks(i, s, h)
    requires e.term == s.term && h' == WithEntry(h, i, s.term, e)
    ensures Grows(h, h', i, s.term) && HistoryInv(h', n)
  {
    var T := s.term;
    var r, r' := h.reigns[T], h'.reigns[T];
    assert ReignOk(h, n, T);
    assert Grown(r, r', T);
    assert Grows(h, h', i, T);
    LongerReign(h, n, i, T, e, h');
    assert AckOk(h', n, i, T);
    HistoryStep(h, h', n, i, T);
  }

  lemma LongerReign(h: History, n: nat, i: int, T: int, e: Entry, h': History)
    requires HistoryInv(h, n) && T in h.reigns && h.reigns[T].winner == i && e.term == T
    requires h' == WithEntry(h, i, T, e) && Grows(h, h', i, T)
    ensures ReignOk(h', n, T)
  {
    var r, r' := h.reigns[T], h'.reigns[T];
    assert ReignOk(h, n, T);
    BackedGrows(h, h', i, r.log);
    forall k | 1 <= k < |r'.log| ensures BackedAt(h'.reigns, r'.log, k) {
      if k < |r.log| { assert BackedAt(h'.reigns, r.log, k); }
    }
    forall v | v in r.electors ensures ElectorOk(h', T, v) {
      assert ElectorOk(h, T, v);
      CoversGrows(h, h', i, T, v, r.log, r'.log, T, T - 1, n);
    }
  }

  lemma EntryPeer(h: History, n: nat, returned: set<(int, int, int)>, i: int, s: Peer, c: Command, h': History)
    requires HistoryInv(h, n) && PeerInv(i, s, h, n, returned) && 0 <= i < n && s.role == Leader
    requires h' == WithEntry(h, i, s.term, Entry(s.term, c))
    requires Grows(h, h', i, s.term) && HistoryInv(h', n)
    ensures PeerInv(i, OnStart(s, i, c), h', n, returned)
  {
    EntryLog(h, n, i, s, c, h');
    EntryAcks(h, n, i, s, c, h');
    assert Supporters(h', n, returned, i, s.term) == Supporters(h, n, returned, i, s.term);
  }

  lemma EntryLog(h: History, n: nat, i: int, s: Peer, c: Command, h': History)
    requires PeerLog(s, h, n) && PeerReign(i, s, h, n) && 0 <= i < n && s.role == Leader
    requires h' == WithEntry(h, i, s.term, Entry(s.term, c)) && Grows(h, h', i, s.term) && HistoryInv(h', n)
    ensures PeerLog(OnStart(s, i, c), h', n) && PeerReign(i, OnStart(s, i, c), h', n)
  {
    assert ReignOk(h', n, s.term);
    CommittedGrows(h, h', i, s.term, n, s.log, OnStart(s, i, c).log, s.commit, s.term, s.term);
  }

  lemma EntryAcks(h: History, n: nat, i: int, s: Peer, c: Command, h': History)
    requires HistoryInv(h, n) && PeerReign(i, s, h, n) && PeerAcks(i, s, h) && WellFormed(s, n) && 0 <= i < n
    requires s.role == Leader
    requires h' == WithEntry(h, i, s.term, Entry(s.term, c)) && Grows(h, h', i, s.term)
    ensures PeerAcks(i, OnStart(s, i, c), h')
  {
    var T, s' := s.term, OnStart(s, i, c);
    assert Covers(h, i, s.log, T, T);
    CoversGrows(h, h', i, T, i, s.log, s'.log, T, T, n);
  }

  lemma StartKeeps(sys: System, h: History, i: int, c: Command)
    requires Inv(sys, h) && Shape(sys) && Enabled(sys, StartCommand(i, c))
    ensures Keeps(sys, h, StartCommand(i, c))
  {
    var e, n := StartCommand(i, c), |sys.peers|;
    var s, h', sys' := sys.peers[i], Remember(sys, h, e), Apply(sys, e);
    assert PeerInv(i, s, h, n, sys.returned);
    if s.role == Leader {
      EntryGrows(h, n, i, s, Entry(s.term, c), h');
      EntryPeer(h, n, sys.returned, i, s, c, h');
    } else {
      GrowsRefl(h, i, s.term);
    }
    NetKept(sys, h, h', i, s.term);
    StepInv(sys, sys', h, h', i, sys'.peers[i]);
  }

  // ---- compaction, restart, hand-up ----

  lemma CommittedBelow(h: History, n: nat, l: seq<Entry>, c: int, c': int, term: int)
    requires Committed(h, n, l, c, term) && 0 <= c' <= c
    ensures Committed(h, n, l, c', term)
  {
    if c' > 0 {
      var t, j :| ChosenPast(h, n, l, c, term, t, j);
      assert ChosenPast(h, n, l, c', term, t, j);
    }
  }

  lemma QuietKeeps(sys: System, h: History, e: Event)
    requires Inv(sys, h) && Shape(sys) && Enabled(sys, e)
    requires e.TakeSnapshot? || e.Restart? || e.PreVotePassed? || (e.Timeout? && sys.peers[e.i].role != Candidate)
    ensures Keeps(sys, h, e)
  {
    GrowsRefl(h, Actor(e), sys.peers[Actor(e)].term);
    assert PeerInv(Actor(e), sys.peers[Actor(e)], h, |sys.peers|, sys.returned);
    QuietInv(sys, h, Actor(e), After(sys, e), Apply(sys, e));
  }

  lemma QuietInv(sys: System, h: History, i: int, s': Peer, sys': System)
    requires Inv(sys, h) && IsPeer(sys, i) && sys' == sys.(peers := sys.peers[i := s'])
    requires Quietly(sys.peers[i], s', |sys.peers|)
    ensures Inv(sys', h)
  {
    var n, s := |sys.peers|, sys.peers[i];
    assert PeerInv(i, s, h, n, sys.returned);
    GrowsRefl(h, i, s.term);
    QuietPeer(h, n, sys.returned, i, s, s');
    StepInv(sys, sys', h, h, i, s');
  }

  /** Only volatile state changes: a role other than Leader, the snapshot point, or all that a restart resets. */
  ghost predicate Quietly(s: Peer, s': Peer, n: nat) {
    && WellFormed(s', n) && s'.term == s.term && s'.votedFor == s.votedFor && s'.log == s.log
    && (s'.voteCount <= s.voteCount || s'.voteCount <= 0) && (s'.role == s.role || s'.role != Leader)
    && ((s'.commit == s.commit && s'.matchIndex == s.matchIndex)
        || (s'.commit == s.base && forall p | 0 <= p < n :: s'.matchIndex[p] == s.base))
  }

  lemma QuietPeer(h: History, n: nat, returned: set<(int, int, int)>, i: int, s: Peer, s': Peer)
    requires PeerInv(i, s, h, n, returned) && Quietly(s, s', n)
    ensures PeerInv(i, s', h, n, returned)
  {
    CommittedBelow(h, n, s.log, s.commit, s.base, s.term);
    VolatileStep(h, n, returned, returned, i, s, s');
  }

  lemma HandUpKeeps(sys: System, h: History, i: int, upTo: int)
    requires Inv(sys, h) && Shape(sys) && Enabled(sys, HandUp(i, upTo))
    ensures Keeps(sys, h, HandUp(i, upTo))
  {
    var n := |sys.peers|;
    var s, sys' := sys.peers[i], Apply(sys, HandUp(i, upTo));
    assert PeerInv(i, s, h, n, sys.returned);
    GrowsRefl(h, i, s.term);
    BufferOk(h, n, s, i);
    VolatileStep(h, n, sys.returned, sys.returned, i, s, s.(applied := upTo));
    StepInv(sys, sys', h, h, i, s.(applied := upTo));
  }

  lemma BufferOk(h: History, n: nat, s: Peer, i: int)
    requires PeerLog(s, h, n)
    ensures AllHandedOk(Buffer(s, i), h, n)
  {
    forall m | m in Buffer(s, i) ensures HandedOk(m, h, n) {
      var t, j :| ChosenPast(h, n, s.log, s.commit, s.term, t, j);
      assert h.reigns[t].log[m.index] == m.entry;
    }
  }

  // ---- elections, as steps of the system ----

  lemma CampaignKeeps(sys: System, h: History, i: int)
    requires Inv(sys, h) && Shape(sys) && Enabled(sys, Timeout(i)) && sys.peers[i].role == Candidate
    ensures Keeps(sys, h, Timeout(i))
  {
    CampaignInv(sys, h, i, Apply(sys, Timeout(i)), Remember(sys, h, Timeout(i)));
  }

  lemma CampaignInv(sys: System, h: History, i: int, sys': System, h': History)
    requires Inv(sys, h) && IsPeer(sys, i) && sys.peers[i].role == Candidate && |sys.peers[i].log| > 0
    requires var s := sys.peers[i];
      && sys' == sys.(peers := sys.peers[i := Campaign(s, i)],
                      voteReqs := sys.voteReqs + {VoteArgsOf(Campaign(s, i), i)})
      && h' == h.(votes := h.votes[(s.term + 1, i) := i], campaigns := h.campaigns[(i, s.term + 1) := s.log])
    ensures Inv(sys', h') && Grows(h, h', i, sys.peers[i].term)
  {
    var n, s := |sys.peers|, sys.peers[i];
    assert PeerInv(i, s, h, n, sys.returned);
    CampaignPeer(h, n, sys.returned, i, s, h');
    NetKept(sys, h, h', i, s.term);
    CampaignReq(s, i, h');
    VotesMore(sys.voteReqs, sys.voteReps, {VoteArgsOf(Campaign(s, i), i)}, {}, h', n);
    assert sys.voteReps + {} == sys.voteReps;
    StepInv(sys, sys', h, h', i, sys'.peers[i]);
  }

  lemma CampaignReq(s: Peer, i: int, h: History)
    requires |s.log| > 0 && (i, s.term + 1) in h.campaigns && h.campaigns[(i, s.term + 1)] == s.log
    ensures VoteReqsOk({VoteArgsOf(Campaign(s, i), i)}, h)
  {
  }

  lemma HandleVoteKeeps(sys: System, h: History, i: int, a: VoteArgs)
    requires Inv(sys, h) && Shape(sys) && Enabled(sys, HandleVote(i, a))
    ensures Keeps(sys, h, HandleVote(i, a))
  {
    assert VoteReqOk(a, h);
    HandleVoteInv(sys, h, i, a, Apply(sys, HandleVote(i, a)), Remember(sys, h, HandleVote(i, a)));
  }

  lemma HandleVoteInv(sys: System, h: History, i: int, a: VoteArgs, sys': System, h': History)
    requires Inv(sys, h) && IsPeer(sys, i) && |sys.peers[i].log| > 0 && a in sys.voteReqs && VoteReqOk(a, h)
    requires var s := sys.peers[i];
      && a.candidate != i
      && sys' == sys.(peers := sys.peers[i := OnRequestVote(s, a)],
                      voteReps := sys.voteReps + {VoteRep(a, i, VoteReplyTo(s, a))})
      && h' == (if Grants(s, a) then h.(votes := h.votes[(a.term, i) := a.candidate]) else h)
    ensures Inv(sys', h') && Grows(h, h', i, sys.peers[i].term)
  {
    var n, s := |sys.peers|, sys.peers[i];
    assert PeerInv(i, s, h, n, sys.returned);
    VotedPeer(h, n, sys.returned, i, s, a, h');
    NetKept(sys, h, h', i, s.term);
    VotesMore(sys.voteReqs, sys.voteReps, {}, {VoteRep(a, i, VoteReplyTo(s, a))}, h', n);
    assert sys.voteReqs + {} == sys.voteReqs;
    StepInv(sys, sys', h, h', i, sys'.peers[i]);
  }

  lemma VotedPeer(h: History, n: nat, returned: set<(int, int, int)>, i: int, s: Peer, a: VoteArgs, h': History)
    requires HistoryInv(h, n) && PeerInv(i, s, h, n, returned) && 0 <= i < n && VoteReqOk(a, h) && a.candidate != i
    requires h' == if Grants(s, a) then h.(votes := h.votes[(a.term, i) := a.candidate]) else h
    ensures Grows(h, h', i, s.term) && HistoryInv(h', n) && PeerInv(i, OnRequestVote(s, a), h', n, returned)
  {
    if Grants(s, a) {
      GrantPeer(h, n, returned, i, s, a, h');
    } else {
      GrowsRefl(h, i, s.term);
      if a.term > s.term {
        AdoptStep(h, n, returned, i, s, OnRequestVote(s, a));
      }
    }
  }
}
