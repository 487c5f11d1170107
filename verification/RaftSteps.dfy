/** Every event keeps the invariant. */
module RaftSteps {
  import opened RaftSpec
  import opened RaftSystem
  import opened RaftHistory
  import opened RaftInvariant
  import opened Sets

  // ---- the shape of every step ----

  lemma HistoryStep(h: History, h': History, n: nat, i: int, T: int)
    requires HistoryInv(h, n) && Grows(h, h', i, T)
    requires forall t | (t, i) in h.votes :: t <= T
    requires forall t {:trigger ReignOk(h', n, t)} | t in h'.reigns ::
      (t in h.reigns && h'.reigns[t] == h.reigns[t]
       && ((i, t) in h.acks && h.reigns[t].winner == i ==> h'.acks[(i, t)] == h.acks[(i, t)])) || ReignOk(h', n, t)
    requires forall t, v {:trigger VoteOk(h', n, t, v)} | (t, v) in h'.votes ::
      (t, v) in h.votes || VoteOk(h', n, t, v)
    requires forall c, t {:trigger CampaignOk(h', n, c, t)} | (c, t) in h'.campaigns ::
      (c, t) in h.campaigns || CampaignOk(h', n, c, t)
    requires forall q, t {:trigger AckOk(h', n, q, t)} | (q, t) in h'.acks ::
      ((q, t) in h.acks && h'.acks[(q, t)] == h.acks[(q, t)]) || AckOk(h', n, q, t)
    ensures HistoryInv(h', n)
  {
    forall t | t in h'.reigns ensures ReignOk(h', n, t) {
      if t in h.reigns && h'.reigns[t] == h.reigns[t] && !ReignOk(h', n, t) {
        ReignKept(h, h', n, i, T, t);
      }
    }
    forall t, v | (t, v) in h'.votes ensures VoteOk(h', n, t, v) {
      if (t, v) in h.votes { VoteKept(h, h', n, i, T, t, v); }
    }
    forall c, t | (c, t) in h'.campaigns ensures CampaignOk(h', n, c, t) {
      if (c, t) in h.campaigns {
        assert CampaignOk(h, n, c, t);
        BackedGrows(h, h', i, h.campaigns[(c, t)]);
      }
    }
    forall q, t | (q, t) in h'.acks ensures AckOk(h', n, q, t) {
      if (q, t) in h.acks && h'.acks[(q, t)] == h.acks[(q, t)] {
        assert AckOk(h, n, q, t);
        assert Grown(h.reigns[t], h'.reigns[t], t);
      }
    }
  }

  lemma VoteKept(h: History, h': History, n: nat, i: int, T: int, t: int, v: int)
    requires HistoryInv(h, n) && Grows(h, h', i, T) && (t, v) in h.votes
    requires v == i ==> t <= T
    ensures VoteOk(h', n, t, v)
  {
    assert VoteOk(h, n, t, v);
    var l := h.campaigns[(h.votes[(t, v)], t)];
    CoversGrows(h, h', i, T, v, l, l, t, t, n);
  }

  lemma ReignKept(h: History, h': History, n: nat, i: int, T: int, t: int)
    requires HistoryInv(h, n) && Grows(h, h', i, T)
    requires t in h.reigns && h'.reigns[t] == h.reigns[t]
    requires forall u | (u, i) in h.votes :: u <= T
    requires (i, t) in h.acks && h.reigns[t].winner == i ==> h'.acks[(i, t)] == h.acks[(i, t)]
    ensures ReignOk(h', n, t)
  {
    assert ReignOk(h, n, t);
    var r := h.reigns[t];
    BackedGrows(h, h', i, r.log);
    forall v | v in r.electors ensures ElectorOk(h', t, v) {
      assert ElectorOk(h, t, v);
      CoversGrows(h, h', i, T, v, r.log, r.log, t, t - 1, n);
    }
  }

  lemma StepInv(sys: System, sys': System, h: History, h': History, i: int, s': Peer)
    requires Inv(sys, h) && IsPeer(sys, i) && Grows(h, h', i, sys.peers[i].term)
    requires sys'.peers == sys.peers[i := s'] && sys.returned <= sys'.returned
    requires HistoryInv(h', |sys.peers|)
    requires PeerInv(i, s', h', |sys.peers|, sys'.returned)
    requires NetInv(sys', h')
    ensures Inv(sys', h')
  {
    var n := |sys.peers|;
    forall j | 0 <= j < n
      ensures PeerInv(j, sys'.peers[j], h', n, sys'.returned)
    {
      if j != i {
        assert PeerInv(j, sys.peers[j], h, n, sys.returned);
        PeerKept(h, h', i, sys.peers[i].term, n, sys.returned, sys'.returned, j, sys.peers[j]);
      }
    }
  }

  lemma GrowsRefl(h: History, i: int, T: int)
    ensures Grows(h, h, i, T)
  {
  }

  // ---- changes that leave term, vote and log alone ----

  /** A change of volatile state only: the term, the vote and the log stay. */
  lemma VolatileStep(h: History, n: nat, returned: set<(int, int, int)>, returned': set<(int, int, int)>, i: int,
                     s: Peer, s': Peer)
    requires PeerInv(i, s, h, n, returned) && returned <= returned'
    requires s'.term == s.term && s'.votedFor == s.votedFor && s'.log == s.log
    requires WellFormed(s', n) && Committed(h, n, s'.log, s'.commit, s'.term)
    requires (i, s.term) in h.campaigns ==> s'.voteCount <= 1 + |Supporters(h, n, returned', i, s.term)|
    requires PeerReign(i, s', h, n)
    ensures PeerInv(i, s', h, n, returned')
  {
  }

  lemma AdoptStep(h: History, n: nat, returned: set<(int, int, int)>, i: int, s: Peer, s': Peer)
    requires HistoryInv(h, n) && PeerInv(i, s, h, n, returned)
    requires s.term < s'.term && s'.votedFor == NOBODY && s'.role == Follower && s'.log == s.log
    requires s'.base == s.base && s'.commit == s.commit && s'.nextIndex == s.nextIndex && s'.matchIndex == s.matchIndex
    ensures PeerInv(i, s', h, n, returned)
  {
    assert s'.term in h.reigns ==> ReignOk(h, n, s'.term);
    assert Committed(h, n, s'.log, s'.commit, s'.term) by {
      CommittedLater(h, n, s.log, s.commit, s.term, s'.term);
    }
    CoversLater(h, i, s.log, s.term, s'.term);
  }

  lemma CommittedLater(h: History, n: nat, l: seq<Entry>, c: int, term: int, term': int)
    requires Committed(h, n, l, c, term) && term <= term'
    ensures Committed(h, n, l, c, term')
  {
    if c > 0 {
      var t, j :| ChosenPast(h, n, l, c, term, t, j);
      assert ChosenPast(h, n, l, c, term', t, j);
    }
  }

  lemma DroppedLater(h: History, t: int, j: int, T: int, T': int)
    requires OwnIndex(h, t, j) && Dropped(h, t, j, T) && T <= T'
    ensures Dropped(h, t, j, T')
  {
  }

  lemma CoversLater(h: History, i: int, l: seq<Entry>, T: int, T': int)
    requires Covers(h, i, l, T + 1, T) && T <= T'
    requires forall t | (i, t) in h.acks :: t <= T
    ensures Covers(h, i, l, T' + 1, T')
  {
    forall t, j | t < T' + 1 && AckedAt(h, i, t, j)
      ensures Holds(h, l, t, j) || Dropped(h, t, j, T')
    {
      if !Holds(h, l, t, j) { DroppedLater(h, t, j, T, T'); }
    }
  }

  lemma CoversSame(h: History, h': History, q: int, l: seq<Entry>, below: int, upTo: int)
    requires h'.reigns == h.reigns && h'.acks == h.acks && Covers(h, q, l, below, upTo)
    ensures Covers(h', q, l, below, upTo)
  {
    forall t, j | t < below && AckedAt(h', q, t, j)
      ensures Holds(h', l, t, j) || Dropped(h', t, j, upTo)
    {
      assert AckedAt(h, q, t, j);
      assert Holds(h', l, t, j) <==> Holds(h, l, t, j);
      if Dropped(h, t, j, upTo) {
        var u :| t < u <= upTo && u in h.reigns && !Holds(h, h.reigns[u].log, t, j);
        assert !Holds(h', h'.reigns[u].log, t, j);
      }
    }
  }

  // ---- what each event adds to the history ----

  predicate Wins(s: Peer, n: nat, r: VoteRep) {
    CountsVote(s, n, r.args, r.reply) && s.voteCount + 1 > n / 2
  }

  ghost function WithReign(h: History, n: nat, i: int, s: Peer, returned: set<(int, int, int)>): History {
    h.(reigns := h.reigns[s.term := Reign(i, Supporters(h, n, returned, i, s.term) + {i}, s.log)],
       acks := h.acks[(i, s.term) := |s.log| - 1])
  }

  ghost function WithAck(h: History, i: int, t: int, k: int): History {
    var was := if (i, t) in h.acks then h.acks[(i, t)] else 0;
    h.(acks := h.acks[(i, t) := Max(was, k)])
  }

  ghost function WithEntry(h: History, i: int, t: int, e: Entry): History
    requires t in h.reigns
  {
    var r := h.reigns[t];
    h.(reigns := h.reigns[t := r.(log := r.log + [e])], acks := h.acks[(i, t) := |r.log|])
  }

  ghost function Remember(sys: System, h: History, e: Event): History
    requires Shape(sys) && Enabled(sys, e)
  {
    var s := sys.peers[Actor(e)];
    var n := |sys.peers|;
    match e
    case Timeout(i) =>
      if s.role != Candidate then h
      else h.(votes := h.votes[(s.term + 1, i) := i], campaigns := h.campaigns[(i, s.term + 1) := s.log])
    case HandleVote(i, a) =>
      if Grants(s, a) then h.(votes := h.votes[(a.term, i) := a.candidate]) else h
    case VoteReturns(r) =>
      if Wins(s, n, r) && s.term !in h.reigns
      then WithReign(h, n, r.args.candidate, s, Apply(sys, e).returned) else h
    case HandleAppend(q) =>
      if Accepts(s, q.args) then WithAck(h, q.to, q.args.term, q.args.prevLogIndex + |q.args.entries|) else h
    case StartCommand(i, c) =>
      if s.role == Leader && s.term in h.reigns then WithEntry(h, i, s.term, Entry(s.term, c)) else h
    case _ => h
  }

  ghost predicate Keeps(sys: System, h: History, e: Event)
    requires Shape(sys) && Enabled(sys, e)
  {
    Inv(Apply(sys, e), Remember(sys, h, e)) && Grows(h, Remember(sys, h, e), Actor(e), sys.peers[Actor(e)].term)
  }

  // ---- elections ----

  /** What a change of term alone keeps of a peer, when only votes and campaigns are added to the history. */
  lemma LaterLog(h: History, h': History, n: nat, s: Peer, s': Peer)
    requires PeerLog(s, h, n) && WellFormed(s', n) && h'.reigns == h.reigns && h'.acks == h.acks
    requires s'.log == s.log && s'.commit == s.commit && s.term <= s'.term
    ensures PeerLog(s', h', n)
  {
    if s.commit > 0 {
      var t, j :| ChosenPast(h, n, s.log, s.commit, s.term, t, j);
      assert AckSet(h', n, t, j) == AckSet(h, n, t, j);
      assert ChosenPast(h', n, s.log, s.commit, s'.term, t, j);
    }
  }

  lemma LaterAcks(h: History, h': History, i: int, s: Peer, s': Peer)
    requires PeerAcks(i, s, h) && h'.reigns == h.reigns && h'.acks == h.acks && s'.log == s.log && s.term <= s'.term
    ensures PeerAcks(i, s', h')
  {
    CoversLater(h, i, s.log, s.term, s'.term);
    CoversSame(h, h', i, s.log, s'.term + 1, s'.term);
  }

  lemma CampaignHistory(h: History, n: nat, returned: set<(int, int, int)>, i: int, s: Peer, h': History)
    requires HistoryInv(h, n) && 0 <= i < n
    requires PeerLog(s, h, n) && PeerVote(i, s, h) && PeerCampaign(i, s, h, n, returned) && PeerAcks(i, s, h)
    requires h' == h.(votes := h.votes[(s.term + 1, i) := i], campaigns := h.campaigns[(i, s.term + 1) := s.log])
    ensures Grows(h, h', i, s.term) && HistoryInv(h', n)
  {
    var T := s.term + 1;
    assert (T, i) !in h.votes && (i, T) !in h.campaigns;
    assert Grows(h, h', i, s.term);
    CoversLater(h, i, s.log, s.term, T);
    CoversSame(h, h', i, s.log, T + 1, T);
    assert VoteOk(h', n, T, i) && CampaignOk(h', n, i, T);
    HistoryStep(h, h', n, i, s.term);
  }

  lemma CampaignSelf(h: History, n: nat, returned: set<(int, int, int)>, i: int, s: Peer, h': History)
    requires HistoryInv(h, n) && PeerInv(i, s, h, n, returned) && s.role == Candidate && 0 <= i < n
    requires h' == h.(votes := h.votes[(s.term + 1, i) := i], campaigns := h.campaigns[(i, s.term + 1) := s.log])
    ensures PeerInv(i, Campaign(s, i), h', n, returned)
  {
    var s' := Campaign(s, i);
    LaterLog(h, h', n, s, s');
    LaterAcks(h, h', i, s, s');
    assert s'.term in h.reigns ==> ReignOk(h, n, s'.term);
  }

  lemma CampaignPeer(h: History, n: nat, returned: set<(int, int, int)>, i: int, s: Peer, h': History)
    requires HistoryInv(h, n) && PeerInv(i, s, h, n, returned) && s.role == Candidate && 0 <= i < n
    requires h' == h.(votes := h.votes[(s.term + 1, i) := i], campaigns := h.campaigns[(i, s.term + 1) := s.log])
    ensures Grows(h, h', i, s.term) && HistoryInv(h', n)
    ensures PeerInv(i, Campaign(s, i), h', n, returned)
  {
    CampaignHistory(h, n, returned, i, s, h');
    CampaignSelf(h, n, returned, i, s, h');
  }

  /** A candidate at least as up to date as a voter holds what the voter holds, unless a leader
      in between dropped it. */
  lemma UpToDateHolds(h: History, n: nat, l: seq<Entry>, M: seq<Entry>, t: int, j: int, T: int)
    requires HistoryInv(h, n) && OwnIndex(h, t, j) && Holds(h, l, t, j)
    requires Backed(h.reigns, l) && Backed(h.reigns, M) && LastTerm(M) < T
    requires LastTerm(M) > LastTerm(l) || (LastTerm(M) == LastTerm(l) && |M| >= |l|)
    ensures Holds(h, M, t, j) || Dropped(h, t, j, T)
  {
    BackedRising(h, n, l);
    assert l[j].term == t <= LastTerm(l);
    var b := LastTerm(M);
    assert ReignOk(h, n, t);
    assert BackedAt(h.reigns, M, |M| - 1);
    var B := h.reigns[b].log;
    if b == LastTerm(l) {
      assert BackedAt(h.reigns, l, |l| - 1);
      AgreeTrans(M, B, l, |M|, |l|);
      AgreeTrans(M, l, h.reigns[t].log, |l|, j + 1);
    } else if Holds(h, B, t, j) {
      assert ReignOk(h, n, b);
      assert j < |M| by {
        assert B[|M| - 1].term == b && B[j].term == t;
      }
      AgreeTrans(M, B, h.reigns[t].log, |M|, j + 1);
    }
  }

  lemma GrantPeer(h: History, n: nat, returned: set<(int, int, int)>, i: int, s: Peer, a: VoteArgs, h': History)
    requires HistoryInv(h, n) && PeerInv(i, s, h, n, returned) && 0 <= i < n
    requires Grants(s, a) && VoteReqOk(a, h) && a.candidate != i
    requires h' == h.(votes := h.votes[(a.term, i) := a.candidate])
    ensures Grows(h, h', i, s.term)
    ensures HistoryInv(h', n)
    ensures PeerInv(i, OnRequestVote(s, a), h', n, returned)
  {
    var T, c := a.term, a.candidate;
    assert CampaignOk(h, n, c, T);
    assert (T, i) in h.votes ==> h.votes[(T, i)] == c;
    assert Grows(h, h', i, s.term);
    var M := h.campaigns[(c, T)];
    forall t, j | t < T && AckedAt(h, i, t, j)
      ensures Holds(h, M, t, j) || Dropped(h, t, j, T)
    {
      if Holds(h, s.log, t, j) {
        UpToDateHolds(h, n, s.log, M, t, j, T);
      } else {
        DroppedLater(h, t, j, s.term, T);
      }
    }
    CoversSame(h, h', i, M, T, T);
    assert VoteOk(h', n, T, i);
    HistoryStep(h, h', n, i, s.term);
    GrantedPeer(h, n, returned, i, s, a, h');
  }

  lemma GrantedPeer(h: History, n: nat, returned: set<(int, int, int)>, i: int, s: Peer, a: VoteArgs, h': History)
    requires HistoryInv(h, n) && PeerInv(i, s, h, n, returned) && 0 <= i < n
    requires Grants(s, a) && 0 <= a.candidate
    requires h' == h.(votes := h.votes[(a.term, i) := a.candidate]) && Grows(h, h', i, s.term)
    ensures PeerInv(i, OnRequestVote(s, a), h', n, returned)
  {
    var s' := OnRequestVote(s, a);
    LaterLog(h, h', n, s, s');
    LaterAcks(h, h', i, s, s');
    SupportersGrow(h, h', i, s.term, n, returned, returned, i, s.term);
    GrantedReign(h, n, i, s, s');
  }

  lemma GrantedReign(h: History, n: nat, i: int, s: Peer, s': Peer)
    requires HistoryInv(h, n) && PeerReign(i, s, h, n) && s.term <= s'.term && s'.role == Follower
    requires forall t | (i, t) in h.campaigns :: t <= s.term
    requires s'.log == s.log && s'.matchIndex == s.matchIndex && s'.commit == s.commit
    ensures PeerReign(i, s', h, n)
  {
    assert s'.term in h.reigns ==> ReignOk(h, n, s'.term);
  }

  /** The voters whose granted calls have returned, the newest one included, and the candidate. */
  lemma NewSupporter(h: History, n: nat, returned: set<(int, int, int)>, i: int, t: int, v: int)
    requires ReturnedOk(returned)
    requires 0 <= v < n && v != i && (i, t, v) !in returned
    requires (t, v) in h.votes && h.votes[(t, v)] == i
    ensures var returned' := returned + {(i, t, v)};
      && |Supporters(h, n, returned', i, t)| == |Supporters(h, n, returned, i, t)| + 1
      && i !in Supporters(h, n, returned', i, t)
  {
    assert Supporters(h, n, returned + {(i, t, v)}, i, t) == Supporters(h, n, returned, i, t) + {v};
  }

  lemma OneWinner(h: History, n: nat, i: int, t: int, E: set<int>)
    requires HistoryInv(h, n) && t in h.reigns
    requires 2 * |E| > n
    requires forall v | v in E :: 0 <= v < n && (t, v) in h.votes && h.votes[(t, v)] == i
    ensures h.reigns[t].winner == i
  {
    assert ReignOk(h, n, t);
    var v := QuorumsMeet(n, h.reigns[t].electors, E);
  }

  lemma NewReign(h: History, n: nat, returned: set<(int, int, int)>, returned': set<(int, int, int)>, i: int, s: Peer,
                 h': History)
    requires HistoryInv(h, n) && PeerInv(i, s, h, n, returned) && 0 <= i < n
    requires (i, s.term) in h.campaigns && s.term !in h.reigns
    requires h' == WithReign(h, n, i, s, returned')
    requires 2 * |h'.reigns[s.term].electors| > n
    ensures Grows(h, h', i, s.term)
    ensures HistoryInv(h', n)
  {
    var T := s.term;
    NewReignGrows(h, n, returned', i, s, h');
    NewReignOk(h, n, returned', i, s, h');
    assert AckOk(h', n, i, T);
    HistoryStep(h, h', n, i, T);
  }

  lemma NewReignGrows(h: History, n: nat, returned: set<(int, int, int)>, i: int, s: Peer, h': History)
    requires HistoryInv(h, n) && 0 < |s.log| && s.term !in h.reigns && h' == WithReign(h, n, i, s, returned)
    ensures Grows(h, h', i, s.term) && (i, s.term) !in h.acks
  {
    assert (i, s.term) in h.acks ==> AckOk(h, n, i, s.term);
  }

  lemma NewReignOk(h: History, n: nat, returned: set<(int, int, int)>, i: int, s: Peer, h': History)
    requires HistoryInv(h, n) && PeerLog(s, h, n) && 0 <= i < n && Grows(h, h', i, s.term)
    requires (i, s.term) in h.campaigns && s.term !in h.reigns && s.log == h.campaigns[(i, s.term)]
    requires h' == WithReign(h, n, i, s, returned) && 2 * |h'.reigns[s.term].electors| > n
    ensures ReignOk(h', n, s.term)
  {
    var T, E := s.term, h'.reigns[s.term].electors;
    BackedGrows(h, h', i, s.log);
    BackedRising(h, n, s.log);
    assert CampaignOk(h, n, i, T);
    forall v | v in E ensures ElectorOk(h', T, v) {
      assert VoteOk(h, n, T, v);
      assert Covers(h, v, s.log, T, T);
      NotDroppedBy(h, v, s.log, T);
      CoversGrows(h, h', i, T, v, s.log, s.log, T, T - 1, n);
    }
  }

  lemma NotDroppedBy(h: History, v: int, l: seq<Entry>, T: int)
    requires Covers(h, v, l, T, T) && T !in h.reigns
    ensures Covers(h, v, l, T, T - 1)
  {
    forall t, j | t < T && AckedAt(h, v, t, j)
      ensures Holds(h, l, t, j) || Dropped(h, t, j, T - 1)
    {
      if !Holds(h, l, t, j) {
        var u :| t < u <= T && u in h.reigns && !Holds(h, h.reigns[u].log, t, j);
        assert u <= T - 1;
      }
    }
  }

  lemma NewLeaderLog(h: History, n: nat, i: int, s: Peer, h': History)
    requires PeerLog(s, h, n) && Grows(h, h', i, s.term) && HistoryInv(h, n)
    ensures PeerLog(BecomeLeader(s.(voteCount := s.voteCount + 1)), h', n)
  {
    BackedGrows(h, h', i, s.log);
    CommittedGrows(h, h', i, s.term, n, s.log, s.log, s.commit, s.term, s.term);
  }

  lemma NewLeaderAcks(h: History, n: nat, returned: set<(int, int, int)>, i: int, s: Peer, h': History)
    requires HistoryInv(h, n) && PeerLog(s, h, n) && PeerAcks(i, s, h) && Grows(h, h', i, s.term)
    requires h' == WithReign(h, n, i, s, returned) && s.term !in h.reigns
    ensures PeerAcks(i, BecomeLeader(s.(voteCount := s.voteCount + 1)), h')
  {
    var T := s.term;
    assert Covers(h, i, s.log, T, T);
    CoversGrows(h, h', i, T, i, s.log, s.log, T, T, n);
  }

  lemma NewLeader(h: History, n: nat, returned: set<(int, int, int)>, returned': set<(int, int, int)>, i: int, s: Peer,
                  h': History)
    requires HistoryInv(h, n) && PeerInv(i, s, h, n, returned) && 0 <= i < n && returned <= returned'
    requires (i, s.term) in h.campaigns && s.term !in h.reigns
    requires h' == WithReign(h, n, i, s, returned') && Grows(h, h', i, s.term)
    requires s.voteCount + 1 <= 1 + |Supporters(h, n, returned', i, s.term)|
    ensures PeerInv(i, BecomeLeader(s.(voteCount := s.voteCount + 1)), h', n, returned')
  {
    var T := s.term;
    var s' := BecomeLeader(s.(voteCount := s.voteCount + 1));
    NewLeaderLog(h, n, i, s, h');
    NewLeaderAcks(h, n, returned', i, s, h');
    assert Supporters(h', n, returned', i, T) == Supporters(h, n, returned', i, T);
    assert PeerCampaign(i, s', h', n, returned');
  }

  lemma WinningVote(h: History, n: nat, returned: set<(int, int, int)>, i: int, s: Peer, v: int, s': Peer, h': History)
    requires HistoryInv(h, n) && PeerInv(i, s, h, n, returned) && 0 <= i < n
    requires ReturnedOk(returned)
    requires (i, s.term) in h.campaigns && 0 <= v < n && v != i && (i, s.term, v) !in returned
    requires (s.term, v) in h.votes && h.votes[(s.term, v)] == i
    requires s.voteCount + 1 > n / 2 && s' == BecomeLeader(s.(voteCount := s.voteCount + 1))
    requires h' == if s.term in h.reigns then h else WithReign(h, n, i, s, returned + {(i, s.term, v)})
    ensures Grows(h, h', i, s.term) && HistoryInv(h', n)
    ensures PeerInv(i, s', h', n, returned + {(i, s.term, v)})
  {
    var returned' := returned + {(i, s.term, v)};
    NewSupporter(h, n, returned, i, s.term, v);
    var E := Supporters(h, n, returned', i, s.term) + {i};
    assert CampaignOk(h, n, i, s.term);
    if s.term !in h.reigns {
      NewReign(h, n, returned, returned', i, s, h');
      NewLeader(h, n, returned, returned', i, s, h');
    } else {
      OneWinner(h, n, i, s.term, E);
      GrowsRefl(h, i, s.term);
      VolatileStep(h, n, returned, returned', i, s, s');
    }
  }

  lemma OtherVote(h: History, n: nat, returned: set<(int, int, int)>, i: int, s: Peer, r: VoteRep)
    requires HistoryInv(h, n) && PeerInv(i, s, h, n, returned) && 0 <= i < n && r.args.candidate == i
    requires ReturnedOk(returned)
    requires 0 <= r.voter < n && r.voter != i && (i, r.args.term, r.voter) !in returned
    requires r.reply.granted ==> (r.args.term, r.voter) in h.votes && h.votes[(r.args.term, r.voter)] == i
    requires !Wins(s, n, r)
    ensures PeerInv(i, OnVoteReply(s, n, r.args, r.reply), h, n, returned + {(i, r.args.term, r.voter)})
  {
    var returned' := returned + {(i, r.args.term, r.voter)};
    if CountsVote(s, n, r.args, r.reply) {
      NewSupporter(h, n, returned, i, s.term, r.voter);
    } else {
      GrowsRefl(h, i, s.term);
      SupportersGrow(h, h, i, s.term, n, returned, returned', i, s.term);
    }
    VolatileStep(h, n, returned, returned', i, s, OnVoteReply(s, n, r.args, r.reply));
  }

  lemma VoteReturnsKeeps(sys: System, h: History, r: VoteRep)
    requires Inv(sys, h) && Shape(sys) && Enabled(sys, VoteReturns(r))
    ensures Keeps(sys, h, VoteReturns(r))
  {
    var i, n := r.args.candidate, |sys.peers|;
    var s := sys.peers[i];
    assert VoteRepOk(r, sys.voteReqs, h, n) && VoteReqOk(r.args, h);
    VoteReturnsInv(sys, h, r, Apply(sys, VoteReturns(r)), Remember(sys, h, VoteReturns(r)));
  }

  lemma VoteReturnsInv(sys: System, h: History, r: VoteRep, sys': System, h': History)
    requires Inv(sys, h) && IsPeer(sys, r.args.candidate)
    requires VoteRepOk(r, sys.voteReqs, h, |sys.peers|) && VoteReqOk(r.args, h)
    requires var i, n, s := r.args.candidate, |sys.peers|, sys.peers[r.args.candidate];
      var returned' := sys.returned + {(i, r.args.term, r.voter)};
      && (i, r.args.term, r.voter) !in sys.returned
      && sys' == sys.(peers := sys.peers[i := OnVoteReply(s, n, r.args, r.reply)], returned := returned')
      && h' == (if Wins(s, n, r) && s.term !in h.reigns then WithReign(h, n, i, s, returned') else h)
    ensures Inv(sys', h') && Grows(h, h', r.args.candidate, sys.peers[r.args.candidate].term)
  {
    var i, n := r.args.candidate, |sys.peers|;
    var s := sys.peers[i];
    assert PeerInv(i, s, h, n, sys.returned);
    CountedPeer(h, n, sys.returned, i, s, r, h');
    NetKept(sys, h, h', i, s.term);
    StepInv(sys, sys', h, h', i, sys'.peers[i]);
  }

  lemma CountedPeer(h: History, n: nat, returned: set<(int, int, int)>, i: int, s: Peer, r: VoteRep, h': History)
    requires HistoryInv(h, n) && PeerInv(i, s, h, n, returned) && 0 <= i < n && r.args.candidate == i
    requires ReturnedOk(returned) && VoteReqOk(r.args, h)
    requires 0 <= r.voter < n && r.voter != i && (i, r.args.term, r.voter) !in returned
    requires r.reply.granted ==> (r.args.term, r.voter) in h.votes && h.votes[(r.args.term, r.voter)] == i
    requires h' ==
      if Wins(s, n, r) && s.term !in h.reigns then WithReign(h, n, i, s, returned + {(i, r.args.term, r.voter)}) else h
    ensures Grows(h, h', i, s.term) && HistoryInv(h', n)
    ensures PeerInv(i, OnVoteReply(s, n, r.args, r.reply), h', n, returned + {(i, r.args.term, r.voter)})
  {
    if Wins(s, n, r) {
      WinningVote(h, n, returned, i, s, r.voter, OnVoteReply(s, n, r.args, r.reply), h');
    } else {
      GrowsRefl(h, i, s.term);
      OtherVote(h, n, returned, i, s, r);
    }
  }
}
