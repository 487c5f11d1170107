/** The invariant of the cluster: one part per peer, one for the network, one for the history. */
module RaftInvariant {
  import opened RaftSpec
  import opened RaftSystem
  import opened RaftHistory
  import opened Sets

  // ---- one peer ----

  ghost predicate PeerLog(s: Peer, h: History, n: nat) {
    && WellFormed(s, n)
    && Backed(h.reigns, s.log) && LastTerm(s.log) <= s.term
    && Committed(h, n, s.log, s.commit, s.term)
  }

  ghost predicate PeerVote(i: int, s: Peer, h: History) {
    && (forall t | (t, i) in h.votes :: t <= s.term)
    && ((s.term, i) in h.votes <==> s.votedFor != NOBODY)
    && (s.votedFor != NOBODY ==> h.votes[(s.term, i)] == s.votedFor)
  }

  ghost predicate PeerCampaign(i: int, s: Peer, h: History, n: nat, returned: set<(int, int, int)>) {
    && (forall t | (i, t) in h.campaigns :: t <= s.term)
    && ((i, s.term) in h.campaigns ==>
          && s.voteCount <= 1 + |Supporters(h, n, returned, i, s.term)|
          && (s.term !in h.reigns ==> s.log == h.campaigns[(i, s.term)]))
  }

  ghost predicate Reigns(i: int, s: Peer, h: History) {
    s.term in h.reigns && h.reigns[s.term].winner == i
  }

  ghost predicate PeerReign(i: int, s: Peer, h: History, n: nat) {
    && (s.role == Leader ==> Reigns(i, s, h))
    && (Reigns(i, s, h) ==> s.log == h.reigns[s.term].log && |s.matchIndex| == n)
    && (Reigns(i, s, h) ==> forall p | 0 <= p < n && p != i ::
          s.matchIndex[p] <= s.commit || ((p, s.term) in h.acks && s.matchIndex[p] <= h.acks[(p, s.term)]))
  }

  ghost predicate PeerAcks(i: int, s: Peer, h: History) {
    && (forall t | (i, t) in h.acks :: t <= s.term)
    && Covers(h, i, s.log, s.term + 1, s.term)
  }

  ghost predicate PeerInv(i: int, s: Peer, h: History, n: nat, returned: set<(int, int, int)>) {
    PeerLog(s, h, n) && PeerVote(i, s, h) && PeerCampaign(i, s, h, n, returned)
    && PeerReign(i, s, h, n) && PeerAcks(i, s, h)
  }

  // ---- the network ----

  ghost predicate VoteReqOk(a: VoteArgs, h: History) {
    && (a.candidate, a.term) in h.campaigns
    && var l := h.campaigns[(a.candidate, a.term)];
      |l| > 0 && a.lastLogIndex == |l| && a.lastLogTerm == LastTerm(l)
  }

  ghost predicate VoteRepOk(r: VoteRep, voteReqs: set<VoteArgs>, h: History, n: nat) {
    && r.args in voteReqs && r.voter != r.args.candidate && 0 <= r.voter < n
    && (r.reply.granted ==>
          (r.args.term, r.voter) in h.votes && h.votes[(r.args.term, r.voter)] == r.args.candidate)
  }

  /** An append message is a stretch of its leader's log, reaching at least to leaderCommit. */
  ghost predicate AppendReqOk(q: AppendReq, h: History, n: nat) {
    var a := q.args;
    && a.term in h.reigns && h.reigns[a.term].winner == a.leader
    && 0 <= q.to < n && q.to != a.leader
    && var L := h.reigns[a.term].log;
      && Stretch(L, a.prevLogIndex, a.entries)
      && a.prevLogTerm == L[a.prevLogIndex].term
      && a.leaderCommit <= a.prevLogIndex + |a.entries|
      && Committed(h, n, L, a.leaderCommit, a.term)
  }

  ghost predicate AppendRepOk(r: AppendRep, appendReqs: set<AppendReq>, h: History) {
    && AppendReq(r.from, r.args) in appendReqs
    && (r.reply.success ==>
          (r.from, r.args.term) in h.acks && r.args.prevLogIndex + |r.args.entries| <= h.acks[(r.from, r.args.term)])
  }

  /** A message handed up carries an entry that was chosen. */
  ghost predicate HandedOk(m: Handed, h: History, n: nat) {
    m.index >= 1 && exists t, i :: Chosen(h, n, t, i) && m.index <= i && h.reigns[t].log[m.index] == m.entry
  }

  ghost predicate VoteReqsOk(voteReqs: set<VoteArgs>, h: History) {
    forall a {:trigger VoteReqOk(a, h)} | a in voteReqs :: VoteReqOk(a, h)
  }

  ghost predicate VoteRepsOk(voteReps: set<VoteRep>, voteReqs: set<VoteArgs>, h: History, n: nat) {
    forall r {:trigger VoteRepOk(r, voteReqs, h, n)} | r in voteReps :: VoteRepOk(r, voteReqs, h, n)
  }

  ghost predicate ReturnedOk(returned: set<(int, int, int)>) { forall c, t, v | (c, t, v) in returned :: v != c }

  ghost predicate AppendReqsOk(appendReqs: set<AppendReq>, h: History, n: nat) {
    forall q {:trigger AppendReqOk(q, h, n)} | q in appendReqs :: AppendReqOk(q, h, n)
  }

  ghost predicate AppendRepsOk(appendReps: set<AppendRep>, appendReqs: set<AppendReq>, h: History) {
    forall r {:trigger AppendRepOk(r, appendReqs, h)} | r in appendReps :: AppendRepOk(r, appendReqs, h)
  }

  ghost predicate AllHandedOk(handed: set<Handed>, h: History, n: nat) {
    forall m {:trigger HandedOk(m, h, n)} | m in handed :: HandedOk(m, h, n)
  }

  ghost predicate NetInv(sys: System, h: History) {
    var n := |sys.peers|;
    && VoteReqsOk(sys.voteReqs, h) && VoteRepsOk(sys.voteReps, sys.voteReqs, h, n) && ReturnedOk(sys.returned)
    && AppendReqsOk(sys.appendReqs, h, n) && AppendRepsOk(sys.appendReps, sys.appendReqs, h)
    && AllHandedOk(sys.handed, h, n)
  }

  ghost predicate Inv(sys: System, h: History) {
    && 0 < |sys.peers|
    && HistoryInv(h, |sys.peers|)
    && (forall i {:trigger PeerInv(i, sys.peers[i], h, |sys.peers|, sys.returned)} | 0 <= i < |sys.peers| ::
          PeerInv(i, sys.peers[i], h, |sys.peers|, sys.returned))
    && NetInv(sys, h)
  }

  // ---- how the history may grow in one step of peer i, which was in term T ----

  ghost predicate Grown(r: Reign, r': Reign, t: int) {
    && r'.winner == r.winner && r'.electors == r.electors
    && Agree(r.log, r'.log, |r.log|)
    && forall j | |r.log| <= j < |r'.log| :: r'.log[j].term == t
  }

  ghost predicate ReignsGrow(h: History, h': History, i: int) {
    && (forall t {:trigger t in h'.reigns} {:trigger t in h.reigns} | t in h.reigns ::
          && t in h'.reigns && Grown(h.reigns[t], h'.reigns[t], t)
          && (h.reigns[t].winner != i ==> h'.reigns[t] == h.reigns[t]))
    && (forall t | t in h'.reigns && t !in h.reigns :: h'.reigns[t].winner == i)
  }

  ghost predicate Grows(h: History, h': History, i: int, T: int) {
    && ReignsGrow(h, h', i)
    && (forall t, v {:trigger (t, v) in h.votes} {:trigger (t, v) in h'.votes} | (t, v) in h.votes ::
          (t, v) in h'.votes && h'.votes[(t, v)] == h.votes[(t, v)])
    && (forall t, v | (t, v) in h'.votes && (t, v) !in h.votes :: v == i && t >= T)
    && (forall c, t {:trigger (c, t) in h.campaigns} {:trigger (c, t) in h'.campaigns} | (c, t) in h.campaigns ::
          (c, t) in h'.campaigns && h'.campaigns[(c, t)] == h.campaigns[(c, t)])
    && (forall c, t | (c, t) in h'.campaigns && (c, t) !in h.campaigns :: c == i && t >= T)
    && (forall q, t {:trigger (q, t) in h.acks} {:trigger (q, t) in h'.acks} | (q, t) in h.acks ::
          (q, t) in h'.acks && h.acks[(q, t)] <= h'.acks[(q, t)])
    && (forall q, t | (q, t) in h'.acks && (q != i || t < T) :: (q, t) in h.acks && h'.acks[(q, t)] == h.acks[(q, t)])
  }

  lemma BackedGrows(h: History, h': History, i: int, l: seq<Entry>)
    requires ReignsGrow(h, h', i) && Backed(h.reigns, l)
    ensures Backed(h'.reigns, l)
  {
    forall k | 1 <= k < |l|
      ensures BackedAt(h'.reigns, l, k)
    {
      assert BackedAt(h.reigns, l, k);
      var t := l[k].term;
      AgreeTrans(l, h.reigns[t].log, h'.reigns[t].log, k + 1, |h.reigns[t].log|);
    }
  }

  lemma HoldsGrows(h: History, h': History, i: int, l: seq<Entry>, t: int, j: int)
    requires ReignsGrow(h, h', i) && OwnIndex(h, t, j)
    ensures OwnIndex(h', t, j)
    ensures Holds(h, l, t, j) <==> Holds(h', l, t, j)
  {
    var a, b := h.reigns[t].log, h'.reigns[t].log;
    assert Agree(a, b, |a|);
    assert a[j] == b[j];
  }

  lemma DroppedGrows(h: History, h': History, i: int, t: int, j: int, upTo: int)
    requires ReignsGrow(h, h', i) && OwnIndex(h, t, j) && OwnIndex(h', t, j)
    requires Dropped(h, t, j, upTo)
    ensures Dropped(h', t, j, upTo)
  {
    var u :| t < u <= upTo && u in h.reigns && !Holds(h, h.reigns[u].log, t, j);
    HoldsGrows(h, h', i, h.reigns[u].log, t, j);
    HeldBefore(h, h', i, t, j, u);
  }

  /** What a later leader's log holds of an earlier term, it has held from the start. */
  lemma HeldBefore(h: History, h': History, i: int, t: int, j: int, u: int)
    requires ReignsGrow(h, h', i) && OwnIndex(h', t, j) && t < u && u in h.reigns
    ensures u in h'.reigns && (Holds(h', h'.reigns[u].log, t, j) ==> Holds(h', h.reigns[u].log, t, j))
  {
    assert Agree(h.reigns[u].log, h'.reigns[u].log, |h.reigns[u].log|);
  }

  lemma CoversGrows(h: History, h': History, i: int, T: int, q: int, l: seq<Entry>, l': seq<Entry>, below: int,
                    upTo: int, n: nat)
    requires Grows(h, h', i, T) && HistoryInv(h, n)
    requires q != i || below <= T
    requires Covers(h, q, l, below, upTo)
    requires Agree(l, l', |l|)
    ensures Covers(h', q, l', below, upTo)
  {
    forall t, j | t < below && AckedAt(h', q, t, j)
      ensures Holds(h', l', t, j) || Dropped(h', t, j, upTo)
    {
      assert (q, t) in h.acks && h'.acks[(q, t)] == h.acks[(q, t)];
      assert AckOk(h, n, q, t);
      assert Grown(h.reigns[t], h'.reigns[t], t);
      assert AckedAt(h, q, t, j);
      HoldsGrows(h, h', i, l, t, j);
      if Holds(h, l, t, j) {
        assert Holds(h', l, t, j);
      } else {
        DroppedGrows(h, h', i, t, j, upTo);
      }
    }
  }

  lemma ChosenGrows(h: History, h': History, i: int, T: int, n: nat, t: int, j: int)
    requires Grows(h, h', i, T) && Chosen(h, n, t, j)
    ensures Chosen(h', n, t, j)
  {
    HoldsGrows(h, h', i, [], t, j);
    SubsetSize(AckSet(h, n, t, j), AckSet(h', n, t, j));
  }

  lemma CommittedGrows(h: History, h': History, i: int, T: int, n: nat, l: seq<Entry>, l': seq<Entry>, c: int,
                       term: int, term': int)
    requires Grows(h, h', i, T) && Committed(h, n, l, c, term)
    requires term <= term' && Agree(l, l', |l|)
    ensures Committed(h', n, l', c, term')
  {
    if c > 0 {
      var t, j :| ChosenPast(h, n, l, c, term, t, j);
      ChosenGrows(h, h', i, T, n, t, j);
      assert Agree(h.reigns[t].log, h'.reigns[t].log, |h.reigns[t].log|);
      assert ChosenPast(h', n, l', c, term', t, j);
    }
  }

  // ---- what a step of peer i leaves alone ----

  lemma SupportersGrow(h: History, h': History, i: int, T: int, n: nat, returned: set<(int, int, int)>,
                       returned': set<(int, int, int)>, c: int, t: int)
    requires Grows(h, h', i, T) && returned <= returned'
    ensures |Supporters(h, n, returned, c, t)| <= |Supporters(h', n, returned', c, t)|
  {
    SubsetSize(Supporters(h, n, returned, c, t), Supporters(h', n, returned', c, t));
  }

  lemma PeerKept(h: History, h': History, i: int, T: int, n: nat, returned: set<(int, int, int)>,
                 returned': set<(int, int, int)>, j: int, s: Peer)
    requires Grows(h, h', i, T) && HistoryInv(h, n) && j != i && returned <= returned'
    requires PeerInv(j, s, h, n, returned)
    ensures PeerInv(j, s, h', n, returned')
  {
    BackedGrows(h, h', i, s.log);
    CommittedGrows(h, h', i, T, n, s.log, s.log, s.commit, s.term, s.term);
    SupportersGrow(h, h', i, T, n, returned, returned', j, s.term);
    CoversGrows(h, h', i, T, j, s.log, s.log, s.term + 1, s.term, n);
    assert PeerVote(j, s, h');
    assert PeerCampaign(j, s, h', n, returned');
    assert PeerReign(j, s, h', n);
  }

  lemma AppendReqKept(h: History, h': History, i: int, T: int, n: nat, q: AppendReq)
    requires Grows(h, h', i, T) && AppendReqOk(q, h, n)
    ensures AppendReqOk(q, h', n)
  {
    var a := q.args;
    var L, L' := h.reigns[a.term].log, h'.reigns[a.term].log;
    assert Agree(L, L', |L|);
    CommittedGrows(h, h', i, T, n, L, L', a.leaderCommit, a.term, a.term);
  }

  lemma HandedKept(h: History, h': History, i: int, T: int, n: nat, m: Handed)
    requires Grows(h, h', i, T) && HandedOk(m, h, n)
    ensures HandedOk(m, h', n)
  {
    var t, j :| Chosen(h, n, t, j) && m.index <= j && h.reigns[t].log[m.index] == m.entry;
    ChosenGrows(h, h', i, T, n, t, j);
    assert Agree(h.reigns[t].log, h'.reigns[t].log, |h.reigns[t].log|);
  }

  lemma VotesKept(voteReqs: set<VoteArgs>, voteReps: set<VoteRep>, h: History, h': History, i: int, T: int, n: nat)
    requires Grows(h, h', i, T) && VoteReqsOk(voteReqs, h) && VoteRepsOk(voteReps, voteReqs, h, n)
    ensures VoteReqsOk(voteReqs, h') && VoteRepsOk(voteReps, voteReqs, h', n)
  {
    forall a | a in voteReqs ensures VoteReqOk(a, h') { assert VoteReqOk(a, h); }
    forall r | r in voteReps ensures VoteRepOk(r, voteReqs, h', n) { assert VoteRepOk(r, voteReqs, h, n); }
  }

  lemma AppendsKept(appendReqs: set<AppendReq>, appendReps: set<AppendRep>, h: History, h': History, i: int, T: int,
                    n: nat)
    requires Grows(h, h', i, T) && AppendReqsOk(appendReqs, h, n) && AppendRepsOk(appendReps, appendReqs, h)
    ensures AppendReqsOk(appendReqs, h', n) && AppendRepsOk(appendReps, appendReqs, h')
  {
    forall q | q in appendReqs ensures AppendReqOk(q, h', n) { AppendReqKept(h, h', i, T, n, q); }
    forall r | r in appendReps ensures AppendRepOk(r, appendReqs, h') { assert AppendRepOk(r, appendReqs, h); }
  }

  /** The messages already in the network stay sound. */
  lemma NetKept(sys: System, h: History, h': History, i: int, T: int)
    requires NetInv(sys, h) && Grows(h, h', i, T)
    ensures NetInv(sys, h')
  {
    var n := |sys.peers|;
    VotesKept(sys.voteReqs, sys.voteReps, h, h', i, T, n);
    AppendsKept(sys.appendReqs, sys.appendReps, h, h', i, T, n);
    forall m | m in sys.handed ensures HandedOk(m, h', n) { HandedKept(h, h', i, T, n, m); }
  }

  /** More vote requests and replies. */
  lemma VotesMore(voteReqs: set<VoteArgs>, voteReps: set<VoteRep>, newReqs: set<VoteArgs>, newReps: set<VoteRep>,
                  h: History, n: nat)
    requires VoteReqsOk(voteReqs, h) && VoteRepsOk(voteReps, voteReqs, h, n)
    requires VoteReqsOk(newReqs, h) && VoteRepsOk(newReps, voteReqs, h, n)
    ensures VoteReqsOk(voteReqs + newReqs, h) && VoteRepsOk(voteReps + newReps, voteReqs + newReqs, h, n)
  {
    forall r | r in voteReps + newReps ensures VoteRepOk(r, voteReqs + newReqs, h, n) {
      assert VoteRepOk(r, voteReqs, h, n);
    }
    forall a | a in voteReqs + newReqs ensures VoteReqOk(a, h) {}
  }

  /** More append requests and replies. */
  lemma AppendsMore(appendReqs: set<AppendReq>, appendReps: set<AppendRep>, newReqs: set<AppendReq>,
                    newReps: set<AppendRep>, h: History, n: nat)
    requires AppendReqsOk(appendReqs, h, n) && AppendRepsOk(appendReps, appendReqs, h)
    requires AppendReqsOk(newReqs, h, n) && AppendRepsOk(newReps, appendReqs, h)
    ensures AppendReqsOk(appendReqs + newReqs, h, n) && AppendRepsOk(appendReps + newReps, appendReqs + newReqs, h)
  {
    forall r | r in appendReps + newReps ensures AppendRepOk(r, appendReqs + newReqs, h) {
      assert AppendRepOk(r, appendReqs, h);
    }
    forall q | q in appendReqs + newReqs ensures AppendReqOk(q, h, n) {}
  }
}
