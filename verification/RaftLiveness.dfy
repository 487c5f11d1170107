/**
  Nothing that Raft forbids keeps it from working: in a cluster of any size above one there is a run in
  which a leader is elected and a command is committed and handed up at every peer.
 */
module RaftLiveness {
  import opened RaftSpec
  import opened RaftSystem
  import opened RaftProgress
  import opened RaftSafety
  import opened Sets

  /** Some run leads here. */
  ghost predicate Reachable(sys: System) { exists run :: IsRun(run) && run[|run| - 1] == sys }

  ghost predicate Live(sys: System, n: nat) { Reachable(sys) && Shape(sys) && |sys.peers| == n }

  lemma Longer(run: seq<System>, sys': System)
    requires IsRun(run) && Next(run[|run| - 1], sys')
    ensures IsRun(run + [sys']) && Reachable(sys')
  {
    var longer := run + [sys'];
    forall k | 0 <= k < |longer| - 1 ensures Next(longer[k], longer[k + 1]) {
      if k < |run| - 1 { assert Next(run[k], run[k + 1]); }
    }
    assert longer[|longer| - 1] == sys';
  }

  lemma Step(sys: System, n: nat, e: Event)
    requires Live(sys, n) && Enabled(sys, e)
    ensures Live(Apply(sys, e), n) && Apply(sys, e).peers == sys.peers[Actor(e) := After(sys, e)]
  {
    var run :| IsRun(run) && run[|run| - 1] == sys;
    var sys' := Apply(sys, e);
    assert Next(sys, sys');
    Longer(run, sys');
    PeersStayWellFormed(run + [sys'], |run|);
  }

  lemma CommitInLog(sys: System, n: nat, i: int)
    requires Live(sys, n) && 0 <= i < n
    ensures sys.peers[i].commit < |sys.peers[i].log|
  {
    var run :| IsRun(run) && run[|run| - 1] == sys;
    PeersStayWellFormed(run, |run| - 1);
  }

  /** Peer 0 sends to peer j, which handles the message. */
  lemma Deliver(sys: System, n: nat, j: int, a: AppendArgs) returns (sys': System)
    requires Live(sys, n) && Enabled(sys, SendAppend(0, j)) && a == AppendArgsFor(sys.peers[0], 0, j)
    ensures Live(sys', n) && sys'.peers == sys.peers[j := OnAppend(sys.peers[j], a)] && sys'.handed == sys.handed
    ensures AppendRep(a, j, AppendReplyTo(sys.peers[j], a)) in sys'.appendReps
  {
    var sent := Apply(sys, SendAppend(0, j));
    Step(sys, n, SendAppend(0, j));
    var q := AppendReq(j, a);
    assert sent.peers == sys.peers && q in sent.appendReqs;
    sys' := Apply(sent, HandleAppend(q));
    Step(sent, n, HandleAppend(q));
  }

  // ---- an election ----

  const ASKED := VoteArgs(2, 0, 1, -1)

  /** A peer that has heard of no entry and of no term after 2. */
  ghost predicate Idle(s: Peer) { s.log == [ORIGIN] && s.term <= 2 && s.base == s.commit == s.applied == 0 }

  ghost predicate Unasked(sys: System, n: nat, j: int)
    requires |sys.peers| == n && 0 <= j < n
  {
    sys.peers[j] == Fresh(n) && (0, 2, j) !in sys.returned
  }

  /** Peer 0 asks for votes in term 2 and has those of the next v peers. */
  ghost predicate Campaigning(sys: System, n: nat, v: nat) {
    && |sys.peers| == n && 0 < n && ASKED in sys.voteReqs
    && sys.peers[0] == Fresh(n).(term := 2, votedFor := 0, role := Candidate, voteCount := 1 + v)
    && (forall j {:trigger Idle(sys.peers[j])} | 1 <= j < n :: Idle(sys.peers[j]))
    && (forall j {:trigger Unasked(sys, n, j)} | v < j < n :: Unasked(sys, n, j))
  }

  /** Peer 0 leads in term 2, and no log has an entry. */
  ghost predicate Leads(sys: System, n: nat) {
    && |sys.peers| == n && 0 < n && Idle(sys.peers[0]) && sys.peers[0].role == Leader && sys.peers[0].term == 2
    && sys.peers[0].nextIndex == Table(n, 1) && sys.peers[0].matchIndex == Table(n, 0)
    && (forall j {:trigger Idle(sys.peers[j])} | 1 <= j < n :: Idle(sys.peers[j]))
  }

  lemma Starts(n: nat) returns (sys: System)
    requires n > 0
    ensures Live(sys, n) && Campaigning(sys, n, 0)
  {
    var first := System(seq(n, _ => Fresh(n)), {}, {}, {}, {}, {}, {});
    assert Init(first) && IsRun([first]) && [first][0] == first;
    var s1 := Apply(first, Timeout(0));
    Step(first, n, Timeout(0));
    var s2 := Apply(s1, PreVotePassed(0));
    Step(s1, n, PreVotePassed(0));
    assert s2 == first.(peers := first.peers[0 := Fresh(n).(role := Candidate)]);
    sys := Campaigns(first, s2, n);
  }

  lemma Campaigns(first: System, s2: System, n: nat) returns (sys: System)
    requires n > 0 && Init(first) && |first.peers| == n && Live(s2, n)
    requires s2 == first.(peers := first.peers[0 := Fresh(n).(role := Candidate)])
    ensures Live(sys, n) && Campaigning(sys, n, 0)
  {
    sys := Apply(s2, Timeout(0));
    Step(s2, n, Timeout(0));
    forall j | 1 <= j < n ensures Unasked(sys, n, j) && Idle(sys.peers[j]) {
      assert sys.peers[j] == first.peers[j] == Fresh(n);
    }
  }

  /** One more vote. */
  lemma OneVote(sys: System, n: nat, v: nat) returns (sys': System)
    requires Live(sys, n) && Campaigning(sys, n, v) && 1 + v <= n / 2
    ensures Live(sys', n) && if 2 * (2 + v) > n then Leads(sys', n) else Campaigning(sys', n, v + 1)
  {
    var j := v + 1;
    assert Unasked(sys, n, j);
    VoteIsGiven(sys.peers[j], ASKED);
    var mid := Apply(sys, HandleVote(j, ASKED));
    Step(sys, n, HandleVote(j, ASKED));
    var r := VoteRep(ASKED, j, VoteReply(2, true));
    assert r in mid.voteReps && mid.peers[0] == sys.peers[0];
    MajorityWins(mid.peers[0], n, ASKED, r.reply);
    sys' := Apply(mid, VoteReturns(r));
    Step(mid, n, VoteReturns(r));
    forall x | 1 <= x < n ensures Idle(sys'.peers[x]) {
      if x != j { assert Idle(sys.peers[x]) && sys'.peers[x] == sys.peers[x]; }
    }
    forall x | j < x < n ensures Unasked(sys', n, x) {
      assert Unasked(sys, n, x) && sys'.peers[x] == sys.peers[x];
    }
    if 2 * (2 + v) > n {
      assert sys'.peers[0].nextIndex == Table(n, 1) && sys'.peers[0].matchIndex == Table(n, 0);
    }
  }

  lemma {:induction false} Votes(sys: System, n: nat, v: nat) returns (sys': System)
    requires Live(sys, n) && Campaigning(sys, n, v) && 1 + v <= n / 2
    ensures Live(sys', n) && Leads(sys', n)
    decreases n - v
  {
    sys' := OneVote(sys, n, v);
    if 2 * (2 + v) <= n {
      sys' := Votes(sys', n, v + 1);
    }
  }

  // ---- a command ----

  function LogWith(c: Command): seq<Entry> { [ORIGIN, Entry(2, c)] }

  /** Peer 0 leads in term 2 with one entry, which the next v peers have and it knows it. */
  ghost predicate Spreading(sys: System, n: nat, c: Command, v: nat) {
    && |sys.peers| == n && 0 < n && Sender(sys.peers[0], c, n)
    && (forall j {:trigger Has(sys, n, c, j)} | 1 <= j <= v && j < n :: Has(sys, n, c, j))
    && (forall j {:trigger Lacks(sys, n, j)} | v < j < n :: Lacks(sys, n, j))
  }

  /** Only peers before v have handed anything up. */
  ghost predicate Unapplied(sys: System, v: nat) {
    forall j {:trigger Waits(sys, j)} | v <= j < |sys.peers| :: Waits(sys, j)
  }

  ghost predicate Waits(sys: System, j: int)
    requires 0 <= j < |sys.peers|
  {
    sys.peers[j].applied == 0
  }

  ghost predicate Sender(s: Peer, c: Command, n: nat) {
    && s.role == Leader && s.term == 2 && s.log == LogWith(c) && s.base == 0
    && |s.nextIndex| == |s.matchIndex| == n
  }

  ghost predicate Has(sys: System, n: nat, c: Command, j: int)
    requires 0 < |sys.peers| == n && |sys.peers[0].nextIndex| == |sys.peers[0].matchIndex| == n && 0 <= j < n
  {
    var s := sys.peers[j];
    && s.log == LogWith(c) && s.term == 2 && s.base == 0
    && sys.peers[0].nextIndex[j] == 2 && sys.peers[0].matchIndex[j] == 1
  }

  ghost predicate Lacks(sys: System, n: nat, j: int)
    requires 0 < |sys.peers| == n && |sys.peers[0].nextIndex| == |sys.peers[0].matchIndex| == n && 0 <= j < n
  {
    Idle(sys.peers[j]) && sys.peers[0].nextIndex[j] == 1
  }

  lemma Begins(sys: System, n: nat, c: Command) returns (sys': System)
    requires Live(sys, n) && Leads(sys, n)
    ensures Live(sys', n) && Spreading(sys', n, c, 0) && Unapplied(sys', 0)
  {
    sys' := Apply(sys, StartCommand(0, c));
    Step(sys, n, StartCommand(0, c));
    forall j | 1 <= j < n ensures Lacks(sys', n, j) && Waits(sys', j) {
      assert Idle(sys.peers[j]) && sys'.peers[j] == sys.peers[j];
    }
  }

  /** One more peer gets the entry, and the leader hears of it. */
  lemma OneCopy(sys: System, n: nat, c: Command, v: nat) returns (sys': System)
    requires Live(sys, n) && Spreading(sys, n, c, v) && v + 1 < n && Unapplied(sys, 0)
    ensures Live(sys', n) && Spreading(sys', n, c, v + 1) && Unapplied(sys', 0)
    ensures 2 * (2 + v) > n ==> sys'.peers[0].commit == 1
  {
    var j, s := v + 1, sys.peers[0];
    assert Lacks(sys, n, j);
    var a := AppendArgsFor(s, 0, j);
    assert a == AppendArgs(2, 0, 0, -1, [Entry(2, c)], s.commit);
    var taken := Deliver(sys, n, j, a);
    TakesEntry(sys.peers[j], a, c);
    var r := AppendRep(a, j, AppendReply(sys.peers[j].term, true));
    assert r in taken.appendReps && taken.peers[0] == s;
    forall x | 0 <= x < n ensures Waits(taken, x) { assert Waits(sys, x); }
    sys' := Apply(taken, AppendReturns(r));
    Step(taken, n, AppendReturns(r));
    CommitInLog(sys', n, 0);
    Notes(sys, taken, n, c, v, r, sys');
  }

  lemma TakesEntry(s: Peer, a: AppendArgs, c: Command)
    requires Idle(s) && a.term == 2 && a.prevLogIndex == 0 && a.prevLogTerm == -1 && a.entries == [Entry(2, c)]
    ensures AppendReplyTo(s, a) == AppendReply(s.term, true)
    ensures var s' := OnAppend(s, a); s'.log == LogWith(c) && s'.term == 2 && s'.base == s'.applied == 0
  {
    assert MatchLen(s.log, 1, a.entries) == 0;
  }

  lemma Noted(s: Peer, n: nat, c: Command, j: int, a: AppendArgs, r: AppendReply)
    requires WellFormed(s, n) && Sender(s, c, n) && 0 <= j < n
    requires r.success && a.term == 2 && a.prevLogIndex + |a.entries| == 1
    ensures
      var s' := OnAppendReply(s, 0, j, a, r);
      && Sender(s', c, n) && s'.applied == s.applied
      && s'.matchIndex == s.matchIndex[j := 1] && s'.nextIndex == s.nextIndex[j := 2]
  {
  }

  /** What the leader makes of the reply. */
  lemma Notes(sys: System, taken: System, n: nat, c: Command, v: nat, r: AppendRep, sys': System)
    requires Live(taken, n) && Spreading(sys, n, c, v) && v + 1 < n && Enabled(taken, AppendReturns(r))
    requires Unapplied(taken, 0)
    requires taken.peers == sys.peers[v + 1 := taken.peers[v + 1]]
    requires var s := taken.peers[v + 1]; s.log == LogWith(c) && s.term == 2 && s.base == 0
    requires r.from == v + 1 && r.reply.success && r.args.leader == 0 && r.args.term == 2
    requires r.args.prevLogIndex + |r.args.entries| == 1
    requires sys' == Apply(taken, AppendReturns(r)) && sys'.peers[0].commit < |sys'.peers[0].log|
    ensures Spreading(sys', n, c, v + 1) && (2 * (2 + v) > n ==> sys'.peers[0].commit == 1) && Unapplied(sys', 0)
  {
    var s, j := sys.peers[0], v + 1;
    var s' := sys'.peers[0];
    assert sys'.peers == taken.peers[0 := OnAppendReply(s, 0, j, r.args, r.reply)];
    Noted(s, n, c, j, r.args, r.reply);
    forall x | 1 <= x <= j ensures Has(sys', n, c, x) {
      if x < j { assert Has(sys, n, c, x) && sys'.peers[x] == sys.peers[x]; }
    }
    forall x | j < x < n ensures Lacks(sys', n, x) {
      assert Lacks(sys, n, x) && sys'.peers[x] == sys.peers[x];
    }
    forall x | 0 <= x < n ensures Waits(sys', x) { assert Waits(taken, x); }
    if 2 * (2 + v) > n {
      forall x | 1 <= x < j ensures s.matchIndex[x] == 1 { assert Has(sys, n, c, x); }
      assert WellFormed(taken.peers[0], n);
      Commits(s, n, c, v, r.args, r.reply);
    }
  }

  lemma Commits(s: Peer, n: nat, c: Command, v: nat, a: AppendArgs, r: AppendReply)
    requires WellFormed(s, n) && Sender(s, c, n) && v + 1 < n && 2 * (2 + v) > n
    requires forall x | 1 <= x <= v :: s.matchIndex[x] == 1
    requires r.success && a.term == 2 && a.prevLogIndex + |a.entries| == 1
    ensures OnAppendReply(s, 0, v + 1, a, r).commit >= 1
  {
    var others := Range(v + 2) - {0};
    MajorityCommits(s, n, 0, v + 1, a, r, 1, others);
  }

  lemma {:induction false} Copies(sys: System, n: nat, c: Command, v: nat) returns (sys': System)
    requires Live(sys, n) && Spreading(sys, n, c, v) && v + 1 < n && Unapplied(sys, 0)
    ensures Live(sys', n) && Spreading(sys', n, c, n - 1) && sys'.peers[0].commit == 1 && Unapplied(sys', 0)
    decreases n - v
  {
    sys' := OneCopy(sys, n, c, v);
    if v + 2 < n {
      sys' := Copies(sys', n, c, v + 1);
    }
  }

  // ---- everybody hears of it ----

  /** All peers have the entry, the leader has committed it, and the first v peers have handed it up. */
  ghost predicate Settled(sys: System, n: nat, c: Command, v: nat) {
    && 0 < n && Spreading(sys, n, c, n - 1) && sys.peers[0].commit == 1 && Unapplied(sys, v)
    && forall j {:trigger Handed(j, 1, Entry(2, c))} | 0 <= j < v :: Handed(j, 1, Entry(2, c)) in sys.handed
  }

  lemma HandsUp(sys: System, n: nat, c: Command, j: int) returns (sys': System)
    requires Live(sys, n) && 0 <= j < n && sys.peers[j].log == LogWith(c) && sys.peers[j].commit == 1
    requires sys.peers[j].base == sys.peers[j].applied == 0
    ensures Live(sys', n) && sys' == sys.(peers := sys'.peers, handed := sys'.handed)
    ensures sys'.peers == sys.peers[j := sys.peers[j].(applied := 1)]
    ensures sys.handed <= sys'.handed && Handed(j, 1, Entry(2, c)) in sys'.handed
  {
    sys' := Apply(sys, HandUp(j, 1));
    Step(sys, n, HandUp(j, 1));
    assert Handed(j, 1, sys.peers[j].log[1]) in Buffer(sys.peers[j], j);
  }

  /** Another message tells a peer what is committed. */
  lemma OneMore(sys: System, n: nat, c: Command, v: nat) returns (sys': System)
    requires Live(sys, n) && Settled(sys, n, c, v) && 1 <= v < n
    ensures Live(sys', n) && Settled(sys', n, c, v + 1)
  {
    assert Has(sys, n, c, v) && Waits(sys, v);
    var s := sys.peers[0];
    var a := AppendArgsFor(s, 0, v);
    assert a == AppendArgs(2, 0, 1, 2, [], 1);
    var taken := Deliver(sys, n, v, a);
    CommitInLog(sys, n, v);
    Learns(sys.peers[v], a, c);
    sys' := HandsUp(taken, n, c, v);
    StillSettled(sys, sys', n, c, v);
  }

  lemma StillSettled(sys: System, sys': System, n: nat, c: Command, v: nat)
    requires Settled(sys, n, c, v) && 1 <= v < n && |sys'.peers| == n
    requires forall x | 0 <= x < n && x != v :: sys'.peers[x] == sys.peers[x]
    requires var s := sys'.peers[v]; s.log == LogWith(c) && s.term == 2 && s.base == 0
    requires sys.handed <= sys'.handed && Handed(v, 1, Entry(2, c)) in sys'.handed
    ensures Settled(sys', n, c, v + 1)
  {
    forall j | 1 <= j < n ensures Has(sys', n, c, j) { assert Has(sys, n, c, j); }
    forall j | v < j < n ensures Waits(sys', j) { assert Waits(sys, j); }
  }

  lemma Learns(s: Peer, a: AppendArgs, c: Command)
    requires s.log == LogWith(c) && s.term == 2 && s.base == 0 && s.commit < |s.log|
    requires a == AppendArgs(2, 0, 1, 2, [], 1)
    ensures var s' := OnAppend(s, a);
      s'.log == s.log && s'.commit == 1 && s'.term == 2 && s'.base == 0 && s'.applied == s.applied
  {
    assert MatchLen(s.log, 2, a.entries) == 0;
  }

  lemma {:induction false} Everybody(sys: System, n: nat, c: Command, v: nat) returns (sys': System)
    requires Live(sys, n) && Settled(sys, n, c, v) && 1 <= v <= n
    ensures Live(sys', n) && Settled(sys', n, c, n)
    decreases n - v
  {
    sys' := sys;
    if v < n {
      sys' := OneMore(sys, n, c, v);
      sys' := Everybody(sys', n, c, v + 1);
    }
  }

  lemma LeaderHandsUp(sys: System, n: nat, c: Command) returns (sys': System)
    requires 0 < n && Live(sys, n) && Spreading(sys, n, c, n - 1) && sys.peers[0].commit == 1 && Unapplied(sys, 0)
    ensures Live(sys', n) && Settled(sys', n, c, 1)
  {
    assert Waits(sys, 0);
    sys' := HandsUp(sys, n, c, 0);
    forall j | 1 <= j < n ensures Has(sys', n, c, j) && Waits(sys', j) {
      assert Has(sys, n, c, j) && Waits(sys, j) && sys'.peers[j] == sys.peers[j];
    }
  }

  /** Every peer has handed the command up. */
  ghost predicate AllHave(sys: System, n: nat, c: Command) {
    forall i {:trigger HandedBy(sys, i, c)} | 0 <= i < n :: HandedBy(sys, i, c)
  }

  ghost predicate HandedBy(sys: System, i: int, c: Command) {
    exists a :: a in sys.handed && a.peer == i && a.entry.command == c
  }

  /** In a cluster of two or more peers every command can be handed up at every peer. */
  lemma EveryCommandCanBeHandedUp(n: nat, c: Command)
    requires n >= 2
    ensures exists run: seq<System> :: IsRun(run) && |run[0].peers| == n && AllHave(run[|run| - 1], n, c)
  {
    var sys := Starts(n);
    sys := Votes(sys, n, 0);
    sys := Begins(sys, n, c);
    sys := Copies(sys, n, c, 0);
    sys := LeaderHandsUp(sys, n, c);
    sys := Everybody(sys, n, c, 1);
    var run :| IsRun(run) && run[|run| - 1] == sys;
    forall i | 0 <= i < n ensures HandedBy(sys, i, c) {
      assert Handed(i, 1, Entry(2, c)) in sys.handed;
    }
    SameSize(run, |run| - 1);
  }

  lemma {:induction false} SameSize(run: seq<System>, k: nat)
    requires IsRun(run) && k < |run|
    ensures |run[k].peers| == |run[0].peers|
  {
    if k > 0 {
      SameSize(run, k - 1);
      assert Next(run[k - 1], run[k]);
    }
  }
}
