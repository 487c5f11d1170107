/**
  One Raft peer as the implementation keeps it: a log cut off at lastIncludedIndex, whose slot 0
  holds the entry at that index, and arrays for nextIndex and matchIndex. Every method is what
  one handler does while it holds the lock; it is proved to act on the whole log, compacted
  prefix included, exactly as the functions of RaftSpec say, and to leave the persisted state
  equal to the state in memory.
 */
module RaftPeer {
  import opened Options
  import opened RaftSpec

  datatype Saved =
    | NoState
    | State(term: int, votedFor: int, log: seq<Entry>, lastIncludedIndex: int, lastIncludedTerm: int)

  datatype Message = Message(to: int, args: AppendArgs)

  ghost predicate Addressed(messages: seq<Message>, p: int) { exists m :: m in messages && m.to == p }

  lemma AddressedMore(messages: seq<Message>, m: Message)
    ensures Addressed(messages + [m], m.to) && forall p | Addressed(messages, p) :: Addressed(messages + [m], p)
    ensures forall x :: x in messages + [m] <==> x in messages || x == m
    ensures forall i | 0 <= i < |messages| :: messages[i] in messages
  {
    assert m in messages + [m];
    forall p | Addressed(messages, p) ensures Addressed(messages + [m], p) {
      var x :| x in messages && x.to == p;
      assert x in messages + [m];
    }
  }

  /** The message that a leader has for one of the others, who is not behind the snapshot point. */
  ghost predicate Suits(s: Peer, me: int, m: Message) {
    && 0 <= m.to < |s.nextIndex| && m.to != me
    && s.base <= PrevFor(s, m.to) < |s.log| && m.args == AppendArgsFor(s, me, m.to)
  }

  datatype ApplyMsg = ApplyMsg(command: Command, index: int, term: int)

  /** What a restarted peer is made of: the saved state and the ghost of the compacted prefix. */
  ghost function Restarted(saved: Saved, dropped: seq<Entry>, n: nat): Peer {
    match saved
    case NoState => Fresh(n)
    case State(term, votedFor, log, base, _) =>
      Peer(term, votedFor, dropped + log, base, base, base, Follower, 0,
           Table(n, base + |log|), Table(n, base))
  }

  ghost predicate SavedOk(saved: Saved, dropped: seq<Entry>) {
    match saved
    case NoState => dropped == []
    case State(term, _, log, base, baseTerm) =>
      1 <= term && |dropped| == base && |log| > 0 && log[0].term == baseTerm
  }

  /** The saved state determines the term, the vote, the log and the snapshot point. */
  ghost predicate Saves(saved: Saved, dropped: seq<Entry>, s: Peer) {
    match saved
    case NoState => s.term == 1 && s.votedFor == NOBODY && s.log == [ORIGIN] && s.base == 0
    case State(term, votedFor, log, base, _) =>
      s.term == term && s.votedFor == votedFor && s.log == dropped + log && s.base == base
  }

  /** Restarting from what is persisted loses nothing but volatile state. */
  lemma RestartIsLossless(saved: Saved, dropped: seq<Entry>, s: Peer, n: nat)
    requires SavedOk(saved, dropped) && Saves(saved, dropped, s) && |s.nextIndex| == |s.matchIndex| == n
    ensures Restarted(saved, dropped, n) == OnRestart(s)
  {
    var r, t := Restarted(saved, dropped, n), OnRestart(s);
    assert r.nextIndex == t.nextIndex && r.matchIndex == t.matchIndex;
  }

  /** The first m entries are in the log behind position at. */
  ghost predicate Same(log: seq<Entry>, at: nat, entries: seq<Entry>, m: nat)
    requires m <= |entries| && at + m < |log|
  {
    forall j {:trigger entries[j]} | 0 <= j < m :: log[at + 1 + j].term == entries[j].term
  }

  ghost predicate EndsAt(log: seq<Entry>, at: nat, entries: seq<Entry>, m: nat)
    requires m <= |entries| && at + m < |log|
  {
    m == |entries| || at + 1 + m == |log| || log[at + 1 + m].term != entries[m].term
  }

  /** Stopping the merge at the first entry that is not already there. */
  lemma MergeAt(log: seq<Entry>, prev: nat, entries: seq<Entry>, m: nat)
    requires m <= |entries| && prev + m < |log| && Same(log, prev, entries, m) && EndsAt(log, prev, entries, m)
    ensures Merge(log, prev, entries) == if m == |entries| then log else log[..prev + 1 + m] + entries[m..]
  {
    assert MatchLen(log, prev + 1, entries) == m;
  }

  lemma SameOffset(dropped: seq<Entry>, log: seq<Entry>, at: nat, entries: seq<Entry>, m: nat)
    requires m <= |entries| && at + m < |log| && Same(log, at, entries, m) && EndsAt(log, at, entries, m)
    ensures Same(dropped + log, |dropped| + at, entries, m) && EndsAt(dropped + log, |dropped| + at, entries, m)
  {
    var full, prev := dropped + log, |dropped| + at;
    forall j | 0 <= j < m ensures full[prev + 1 + j].term == entries[j].term {
      assert full[prev + 1 + j] == log[at + 1 + j];
    }
    assert m < |entries| && at + 1 + m < |log| ==> full[prev + 1 + m] == log[at + 1 + m];
  }

  /** The same on the log without its compacted prefix. */
  lemma MergeOffset(dropped: seq<Entry>, log: seq<Entry>, at: nat, entries: seq<Entry>, m: nat)
    requires m <= |entries| && at + m < |log| && Same(log, at, entries, m) && EndsAt(log, at, entries, m)
    ensures Merge(dropped + log, |dropped| + at, entries)
         == dropped + (if m == |entries| then log else log[..at + 1 + m] + entries[m..])
  {
    SameOffset(dropped, log, at, entries, m);
    MergeAt(dropped + log, |dropped| + at, entries, m);
    assert (dropped + log)[..|dropped| + at + 1 + m] == dropped + log[..at + 1 + m];
  }

  class RaftPeer {
    const me: int
    const n: nat
    var currentTerm: int
    var votedFor: int
    var log: seq<Entry>
    var commitIndex: int
    var lastApplied: int
    const nextIndex: array<int>
    const matchIndex: array<int>
    var role: Role
    var voteCount: int
    var lastIncludedIndex: int
    var lastIncludedTerm: int
    var saved: Saved
    ghost var dropped: seq<Entry>  // the entries before slot 0

    ghost predicate Valid()
      reads this, nextIndex, matchIndex
    {
      && 0 <= me < n && nextIndex.Length == matchIndex.Length == n && nextIndex != matchIndex
      && |dropped| == lastIncludedIndex && |log| > 0 && log[0].term == lastIncludedTerm
      && WellFormed(View(), n)
    }

    /** The persisted state is the state in memory. */
    ghost predicate Persisted()
      reads this
    {
      match saved
      case NoState =>
        && currentTerm == 1 && votedFor == NOBODY && log == [ORIGIN]
        && lastIncludedIndex == 0 && lastIncludedTerm == -1 && dropped == []
      case State(_, _, _, _, _) => saved == State(currentTerm, votedFor, log, lastIncludedIndex, lastIncludedTerm)
    }

    ghost function View(): Peer
      reads this, nextIndex, matchIndex
    {
      Peer(currentTerm, votedFor, dropped + log, lastIncludedIndex, commitIndex, lastApplied,
           role, voteCount, nextIndex[..], matchIndex[..])
    }

    function RealLogIdx(v: int): int
      reads this
    {
      v - lastIncludedIndex
    }

    function VirtualLogIdx(r: int): int
      reads this
    {
      r + lastIncludedIndex
    }

    constructor Make(n: nat, me: int, saved: Saved, ghost dropped: seq<Entry>)
      requires 0 <= me < n && SavedOk(saved, dropped)
      ensures Valid() && Persisted() && fresh(nextIndex) && fresh(matchIndex)
      ensures this.n == n && this.me == me && this.saved == saved
      ensures View() == Restarted(saved, dropped, n)
    {
      this.n, this.me, this.saved, this.dropped := n, me, saved, dropped;
      role, currentTerm, votedFor, log := Follower, 1, NOBODY, [ORIGIN];
      commitIndex, lastApplied, voteCount := 0, 0, 0;
      lastIncludedIndex, lastIncludedTerm := 0, -1;
      nextIndex, matchIndex := new int[n], new int[n];
      new;
      ReadPersist();
      ResetTables(lastIncludedIndex);
      assert View() == Restarted(saved, dropped, n);
    }

    /** Take over what was stored, if anything was. */
    method ReadPersist()
      modifies this`votedFor, this`currentTerm, this`log, this`lastIncludedIndex, this`lastIncludedTerm,
        this`commitIndex, this`lastApplied
      ensures if saved.State? then
          && saved == State(currentTerm, votedFor, log, lastIncludedIndex, lastIncludedTerm)
          && commitIndex == lastApplied == lastIncludedIndex
        else
          unchanged(this)
    {
      match saved
      case NoState =>
      case State(term, vote, entries, base, baseTerm) =>
        votedFor, currentTerm, log := vote, term, entries;
        lastIncludedIndex, lastIncludedTerm := base, baseTerm;
        commitIndex, lastApplied := base, base;
    }

    /** Point every follower past the end of the log, with the given index known to match. */
    method ResetTables(matched: int)
      requires nextIndex.Length == matchIndex.Length == n && nextIndex != matchIndex
      modifies nextIndex, matchIndex
      ensures nextIndex[..] == Table(n, lastIncludedIndex + |log|) && matchIndex[..] == Table(n, matched)
    {
      var i := 0;
      while i < nextIndex.Length
        invariant 0 <= i <= n
        invariant forall k | 0 <= k < i :: nextIndex[k] == VirtualLogIdx(|log|) && matchIndex[k] == matched
      {
        nextIndex[i] := VirtualLogIdx(|log|);
        matchIndex[i] := matched;
        i := i + 1;
      }
    }

    method Persist()
      modifies this`saved
      ensures saved == State(currentTerm, votedFor, log, lastIncludedIndex, lastIncludedTerm)
    {
      saved := State(currentTerm, votedFor, log, lastIncludedIndex, lastIncludedTerm);
    }

    // ---- elections ----

    /** A term above the peer's own is adopted: the vote is forgotten and the peer steps down. */
    method AdoptTerm(term: int)
      requires Valid() && Persisted()
      modifies this`currentTerm, this`role, this`votedFor, this`saved
      ensures Valid() && Persisted() && View() == Adopt(old(View()), term)
    {
      if term > currentTerm {
        currentTerm := term;
        role := Follower;
        votedFor := NOBODY;
        Persist();
      }
    }

    method RequestVote(a: VoteArgs) returns (reply: VoteReply)
      requires Valid() && Persisted()
      modifies this
      ensures Valid() && Persisted() && dropped == old(dropped)
      ensures View() == OnRequestVote(old(View()), a)
      ensures reply == VoteReplyTo(old(View()), a)
    {
      assert View().log[|View().log| - 1] == log[|log| - 1];
      reply := VoteReply(currentTerm, false);
      if a.term < currentTerm { return; }
      AdoptTerm(a.term);
      if votedFor == NOBODY || votedFor == a.candidate {
        if a.lastLogTerm > log[|log| - 1].term
           || (a.lastLogTerm == log[|log| - 1].term && a.lastLogIndex >= VirtualLogIdx(|log|)) {
          currentTerm := a.term;
          role := Follower;
          reply := VoteReply(currentTerm, true);
          votedFor := a.candidate;
          Persist();
        }
      }
    }

    /** The part of sendRequestVote after the call has returned. */
    method VoteReturned(a: VoteArgs, r: VoteReply)
      requires Valid() && Persisted()
      modifies this, nextIndex, matchIndex
      ensures Valid() && Persisted() && dropped == old(dropped)
      ensures View() == OnVoteReply(old(View()), n, a, r)
    {
      if r.term == 0 || currentTerm != a.term { return; }
      if r.granted {
        if role == Follower || role == PreCandidate { return; }
        if voteCount > n / 2 { return; }
        voteCount := voteCount + 1;
        if voteCount > n / 2 {
          role := Leader;
          ResetTables(0);
        }
      } else {
        role := Follower;
      }
    }

    /** The election timer fires at a peer that is not the leader. */
    method ElectionTimeout() returns (request: Option<VoteArgs>)
      requires Valid() && Persisted() && role != Leader
      modifies this
      ensures Valid() && Persisted() && dropped == old(dropped)
      ensures old(role) == Follower ==> View() == old(View()).(role := PreCandidate)
      ensures old(role) == PreCandidate ==> View() == old(View())
      ensures old(role) == Candidate ==> View() == Campaign(old(View()), me)
      ensures request == if old(role) == Candidate then Some(VoteArgsOf(View(), me)) else None
    {
      request := None;
      match role {
        case Follower => role := PreCandidate;
        case Candidate =>
          currentTerm := currentTerm + 1;
          votedFor := me;
          voteCount := 1;
          Persist();
          request := Some(VoteArgs(currentTerm, me, VirtualLogIdx(|log|), log[|log| - 1].term));
        case _ =>
      }
    }

    // ---- replication ----

    method Start(command: Command) returns (index: int, term: int, isLeader: bool)
      requires Valid() && Persisted()
      modifies this, nextIndex
      ensures Valid() && Persisted() && dropped == old(dropped)
      ensures View() == OnStart(old(View()), me, command)
      ensures isLeader == (old(role) == Leader)
      ensures log == old(log) + if isLeader then [Entry(currentTerm, command)] else []
      ensures if isLeader then index == LastIndex(View()) && term == currentTerm else index == term == -1
    {
      if role != Leader { return -1, -1, false; }
      var entry := Entry(currentTerm, command);
      log := log + [entry];
      nextIndex[me] := VirtualLogIdx(|log|);
      Persist();
      assert dropped + log == old(dropped + log) + [entry];
      assert nextIndex[..] == old(nextIndex[..])[me := |old(View().log)| + 1];
      return VirtualLogIdx(|log| - 1), currentTerm, true;
    }

    /** What a message of this leader says: who is leader of which term, what is committed, and the log from
        some index to its end. */
    ghost predicate Carries(a: AppendArgs)
      reads this
    {
      && a.term == currentTerm && a.leader == me && a.leaderCommit == commitIndex
      && lastIncludedIndex <= a.prevLogIndex && a.prevLogIndex + |a.entries| == VirtualLogIdx(|log| - 1)
      && a.prevLogTerm == log[RealLogIdx(a.prevLogIndex)].term && a.entries == log[RealLogIdx(a.prevLogIndex) + 1..]
    }

    lemma SuitableCarries(m: Message)
      requires Valid() && Suits(View(), me, m)
      ensures Carries(m.args)
    {
      var a, at := m.args, RealLogIdx(m.args.prevLogIndex);
      assert View().log[a.prevLogIndex] == log[at];
      assert View().log[a.prevLogIndex + 1..] == log[at + 1..];
    }

    /** doLeader: the message for one peer, unless it is behind the snapshot point. */
    method HeartbeatTo(p: int) returns (message: Option<Message>)
      requires Valid() && role == Leader && 0 <= p < n
      ensures PrevFor(View(), p) < |View().log|
      ensures message ==
        if lastIncludedIndex <= PrevFor(View(), p) then Some(Message(p, AppendArgsFor(View(), me, p))) else None
      ensures message.Some? ==> message.value.to == p && Carries(message.value.args)
    {
      var prev := Max(nextIndex[p] - 1, 0);
      if prev < lastIncludedIndex {
        return None;
      }
      var entries := [];
      if VirtualLogIdx(|log| - 1) > prev {
        entries := log[RealLogIdx(prev + 1)..];
      }
      assert entries == View().log[prev + 1..];
      return Some(Message(p, AppendArgs(currentTerm, me, prev, log[RealLogIdx(prev)].term, entries, commitIndex)));
    }

    /** doLeader: exactly one message per peer that is not behind the snapshot point. */
    method Heartbeat() returns (messages: seq<Message>)
      requires Valid() && role == Leader
      ensures forall m | m in messages :: Suits(View(), me, m)
      ensures forall m | m in messages :: Carries(m.args)
      ensures forall p | 0 <= p < n && p != me && lastIncludedIndex <= PrevFor(View(), p) :: Addressed(messages, p)
      ensures forall i, j | 0 <= i < j < |messages| :: messages[i].to < messages[j].to
    {
      messages := [];
      ghost var s := View();
      for i := 0 to n
        invariant forall m | m in messages :: Suits(s, me, m) && m.to < i
        invariant forall p | 0 <= p < i && p != me && s.base <= PrevFor(s, p) :: Addressed(messages, p)
        invariant forall j, k | 0 <= j < k < |messages| :: messages[j].to < messages[k].to
      {
        if i != me {
          var message := HeartbeatTo(i);
          if message.Some? {
            AddressedMore(messages, message.value);
            messages := messages + [message.value];
          }
        }
      }
      forall m | m in messages ensures Carries(m.args) {
        SuitableCarries(m);
      }
    }

    /** The merge loop of AppendEntries: the first entry that conflicts with the log or is beyond its end. */
    method FirstNew(at: nat, entries: seq<Entry>) returns (idx: nat)
      requires at < |log|
      ensures idx <= |entries| && at + idx < |log| && Same(log, at, entries, idx) && EndsAt(log, at, entries, idx)
    {
      idx := 0;
      while idx < |entries|
        invariant 0 <= idx <= |entries| && at + idx < |log| && Same(log, at, entries, idx)
      {
        var ridx := at + 1 + idx;
        if ridx == |log| || log[ridx].term != entries[idx].term {
          return;
        }
        idx := idx + 1;
      }
    }

    /** The merge of AppendEntries, on the cut-off log. */
    method MergeEntries(prev: nat, entries: seq<Entry>)
      requires |dropped| == lastIncludedIndex <= prev < lastIncludedIndex + |log|
      modifies this`log
      ensures dropped + log == Merge(old(dropped + log), prev, entries)
      ensures |log| > 0 && log[0] == old(log[0])
    {
      var at := RealLogIdx(prev);
      var idx := FirstNew(at, entries);
      MergeOffset(dropped, log, at, entries, idx);
      if idx < |entries| {
        log := log[..at + 1 + idx] + entries[idx..];
      }
    }

    /** The part of AppendEntries after the consistency check has passed. */
    method Accept(a: AppendArgs)
      requires Valid() && Persisted() && role != Leader
      requires lastIncludedIndex <= a.prevLogIndex < |View().log|
      modifies this`log, this`commitIndex, this`saved
      ensures Valid() && Persisted()
      ensures var was := old(View());
        var merged := Merge(was.log, a.prevLogIndex, a.entries);
        View() == was.(log := merged,
                       commit := if a.leaderCommit > was.commit then Min(a.leaderCommit, |merged| - 1) else was.commit)
    {
      if |a.entries| != 0 {
        MergeEntries(a.prevLogIndex, a.entries);
        Persist();
      }
      if a.leaderCommit > commitIndex {
        commitIndex := Min(a.leaderCommit, VirtualLogIdx(|log| - 1));
      }
    }

    method AppendEntries(a: AppendArgs) returns (reply: AppendReply)
      requires Valid() && Persisted()
      requires a.term == currentTerm ==> role != Leader
      modifies this
      ensures Valid() && Persisted() && dropped == old(dropped)
      ensures View() == OnAppend(old(View()), a)
      ensures reply == AppendReplyTo(old(View()), a)
    {
      reply := AppendReply(currentTerm, false);
      if a.term < currentTerm { return; }
      AdoptTerm(a.term);
      Persist();
      if a.prevLogIndex < lastIncludedIndex { return; }
      if a.prevLogIndex >= VirtualLogIdx(|log|) || log[RealLogIdx(a.prevLogIndex)].term != a.prevLogTerm { return; }
      Accept(a);
      reply := AppendReply(reply.term, true);
    }

    /** How many peers, this one included, hold index N. */
    method CountHolders(N: int) returns (count: int)
      requires Valid() && lastIncludedIndex <= N < |View().log|
      ensures count == 1 + |Holders(View(), me, N)|
    {
      count := 1;
      var i := 0;
      ghost var s, seen: set<int> := View(), {};
      while i < n
        invariant 0 <= i <= n && count == 1 + |seen|
        invariant seen == set p | 0 <= p < i && p != me && s.matchIndex[p] >= N && s.log[N].term == s.term
      {
        if i != me {
          if matchIndex[i] >= N && log[RealLogIdx(N)].term == currentTerm {
            count := count + 1;
            seen := seen + {i};
          }
        }
        i := i + 1;
      }
      assert seen == Holders(View(), me, N);
    }

    /** The part of sendAppendEntries after the call has returned. */
    method AppendReturned(p: int, a: AppendArgs, r: AppendReply)
      requires Valid() && Persisted() && 0 <= p < n && p != me
      requires a.term == currentTerm && r.success ==> a.prevLogIndex + |a.entries| < |View().log|
      requires a.term <= currentTerm
      modifies this, nextIndex, matchIndex
      ensures Valid() && Persisted() && dropped == old(dropped)
      ensures View() == OnAppendReply(old(View()), me, p, a, r)
    {
      if r.term == 0 && !r.success { return; }
      if a.term < currentTerm { return; }
      if !r.success {
        if r.term > currentTerm {
          role := Follower;
          currentTerm := r.term;
          votedFor := NOBODY;
          voteCount := 0;
          Persist();
          return;
        }
        if r.term == currentTerm && role == Leader {
          StepBack(p);
        }
      } else {
        NowMatches(p, a.prevLogIndex + |a.entries|);
      }
    }

    /** Peer p is known to hold the log up to k. */
    method NowMatches(p: int, k: nat)
      requires Valid() && 0 <= p < n && k < |View().log|
      modifies this`commitIndex, nextIndex, matchIndex
      ensures Valid()
      ensures var was := old(View());
        var t := was.(matchIndex := was.matchIndex[p := k], nextIndex := was.nextIndex[p := k + 1]);
        View() == t.(commit := ScanCommit(t, me, |t.log| - 1))
    {
      matchIndex[p] := k;
      nextIndex[p] := k + 1;
      assert matchIndex[..] == old(matchIndex[..])[p := k] && nextIndex[..] == old(nextIndex[..])[p := k + 1];
      AdvanceCommit();
    }

    method AdvanceCommit()
      requires Valid()
      modifies this`commitIndex
      ensures Valid()
      ensures View() == old(View()).(commit := ScanCommit(old(View()), me, |old(View()).log| - 1))
    {
      ghost var s := View();
      var N := VirtualLogIdx(|log| - 1);
      while N > commitIndex
        invariant View() == s && N < |s.log| && ScanCommit(s, me, |s.log| - 1) == ScanCommit(s, me, N)
        decreases N - commitIndex
      {
        var count := CountHolders(N);
        if count > n / 2 {
          commitIndex := N;
          return;
        }
        N := N - 1;
      }
    }

    /** The back-off loop: how far to step back over the term that nextIndex[p] stands in. */
    method BackOffFor(p: int) returns (next: int)
      requires Valid() && 0 <= p < n && role == Leader
      ensures next == NextAfterRefusal(View(), p)
    {
      ghost var s := View();
      var x := nextIndex[p] - 1;
      next := nextIndex[p];
      var i := x;
      while i >= 0
        invariant -1 <= i <= x < |s.log|
        invariant 0 <= x ==> 0 <= i
        invariant next == nextIndex[p]
        invariant lastIncludedIndex <= x ==> lastIncludedIndex <= i && BackOff(s, x, x) == BackOff(s, x, i)
      {
        if i < lastIncludedIndex {
          return lastIncludedIndex;
        }
        assert log[RealLogIdx(i)] == s.log[i] && log[RealLogIdx(x)] == s.log[x];
        if log[RealLogIdx(i)].term < log[RealLogIdx(x)].term {
          return i + 1;
        }
        if i == lastIncludedIndex {
          return lastIncludedIndex;
        }
        i := i - 1;
      }
    }

    method StepBack(p: int)
      requires Valid() && 0 <= p < n && role == Leader
      modifies nextIndex
      ensures Valid()
      ensures View() == old(View()).(nextIndex := old(View()).nextIndex[p := NextAfterRefusal(old(View()), p)])
    {
      var next := BackOffFor(p);
      nextIndex[p] := next;
      assert nextIndex[..] == old(nextIndex[..])[p := next];
    }

    // ---- compaction and hand-up ----

    method Snapshot(index: int)
      requires Valid() && Persisted() && commitIndex < |View().log|
      modifies this
      ensures Valid() && Persisted()
      ensures View() == OnSnapshot(old(View()), index)
    {
      if index <= lastIncludedIndex || index > commitIndex { return; }
      if RealLogIdx(index) > |log| { return; }
      lastIncludedTerm := log[RealLogIdx(index)].term;
      ghost var full := dropped + log;
      dropped := full[..index];
      log := log[RealLogIdx(index)..];
      assert dropped + log == full;
      lastIncludedIndex := index;
      if lastApplied < index {
        lastApplied := index;
      }
      Persist();
    }

    /** What CommitChecker collects under the lock. */
    method CollectCommitted() returns (msgs: seq<ApplyMsg>)
      requires Valid()
      ensures var s := View();
        var first := Max(lastApplied, lastIncludedIndex) + 1;
        var last := Min(commitIndex, LastIndex(s));
        && |msgs| == Max(last - first + 1, 0)
        && forall k | 0 <= k < |msgs| ::
             0 <= first + k < |s.log|
             && msgs[k] == ApplyMsg(s.log[first + k].command, first + k, s.log[first + k].term)
    {
      msgs := [];
      var tmp := lastApplied;
      ghost var first := Max(lastApplied, lastIncludedIndex) + 1;
      while commitIndex > tmp
        invariant lastApplied <= tmp
        invariant tmp <= Max(commitIndex, lastApplied) && tmp <= Max(LastIndex(View()), lastApplied)
        invariant |msgs| == Max(tmp - first + 1, 0)
        invariant forall k | 0 <= k < |msgs| ::
          0 <= first + k < |View().log|
          && msgs[k] == ApplyMsg(View().log[first + k].command, first + k, View().log[first + k].term)
      {
        tmp := tmp + 1;
        if tmp <= lastIncludedIndex { continue; }
        if RealLogIdx(tmp) >= |log| { tmp := tmp - 1; break; }
        var entry := log[RealLogIdx(tmp)];
        assert entry == View().log[tmp];
        msgs := msgs + [ApplyMsg(entry.command, tmp, entry.term)];
      }
    }
  }
}
