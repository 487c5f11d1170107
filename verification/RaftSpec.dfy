/**
  The state of one Raft peer as a value, and each of its handlers as a function
  from the old state to the new one.

  The log is the whole log since the start of time: slot 0 is the placeholder that
  every peer begins with, and compaction only raises `base` (lastIncludedIndex).
  The class in RaftPeer.dfy keeps the offset log of the implementation and is
  proved to follow these functions; the step system in RaftSystem.dfy runs them.
 */
module RaftSpec {
  datatype Command = NoCommand | Command(text: string)

  datatype Entry = Entry(term: int, command: Command)

  datatype Role = Follower | PreCandidate | Candidate | Leader

  datatype VoteArgs = VoteArgs(term: int, candidate: int, lastLogIndex: int, lastLogTerm: int)

  datatype VoteReply = VoteReply(term: int, granted: bool)

  datatype AppendArgs = AppendArgs(term: int, leader: int, prevLogIndex: nat, prevLogTerm: int,
                                   entries: seq<Entry>, leaderCommit: int)

  datatype AppendReply = AppendReply(term: int, success: bool)

  datatype Peer = Peer(
    term: int,
    votedFor: int,
    log: seq<Entry>,
    base: int,
    commit: int,
    applied: int,
    role: Role,
    voteCount: int,
    nextIndex: seq<int>,
    matchIndex: seq<int>)

  const NOBODY := -1

  /** The placeholder in slot 0 of a fresh log. */
  const ORIGIN := Entry(-1, NoCommand)

  function LastIndex(s: Peer): int { |s.log| - 1 }

  /** What every handler needs to index the log safely, and keeps. */
  ghost predicate WellFormed(s: Peer, n: int)
  {
    && 1 <= s.term
    && 0 <= s.base <= s.commit
    && s.base < |s.log|
    && |s.nextIndex| == |s.matchIndex| == n
    && (forall p | 0 <= p < n :: 0 <= s.nextIndex[p])
    && (s.role == Leader ==> forall p | 0 <= p < n :: s.nextIndex[p] <= |s.log|)
  }

  /** An index table with the same value for every peer. */
  function Table(n: nat, v: int): (t: seq<int>)
    ensures |t| == n && forall p | 0 <= p < n :: t[p] == v
  {
    seq(n, _ => v)
  }

  function Fresh(n: nat): Peer {
    Peer(1, NOBODY, [ORIGIN], 0, 0, 0, Follower, 0, Table(n, 1), Table(n, 0))
  }

  // ---- elections ----

  /** The candidate's log is at least as up to date as ours. */
  predicate UpToDate(s: Peer, a: VoteArgs)
    requires |s.log| > 0
  {
    var lastTerm := s.log[|s.log| - 1].term;
    a.lastLogTerm > lastTerm || (a.lastLogTerm == lastTerm && a.lastLogIndex >= |s.log|)
  }

  /** Adopting a higher term forgets the vote and steps down. */
  function Adopt(s: Peer, term: int): Peer {
    if term > s.term then s.(term := term, votedFor := NOBODY, role := Follower) else s
  }

  predicate Grants(s: Peer, a: VoteArgs)
    requires |s.log| > 0
  {
    && a.term >= s.term
    && Adopt(s, a.term).votedFor in {NOBODY, a.candidate}
    && UpToDate(s, a)
  }

  function OnRequestVote(s: Peer, a: VoteArgs): Peer
    requires |s.log| > 0
  {
    if Grants(s, a) then Adopt(s, a.term).(role := Follower, votedFor := a.candidate) else Adopt(s, a.term)
  }

  /** The reply carries the term held before the request was looked at, except on a grant. */
  function VoteReplyTo(s: Peer, a: VoteArgs): VoteReply
    requires |s.log| > 0
  {
    VoteReply(if Grants(s, a) then a.term else s.term, Grants(s, a))
  }

  function BecomeLeader(s: Peer): Peer {
    s.(role := Leader,
       nextIndex := Table(|s.nextIndex|, |s.log|),
       matchIndex := Table(|s.matchIndex|, 0))
  }

  /** A granted vote is ignored by a follower, and by a candidate that has already won. */
  predicate CountsVote(s: Peer, n: nat, a: VoteArgs, r: VoteReply) {
    r.term != 0 && s.term == a.term && r.granted && s.role in {Candidate, Leader} && s.voteCount <= n / 2
  }

  /** Term 0 in a reply means that the call was lost. */
  function OnVoteReply(s: Peer, n: nat, a: VoteArgs, r: VoteReply): Peer {
    if r.term == 0 || s.term != a.term then s
    else if !r.granted then s.(role := Follower)
    else if !CountsVote(s, n, a, r) then s
    else
      var t := s.(voteCount := s.voteCount + 1);
      if t.voteCount > n / 2 then BecomeLeader(t) else t
  }

  function Campaign(s: Peer, me: int): Peer {
    s.(term := s.term + 1, votedFor := me, voteCount := 1)
  }

  function VoteArgsOf(s: Peer, me: int): VoteArgs
    requires |s.log| > 0
  {
    VoteArgs(s.term, me, |s.log|, s.log[|s.log| - 1].term)
  }

  // ---- replication ----

  function OnStart(s: Peer, me: int, command: Command): Peer
    requires 0 <= me < |s.nextIndex|
  {
    if s.role != Leader then s
    else s.(log := s.log + [Entry(s.term, command)], nextIndex := s.nextIndex[me := |s.log| + 1])
  }

  function PrevFor(s: Peer, p: int): int
    requires 0 <= p < |s.nextIndex|
  {
    if s.nextIndex[p] - 1 > 0 then s.nextIndex[p] - 1 else 0
  }

  /** The message to peer p: everything from nextIndex[p] to the end of the log. */
  function AppendArgsFor(s: Peer, me: int, p: int): AppendArgs
    requires 0 <= p < |s.nextIndex| && PrevFor(s, p) < |s.log|
  {
    var prev := PrevFor(s, p);
    AppendArgs(s.term, me, prev, s.log[prev].term, s.log[prev + 1..], s.commit)
  }

  /** How many leading entries already sit in the log from slot `at` on, by term. */
  function MatchLen(log: seq<Entry>, at: nat, entries: seq<Entry>): (m: nat)
    ensures m <= |entries|
    ensures at <= |log| ==> at + m <= |log|
    ensures forall j | 0 <= j < m :: at + j < |log| && log[at + j].term == entries[j].term
    ensures m < |entries| && at <= |log| ==> at + m == |log| || log[at + m].term != entries[m].term
    decreases |entries|
  {
    if entries == [] || at >= |log| || log[at].term != entries[0].term then 0
    else
      var rest := MatchLen(log, at + 1, entries[1..]);
      assert forall j | 1 <= j < rest + 1 :: entries[j] == entries[1..][j - 1];
      rest + 1
  }

  /** Keep the log when it already holds every entry; otherwise cut it at the first
      disagreement and append the rest. */
  function Merge(log: seq<Entry>, prev: nat, entries: seq<Entry>): seq<Entry>
    requires prev < |log|
  {
    var m := MatchLen(log, prev + 1, entries);
    if m == |entries| then log else log[..prev + 1 + m] + entries[m..]
  }

  predicate Accepts(s: Peer, a: AppendArgs) {
    && a.term >= s.term
    && s.base <= a.prevLogIndex < |s.log|
    && s.log[a.prevLogIndex].term == a.prevLogTerm
  }

  function Min(a: int, b: int): int { if a <= b then a else b }

  function OnAppend(s: Peer, a: AppendArgs): Peer {
    if a.term < s.term then s
    else if !Accepts(s, a) then Adopt(s, a.term)
    else
      var log := Merge(s.log, a.prevLogIndex, a.entries);
      Adopt(s, a.term).(log := log,
                        commit := if a.leaderCommit > s.commit then Min(a.leaderCommit, |log| - 1) else s.commit)
  }

  function AppendReplyTo(s: Peer, a: AppendArgs): AppendReply { AppendReply(s.term, Accepts(s, a)) }

  /** The other peers known to hold index N, counted only for an entry of the current term. */
  function Holders(s: Peer, me: int, N: int): set<int>
    requires 0 <= N < |s.log|
  {
    set p | 0 <= p < |s.matchIndex| && p != me && s.matchIndex[p] >= N && s.log[N].term == s.term
  }

  predicate HasMajority(s: Peer, me: int, N: int)
    requires 0 <= N < |s.log|
  {
    1 + |Holders(s, me, N)| > |s.matchIndex| / 2
  }

  /** Scan down from N for the first index above commit that a majority holds. */
  function ScanCommit(s: Peer, me: int, N: int): (c: int)
    requires N < |s.log| && 0 <= s.commit
    ensures c == s.commit || (s.commit < c <= N && HasMajority(s, me, c))
    ensures forall k | s.commit < k <= N && c < k :: !HasMajority(s, me, k)
    decreases N - s.commit
  {
    if N <= s.commit then s.commit
    else if HasMajority(s, me, N) then N
    else ScanCommit(s, me, N - 1)
  }

  /** After a refusal: step back over the whole term at nextIndex - 1, no further than the snapshot. */
  function BackOff(s: Peer, x: int, i: int): (next: int)
    requires 0 <= s.base <= i <= x < |s.log|
    ensures s.base <= next <= x + 1
    ensures next > s.base ==> next <= i + 1 && s.log[next - 1].term < s.log[x].term
    ensures forall k | s.base <= k <= i && k >= next :: s.log[k].term >= s.log[x].term
    decreases i
  {
    if s.log[i].term < s.log[x].term then i + 1
    else if i == s.base then s.base
    else BackOff(s, x, i - 1)
  }

  function NextAfterRefusal(s: Peer, p: int): int
    requires 0 <= p < |s.nextIndex| && 0 <= s.base && s.nextIndex[p] <= |s.log|
  {
    var x := s.nextIndex[p] - 1;
    if x < 0 then s.nextIndex[p]
    else if x < s.base then s.base
    else BackOff(s, x, x)
  }

  function OnAppendReply(s: Peer, me: int, p: int, a: AppendArgs, r: AppendReply): Peer
    requires WellFormed(s, |s.nextIndex|) && 0 <= p < |s.nextIndex|
  {
    if (r.term == 0 && !r.success) || a.term < s.term then s
    else if r.success then
      var t := s.(matchIndex := s.matchIndex[p := a.prevLogIndex + |a.entries|],
                  nextIndex := s.nextIndex[p := a.prevLogIndex + |a.entries| + 1]);
      t.(commit := ScanCommit(t, me, |t.log| - 1))
    else if r.term > s.term then
      s.(role := Follower, term := r.term, votedFor := NOBODY, voteCount := 0)
    else if r.term == s.term && s.role == Leader then
      s.(nextIndex := s.nextIndex[p := NextAfterRefusal(s, p)])
    else s
  }

  // ---- compaction, restart, hand-up ----

  function Max(a: int, b: int): int { if a >= b then a else b }

  function OnSnapshot(s: Peer, index: int): Peer {
    if index <= s.base || index > s.commit || index > |s.log| then s
    else s.(base := index, applied := Max(s.applied, index))
  }

  /** A restarted peer: what was persisted, and fresh volatile state. */
  function OnRestart(s: Peer): Peer {
    s.(commit := s.base, applied := s.base, role := Follower, voteCount := 0,
       nextIndex := Table(|s.nextIndex|, |s.log|),
       matchIndex := Table(|s.matchIndex|, s.base))
  }
}
