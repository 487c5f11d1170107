/**
  The cluster: n peers and a network that may lose, delay, reorder and repeat requests.
  A request stays deliverable for ever once sent (loss is never delivering it). The reply
  to one vote call is delivered at most once, as the RPC layer guarantees; append replies
  may even be repeated.
 */
module RaftSystem {
  import opened RaftSpec

  datatype VoteRep = VoteRep(args: VoteArgs, voter: int, reply: VoteReply)
  datatype AppendReq = AppendReq(to: int, args: AppendArgs)
  datatype AppendRep = AppendRep(args: AppendArgs, from: int, reply: AppendReply)

  /** One message handed up on the apply channel. */
  datatype Handed = Handed(peer: int, index: int, entry: Entry)

  datatype System = System(
    peers: seq<Peer>,
    voteReqs: set<VoteArgs>,
    voteReps: set<VoteRep>,
    returned: set<(int, int, int)>,  // vote calls (candidate, term, voter) that have returned
    appendReqs: set<AppendReq>,
    appendReps: set<AppendRep>,
    handed: set<Handed>)

  datatype Event =
    | Timeout(i: int)
    | PreVotePassed(i: int)
    | HandleVote(i: int, vote: VoteArgs)
    | VoteReturns(voteRep: VoteRep)
    | SendAppend(i: int, to: int)
    | HandleAppend(req: AppendReq)
    | AppendReturns(appendRep: AppendRep)
    | StartCommand(i: int, command: Command)
    | TakeSnapshot(i: int, index: int)
    | Restart(i: int)
    | HandUp(i: int, upTo: int)

  /** The peer an event happens at. */
  function Actor(e: Event): int {
    match e
    case VoteReturns(r) => r.args.candidate
    case HandleAppend(q) => q.to
    case AppendReturns(r) => r.args.leader
    case Timeout(i) => i
    case PreVotePassed(i) => i
    case HandleVote(i, _) => i
    case SendAppend(i, _) => i
    case StartCommand(i, _) => i
    case TakeSnapshot(i, _) => i
    case Restart(i) => i
    case HandUp(i, _) => i
  }

  ghost predicate Init(sys: System) {
    && 0 < |sys.peers|
    && (forall i | 0 <= i < |sys.peers| :: sys.peers[i] == Fresh(|sys.peers|))
    && sys.voteReqs == {} && sys.voteReps == {} && sys.returned == {}
    && sys.appendReqs == {} && sys.appendReps == {} && sys.handed == {}
  }

  ghost predicate Shape(sys: System) {
    forall i | 0 <= i < |sys.peers| :: WellFormed(sys.peers[i], |sys.peers|)
  }

  predicate IsPeer(sys: System, i: int) { 0 <= i < |sys.peers| }

  ghost predicate Enabled(sys: System, e: Event)
    requires Shape(sys)
  {
    && IsPeer(sys, Actor(e))
    && var s := sys.peers[Actor(e)];
      match e
      case Timeout(i) => true
      case PreVotePassed(i) => s.role == PreCandidate
      case HandleVote(i, a) => a in sys.voteReqs && a.candidate != i
      case VoteReturns(r) => r in sys.voteReps && (r.args.candidate, r.args.term, r.voter) !in sys.returned
      case SendAppend(i, to) =>
        && IsPeer(sys, to) && to != i && s.role == Leader
        && s.base <= PrevFor(s, to)
      case HandleAppend(q) => q in sys.appendReqs
      case AppendReturns(r) => r in sys.appendReps && IsPeer(sys, r.from)
      case StartCommand(i, _) => true
      case TakeSnapshot(i, _) => true
      case Restart(i) => true
      case HandUp(i, upTo) => s.applied <= upTo <= s.commit
  }

  function OnTimeout(s: Peer, me: int): Peer {
    match s.role
    case Follower => s.(role := PreCandidate)
    case PreCandidate => s
    case Candidate => Campaign(s, me)
    case Leader => s
  }

  /** The new state of the peer an event happens at. */
  ghost function After(sys: System, e: Event): Peer
    requires Shape(sys) && Enabled(sys, e)
  {
    var s := sys.peers[Actor(e)];
    match e
    case Timeout(i) => OnTimeout(s, i)
    case PreVotePassed(i) => s.(role := Candidate)
    case HandleVote(i, a) => OnRequestVote(s, a)
    case VoteReturns(r) => OnVoteReply(s, |sys.peers|, r.args, r.reply)
    case SendAppend(i, to) => s
    case HandleAppend(q) => OnAppend(s, q.args)
    case AppendReturns(r) => OnAppendReply(s, r.args.leader, r.from, r.args, r.reply)
    case StartCommand(i, c) => OnStart(s, i, c)
    case TakeSnapshot(i, index) => OnSnapshot(s, index)
    case Restart(i) => OnRestart(s)
    case HandUp(i, upTo) => s.(applied := upTo)
  }

  ghost function Apply(sys: System, e: Event): System
    requires Shape(sys) && Enabled(sys, e)
  {
    var i := Actor(e);
    var s := sys.peers[i];
    var next := sys.(peers := sys.peers[i := After(sys, e)]);
    match e
    case Timeout(_) =>
      if s.role == Candidate then next.(voteReqs := sys.voteReqs + {VoteArgsOf(Campaign(s, i), i)}) else next
    case HandleVote(_, a) => next.(voteReps := sys.voteReps + {VoteRep(a, i, VoteReplyTo(s, a))})
    case VoteReturns(r) => next.(returned := sys.returned + {(r.args.candidate, r.args.term, r.voter)})
    case SendAppend(_, to) => next.(appendReqs := sys.appendReqs + {AppendReq(to, AppendArgsFor(s, i, to))})
    case HandleAppend(q) =>
      next.(appendReps := sys.appendReps + {AppendRep(q.args, i, AppendReplyTo(s, q.args))})
    case HandUp(_, _) => next.(handed := sys.handed + Buffer(s, i))
    case _ => next
  }

  /** What CommitChecker reads under the lock: the committed entries above
      lastApplied that are still in the log. */
  ghost function Buffer(s: Peer, me: int): set<Handed>
    requires 0 <= s.base
  {
    set k | s.applied < k <= s.commit && s.base < k < |s.log| :: Handed(me, k, s.log[k])
  }

  ghost predicate Next(sys: System, sys': System) {
    Shape(sys) && exists e :: Enabled(sys, e) && sys' == Apply(sys, e)
  }

  ghost predicate IsRun(run: seq<System>) {
    && |run| > 0 && Init(run[0])
    && forall k | 0 <= k < |run| - 1 :: Next(run[k], run[k + 1])
  }
}
