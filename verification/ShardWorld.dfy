/**
  Several groups, each a sequential replicated log, moving through the numbered configurations at
  their own pace. A leader reads any state its group has ever been in (it may lag behind its log);
  a proposed entry waits and may be applied at any later moment, any number of times, in any order.
 */
module ShardWorld {
  import opened ShardSpec

  /** plan(k, s) is the owner of shard s in configuration k. */
  type Plan = (int, int) -> int

  datatype Entry =
    | Operation(op: Op)
    | Configuration(config: Config)
    | InsertShards(info: ShardData)
    | DeleteShards(num: int, ids: seq<int>)
    | EmptyEntry

  datatype World = World(
    groups: map<int, Group>,
    past: map<int, set<Group>>,      // every state a group has been in
    pending: map<int, set<Entry>>,   // entries proposed to a group
    deleted: map<int, set<Entry>>,   // DeleteShards entries a group has applied
    issued: map<(int, int), Op>,     // (client, id) -> the command the client made
    acked: set<(int, int)>,          // commands whose client has been told they are done
    log: seq<Op>)                    // the writes that took effect, in the order they did

  datatype Event =
    | Issue(op: Op)                                         // a client makes its next command
    | Send(op: Op, g: int)                                  // ... and sends it to some group
    | AnswerDuplicate(op: Op, g: int, seen: Group)          // a repeated write answered from the table
    | ProposeConfig(g: int, seen: Group)                    // configurationAction
    | Pull(g: int, seen: Group, h: int, theirs: Group)      // migrationAction and GetShardsData
    | AskDelete(g: int, seen: Group, h: int, ids: seq<int>) // gcAction and DeleteShardsData
    | Confirm(g: int, seen: Group, h: int, ids: seq<int>)   // gcAction after a good reply
    | ProposeEmpty(g: int)                                  // checkEntryInCurrentTermAction
    | ApplyEntry(g: int, entry: Entry, done: set<int>)      // applier

  function ConfigOf(plan: Plan, k: int): Config {
    Config(k, seq(NSHARDS, s => plan(k, s)))
  }

  /** Every owner is a known group, nothing is owned at first, and no shard is handed back to nobody. */
  ghost predicate PlanOk(plan: Plan, gids: set<int>) {
    && 0 !in gids
    && (forall s | 0 <= s < NSHARDS :: plan(0, s) == 0)
    && (forall k, s | 0 <= k && 0 <= s < NSHARDS :: plan(k, s) == 0 || plan(k, s) in gids)
    && (forall k, s {:trigger NotReturned(plan, k, s)} | 1 <= k && 0 <= s < NSHARDS :: NotReturned(plan, k, s))
  }

  ghost predicate NotReturned(plan: Plan, k: int, s: int) { plan(k, s) == 0 ==> plan(k - 1, s) == 0 }

  function Fresh(plan: Plan, gid: int): Group {
    Group(gid, ConfigOf(plan, 0), ConfigOf(plan, 0), seq(NSHARDS, _ => NEW_SHARD), map[])
  }

  ghost predicate Init(plan: Plan, gids: set<int>, w: World) {
    && w.groups.Keys == w.past.Keys == w.pending.Keys == w.deleted.Keys == gids
    && (forall g | g in gids ::
          w.groups[g] == Fresh(plan, g) && w.past[g] == {Fresh(plan, g)} && w.pending[g] == {} && w.deleted[g] == {})
    && w.issued == map[] && w.acked == {} && w.log == []
  }

  ghost predicate Shape(gids: set<int>, w: World) {
    && w.groups.Keys == w.past.Keys == w.pending.Keys == w.deleted.Keys == gids
    && GroupsShape(w.groups) && PastShape(w.past) && PendingShape(w.pending)
  }

  ghost predicate GroupsShape(gs: map<int, Group>) { forall g | g in gs :: Wf(gs[g]) }

  ghost predicate PastShape(past: map<int, set<Group>>) { forall g, p | g in past && p in past[g] :: Wf(p) }

  ghost predicate PendingShape(pending: map<int, set<Entry>>) {
    forall g, e | g in pending && e in pending[g] :: EntryShape(e)
  }

  ghost predicate EntryShape(e: Entry) {
    match e
    case Configuration(c) => |c.shards| == NSHARDS
    case InsertShards(info) => forall s | s in info.shards :: 0 <= s < NSHARDS
    case DeleteShards(_, ids) => IdsOk(ids)
    case _ => true
  }

  /** The ids of a set of shards, in some order. */
  ghost predicate Lists(ids: seq<int>, shards: set<int>) {
    && (forall s :: s in shards <==> s in ids)
    && (forall i, j | 0 <= i < j < |ids| :: ids[i] != ids[j])
  }

  /** A client makes command id+1 only after it has been told that command id is done. */
  ghost predicate ClientMayIssue(w: World, op: Op) {
    && (op.client, op.id) !in w.issued && op.id >= 0
    && (op.id > 0 ==> (op.client, op.id - 1) in w.acked)
  }

  ghost predicate Enabled(gids: set<int>, w: World, e: Event)
    requires Shape(gids, w)
  {
    match e
    case Issue(op) => ClientMayIssue(w, op)
    case Send(op, g) => g in gids && (op.client, op.id) in w.issued && w.issued[(op.client, op.id)] == op
    case AnswerDuplicate(op, g, seen) =>
      && g in gids && seen in w.past[g]
      && (op.client, op.id) in w.issued && w.issued[(op.client, op.id)] == op
      && op.kind != Get && IsDuplicate(seen.ops, op.client, op.id)
    case ProposeConfig(g, seen) =>
      g in gids && seen in w.past[g] && AllServing(seen)
    case Pull(g, seen, h, theirs) =>
      && g in gids && seen in w.past[g] && h in gids && theirs in w.past[h]
      && ByStatus(seen, Pulling, h) != {}
      && theirs.config.num >= seen.config.num
    case AskDelete(g, seen, h, ids) =>
      && g in gids && seen in w.past[g] && h in gids
      && ByStatus(seen, GCing, h) != {} && Lists(ids, ByStatus(seen, GCing, h))
    case Confirm(g, seen, h, ids) =>
      && g in gids && seen in w.past[g] && h in gids
      && ByStatus(seen, GCing, h) != {} && Lists(ids, ByStatus(seen, GCing, h))
      && (DeleteShards(seen.config.num, ids) in w.deleted[h]
          || exists theirs :: theirs in w.past[h] && theirs.config.num > seen.config.num)
    case ProposeEmpty(g) => g in gids
    case ApplyEntry(g, entry, done) =>
      && g in gids && entry in w.pending[g]
      && (entry.InsertShards? ==> done <= entry.info.shards.Keys)
      && (entry.InsertShards? && entry.info.num == w.groups[g].config.num ==> MayInsert(w.groups[g], entry.info, done))
  }

  function Pulled(seen: Group, h: int, theirs: Group): ShardData
    requires Wf(seen) && Wf(theirs)
  {
    ShardData(seen.config.num, map s | s in ByStatus(seen, Pulling, h) :: theirs.shards[s].kv, theirs.ops)
  }

  function AfterEntry(g: Group, entry: Entry, done: set<int>): Group
    requires Wf(g) && (entry.Configuration? ==> |entry.config.shards| == NSHARDS)
    requires entry.InsertShards? ==> done <= entry.info.shards.Keys
    requires entry.DeleteShards? ==> IdsOk(entry.ids)
  {
    match entry
    case Operation(op) => ApplyOp(g, op)
    case Configuration(c) => ApplyConfig(g, c)
    case InsertShards(info) => ApplyInsert(g, info, done)
    case DeleteShards(num, ids) => ApplyDelete(g, num, ids)
    case EmptyEntry => g
  }

  ghost function Propose(w: World, g: int, entry: Entry): World
    requires g in w.pending
  {
    w.(pending := w.pending[g := w.pending[g] + {entry}])
  }

  ghost function Move(w: World, g: int, next: Group): World
    requires g in w.past
  {
    w.(groups := w.groups[g := next], past := w.past[g := w.past[g] + {next}])
  }

  ghost function Apply(plan: Plan, gids: set<int>, w: World, e: Event): World
    requires Shape(gids, w) && Enabled(gids, w, e)
  {
    match e
    case Issue(op) => w.(issued := w.issued[(op.client, op.id) := op])
    case Send(op, g) => Propose(w, g, Operation(op))
    case AnswerDuplicate(op, g, seen) => w.(acked := w.acked + {(op.client, op.id)})
    case ProposeConfig(g, seen) => Propose(w, g, Configuration(ConfigOf(plan, seen.config.num + 1)))
    case Pull(g, seen, h, theirs) => Propose(w, g, InsertShards(Pulled(seen, h, theirs)))
    case AskDelete(g, seen, h, ids) => Propose(w, h, DeleteShards(seen.config.num, ids))
    case Confirm(g, seen, h, ids) => Propose(w, g, DeleteShards(seen.config.num, ids))
    case ProposeEmpty(g) => Propose(w, g, EmptyEntry)
    case ApplyEntry(g, entry, done) =>
      assert EntryShape(entry);
      var was := w.groups[g];
      var moved := Move(w, g, AfterEntry(was, entry, done));
      match entry
      case Operation(op) =>
        moved.(log := if Effective(was, op) && op.kind != Get then w.log + [op] else w.log,
               acked := if ReplyOp(was, op).err in {OK, ErrNoKey} then w.acked + {(op.client, op.id)} else w.acked)
      case DeleteShards(_, _) => moved.(deleted := w.deleted[g := w.deleted[g] + {entry}])
      case _ => moved
  }

  ghost predicate Next(plan: Plan, gids: set<int>, w: World, w': World) {
    Shape(gids, w) && exists e :: Enabled(gids, w, e) && w' == Apply(plan, gids, w, e)
  }

  ghost predicate IsRun(plan: Plan, gids: set<int>, run: seq<World>) {
    && |run| > 0 && PlanOk(plan, gids) && Init(plan, gids, run[0])
    && forall k | 0 <= k < |run| - 1 :: Next(plan, gids, run[k], run[k + 1])
  }

  /** One map that executes a list of writes. */
  function Replay(log: seq<Op>): map<string, string> {
    if log == [] then map[] else Execute(Replay(log[..|log| - 1]), log[|log| - 1])
  }
}
