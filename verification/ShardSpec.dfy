/**
  One replica group of the sharded store as a value, and what applying each kind of log entry
  does to it. The class in ShardServer.dfy is proved to follow these functions; the step system
  in ShardWorld.dfy runs several groups against each other.
 */
module ShardSpec {
  const NSHARDS: nat := 10

  datatype Status = Serving | Pulling | BePulling | GCing

  datatype Shard = Shard(kv: map<string, string>, status: Status)

  /** A configuration: its number and the owner of each shard (0 for nobody). */
  datatype Config = Config(num: int, shards: seq<int>)

  datatype OpKind = Get | Put | Append

  datatype Op = Op(kind: OpKind, key: string, value: string, client: int, id: int)

  datatype Err = OK | ErrNoKey | ErrWrongGroup | ErrOutDated

  datatype Reply = Reply(err: Err, value: string)

  /** The last write of a client that was applied, and its reply. */
  datatype Context = Context(maxId: int, lastReply: Reply)

  type Table = map<int, Context>

  datatype Group = Group(gid: int, config: Config, lastConfig: Config, shards: seq<Shard>, ops: Table)

  /** The shards pulled from one group: the reply of GetShardsData and the InsertShards entry. */
  datatype ShardData = ShardData(num: int, shards: map<int, map<string, string>>, ops: Table)

  const NEW_SHARD := Shard(map[], Serving)

  function ShardOf(key: string): (s: int)
    ensures 0 <= s < NSHARDS
  {
    if |key| > 0 then (key[0] as int) % NSHARDS else 0
  }

  // ---- operations ----

  /** What a map does with an operation. */
  function Execute(kv: map<string, string>, op: Op): map<string, string> {
    match op.kind
    case Get => kv
    case Put => kv[op.key := op.value]
    case Append => kv[op.key := (if op.key in kv then kv[op.key] else "") + op.value]
  }

  function Answer(kv: map<string, string>, op: Op): Reply {
    if op.kind != Get then Reply(OK, "")
    else if op.key in kv then Reply(OK, kv[op.key])
    else Reply(ErrNoKey, "")
  }

  predicate Wf(g: Group) { |g.shards| == |g.config.shards| == |g.lastConfig.shards| == NSHARDS }

  predicate CanServe(g: Group, s: int)
    requires Wf(g) && 0 <= s < NSHARDS
  {
    g.config.shards[s] == g.gid && g.shards[s].status in {Serving, GCing}
  }

  predicate IsDuplicate(ops: Table, client: int, id: int) {
    client in ops && id <= ops[client].maxId
  }

  /** The operation takes effect: it is served here and is not a repeated write. */
  predicate Effective(g: Group, op: Op)
    requires Wf(g)
  {
    CanServe(g, ShardOf(op.key)) && (op.kind == Get || !IsDuplicate(g.ops, op.client, op.id))
  }

  function ApplyOp(g: Group, op: Op): Group
    requires Wf(g)
  {
    if !Effective(g, op) || op.kind == Get then g
    else
      var s := ShardOf(op.key);
      var shard := g.shards[s];
      g.(shards := g.shards[s := shard.(kv := Execute(shard.kv, op))],
         ops := g.ops[op.client := Context(op.id, Answer(shard.kv, op))])
  }

  function ReplyOp(g: Group, op: Op): Reply
    requires Wf(g)
  {
    var s := ShardOf(op.key);
    if !CanServe(g, s) then Reply(ErrWrongGroup, "")
    else if !Effective(g, op) then g.ops[op.client].lastReply
    else Answer(g.shards[s].kv, op)
  }

  // ---- reconfiguration ----

  function NextStatus(gid: int, was: int, will: int, status: Status): Status {
    if was != gid && will == gid && was != 0 then Pulling
    else if was == gid && will != gid && will != 0 then BePulling
    else status
  }

  function Restatus(g: Group, next: Config): seq<Shard>
    requires Wf(g) && |next.shards| == NSHARDS
  {
    seq(NSHARDS, s requires 0 <= s < NSHARDS =>
      g.shards[s].(status := NextStatus(g.gid, g.config.shards[s], next.shards[s], g.shards[s].status)))
  }

  function ApplyConfig(g: Group, next: Config): Group
    requires Wf(g) && |next.shards| == NSHARDS
  {
    if next.num != g.config.num + 1 then g
    else g.(shards := Restatus(g, next), lastConfig := g.config, config := next)
  }

  /** configurationAction asks for the next configuration only in such a state. */
  predicate AllServing(g: Group)
    requires Wf(g)
  {
    forall s | 0 <= s < NSHARDS :: g.shards[s].status == Serving
  }

  // ---- migration ----

  function MergeOps(a: Table, b: Table): Table {
    map c | c in a.Keys + b.Keys ::
      if c in b && (c !in a || a[c].maxId < b[c].maxId) then b[c] else a[c]
  }

  /** The loop over the pulled shards runs in an arbitrary order and stops at the first shard that
      is not Pulling: `done` is a set of shards it may have got through. */
  ghost predicate MayInsert(g: Group, info: ShardData, done: set<int>)
    requires Wf(g)
  {
    && done <= info.shards.Keys
    && (forall s | s in done :: 0 <= s < NSHARDS && g.shards[s].status == Pulling)
    && (done == info.shards.Keys
        || exists s :: s in info.shards && s !in done && 0 <= s < NSHARDS && g.shards[s].status != Pulling)
  }

  function InsertInto(g: Group, info: ShardData, done: set<int>): seq<Shard>
    requires Wf(g) && done <= info.shards.Keys
  {
    seq(NSHARDS, s requires 0 <= s < NSHARDS =>
      if s in done then Shard(g.shards[s].kv + info.shards[s], GCing) else g.shards[s])
  }

  function ApplyInsert(g: Group, info: ShardData, done: set<int>): Group
    requires Wf(g) && done <= info.shards.Keys
  {
    if info.num != g.config.num then g
    else g.(shards := InsertInto(g, info, done), ops := MergeOps(g.ops, info.ops))
  }

  predicate IdsOk(ids: seq<int>) { forall j | 0 <= j < |ids| :: 0 <= ids[j] < NSHARDS }

  /** Delete in the order given, up to the first shard that is neither GCing nor BePulling. */
  function DeleteLoop(shards: seq<Shard>, ids: seq<int>): (r: seq<Shard>)
    requires |shards| == NSHARDS && IdsOk(ids)
    ensures |r| == NSHARDS
    decreases |ids|
  {
    if ids == [] then shards
    else
      var s := ids[0];
      match shards[s].status
      case GCing => DeleteLoop(shards[s := shards[s].(status := Serving)], ids[1..])
      case BePulling => DeleteLoop(shards[s := NEW_SHARD], ids[1..])
      case _ => shards
  }

  function ApplyDelete(g: Group, num: int, ids: seq<int>): Group
    requires Wf(g) && IdsOk(ids)
  {
    if num != g.config.num then g else g.(shards := DeleteLoop(g.shards, ids))
  }

  /** The shards in a given state that came from group h. */
  function ByStatus(g: Group, status: Status, h: int): set<int>
    requires Wf(g)
  {
    set s | 0 <= s < NSHARDS && g.shards[s].status == status && g.lastConfig.shards[s] == h
  }
}
