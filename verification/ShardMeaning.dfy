/** What the clients of the sharded store see, in terms of the writes that took effect alone. */
module ShardMeaning {
  import opened ShardSpec
  import opened ShardWorld
  import opened ShardInvariant
  import opened ShardEntries
  import opened ShardSafety
  import Writes

  function WriteOf(op: Op): Writes.Write {
    match op.kind
    case Get => Writes.NoWrite
    case Put => Writes.Put(op.key, op.value)
    case Append => Writes.Append(op.key, op.value)
  }

  function Written(log: seq<Op>): (ws: seq<Writes.Write>)
    ensures |ws| == |log| && forall i | 0 <= i < |log| :: ws[i] == WriteOf(log[i])
  {
    seq(|log|, i requires 0 <= i < |log| => WriteOf(log[i]))
  }

  /** The one map holds exactly the keys that were written, each with its last Put and what was appended
      after it. */
  lemma {:induction false} ReplayMeans(log: seq<Op>, k: string)
    ensures k in Replay(log) <==> Writes.Named(Written(log), k)
    ensures k in Replay(log) ==> Replay(log)[k] == Writes.ValueOf(Written(log), k)
    decreases |log|
  {
    if log != [] {
      var short, op := log[..|log| - 1], log[|log| - 1];
      ReplayMeans(short, k);
      assert Written(log) == Written(short) + [WriteOf(op)];
      Writes.NamedSnoc(Written(short), WriteOf(op), k);
      Writes.ValueSnoc(Written(short), WriteOf(op), k);
      if !Writes.Named(Written(short), k) { Writes.UnnamedIsEmpty(Written(short), k); }
    }
  }

  /** The group owns the shard in the configuration it is at, and has its data. */
  ghost predicate Serves(plan: Plan, w: World, g: int, s: int)
    requires g in w.groups && Wf(w.groups[g]) && IsShard(s)
  {
    plan(w.groups[g].config.num, s) == g && w.groups[g].shards[s].status in {Serving, GCing}
  }

  lemma ServesMeans(plan: Plan, gids: set<int>, run: seq<World>, k: int, g: int, s: int)
    requires IsRun(plan, gids, run) && 0 <= k < |run| && g in gids && Shape(gids, run[k]) && IsShard(s)
    ensures CanServe(run[k].groups[g], s) <==> Serves(plan, run[k], g, s)
  {
    var tok := RunHolds(plan, gids, run, k);
    ConfigIsPlanned(plan, run[k].groups, g, s);
  }

  lemma ConfigIsPlanned(plan: Plan, gs: Groups, g: int, s: int)
    requires Known(plan, gs) && g in gs && IsShard(s)
    ensures gs[g].gid == g && gs[g].config.shards[s] == plan(gs[g].config.num, s)
  {
    assert GroupOk(plan, gs[g], g);
  }

  /** A group that serves a shard has exactly the keys of that shard that were written, with their values. */
  lemma ServersMean(plan: Plan, gids: set<int>, run: seq<World>, k: int, g: int, s: int, key: string)
    requires IsRun(plan, gids, run) && 0 <= k < |run| && g in gids && Shape(gids, run[k]) && IsShard(s)
    requires Serves(plan, run[k], g, s)
    ensures var kv, ws := run[k].groups[g].shards[s].kv, Written(run[k].log);
      && (key in kv <==> ShardOf(key) == s && Writes.Named(ws, key))
      && (key in kv ==> kv[key] == Writes.ValueOf(ws, key))
  {
    ServesMeans(plan, gids, run, k, g, s);
    ServerHasItsPart(plan, gids, run, k, g, s);
    ReplayMeans(run[k].log, key);
  }

  /** What a client is told: another group serves the key; or the write is done; or the value that the
      writes up to now have left, and that there is none exactly if no write named the key. */
  ghost function Told(plan: Plan, w: World, g: int, op: Op): Reply
    requires g in w.groups && Wf(w.groups[g])
  {
    if !Serves(plan, w, g, ShardOf(op.key)) then Reply(ErrWrongGroup, "")
    else if op.kind != Get then Reply(OK, "")
    else if Writes.Named(Written(w.log), op.key) then Reply(OK, Writes.ValueOf(Written(w.log), op.key))
    else Reply(ErrNoKey, "")
  }

  lemma RepliesMean(plan: Plan, gids: set<int>, run: seq<World>, k: int, g: int, op: Op)
    requires IsRun(plan, gids, run) && 0 <= k < |run| && g in gids && Shape(gids, run[k])
    ensures ReplyOp(run[k].groups[g], op) == Told(plan, run[k], g, op)
  {
    ServesMeans(plan, gids, run, k, g, ShardOf(op.key));
    var tok := RunHolds(plan, gids, run, k);
    if Effective(run[k].groups[g], op) {
      EffectIsAnswered(plan, gids, run[k], tok, g, op);
      ReplayMeans(run[k].log, op.key);
    } else {
      SavedReply(plan, gids, run[k], tok, g, op);
    }
  }

  lemma SavedReply(plan: Plan, gids: set<int>, w: World, tok: seq<int>, g: int, op: Op)
    requires Inv(plan, gids, w, tok) && g in gids && !Effective(w.groups[g], op)
    ensures CanServe(w.groups[g], ShardOf(op.key)) ==> op.kind != Get && ReplyOp(w.groups[g], op) == Reply(OK, "")
  {
    assert PastOk(w.groups, plan, w.log, g, w.groups[g]);
  }

  /** A write that reaches a group which serves its key takes effect exactly if it has not before, and is
      then the latest write; no other step changes what was written. */
  lemma WritesMean(plan: Plan, gids: set<int>, run: seq<World>, k: int, e: Event)
    requires IsRun(plan, gids, run) && 0 <= k < |run| && Shape(gids, run[k]) && Enabled(gids, run[k], e)
    ensures var w, log' := run[k], Apply(plan, gids, run[k], e).log;
      if e.ApplyEntry? && e.entry.Operation? && e.entry.op.kind != Get
         && Serves(plan, w, e.g, ShardOf(e.entry.op.key)) && e.entry.op !in w.log
      then log' == w.log + [e.entry.op]
      else log' == w.log
  {
    LogChanges(plan, gids, run[k], e);
    if e.ApplyEntry? && e.entry.Operation? && e.entry.op.kind != Get {
      ServesMeans(plan, gids, run, k, e.g, ShardOf(e.entry.op.key));
      var tok := RunHolds(plan, gids, run, k);
      PendingIsOk(plan, gids, run[k], tok, e.g, e.entry);
      NewMeans(plan, gids, run[k], tok, e.g, e.entry.op);
    }
  }

  lemma NewMeans(plan: Plan, gids: set<int>, w: World, tok: seq<int>, g: int, op: Op)
    requires Inv(plan, gids, w, tok) && g in gids && IsIssued(w.issued, op) && op.kind != Get
    ensures Effective(w.groups[g], op) <==> CanServe(w.groups[g], ShardOf(op.key)) && op !in w.log
  {
    if Effective(w.groups[g], op) {
      EffectIsNew(w.groups, plan, tok, w.log, w.issued, g, op);
      assert op in w.log ==> Wrote(w.log, op.client, op.id);
    } else if CanServe(w.groups[g], ShardOf(op.key)) {
      assert PastOk(w.groups, plan, w.log, g, w.groups[g]);
      DuplicateWrote(w.issued, w.acked, w.log, w.groups[g].ops, op);
      IssuedOnce(w.issued, w.log, op);
    }
  }

  lemma IssuedOnce(issued: Issued, log: seq<Op>, op: Op)
    requires IsIssued(issued, op) && Wrote(log, op.client, op.id)
    requires forall j {:trigger log[j]} | 0 <= j < |log| :: IsIssued(issued, log[j])
    ensures op in log
  {
    var j :| 0 <= j < |log| && log[j].client == op.client && log[j].id == op.id;
    assert IsIssued(issued, log[j]);
  }

  // ---- migration ----

  /** The next configuration: shards that come from another group are to be pulled, shards that go to
      another group are to be handed over, and all others are served or not as before. */
  lemma ConfigurationMeans(plan: Plan, gids: set<int>, run: seq<World>, k: int, g: int, c: Config, s: int)
    requires IsRun(plan, gids, run) && 0 <= k < |run| && g in gids && Shape(gids, run[k]) && IsShard(s)
    requires Configuration(c) in run[k].pending[g] && c.num == run[k].groups[g].config.num + 1
    ensures var was, now := run[k].groups[g], Apply(plan, gids, run[k], ApplyEntry(g, Configuration(c), {})).groups[g];
      && Wf(now) && now.config.num == c.num && now.shards[s].kv == was.shards[s].kv
      && (now.shards[s].status == Pulling <==> plan(c.num, s) == g && plan(c.num - 1, s) !in {0, g})
      && (now.shards[s].status == BePulling <==> plan(c.num, s) != g && plan(c.num - 1, s) == g)
      && now.shards[s].status != GCing
  {
    var tok := RunHolds(plan, gids, run, k);
    SafeReconfiguration(plan, gids, run, k, g, c);
    var w' := Apply(plan, gids, run[k], ApplyEntry(g, Configuration(c), {}));
    EntryMoves(plan, gids, run[k], g, Configuration(c), {}, w');
    ConfigIsPlanned(plan, run[k].groups, g, s);
    assert NotReturned(plan, c.num, s);
    NextStatuses(plan, run[k].groups[g], c, s);
  }

  lemma NextStatuses(plan: Plan, was: Group, c: Config, s: int)
    requires Wf(was) && IsShard(s) && AllServing(was) && c == ConfigOf(plan, was.config.num + 1)
    requires was.config.shards[s] == plan(was.config.num, s) && NotReturned(plan, c.num, s) && was.gid != 0
    ensures var now := ApplyConfig(was, c);
      && now.shards[s].kv == was.shards[s].kv && now.shards[s].status != GCing
      && (now.shards[s].status == Pulling <==> plan(c.num, s) == was.gid && plan(c.num - 1, s) !in {0, was.gid})
      && (now.shards[s].status == BePulling <==> plan(c.num, s) != was.gid && plan(c.num - 1, s) == was.gid)
  {
  }

  /** Shards that arrive while they are waited for: each gets the data that is frozen at its source, and
      is served from then on. */
  lemma InsertMeans(plan: Plan, gids: set<int>, run: seq<World>, k: int, g: int, info: ShardData, done: set<int>,
                    s: int)
    requires IsRun(plan, gids, run) && 0 <= k < |run| && g in gids && Shape(gids, run[k])
    requires Enabled(gids, run[k], ApplyEntry(g, InsertShards(info), done)) && IsShard(s)
    requires info.num == run[k].groups[g].config.num
    ensures var w, w' := run[k], Apply(plan, gids, run[k], ApplyEntry(g, InsertShards(info), done));
      var h := plan(info.num - 1, s);
      if s in info.shards && w.groups[g].shards[s].status == Pulling then
        && h in gids && w.groups[h].shards[s].status == BePulling
        && w'.groups[g].shards[s] == Shard(w.groups[h].shards[s].kv, GCing)
      else
        w'.groups[g].shards[s] == w.groups[g].shards[s]
  {
    var tok := RunHolds(plan, gids, run, k);
    var w' := Apply(plan, gids, run[k], ApplyEntry(g, InsertShards(info), done));
    EntryMoves(plan, gids, run[k], g, InsertShards(info), done, w');
    PendingIsOk(plan, gids, run[k], tok, g, InsertShards(info));
    InsertedShard(run[k].groups, plan, run[k].log, g, info, done, s);
  }

  lemma InsertedShard(gs: Groups, plan: Plan, log: seq<Op>, g: int, info: ShardData, done: set<int>, s: int)
    requires Known(plan, gs) && g in gs && exists h :: InsertOk(gs, plan, log, g, info, h)
    requires info.num == gs[g].config.num && MayInsert(gs[g], info, done) && IsShard(s)
    ensures var now := ApplyInsert(gs[g], info, done).shards[s];
      var h := plan(info.num - 1, s);
      if s in info.shards && gs[g].shards[s].status == Pulling then
        h in gs && gs[h].shards[s].status == BePulling && now == Shard(gs[h].shards[s].kv, GCing)
      else
        now == gs[g].shards[s]
  {
    var x :| InsertOk(gs, plan, log, g, info, x);
    InsertAllOrNothing(gs, plan, log, g, info, x, done);
    if s in info.shards && gs[g].shards[s].status == Pulling {
      var h := FrozenSource(gs, plan, log, g, info, s);
    }
  }

  /** A delete in the configuration it belongs to: the old owner's copies are thrown away, the new owner's
      are served as its own, and other shards stay. */
  lemma DeleteMeans(plan: Plan, gids: set<int>, run: seq<World>, k: int, g: int, num: int, ids: seq<int>, s: int)
    requires IsRun(plan, gids, run) && 0 <= k < |run| && g in gids && Shape(gids, run[k]) && IsShard(s)
    requires DeleteShards(num, ids) in run[k].pending[g] && num == run[k].groups[g].config.num
    ensures var w, w' := run[k], Apply(plan, gids, run[k], ApplyEntry(g, DeleteShards(num, ids), {}));
      var was, now := w.groups[g].shards[s], w'.groups[g].shards[s];
      if s !in ids then now == was
      else now.status == Serving && now.kv == if plan(num, s) == g then was.kv else map[]
  {
    var tok := RunHolds(plan, gids, run, k);
    var e := DeleteShards(num, ids);
    EntryMoves(plan, gids, run[k], g, e, {}, Apply(plan, gids, run[k], ApplyEntry(g, e, {})));
    PendingIsOk(plan, gids, run[k], tok, g, e);
    DeletedShard(run[k].groups, plan, tok, g, num, ids, s);
  }

  lemma DeletedShard(gs: Groups, plan: Plan, tok: seq<int>, g: int, num: int, ids: seq<int>, s: int)
    requires GroupsInv(gs, plan, tok) && g in gs && IdsOk(ids) && gs[g].config.num == num && IsShard(s)
    requires exists x :: DeleteOk(gs, plan, g, num, ids, x)
    ensures var was, now := gs[g].shards[s], ApplyDelete(gs[g], num, ids).shards[s];
      if s !in ids then now == was
      else now.status == Serving && now.kv == if plan(num, s) == g then was.kv else map[]
  {
    var x :| DeleteOk(gs, plan, g, num, ids, x);
    var batch, st := DeleteBatch(gs, plan, tok, g, num, ids, x);
    assert s in ids <==> s in batch;
    assert LocalOk(plan, gs[g], s);
  }

  /** Every shard is that of some key. */
  lemma EveryShardHasKeys(s: int)
    requires 0 <= s < NSHARDS
    ensures exists key :: ShardOf(key) == s
  {
    var key := [s as char];
    assert ShardOf(key) == s;
  }
}
