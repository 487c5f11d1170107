/** Applying each kind of entry keeps the invariant on the groups and on the data. */
module ShardEntries {
  import opened ShardSpec
  import opened ShardWorld
  import opened ShardInvariant
  import opened ShardSteps

  /** Only contents and tables change, no configuration and no status. */
  ghost predicate SameStates(c: Group, c': Group)
    requires Wf(c) && Wf(c')
  {
    c'.gid == c.gid && c'.config == c.config && c'.lastConfig == c.lastConfig
    && forall s | IsShard(s) :: c'.shards[s].status == c.shards[s].status
  }

  lemma StatesKept(gs: Groups, gs': Groups, plan: Plan, tok: seq<int>, g: int)
    requires GroupsInv(gs, plan, tok) && Known(plan, gs') && g in gs && g in gs' && gs' == gs[g := gs'[g]]
    requires SameStates(gs[g], gs'[g])
    ensures GroupsInv(gs', plan, tok)
  {
    forall k, s | IsMove(plan, k, s) ensures PairInv(gs', plan, k, s) {
      assert PairInv(gs, plan, k, s);
    }
    forall s | IsShard(s) ensures TokenInv(gs', plan, tok[s], s) {
      assert TokenInv(gs, plan, tok[s], s);
      forall k | IsStart(plan, k, s) ensures Received(gs', plan, k, s) <==> k <= tok[s] {
        assert Received(gs, plan, k, s) <==> k <= tok[s];
      }
    }
  }

  // ---- operations ----

  lemma ExecuteMatches(kv: map<string, string>, m: map<string, string>, s: int, op: Op)
    requires Matches(kv, m, s) && ShardOf(op.key) == s
    ensures Matches(Execute(kv, op), Execute(m, op), s)
    ensures Answer(kv, op) == Answer(m, op)
  {
  }

  lemma ReplaySnoc(log: seq<Op>, op: Op)
    ensures Replay(log + [op]) == Execute(Replay(log), op)
  {
    assert (log + [op])[..|log|] == log;
  }

  lemma CoversSnoc(ops: Table, ops': Table, log: seq<Op>, op: Op, s: int)
    requires Covers(ops, log, s) && TableGrows(ops, ops')
    requires ShardOf(op.key) == s ==> IsDuplicate(ops', op.client, op.id)
    ensures Covers(ops', log + [op], s)
  {
  }

  lemma OpGroupOk(plan: Plan, g: Group, gid: int, op: Op)
    requires GroupOk(plan, g, gid)
    ensures GroupOk(plan, ApplyOp(g, op), gid) && SameStates(g, ApplyOp(g, op)) && Later(g, ApplyOp(g, op))
  {
    var c := ApplyOp(g, op);
    forall s | IsShard(s) ensures LocalOk(plan, c, s) { assert LocalOk(plan, g, s); }
    assert Lockstep(plan, c);
    forall s | IsShard(s) ensures ShardLater(g.shards[s], c.shards[s]) { assert LocalOk(plan, g, s); }
  }

  lemma OpData(gs: Groups, gs': Groups, plan: Plan, tok: seq<int>, log: seq<Op>, g: int, op: Op)
    requires GroupsInv(gs, plan, tok) && DataAll(gs, plan, tok, log) && GroupsInv(gs', plan, tok)
    requires g in gs && Effective(gs[g], op) && op.kind != Get && gs' == gs[g := ApplyOp(gs[g], op)]
    ensures DataAll(gs', plan, tok, log + [op])
  {
    var x := ShardOf(op.key);
    ServerHolds(gs, plan, tok, x, g);
    ReplaySnoc(log, op);
    forall s | IsShard(s) ensures TokenInv(gs', plan, tok[s], s) && DataInv(gs', plan, log + [op], tok[s], s) {
      assert TokenInv(gs, plan, tok[s], s) && TokenInv(gs', plan, tok[s], s) && DataInv(gs, plan, log, tok[s], s);
      if tok[s] > 0 {
        var h := plan(tok[s], s);
        CoversSnoc(gs[h].ops, gs'[h].ops, log, op, s);
        if s == x {
          ExecuteMatches(gs[g].shards[s].kv, Replay(log), s, op);
        }
      }
    }
  }

  /** A write that takes effect has not taken effect before. */
  lemma EffectIsNew(gs: Groups, plan: Plan, tok: seq<int>, log: seq<Op>, issued: Issued, g: int, op: Op)
    requires GroupsInv(gs, plan, tok) && DataAll(gs, plan, tok, log)
    requires forall j {:trigger log[j]} | 0 <= j < |log| :: IsIssued(issued, log[j])
    requires g in gs && Effective(gs[g], op) && op.kind != Get && IsIssued(issued, op)
    ensures !Wrote(log, op.client, op.id)
  {
    var x := ShardOf(op.key);
    ServerHolds(gs, plan, tok, x, g);
    assert TokenInv(gs, plan, tok[x], x) && DataInv(gs, plan, log, tok[x], x);
    forall j | 0 <= j < |log| ensures !(log[j].client == op.client && log[j].id == op.id) {
      assert IsIssued(issued, log[j]);
    }
  }

  /** The shard of a write that takes effect is frozen nowhere. */
  lemma ServedNotFrozen(gs: Groups, plan: Plan, tok: seq<int>, s: int, g: int, h: int)
    requires GroupsInv(gs, plan, tok) && IsShard(s) && g in gs && CanServe(gs[g], s) && h in gs
    ensures !Frozen(gs, plan, h, s)
  {
    ServerHolds(gs, plan, tok, s, g);
    if Frozen(gs, plan, h, s) {
      FrozenHolds(gs, plan, tok, s, h);
    }
  }

  // ---- clients and tables ----

  /** A write the table calls a duplicate has taken effect. */
  lemma DuplicateWrote(issued: Issued, acked: set<(int, int)>, log: seq<Op>, ops: Table, op: Op)
    requires ClientInv(issued, acked, log) && TableOk(ops, log) && op.kind != Get && IsIssued(issued, op)
    requires IsDuplicate(ops, op.client, op.id)
    ensures Wrote(log, op.client, op.id)
  {
    var m := ops[op.client].maxId;
    var j :| 0 <= j < |log| && log[j].client == op.client && log[j].id == m;
    assert IsIssued(issued, log[j]) && IssuedOk(issued, acked, op.client, op.id);
    if op.id < m {
      AckedBelow(issued, acked, log, op.client, m, op.id);
      assert AckedOk(issued, log, op.client, op.id);
    }
  }

  lemma {:induction false} AckedBelow(issued: Issued, acked: set<(int, int)>, log: seq<Op>, c: int, m: int, id: int)
    requires ClientInv(issued, acked, log) && (c, m) in issued && 0 <= id < m
    ensures (c, id) in acked
    decreases m
  {
    assert IssuedOk(issued, acked, c, m);
    assert AckedOk(issued, log, c, m - 1);
    if id < m - 1 {
      AckedBelow(issued, acked, log, c, m - 1, id);
    }
  }

  lemma MergeTables(a: Table, b: Table, log: seq<Op>)
    requires TableOk(a, log) && TableOk(b, log)
    ensures TableOk(MergeOps(a, b), log) && TableGrows(a, MergeOps(a, b)) && TableGrows(b, MergeOps(a, b))
  {
  }

  // ---- configurations ----

  lemma ConfigGroupOk(plan: Plan, gids: set<int>, g: Group, gid: int)
    requires PlanOk(plan, gids) && GroupOk(plan, g, gid) && AllServing(g)
    ensures var c := ApplyConfig(g, ConfigOf(plan, g.config.num + 1)); GroupOk(plan, c, gid) && Later(g, c)
  {
    var n := g.config.num;
    var c := ApplyConfig(g, ConfigOf(plan, n + 1));
    forall s | IsShard(s) ensures LocalOk(plan, c, s) {
      assert LocalOk(plan, g, s) && NotReturned(plan, n + 1, s);
    }
    assert Lockstep(plan, c);
  }

  /** Moving to the next configuration neither hands over nor lets go of anything. */
  lemma ConfigPhases(gs: Groups, gs': Groups, plan: Plan, tok: seq<int>, g: int, k: int, s: int)
    requires GroupsInv(gs, plan, tok) && Known(plan, gs') && g in gs && AllServing(gs[g])
    requires gs' == gs[g := ApplyConfig(gs[g], ConfigOf(plan, gs[g].config.num + 1))]
    requires IsMove(plan, k, s)
    ensures Before(gs', plan, k, s) <==> Before(gs, plan, k, s)
    ensures AtSource(gs', plan, k, s) <==> AtSource(gs, plan, k, s)
    ensures PairInv(gs', plan, k, s)
  {
    assert PairInv(gs, plan, k, s);
    var c, c' := gs[g], gs'[g];
    assert c.shards[s].status == Serving;
  }

  ghost function FirstOwned(plan: Plan, tok: seq<int>, g: int, n: int): seq<int>
    requires |tok| == NSHARDS
  {
    seq(NSHARDS, s requires 0 <= s < NSHARDS => if plan(n, s) == 0 && plan(n + 1, s) == g then n + 1 else tok[s])
  }

  lemma {:induction false} NobodyBefore(plan: Plan, gids: set<int>, n: int, k: int, s: int)
    requires PlanOk(plan, gids) && IsShard(s) && plan(n, s) == 0 && 0 <= k <= n
    ensures plan(k, s) == 0
    decreases n
  {
    if k < n {
      assert NotReturned(plan, n, s);
      NobodyBefore(plan, gids, n - 1, k, s);
    }
  }

  lemma ConfigToken(gs: Groups, gs': Groups, plan: Plan, tok: seq<int>, g: int, s: int)
    requires GroupsInv(gs, plan, tok) && Known(plan, gs') && g in gs && AllServing(gs[g]) && IsShard(s)
    requires gs' == gs[g := ApplyConfig(gs[g], ConfigOf(plan, gs[g].config.num + 1))]
    ensures TokenInv(gs', plan, FirstOwned(plan, tok, g, gs[g].config.num)[s], s)
    ensures FirstOwned(plan, tok, g, gs[g].config.num)[s] != tok[s] ==> tok[s] == 0
  {
    var n := gs[g].config.num;
    var T := FirstOwned(plan, tok, g, n)[s];
    assert TokenInv(gs, plan, tok[s], s);
    if plan(n, s) == 0 && plan(n + 1, s) == g {
      assert IsStart(plan, n + 1, s) && !Received(gs, plan, n + 1, s);
      if tok[s] > 0 {
        NobodyBefore(plan, gs.Keys, n, tok[s], s);
      }
    }
    forall k | IsStart(plan, k, s) ensures Received(gs', plan, k, s) <==> k <= T {
      assert Received(gs, plan, k, s) <==> k <= tok[s];
      ConfigReceived(gs, gs', plan, tok, g, k, s);
    }
  }

  /** Only a shard that nobody had before is received by moving to a configuration. */
  lemma ConfigReceived(gs: Groups, gs': Groups, plan: Plan, tok: seq<int>, g: int, k: int, s: int)
    requires GroupsInv(gs, plan, tok) && Known(plan, gs') && g in gs && AllServing(gs[g]) && IsStart(plan, k, s)
    requires gs' == gs[g := ApplyConfig(gs[g], ConfigOf(plan, gs[g].config.num + 1))]
    ensures var n := gs[g].config.num;
      && (Received(gs', plan, k, s) <==>
            Received(gs, plan, k, s) || (k == n + 1 && plan(n, s) == 0 && plan(n + 1, s) == g))
      && (plan(n, s) == 0 ==> k > n)
  {
    var n := gs[g].config.num;
    if plan(k - 1, s) != 0 {
      ConfigPhases(gs, gs', plan, tok, g, k, s);
    }
    if plan(n, s) == 0 && k <= n {
      NobodyBefore(plan, gs.Keys, n, k, s);
    }
  }

  lemma ConfigStep(gs: Groups, gs': Groups, plan: Plan, tok: seq<int>, log: seq<Op>, g: int)
    requires GroupsInv(gs, plan, tok) && DataAll(gs, plan, tok, log) && g in gs && AllServing(gs[g])
    requires gs' == gs[g := ApplyConfig(gs[g], ConfigOf(plan, gs[g].config.num + 1))]
    ensures var tok' := FirstOwned(plan, tok, g, gs[g].config.num);
      Moves(plan, gs, gs', g) && GroupsInv(gs', plan, tok') && DataAll(gs', plan, tok', log)
  {
    var n := gs[g].config.num;
    var tok' := FirstOwned(plan, tok, g, n);
    ConfigGroupOk(plan, gs.Keys, gs[g], g);
    assert gs'.Keys == gs.Keys;
    assert Known(plan, gs');
    forall k, s | IsMove(plan, k, s) ensures PairInv(gs', plan, k, s) {
      ConfigPhases(gs, gs', plan, tok, g, k, s);
    }
    forall s | IsShard(s) ensures TokenInv(gs', plan, tok'[s], s) && DataInv(gs', plan, log, tok'[s], s) {
      ConfigToken(gs, gs', plan, tok, g, s);
      assert TokenInv(gs, plan, tok[s], s) && DataInv(gs, plan, log, tok[s], s);
      assert LocalOk(plan, gs[g], s);
    }
  }

  // ---- inserting pulled shards ----

  /** The early break never splits a batch: the loop inserts the whole batch or nothing. */
  lemma InsertAllOrNothing(gs: Groups, plan: Plan, log: seq<Op>, g: int, info: ShardData, h: int, done: set<int>)
    requires Known(plan, gs) && g in gs && InsertOk(gs, plan, log, g, info, h)
    requires gs[g].config.num == info.num && MayInsert(gs[g], info, done)
    ensures done == {} || done == info.shards.Keys
    ensures done != {} ==> forall s | s in info.shards :: gs[g].shards[s].status == Pulling
    ensures done == {} ==> forall s | s in info.shards :: gs[g].shards[s].status != Pulling
  {
    forall s, t | s in info.shards && t in info.shards ensures gs[g].shards[s].status == gs[g].shards[t].status {
      BatchTogether(gs, plan, h, g, info.num, s, t);
    }
  }

  lemma BatchTogether(gs: Groups, plan: Plan, h: int, g: int, k: int, s: int, t: int)
    requires Known(plan, gs) && k >= 1 && h in gs && g in gs && h != g
    requires s in Batch(plan, h, g, k) && t in Batch(plan, h, g, k)
    ensures IsMove(plan, k, s)
    ensures gs[g].config.num == k ==> gs[g].shards[s].status == gs[g].shards[t].status
    ensures gs[h].config.num == k ==> gs[h].shards[s].status == gs[h].shards[t].status
  {
    assert Together(plan, k, s, t);
    assert Lockstep(plan, gs[g]) && Lockstep(plan, gs[h]);
  }

  lemma InsertGroupOk(gs: Groups, plan: Plan, log: seq<Op>, g: int, info: ShardData, h: int)
    requires Known(plan, gs) && g in gs && InsertOk(gs, plan, log, g, info, h)
    requires gs[g].config.num == info.num && TableOk(gs[g].ops, log)
    requires forall s | s in info.shards :: gs[g].shards[s].status == Pulling
    ensures var c := ApplyInsert(gs[g], info, info.shards.Keys); GroupOk(plan, c, g) && Later(gs[g], c)
  {
    var b := gs[g];
    var c := ApplyInsert(b, info, info.shards.Keys);
    MergeTables(b.ops, info.ops, log);
    forall s | IsShard(s) ensures LocalOk(plan, c, s) && ShardLater(b.shards[s], c.shards[s]) {
      InsertLocal(gs, plan, log, g, info, h, s);
    }
    InsertLockstep(plan, b, g, info, h);
  }

  lemma ArrivedLocal(plan: Plan, b: Group, c: Group, kv: map<string, string>, s: int)
    requires Wf(b) && Wf(c) && IsShard(s) && LocalOk(plan, b, s) && b.shards[s].status == Pulling && KeysOf(kv, s)
    requires c.gid == b.gid && c.config == b.config && c.shards[s] == Shard(b.shards[s].kv + kv, GCing)
    ensures LocalOk(plan, c, s) && ShardLater(b.shards[s], c.shards[s])
  {
  }

  lemma SameLocal(plan: Plan, b: Group, c: Group, s: int)
    requires Wf(b) && Wf(c) && IsShard(s) && LocalOk(plan, b, s)
    requires c.gid == b.gid && c.config == b.config && c.shards[s] == b.shards[s]
    ensures LocalOk(plan, c, s) && ShardLater(b.shards[s], c.shards[s])
  {
  }

  lemma InsertLocal(gs: Groups, plan: Plan, log: seq<Op>, g: int, info: ShardData, h: int, s: int)
    requires Known(plan, gs) && g in gs && InsertOk(gs, plan, log, g, info, h) && IsShard(s)
    requires gs[g].config.num == info.num && forall t | t in info.shards :: gs[g].shards[t].status == Pulling
    ensures var c := ApplyInsert(gs[g], info, info.shards.Keys);
      LocalOk(plan, c, s) && ShardLater(gs[g].shards[s], c.shards[s])
  {
    var b := gs[g];
    var c := ApplyInsert(b, info, info.shards.Keys);
    assert LocalOk(plan, b, s);
    if s in info.shards {
      assert ArrivalOk(gs, log, g, info, h, s);
      ArrivedLocal(plan, b, c, info.shards[s], s);
    } else {
      SameLocal(plan, b, c, s);
    }
  }

  lemma InsertLockstep(plan: Plan, b: Group, g: int, info: ShardData, h: int)
    requires GroupOk(plan, b, g) && b.config.num == info.num && info.num >= 1
    requires info.shards.Keys == Batch(plan, h, g, info.num)
    ensures Lockstep(plan, ApplyInsert(b, info, info.shards.Keys))
  {
    var c := ApplyInsert(b, info, info.shards.Keys);
    forall s, t | IsShard(s) && IsShard(t) && Together(plan, info.num, s, t)
      && (plan(info.num - 1, s) == g || plan(info.num, s) == g)
      ensures c.shards[s].status == c.shards[t].status
    {
      assert s in Batch(plan, h, g, info.num) <==> t in Batch(plan, h, g, info.num);
      assert b.shards[s].status == b.shards[t].status;
    }
  }

  /** After an insertion the target holds the shards. */
  ghost function HandOver(tok: seq<int>, ids: set<int>, k: int): seq<int>
    requires |tok| == NSHARDS
  {
    seq(NSHARDS, s requires 0 <= s < NSHARDS => if s in ids then k else tok[s])
  }

  /** A migration is as far as it was if its shard is as it was at the group that moves on. */
  lemma PairSame(gs: Groups, gs': Groups, plan: Plan, g: int, k: int, s: int)
    requires Known(plan, gs) && Known(plan, gs') && g in gs && g in gs' && gs' == gs[g := gs'[g]] && IsMove(plan, k, s)
    requires gs'[g].config.num == gs[g].config.num
    requires gs[g].config.num == k ==> gs'[g].shards[s].status == gs[g].shards[s].status
    ensures Before(gs', plan, k, s) <==> Before(gs, plan, k, s)
    ensures AtSource(gs', plan, k, s) <==> AtSource(gs, plan, k, s)
    ensures PairInv(gs', plan, k, s) <==> PairInv(gs, plan, k, s)
  {
  }

  /** The migration of a shard that arrives is now copied but not yet deleted. */
  lemma ArrivedPair(gs: Groups, gs': Groups, plan: Plan, g: int, h: int, k: int, s: int)
    requires Known(plan, gs') && g in gs && g in gs' && gs' == gs[g := gs'[g]] && IsMove(plan, k, s)
    requires h in gs && h != g && h == plan(k - 1, s) && g == plan(k, s) && gs'[g].config.num == k && Wf(gs[h])
    requires gs'[g].shards[s].status == GCing && gs[h].config.num == k && gs[h].shards[s].status == BePulling
    ensures PairInv(gs', plan, k, s)
  {
  }

  lemma InsertPair(gs: Groups, gs': Groups, plan: Plan, tok: seq<int>, log: seq<Op>, g: int, info: ShardData, h: int,
                   k: int, s: int)
    requires GroupsInv(gs, plan, tok) && Known(plan, gs') && g in gs && InsertOk(gs, plan, log, g, info, h)
    requires gs[g].config.num == info.num && forall t | t in info.shards :: gs[g].shards[t].status == Pulling
    requires gs' == gs[g := ApplyInsert(gs[g], info, info.shards.Keys)]
    requires IsMove(plan, k, s)
    ensures PairInv(gs', plan, k, s)
    ensures !(s in info.shards && k == info.num) ==> (Before(gs', plan, k, s) <==> Before(gs, plan, k, s))
  {
    assert PairInv(gs, plan, k, s);
    assert g in gs' && gs' == gs[g := gs'[g]];
    if s in info.shards && k == info.num {
      assert s in Batch(plan, h, g, k) && ArrivalOk(gs, log, g, info, h, s);
      ArrivedPair(gs, gs', plan, g, h, k, s);
    } else {
      PairSame(gs, gs', plan, g, k, s);
    }
  }

  /** A shard that arrives was frozen at its source, where it had been since the last start. */
  lemma ArrivesFromToken(gs: Groups, plan: Plan, tok: seq<int>, log: seq<Op>, g: int, info: ShardData, h: int, s: int)
    requires GroupsInv(gs, plan, tok) && g in gs && InsertOk(gs, plan, log, g, info, h) && s in info.shards
    requires gs[g].config.num == info.num && gs[g].shards[s].status == Pulling
    ensures IsShard(s) && tok[s] > 0 && plan(tok[s], s) == h && tok[s] < info.num && IsMove(plan, info.num, s)
    ensures forall k | IsStart(plan, k, s) && k < info.num :: k <= tok[s]
  {
    assert ArrivalOk(gs, log, g, info, h, s);
    assert LocalOk(plan, gs[h], s) && LocalOk(plan, gs[g], s);
    FrozenHolds(gs, plan, tok, s, h);
    StartOf(plan, gs.Keys, info.num - 1, s);
  }

  lemma InsertToken(gs: Groups, gs': Groups, plan: Plan, tok: seq<int>, log: seq<Op>, g: int, info: ShardData, h: int,
                    s: int)
    requires GroupsInv(gs, plan, tok) && Known(plan, gs') && g in gs && InsertOk(gs, plan, log, g, info, h)
    requires gs[g].config.num == info.num && forall t | t in info.shards :: gs[g].shards[t].status == Pulling
    requires gs' == gs[g := ApplyInsert(gs[g], info, info.shards.Keys)]
    requires IsShard(s)
    ensures TokenInv(gs', plan, HandOver(tok, info.shards.Keys, info.num)[s], s)
    ensures s in info.shards ==> tok[s] > 0 && plan(tok[s], s) == h
  {
    var n := info.num;
    var T := HandOver(tok, info.shards.Keys, n)[s];
    assert TokenInv(gs, plan, tok[s], s);
    if s in info.shards { ArrivesFromToken(gs, plan, tok, log, g, info, h, s); }
    forall k | IsStart(plan, k, s) ensures Received(gs', plan, k, s) <==> k <= T {
      assert Received(gs, plan, k, s) <==> k <= tok[s];
      if plan(k - 1, s) != 0 {
        InsertPair(gs, gs', plan, tok, log, g, info, h, k, s);
      }
    }
  }

  lemma InsertStep(gs: Groups, gs': Groups, plan: Plan, tok: seq<int>, log: seq<Op>, g: int, info: ShardData, h: int)
    requires GroupsInv(gs, plan, tok) && DataAll(gs, plan, tok, log) && g in gs && InsertOk(gs, plan, log, g, info, h)
    requires gs[g].config.num == info.num && TableOk(gs[g].ops, log)
    requires forall s | s in info.shards :: gs[g].shards[s].status == Pulling
    requires gs' == gs[g := ApplyInsert(gs[g], info, info.shards.Keys)]
    ensures var tok' := HandOver(tok, info.shards.Keys, info.num);
      Moves(plan, gs, gs', g) && GroupsInv(gs', plan, tok') && DataAll(gs', plan, tok', log)
  {
    var tok' := HandOver(tok, info.shards.Keys, info.num);
    InsertGroupOk(gs, plan, log, g, info, h);
    assert gs'.Keys == gs.Keys;
    assert Known(plan, gs');
    forall k, s | IsMove(plan, k, s) ensures PairInv(gs', plan, k, s) {
      InsertPair(gs, gs', plan, tok, log, g, info, h, k, s);
    }
    MergeTables(gs[g].ops, info.ops, log);
    forall s | IsShard(s) ensures TokenInv(gs', plan, tok'[s], s) && DataInv(gs', plan, log, tok'[s], s) {
      InsertToken(gs, gs', plan, tok, log, g, info, h, s);
      assert TokenInv(gs, plan, tok[s], s) && DataInv(gs, plan, log, tok[s], s);
      InsertData(gs, gs', plan, tok, log, g, info, h, s);
    }
  }

  lemma InsertData(gs: Groups, gs': Groups, plan: Plan, tok: seq<int>, log: seq<Op>, g: int, info: ShardData, h: int,
                   s: int)
    requires GroupsInv(gs, plan, tok) && Known(plan, gs') && g in gs && InsertOk(gs, plan, log, g, info, h)
    requires gs[g].config.num == info.num && forall t | t in info.shards :: gs[g].shards[t].status == Pulling
    requires gs' == gs[g := ApplyInsert(gs[g], info, info.shards.Keys)]
    requires TableGrows(gs[g].ops, gs'[g].ops) && TableGrows(info.ops, gs'[g].ops)
    requires IsShard(s) && TokenInv(gs, plan, tok[s], s) && DataInv(gs, plan, log, tok[s], s)
    requires s in info.shards ==> tok[s] > 0 && plan(tok[s], s) == h
    requires var T := HandOver(tok, info.shards.Keys, info.num)[s]; TokenInv(gs', plan, T, s)
    ensures DataInv(gs', plan, log, HandOver(tok, info.shards.Keys, info.num)[s], s)
  {
    if s in info.shards {
      assert ArrivalOk(gs, log, g, info, h, s);
      assert LocalOk(plan, gs[g], s);
      assert gs'[g].shards[s].kv == info.shards[s];
    }
  }

  lemma MergedGroupOk(plan: Plan, b: Group, c: Group, g: int)
    requires GroupOk(plan, b, g) && c == b.(ops := c.ops) && TableGrows(b.ops, c.ops)
    ensures GroupOk(plan, c, g) && Later(b, c)
  {
    forall s | IsShard(s) ensures LocalOk(plan, c, s) && ShardLater(b.shards[s], c.shards[s]) {
      assert LocalOk(plan, b, s);
    }
  }

  /** A late copy of an insertion only brings tables up to date. */
  lemma LateInsertStep(gs: Groups, gs': Groups, plan: Plan, tok: seq<int>, log: seq<Op>, g: int, info: ShardData)
    requires GroupsInv(gs, plan, tok) && DataAll(gs, plan, tok, log) && g in gs
    requires TableOk(gs[g].ops, log) && TableOk(info.ops, log)
    requires gs' == gs[g := ApplyInsert(gs[g], info, {})]
    ensures Moves(plan, gs, gs', g) && GroupsInv(gs', plan, tok) && DataAll(gs', plan, tok, log)
  {
    assert gs'[g].shards == gs[g].shards;
    MergeTables(gs[g].ops, info.ops, log);
    MergedGroupOk(plan, gs[g], gs'[g], g);
    assert gs'.Keys == gs.Keys;
    StatesKept(gs, gs', plan, tok, g);
    forall s | IsShard(s) ensures TokenInv(gs', plan, tok[s], s) && DataInv(gs', plan, log, tok[s], s) {
      assert TokenInv(gs, plan, tok[s], s) && TokenInv(gs', plan, tok[s], s) && DataInv(gs, plan, log, tok[s], s);
    }
  }

  // ---- deleting ----

  /** A deleted shard: served at its new owner, emptied at its old one. */
  function Released(shard: Shard, st: Status): Shard {
    if st == GCing then shard.(status := Serving) else NEW_SHARD
  }

  /** Deleting a list of distinct shards that are all in the same deletable state. */
  lemma {:induction false} DeleteAll(shards: seq<Shard>, ids: seq<int>, st: Status)
    requires |shards| == NSHARDS && IdsOk(ids) && (st == GCing || st == BePulling)
    requires forall i, j | 0 <= i < j < |ids| :: ids[i] != ids[j]
    requires forall j | 0 <= j < |ids| :: shards[ids[j]].status == st
    ensures forall s | IsShard(s) ::
      DeleteLoop(shards, ids)[s] == if s !in ids then shards[s] else Released(shards[s], st)
    decreases |ids|
  {
    if ids != [] {
      var x := ids[0];
      var next := shards[x := Released(shards[x], st)];
      assert forall j | 0 <= j < |ids[1..]| :: ids[1..][j] == ids[j + 1];
      DeleteAll(next, ids[1..], st);
      assert forall s :: s in ids <==> s == x || s in ids[1..];
    }
  }

  /** What a delete does to a batch: all of it leaves state st, or nothing happens. */
  ghost predicate DeleteOutcome(b: Group, c: Group, batch: set<int>, st: Status)
    requires Wf(b) && Wf(c)
  {
    && c.gid == b.gid && c.config == b.config && c.lastConfig == b.lastConfig && c.ops == b.ops
    && (st == GCing || st == BePulling)
    && forall s | IsShard(s) ::
         c.shards[s] == if s in batch && b.shards[s].status == st then Released(b.shards[s], st) else b.shards[s]
  }

  lemma DeleteBatch(gs: Groups, plan: Plan, tok: seq<int>, g: int, num: int, ids: seq<int>, x: int)
      returns (batch: set<int>, st: Status)
    requires GroupsInv(gs, plan, tok) && g in gs && DeleteOk(gs, plan, g, num, ids, x) && IdsOk(ids)
    requires gs[g].config.num == num
    ensures DeleteOutcome(gs[g], ApplyDelete(gs[g], num, ids), batch, st) && Lists(ids, batch)
    ensures if st == BePulling then batch == Batch(plan, g, x, num) else batch == Batch(plan, x, g, num)
    ensures forall s | s in batch ::
      && IsMove(plan, num, s) && !Before(gs, plan, num, s)
      && (st == GCing ==> !AtSource(gs, plan, num, s))
      && (gs[g].shards[s].status == st || gs[g].shards[s].status == Serving)
    ensures forall s, t | s in batch && t in batch :: gs[g].shards[s].status == gs[g].shards[t].status
  {
    var out := Batch(plan, g, x, num);
    var outgoing := Lists(ids, out) && forall s | s in out :: !Before(gs, plan, num, s);
    batch := if outgoing then Batch(plan, g, x, num) else Batch(plan, x, g, num);
    st := if outgoing then BePulling else GCing;
    forall s, t | s in batch && t in batch
      ensures IsMove(plan, num, s) && gs[g].shards[s].status == gs[g].shards[t].status
    {
      if outgoing { BatchTogether(gs, plan, g, x, num, s, t); } else { BatchTogether(gs, plan, x, g, num, s, t); }
    }
    forall s | s in batch
      ensures !Before(gs, plan, num, s) && (st == GCing ==> !AtSource(gs, plan, num, s))
      ensures gs[g].shards[s].status == st || gs[g].shards[s].status == Serving
    {
      assert PairInv(gs, plan, num, s) && LocalOk(plan, gs[g], s);
    }
    DeleteSame(gs[g], num, ids, batch, st);
  }

  lemma DeleteSame(b: Group, num: int, ids: seq<int>, batch: set<int>, st: Status)
    requires Wf(b) && IdsOk(ids) && Lists(ids, batch) && b.config.num == num && (st == GCing || st == BePulling)
    requires forall s | s in batch :: IsShard(s) && (b.shards[s].status == st || b.shards[s].status == Serving)
    requires forall s, t | s in batch && t in batch :: b.shards[s].status == b.shards[t].status
    ensures DeleteOutcome(b, ApplyDelete(b, num, ids), batch, st)
  {
    if ids != [] {
      assert ids[0] in batch;
      if b.shards[ids[0]].status == st {
        forall j | 0 <= j < |ids| ensures b.shards[ids[j]].status == st { assert ids[j] in batch; }
        DeleteAll(b.shards, ids, st);
      }
    }
  }

  lemma DeleteGroupOk(plan: Plan, b: Group, c: Group, g: int, num: int, x: int, batch: set<int>, st: Status)
    requires GroupOk(plan, b, g) && Wf(c) && DeleteOutcome(b, c, batch, st) && b.config.num == num && num >= 1 && x != g
    requires if st == BePulling then batch == Batch(plan, g, x, num) else batch == Batch(plan, x, g, num)
    requires forall s, t | s in batch && t in batch :: b.shards[s].status == b.shards[t].status
    ensures GroupOk(plan, c, g) && Later(b, c)
  {
    forall s | IsShard(s) ensures LocalOk(plan, c, s) && ShardLater(b.shards[s], c.shards[s]) {
      assert LocalOk(plan, b, s);
    }
    forall s, t | IsShard(s) && IsShard(t) && Together(plan, num, s, t) && (plan(num - 1, s) == g || plan(num, s) == g)
      ensures c.shards[s].status == c.shards[t].status
    {
      assert s in batch <==> t in batch;
      assert b.shards[s].status == b.shards[t].status;
    }
  }

  lemma DeletePair(gs: Groups, gs': Groups, plan: Plan, tok: seq<int>, g: int, batch: set<int>, st: Status, k: int,
                   s: int)
    requires GroupsInv(gs, plan, tok) && Known(plan, gs') && g in gs && g in gs' && gs' == gs[g := gs'[g]]
    requires DeleteOutcome(gs[g], gs'[g], batch, st) && IsMove(plan, k, s)
    requires s in batch ==>
      && IsMove(plan, gs[g].config.num, s) && !Before(gs, plan, gs[g].config.num, s)
      && (st == GCing ==> !AtSource(gs, plan, gs[g].config.num, s))
    ensures PairInv(gs', plan, k, s) && (Before(gs', plan, k, s) <==> Before(gs, plan, k, s))
  {
    assert PairInv(gs, plan, k, s);
    if k == gs[g].config.num && s in batch && gs[g].shards[s].status == st {
      assert LocalOk(plan, gs[g], s);
      ReleasedPair(gs, gs', plan, g, st, s);
    } else {
      PairSame(gs, gs', plan, g, k, s);
    }
  }

  /** The migration of a shard that is released is over. */
  lemma ReleasedPair(gs: Groups, gs': Groups, plan: Plan, g: int, st: Status, s: int)
    requires Known(plan, gs) && Known(plan, gs') && g in gs && g in gs' && gs' == gs[g := gs'[g]]
    requires IsMove(plan, gs[g].config.num, s) && LocalOk(plan, gs[g], s) && PairInv(gs, plan, gs[g].config.num, s)
    requires !Before(gs, plan, gs[g].config.num, s) && (st == GCing ==> !AtSource(gs, plan, gs[g].config.num, s))
    requires gs[g].shards[s].status == st && (st == GCing || st == BePulling)
    requires gs'[g].config.num == gs[g].config.num && gs'[g].shards[s].status == Serving
    ensures PairInv(gs', plan, gs[g].config.num, s) && !Before(gs', plan, gs[g].config.num, s)
  {
  }

  lemma DeleteStep(gs: Groups, gs': Groups, plan: Plan, tok: seq<int>, log: seq<Op>, g: int, num: int, ids: seq<int>,
                   x: int)
    requires GroupsInv(gs, plan, tok) && DataAll(gs, plan, tok, log) && g in gs
    requires DeleteOk(gs, plan, g, num, ids, x) && IdsOk(ids) && gs[g].config.num == num
    requires gs' == gs[g := ApplyDelete(gs[g], num, ids)]
    ensures Moves(plan, gs, gs', g) && GroupsInv(gs', plan, tok) && DataAll(gs', plan, tok, log)
    ensures forall s | s in ids && IsMove(plan, num, s) && plan(num - 1, s) == g :: !AtSource(gs', plan, num, s)
  {
    var batch, st := DeleteBatch(gs, plan, tok, g, num, ids, x);
    DeleteGroupOk(plan, gs[g], gs'[g], g, num, x, batch, st);
    assert gs'.Keys == gs.Keys;
    assert Known(plan, gs');
    forall k, s | IsMove(plan, k, s) ensures PairInv(gs', plan, k, s) {
      DeletePair(gs, gs', plan, tok, g, batch, st, k, s);
    }
    forall s | IsShard(s) ensures TokenInv(gs', plan, tok[s], s) && DataInv(gs', plan, log, tok[s], s) {
      assert TokenInv(gs, plan, tok[s], s) && DataInv(gs, plan, log, tok[s], s);
      DeleteToken(gs, gs', plan, tok, g, batch, st, s);
      DeleteData(gs, gs', plan, tok, log, g, batch, st, s);
    }
  }

  lemma DeleteToken(gs: Groups, gs': Groups, plan: Plan, tok: seq<int>, g: int, batch: set<int>, st: Status, s: int)
    requires GroupsInv(gs, plan, tok) && Known(plan, gs') && g in gs && g in gs' && gs' == gs[g := gs'[g]]
    requires DeleteOutcome(gs[g], gs'[g], batch, st) && IsShard(s)
    requires s in batch ==>
      && IsMove(plan, gs[g].config.num, s) && !Before(gs, plan, gs[g].config.num, s)
      && (st == GCing ==> !AtSource(gs, plan, gs[g].config.num, s))
    ensures TokenInv(gs', plan, tok[s], s)
  {
    assert TokenInv(gs, plan, tok[s], s);
    forall k | IsStart(plan, k, s) ensures Received(gs', plan, k, s) <==> k <= tok[s] {
      assert Received(gs, plan, k, s) <==> k <= tok[s];
      if plan(k - 1, s) != 0 { DeletePair(gs, gs', plan, tok, g, batch, st, k, s); }
    }
  }

  /** Only a copy that is no longer held is thrown away. */
  lemma DeleteData(gs: Groups, gs': Groups, plan: Plan, tok: seq<int>, log: seq<Op>, g: int, batch: set<int>,
                   st: Status, s: int)
    requires GroupsInv(gs, plan, tok) && Known(plan, gs') && g in gs && g in gs' && gs' == gs[g := gs'[g]]
    requires DeleteOutcome(gs[g], gs'[g], batch, st) && IsShard(s)
    requires TokenInv(gs, plan, tok[s], s) && DataInv(gs, plan, log, tok[s], s) && TokenInv(gs', plan, tok[s], s)
    requires s in batch ==> IsMove(plan, gs[g].config.num, s) && !Before(gs, plan, gs[g].config.num, s)
    ensures DataInv(gs', plan, log, tok[s], s)
  {
    var n := gs[g].config.num;
    if s in batch && st == BePulling && gs[g].shards[s].status == BePulling && tok[s] > 0 {
      assert LocalOk(plan, gs[g], s);
      assert IsStart(plan, n, s) && Received(gs, plan, n, s);
      GoneBy(gs, plan, tok, g, s);
    }
  }

  /** A group that has come to its move of s and whose target has it, does not hold s. */
  lemma GoneBy(gs: Groups, plan: Plan, tok: seq<int>, g: int, s: int)
    requires GroupsInv(gs, plan, tok) && IsShard(s) && g in gs && 1 <= gs[g].config.num <= tok[s]
    requires plan(gs[g].config.num, s) != g && plan(gs[g].config.num, s) != 0
    ensures plan(tok[s], s) != g
  {
    assert TokenInv(gs, plan, tok[s], s);
    assert Received(gs, plan, tok[s], s);
  }
}
