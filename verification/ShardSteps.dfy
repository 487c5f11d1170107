/** How the groups may move, and what that leaves true. */
module ShardSteps {
  import opened ShardSpec
  import opened ShardWorld
  import opened ShardInvariant

  // ---- times of ownership ----

  /** The configuration in which the owner of n began. */
  ghost function Start(plan: Plan, n: int, s: int): int
    decreases n
  {
    if n <= 0 || plan(n - 1, s) != plan(n, s) then n else Start(plan, n - 1, s)
  }

  lemma {:induction false} StartOf(plan: Plan, gids: set<int>, n: int, s: int)
    requires PlanOk(plan, gids) && n >= 0 && IsShard(s) && plan(n, s) != 0
    ensures var b := Start(plan, n, s);
      IsStart(plan, b, s) && b <= n && forall j | b <= j <= n :: plan(j, s) == plan(n, s)
    decreases n
  {
    assert n > 0;
    if plan(n - 1, s) == plan(n, s) {
      StartOf(plan, gids, n - 1, s);
    }
  }

  /** If the owner changes after a, it changes for the first time somewhere, to another group. */
  lemma {:induction false} FirstChange(plan: Plan, gids: set<int>, a: int, n: int, s: int) returns (k: int)
    requires PlanOk(plan, gids) && 0 <= a < n && IsShard(s) && plan(a, s) != 0 && plan(n, s) != plan(n - 1, s)
    ensures a < k <= n && IsMove(plan, k, s) && IsStart(plan, k, s) && plan(k - 1, s) == plan(a, s)
    decreases n - a
  {
    assert NotReturned(plan, a + 1, s);
    if plan(a + 1, s) != plan(a, s) {
      k := a + 1;
    } else {
      k := FirstChange(plan, gids, a + 1, n, s);
    }
  }

  /** Whoever can serve a shard holds it. */
  lemma ServerHolds(gs: Groups, plan: Plan, tok: seq<int>, s: int, x: int)
    requires GroupsInv(gs, plan, tok) && IsShard(s) && x in gs && CanServe(gs[x], s)
    ensures tok[s] > 0 && plan(tok[s], s) == x && tok[s] == Start(plan, gs[x].config.num, s)
  {
    var n, T := gs[x].config.num, tok[s];
    assert TokenInv(gs, plan, T, s);
    assert plan(n, s) == x;
    StartOf(plan, gs.Keys, n, s);
    var b := Start(plan, n, s);
    assert Received(gs, plan, b, s);
    if T > b {
      assert T > n by {
        assert T <= n ==> plan(T - 1, s) == plan(T, s);
      }
      var k := FirstChange(plan, gs.Keys, n, T, s);
      NotReceived(gs, plan, tok, k, s);
    }
  }

  /** A shard is not received from a group that has not come to its move yet. */
  lemma NotReceived(gs: Groups, plan: Plan, tok: seq<int>, k: int, s: int)
    requires GroupsInv(gs, plan, tok) && IsMove(plan, k, s) && gs[plan(k - 1, s)].config.num < k
    ensures tok[s] < k
  {
    assert PairInv(gs, plan, k, s) && TokenInv(gs, plan, tok[s], s);
    assert !Received(gs, plan, k, s);
  }

  /** A frozen shard whose new owner has not received it is held by its old owner. */
  lemma FrozenHolds(gs: Groups, plan: Plan, tok: seq<int>, s: int, h: int)
    requires GroupsInv(gs, plan, tok) && IsShard(s) && h in gs && Frozen(gs, plan, h, s)
    ensures tok[s] > 0 && plan(tok[s], s) == h && tok[s] == Start(plan, gs[h].config.num - 1, s)
  {
    var k, T := gs[h].config.num, tok[s];
    assert TokenInv(gs, plan, T, s);
    StartOf(plan, gs.Keys, k - 1, s);
    var b := Start(plan, k - 1, s);
    assert Received(gs, plan, b, s);
    assert IsStart(plan, k, s) && !Received(gs, plan, k, s);
    assert T > b ==> plan(T - 1, s) == plan(T, s);
  }

  // ---- later states of a group ----

  /** Group g alone moves on. */
  ghost predicate Moves(plan: Plan, gs: Groups, gs': Groups, g: int) {
    Known(plan, gs) && Known(plan, gs') && g in gs && g in gs' && gs' == gs[g := gs'[g]] && Later(gs[g], gs'[g])
  }

  lemma LaterTrans(a: Group, b: Group, c: Group)
    requires Wf(a) && Wf(b) && Wf(c) && Later(a, b) && Later(b, c)
    ensures Later(a, c)
  {
  }

  /** Once received, always received; once let go, always let go. */
  lemma Advances(gs: Groups, gs': Groups, plan: Plan, g: int, k: int, s: int)
    requires Moves(plan, gs, gs', g)
    requires IsMove(plan, k, s)
    ensures !Before(gs, plan, k, s) ==> !Before(gs', plan, k, s)
    ensures !AtSource(gs, plan, k, s) ==> !AtSource(gs', plan, k, s)
  {
    var c, c' := gs[g], gs'[g];
    assert c.config.num == c'.config.num ==> ShardLater(c.shards[s], c'.shards[s]);
  }

  lemma FrozenBefore(gs: Groups, gs': Groups, plan: Plan, g: int, h: int, s: int)
    requires Moves(plan, gs, gs', g)
    requires h in gs && IsShard(s) && Frozen(gs', plan, h, s)
    requires gs[h].config.num == gs'[h].config.num
    ensures Frozen(gs, plan, h, s)
  {
    Advances(gs, gs', plan, g, gs[h].config.num, s);
    assert ShardLater(gs[g].shards[s], gs'[g].shards[s]) || h != g;
    assert LocalOk(plan, gs[h], s);
  }

  // ---- the log of writes only grows, and never by a write to a frozen shard ----

  ghost predicate LogStep(gs: Groups, plan: Plan, log: seq<Op>, log': seq<Op>)
    requires Known(plan, gs)
  {
    || log' == log
    || (|log'| == |log| + 1 && log'[..|log|] == log
        && forall h | h in gs :: !Frozen(gs, plan, h, ShardOf(log'[|log|].key)))
  }

  lemma TableKept(ops: Table, gs: Groups, plan: Plan, log: seq<Op>, log': seq<Op>)
    requires Known(plan, gs) && LogStep(gs, plan, log, log') && TableOk(ops, log)
    ensures TableOk(ops, log')
  {
    forall c | c in ops ensures Wrote(log', c, ops[c].maxId) {
      var j :| 0 <= j < |log| && log[j].client == c && log[j].id == ops[c].maxId;
      assert log'[j] == log[j];
    }
  }

  lemma CoversKept(ops: Table, gs: Groups, plan: Plan, log: seq<Op>, log': seq<Op>, s: int, h: int)
    requires Known(plan, gs) && LogStep(gs, plan, log, log') && Covers(ops, log, s)
    requires IsShard(s) && h in gs && Frozen(gs, plan, h, s)
    ensures Covers(ops, log', s)
  {
    forall j | 0 <= j < |log'| && ShardOf(log'[j].key) == s ensures IsDuplicate(ops, log'[j].client, log'[j].id) {
      assert j < |log|;
      assert log'[j] == log[j];
    }
  }

  // ---- what a move of one group keeps ----

  lemma PastKept(gs: Groups, gs': Groups, plan: Plan, log: seq<Op>, log': seq<Op>, g: int, x: int, p: Group)
    requires Moves(plan, gs, gs', g)
    requires LogStep(gs', plan, log, log')
    requires x in gs && PastOk(gs, plan, log, x, p)
    ensures PastOk(gs', plan, log', x, p)
  {
    TableKept(p.ops, gs', plan, log, log');
    if x == g {
      LaterTrans(p, gs[g], gs'[g]);
    }
    forall s | IsShard(s) && Frozen(gs', plan, x, s)
      && p.config.num == gs'[x].config.num && p.shards[s].status == BePulling
      ensures Covers(p.ops, log', s)
    {
      FrozenBefore(gs, gs', plan, g, x, s);
      CoversKept(p.ops, gs', plan, log, log', s, x);
    }
  }

  lemma NewPast(gs': Groups, plan: Plan, tok': seq<int>, log': seq<Op>, g: int)
    requires GroupsInv(gs', plan, tok') && DataAll(gs', plan, tok', log') && g in gs'
    requires TableOk(gs'[g].ops, log')
    ensures PastOk(gs', plan, log', g, gs'[g])
  {
    forall s | IsShard(s) && Frozen(gs', plan, g, s) ensures Covers(gs'[g].ops, log', s) {
      FrozenHolds(gs', plan, tok', s, g);
      assert TokenInv(gs', plan, tok'[s], s);
      assert DataInv(gs', plan, log', tok'[s], s);
    }
  }

  lemma ArrivalKept(gs: Groups, gs': Groups, plan: Plan, tok': seq<int>, log: seq<Op>, log': seq<Op>, g: int, x: int,
                    info: ShardData, h: int, s: int)
    requires Moves(plan, gs, gs', g) && GroupsInv(gs', plan, tok')
    requires LogStep(gs', plan, log, log')
    requires x in gs && InsertOk(gs, plan, log, x, info, h) && s in info.shards
    ensures ArrivalOk(gs', log', x, info, h, s)
  {
    assert ArrivalOk(gs, log, x, info, h, s);
    if gs'[x].config.num == info.num && gs'[x].shards[s].status == Pulling {
      assert x == g ==> ShardLater(gs[g].shards[s], gs'[g].shards[s]);
      assert gs[x].config.num == info.num && gs[x].shards[s].status == Pulling;
      assert IsMove(plan, info.num, s) by { assert LocalOk(plan, gs[x], s); }
      assert PairInv(gs', plan, info.num, s);
      assert AtSource(gs', plan, info.num, s);
      assert h == g ==> ShardLater(gs[g].shards[s], gs'[g].shards[s]);
      assert gs'[h].shards[s] == gs[h].shards[s];
      assert Frozen(gs', plan, h, s) by { assert LocalOk(plan, gs'[h], s); }
      CoversKept(info.ops, gs', plan, log, log', s, h);
    }
  }

  lemma InsertKept(gs: Groups, gs': Groups, plan: Plan, tok': seq<int>, log: seq<Op>, log': seq<Op>, g: int, x: int,
                   info: ShardData, h: int)
    requires Moves(plan, gs, gs', g) && GroupsInv(gs', plan, tok')
    requires LogStep(gs', plan, log, log')
    requires x in gs && InsertOk(gs, plan, log, x, info, h)
    ensures InsertOk(gs', plan, log', x, info, h)
  {
    TableKept(info.ops, gs', plan, log, log');
    forall s | s in info.shards ensures ArrivalOk(gs', log', x, info, h, s) {
      ArrivalKept(gs, gs', plan, tok', log, log', g, x, info, h, s);
    }
  }

  lemma DeleteKept(gs: Groups, gs': Groups, plan: Plan, g: int, x: int, num: int, ids: seq<int>, y: int)
    requires Moves(plan, gs, gs', g)
    requires x in gs && DeleteOk(gs, plan, x, num, ids, y)
    ensures DeleteOk(gs', plan, x, num, ids, y)
  {
    forall s | s in Batch(plan, x, y, num) || s in Batch(plan, y, x, num)
      ensures !Before(gs, plan, num, s) ==> !Before(gs', plan, num, s)
      ensures !AtSource(gs, plan, num, s) ==> !AtSource(gs', plan, num, s)
    {
      assert IsMove(plan, num, s);
      Advances(gs, gs', plan, g, num, s);
    }
  }

  lemma EntryKept(gs: Groups, gs': Groups, plan: Plan, tok': seq<int>, log: seq<Op>, log': seq<Op>, issued: Issued,
                  g: int, x: int, e: Entry)
    requires Moves(plan, gs, gs', g) && GroupsInv(gs', plan, tok') && LogStep(gs', plan, log, log')
    requires x in gs && EntryOk(gs, plan, log, issued, x, e)
    ensures EntryOk(gs', plan, log', issued, x, e)
  {
    match e
    case Configuration(c) =>
      if gs'[x].config.num == c.num - 1 {
        assert x == g ==> forall s | IsShard(s) :: ShardLater(gs[g].shards[s], gs'[g].shards[s]);
      }
    case InsertShards(info) =>
      var h :| InsertOk(gs, plan, log, x, info, h);
      InsertKept(gs, gs', plan, tok', log, log', g, x, info, h);
    case DeleteShards(num, ids) =>
      var y :| DeleteOk(gs, plan, x, num, ids, y);
      DeleteKept(gs, gs', plan, g, x, num, ids, y);
    case _ =>
  }

  lemma DeletedKept(gs: Groups, gs': Groups, plan: Plan, g: int, h: int, e: Entry)
    requires Moves(plan, gs, gs', g)
    requires h in gs && DeletedOk(gs, plan, h, e)
    ensures DeletedOk(gs', plan, h, e)
  {
    forall s | s in e.ids && IsMove(plan, e.num, s) && plan(e.num - 1, s) == h ensures !AtSource(gs', plan, e.num, s) {
      Advances(gs, gs', plan, g, e.num, s);
    }
  }

  // ---- all groups at once ----

  /** Group g alone moves on, and the groups and the log of writes are sound after it. */
  ghost predicate Stepped(plan: Plan, gs: Groups, gs': Groups, tok': seq<int>, log: seq<Op>, log': seq<Op>, g: int) {
    && Moves(plan, gs, gs', g) && GroupsInv(gs', plan, tok') && DataAll(gs', plan, tok', log')
    && LogStep(gs', plan, log, log') && TableOk(gs'[g].ops, log')
  }

  lemma PastAllKept(gs: Groups, gs': Groups, plan: Plan, tok': seq<int>, log: seq<Op>, log': seq<Op>, past: Past,
                    g: int)
    requires Stepped(plan, gs, gs', tok', log, log', g) && past.Keys == gs.Keys && PastAll(gs, plan, log, past)
    ensures PastAll(gs', plan, log', past[g := past[g] + {gs'[g]}])
  {
    var past' := past[g := past[g] + {gs'[g]}];
    NewPast(gs', plan, tok', log', g);
    forall x, p | x in gs' && p in past'[x] ensures PastOk(gs', plan, log', x, p) {
      if p in past[x] {
        assert PastOk(gs, plan, log, x, p);
        PastKept(gs, gs', plan, log, log', g, x, p);
      }
    }
  }

  lemma PendingAllKept(gs: Groups, gs': Groups, plan: Plan, tok': seq<int>, log: seq<Op>, log': seq<Op>,
                       issued: Issued, pending: Entries, g: int)
    requires Stepped(plan, gs, gs', tok', log, log', g)
    requires pending.Keys == gs.Keys && PendingAll(gs, plan, log, issued, pending)
    ensures PendingAll(gs', plan, log', issued, pending)
  {
    forall x, e | x in gs' && e in pending[x] ensures EntryOk(gs', plan, log', issued, x, e) {
      assert EntryOk(gs, plan, log, issued, x, e);
      EntryKept(gs, gs', plan, tok', log, log', issued, g, x, e);
    }
  }

  lemma DeletedAllKept(gs: Groups, gs': Groups, plan: Plan, deleted: Entries, g: int)
    requires Moves(plan, gs, gs', g) && deleted.Keys == gs.Keys && DeletedAll(gs, plan, deleted)
    ensures DeletedAll(gs', plan, deleted)
  {
    forall x, e | x in gs' && e in deleted[x] ensures DeletedOk(gs', plan, x, e) {
      assert DeletedOk(gs, plan, x, e);
      DeletedKept(gs, gs', plan, g, x, e);
    }
  }
}
