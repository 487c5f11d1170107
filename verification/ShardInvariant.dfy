/** The invariant of the sharded store. */
module ShardInvariant {
  import opened ShardSpec
  import opened ShardWorld

  type Groups = map<int, Group>
  type Past = map<int, set<Group>>
  type Entries = map<int, set<Entry>>
  type Issued = map<(int, int), Op>

  predicate IsShard(s: int) { 0 <= s < NSHARDS }

  // ---- one state of one group ----

  ghost predicate LocalOk(plan: Plan, g: Group, s: int)
    requires Wf(g) && IsShard(s)
  {
    var n := g.config.num;
    && (match g.shards[s].status
        case Pulling =>
          n >= 1 && plan(n, s) == g.gid && plan(n - 1, s) != g.gid && plan(n - 1, s) != 0 && g.shards[s].kv == map[]
        case GCing => n >= 1 && plan(n, s) == g.gid && plan(n - 1, s) != g.gid && plan(n - 1, s) != 0
        case BePulling => n >= 1 && plan(n - 1, s) == g.gid && plan(n, s) != g.gid && plan(n, s) != 0
        case Serving => plan(n, s) != g.gid ==> g.shards[s].kv == map[])
    && KeysOf(g.shards[s].kv, s)
  }

  ghost predicate KeysOf(kv: map<string, string>, s: int) { forall key | key in kv :: ShardOf(key) == s }

  /** Shard s changes hands between two groups in configuration k. */
  ghost predicate IsMove(plan: Plan, k: int, s: int) {
    k >= 1 && IsShard(s) && plan(k - 1, s) != 0 && plan(k, s) != 0 && plan(k - 1, s) != plan(k, s)
  }

  /** The shards that go from h to g in configuration k. */
  ghost function Batch(plan: Plan, h: int, g: int, k: int): set<int> {
    set s | 0 <= s < NSHARDS && plan(k - 1, s) == h && plan(k, s) == g
  }

  /** The shards of one batch are always in the same state. */
  ghost predicate Lockstep(plan: Plan, g: Group)
    requires Wf(g)
  {
    forall s, t {:trigger Together(plan, g.config.num, s, t)} | IsShard(s) && IsShard(t)
      && Together(plan, g.config.num, s, t) && (plan(g.config.num - 1, s) == g.gid || plan(g.config.num, s) == g.gid)
      :: g.shards[s].status == g.shards[t].status
  }

  ghost predicate Together(plan: Plan, k: int, s: int, t: int) {
    IsMove(plan, k, s) && plan(k - 1, t) == plan(k - 1, s) && plan(k, t) == plan(k, s)
  }

  ghost predicate GroupOk(plan: Plan, g: Group, gid: int) {
    && Wf(g) && g.gid == gid && gid != 0 && g.config.num >= 0
    && g.config == ConfigOf(plan, g.config.num)
    && g.lastConfig == ConfigOf(plan, if g.config.num == 0 then 0 else g.config.num - 1)
    && (forall s {:trigger LocalOk(plan, g, s)} | IsShard(s) :: LocalOk(plan, g, s))
    && Lockstep(plan, g)
  }

  // ---- dedup tables ----

  ghost predicate Wrote(log: seq<Op>, client: int, id: int) {
    exists j :: 0 <= j < |log| && log[j].client == client && log[j].id == id
  }

  /** Every entry of a table is a write that took effect, and was answered OK. */
  ghost predicate TableOk(ops: Table, log: seq<Op>) {
    forall c | c in ops :: Wrote(log, c, ops[c].maxId) && ops[c].lastReply == Reply(OK, "")
  }

  /** The table knows every write ever made to shard s. */
  ghost predicate Covers(ops: Table, log: seq<Op>, s: int) {
    forall j | 0 <= j < |log| && ShardOf(log[j].key) == s :: IsDuplicate(ops, log[j].client, log[j].id)
  }

  ghost predicate TableGrows(a: Table, b: Table) {
    forall c | c in a :: c in b && a[c].maxId <= b[c].maxId
  }

  // ---- two groups and a shard ----

  /** The new owner has not received the shard yet. */
  ghost predicate Before(gs: Groups, plan: Plan, k: int, s: int)
    requires IsShard(s) && plan(k, s) in gs && Wf(gs[plan(k, s)])
  {
    var g := gs[plan(k, s)];
    g.config.num < k || (g.config.num == k && g.shards[s].status == Pulling)
  }

  /** The old owner has not let go of the shard yet. */
  ghost predicate AtSource(gs: Groups, plan: Plan, k: int, s: int)
    requires IsShard(s) && plan(k - 1, s) in gs && Wf(gs[plan(k - 1, s)])
  {
    var h := gs[plan(k - 1, s)];
    h.config.num < k || (h.config.num == k && h.shards[s].status == BePulling)
  }

  ghost predicate Known(plan: Plan, gs: Groups) {
    && (forall g | g in gs :: GroupOk(plan, gs[g], g))
    && PlanOk(plan, gs.Keys)
  }

  /** A migration is: not begun at the target; or copied but not yet deleted at the source; or over. */
  ghost predicate PairInv(gs: Groups, plan: Plan, k: int, s: int)
    requires Known(plan, gs) && IsMove(plan, k, s)
  {
    var h, g := gs[plan(k - 1, s)], gs[plan(k, s)];
    || (AtSource(gs, plan, k, s) && Before(gs, plan, k, s))
    || (h.config.num == k && h.shards[s].status == BePulling && g.config.num == k && g.shards[s].status == GCing)
    || (!AtSource(gs, plan, k, s) && !Before(gs, plan, k, s))
  }

  // ---- the holder of a shard ----

  /** A new owner's time begins in configuration k. */
  ghost predicate IsStart(plan: Plan, k: int, s: int) {
    k >= 1 && IsShard(s) && plan(k, s) != 0 && plan(k - 1, s) != plan(k, s)
  }

  ghost predicate Received(gs: Groups, plan: Plan, k: int, s: int)
    requires Known(plan, gs) && IsStart(plan, k, s)
  {
    if plan(k - 1, s) == 0 then gs[plan(k, s)].config.num >= k else !Before(gs, plan, k, s)
  }

  /** T is the start of the time of the group that now holds shard s (0: nobody has held it yet). */
  ghost predicate TokenInv(gs: Groups, plan: Plan, T: int, s: int)
    requires Known(plan, gs) && IsShard(s)
  {
    && T >= 0 && (T > 0 ==> IsStart(plan, T, s))
    && (forall k {:trigger Received(gs, plan, k, s)} | IsStart(plan, k, s) :: Received(gs, plan, k, s) <==> k <= T)
  }

  ghost predicate Matches(kv: map<string, string>, m: map<string, string>, s: int) {
    forall key | ShardOf(key) == s :: (key in kv <==> key in m) && (key in kv ==> kv[key] == m[key])
  }

  /** The holder's copy is the shard's part of the one global map, and its table knows all its writes. */
  ghost predicate DataInv(gs: Groups, plan: Plan, log: seq<Op>, T: int, s: int)
    requires Known(plan, gs) && IsShard(s) && (T > 0 ==> IsStart(plan, T, s))
  {
    if T <= 0 then Matches(map[], Replay(log), s) && (forall j | 0 <= j < |log| :: ShardOf(log[j].key) != s)
    else Matches(gs[plan(T, s)].shards[s].kv, Replay(log), s) && Covers(gs[plan(T, s)].ops, log, s)
  }

  // ---- past states and pending entries ----

  ghost predicate ShardLater(p: Shard, c: Shard) {
    match p.status
    case Serving => c.status == Serving
    case BePulling => c.status == Serving || c == p
    case GCing => c.status == GCing || c.status == Serving
    case Pulling => c.status != BePulling
  }

  /** What one state of a group says about every later one. */
  ghost predicate Later(p: Group, c: Group)
    requires Wf(p) && Wf(c)
  {
    && p.config.num <= c.config.num
    && TableGrows(p.ops, c.ops)
    && (p.config.num == c.config.num ==> forall s | IsShard(s) :: ShardLater(p.shards[s], c.shards[s]))
  }

  ghost predicate Frozen(gs: Groups, plan: Plan, h: int, s: int)
    requires Known(plan, gs) && h in gs && IsShard(s)
  {
    && gs[h].shards[s].status == BePulling
    && LocalOk(plan, gs[h], s)
    && Before(gs, plan, gs[h].config.num, s)
  }

  ghost predicate PastOk(gs: Groups, plan: Plan, log: seq<Op>, g: int, p: Group)
    requires Known(plan, gs) && g in gs
  {
    && GroupOk(plan, p, g) && Later(p, gs[g]) && TableOk(p.ops, log)
    && (forall s {:trigger Frozen(gs, plan, g, s)} | IsShard(s) && Frozen(gs, plan, g, s)
          && p.config.num == gs[g].config.num && p.shards[s].status == BePulling :: Covers(p.ops, log, s))
  }

  ghost predicate InsertOk(gs: Groups, plan: Plan, log: seq<Op>, g: int, info: ShardData, h: int)
    requires Known(plan, gs) && g in gs
  {
    && info.num >= 1 && gs[g].config.num >= info.num
    && h in gs && h != g
    && info.shards.Keys == Batch(plan, h, g, info.num) && info.shards != map[]
    && TableOk(info.ops, log)
    && (forall s {:trigger ArrivalOk(gs, log, g, info, h, s)} | s in info.shards :: ArrivalOk(gs, log, g, info, h, s))
  }

  /** While the target is still pulling, the pulled copy is the source's frozen one. */
  ghost predicate ArrivalOk(gs: Groups, log: seq<Op>, g: int, info: ShardData, h: int, s: int)
    requires g in gs && h in gs && Wf(gs[g]) && Wf(gs[h]) && s in info.shards
  {
    && IsShard(s) && KeysOf(info.shards[s], s)
    && (gs[g].config.num == info.num && gs[g].shards[s].status == Pulling ==>
          && gs[h].config.num == info.num && gs[h].shards[s] == Shard(info.shards[s], BePulling)
          && Covers(info.ops, log, s))
  }

  /** A delete at the source waits until the target has the shards; one at the target until the
      source has let go of them. */
  ghost predicate DeleteOk(gs: Groups, plan: Plan, g: int, num: int, ids: seq<int>, x: int)
    requires Known(plan, gs) && g in gs
  {
    && num >= 1 && x in gs && x != g
    && ((Lists(ids, Batch(plan, g, x, num)) && forall s | s in Batch(plan, g, x, num) :: !Before(gs, plan, num, s))
        || (Lists(ids, Batch(plan, x, g, num)) && forall s | s in Batch(plan, x, g, num) ::
            !AtSource(gs, plan, num, s)))
  }

  ghost predicate IsIssued(issued: Issued, op: Op) {
    (op.client, op.id) in issued && issued[(op.client, op.id)] == op
  }

  ghost predicate EntryOk(gs: Groups, plan: Plan, log: seq<Op>, issued: Issued, g: int, e: Entry)
    requires Known(plan, gs) && g in gs
  {
    match e
    case Operation(op) => IsIssued(issued, op)
    case Configuration(c) =>
      && c.num >= 1 && c == ConfigOf(plan, c.num) && gs[g].config.num >= c.num - 1
      && (gs[g].config.num == c.num - 1 ==> AllServing(gs[g]))
    case InsertShards(info) => exists h :: InsertOk(gs, plan, log, g, info, h)
    case DeleteShards(num, ids) => exists x :: DeleteOk(gs, plan, g, num, ids, x)
    case EmptyEntry => true
  }

  ghost predicate DeletedOk(gs: Groups, plan: Plan, h: int, e: Entry)
    requires Known(plan, gs) && h in gs
  {
    e.DeleteShards? && forall s | s in e.ids && IsMove(plan, e.num, s) && plan(e.num - 1, s) == h ::
      !AtSource(gs, plan, e.num, s)
  }

  // ---- clients ----

  ghost predicate IssuedOk(issued: Issued, acked: set<(int, int)>, c: int, id: int)
    requires (c, id) in issued
  {
    issued[(c, id)].client == c && issued[(c, id)].id == id && id >= 0 && (id > 0 ==> (c, id - 1) in acked)
  }

  ghost predicate AckedOk(issued: Issued, log: seq<Op>, c: int, id: int) {
    (c, id) in issued && (issued[(c, id)].kind != Get ==> Wrote(log, c, id))
  }

  /** Clients make one command after the other, a write they were told is done took effect, and so
      did no other writes than theirs. */
  ghost predicate ClientInv(issued: Issued, acked: set<(int, int)>, log: seq<Op>) {
    && (forall c, id {:trigger IssuedOk(issued, acked, c, id)} | (c, id) in issued :: IssuedOk(issued, acked, c, id))
    && (forall c, id {:trigger AckedOk(issued, log, c, id)} | (c, id) in acked :: AckedOk(issued, log, c, id))
    && (forall j {:trigger log[j]} | 0 <= j < |log| :: IsIssued(issued, log[j]) && log[j].kind != Get)
  }

  /** No write took effect twice. */
  ghost predicate Once(log: seq<Op>) {
    forall i, j | 0 <= i < j < |log| :: (log[i].client, log[i].id) != (log[j].client, log[j].id)
  }

  // ---- all together ----

  ghost predicate GroupsInv(gs: Groups, plan: Plan, tok: seq<int>) {
    && Known(plan, gs) && |tok| == NSHARDS
    && (forall k, s {:trigger PairInv(gs, plan, k, s)} | IsMove(plan, k, s) :: PairInv(gs, plan, k, s))
    && (forall s {:trigger TokenInv(gs, plan, tok[s], s)} | IsShard(s) :: TokenInv(gs, plan, tok[s], s))
  }

  ghost predicate DataAll(gs: Groups, plan: Plan, tok: seq<int>, log: seq<Op>)
    requires GroupsInv(gs, plan, tok)
  {
    forall s {:trigger DataInv(gs, plan, log, tok[s], s)} | IsShard(s) ::
      TokenInv(gs, plan, tok[s], s) && DataInv(gs, plan, log, tok[s], s)
  }

  /** A group's present state is one of those it has been in, and every one of them is sound. */
  ghost predicate PastAll(gs: Groups, plan: Plan, log: seq<Op>, past: Past)
    requires Known(plan, gs) && past.Keys == gs.Keys
  {
    && (forall g | g in gs :: gs[g] in past[g])
    && (forall g, p {:trigger PastOk(gs, plan, log, g, p)} | g in gs && p in past[g] :: PastOk(gs, plan, log, g, p))
  }

  ghost predicate PendingAll(gs: Groups, plan: Plan, log: seq<Op>, issued: Issued, pending: Entries)
    requires Known(plan, gs) && pending.Keys == gs.Keys
  {
    forall g, e {:trigger EntryOk(gs, plan, log, issued, g, e)} | g in gs && e in pending[g] ::
      EntryOk(gs, plan, log, issued, g, e)
  }

  ghost predicate DeletedAll(gs: Groups, plan: Plan, deleted: Entries)
    requires Known(plan, gs) && deleted.Keys == gs.Keys
  {
    forall g, e {:trigger DeletedOk(gs, plan, g, e)} | g in gs && e in deleted[g] :: DeletedOk(gs, plan, g, e)
  }

  ghost predicate Inv(plan: Plan, gids: set<int>, w: World, tok: seq<int>) {
    && Shape(gids, w)
    && GroupsInv(w.groups, plan, tok)
    && DataAll(w.groups, plan, tok, w.log)
    && PastAll(w.groups, plan, w.log, w.past)
    && PendingAll(w.groups, plan, w.log, w.issued, w.pending)
    && DeletedAll(w.groups, plan, w.deleted)
    && ClientInv(w.issued, w.acked, w.log) && Once(w.log)
  }
}
