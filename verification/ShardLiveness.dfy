/**
  The sharded store never gets stuck: whatever state its groups, leaders and messages are in, it can go on
  so that all migrations are completed and all groups reach any later configuration.
 */
module ShardLiveness {
  import opened ShardSpec
  import opened ShardWorld
  import opened ShardInvariant
  import opened ShardSafety
  import opened ShardMeaning
  import opened Sets

  function Last(run: seq<World>): World
    requires run != []
  {
    run[|run| - 1]
  }

  ghost predicate Goes(plan: Plan, gids: set<int>, run: seq<World>) {
    IsRun(plan, gids, run) && Shape(gids, Last(run))
  }

  /** One run goes on as another. */
  ghost predicate GoesOn(plan: Plan, gids: set<int>, run: seq<World>, more: seq<World>) {
    Goes(plan, gids, more) && run != [] && run <= more
  }

  lemma More(plan: Plan, gids: set<int>, run: seq<World>, e: Event) returns (more: seq<World>)
    requires Goes(plan, gids, run) && Enabled(gids, Last(run), e)
    ensures GoesOn(plan, gids, run, more) && Last(more) == Apply(plan, gids, Last(run), e)
  {
    var w' := Apply(plan, gids, Last(run), e);
    more := run + [w'];
    assert Next(plan, gids, Last(run), w');
    Longer(plan, gids, run, w');
    var tok := RunHolds(plan, gids, more, |run|);
  }

  lemma Longer(plan: Plan, gids: set<int>, run: seq<World>, w': World)
    requires IsRun(plan, gids, run) && Next(plan, gids, Last(run), w')
    ensures IsRun(plan, gids, run + [w']) && run <= run + [w']
  {
    var more := run + [w'];
    forall k | 0 <= k < |more| - 1 ensures Next(plan, gids, more[k], more[k + 1]) {
      if k < |run| - 1 { assert Next(plan, gids, run[k], run[k + 1]); }
    }
  }

  lemma Onward(plan: Plan, gids: set<int>, a: seq<World>, b: seq<World>, c: seq<World>)
    requires GoesOn(plan, gids, a, b) && GoesOn(plan, gids, b, c)
    ensures GoesOn(plan, gids, a, c)
  {
  }

  // ---- no step of a migration undoes another ----

  /** The group is at the same configuration, and the shards that were served or not needed still are. */
  ghost predicate Calmer(a: Group, b: Group) {
    && Wf(a) && Wf(b) && b.config.num == a.config.num
    && forall s | 0 <= s < NSHARDS && a.shards[s].status == Serving :: b.shards[s].status == Serving
  }

  ghost predicate AllCalmer(gids: set<int>, w: World, w': World) {
    w.groups.Keys == w'.groups.Keys == gids && forall g | g in gids :: Calmer(w.groups[g], w'.groups[g])
  }

  lemma CalmerOn(gids: set<int>, u: World, v: World, w: World)
    requires AllCalmer(gids, u, v) && AllCalmer(gids, v, w)
    ensures AllCalmer(gids, u, w)
  {
    forall g | g in gids ensures Calmer(u.groups[g], w.groups[g]) {
      assert Calmer(u.groups[g], v.groups[g]) && Calmer(v.groups[g], w.groups[g]);
    }
  }

  lemma OnlyOne(gids: set<int>, w: World, w': World, g: int)
    requires g in gids && w.groups.Keys == w'.groups.Keys == gids && GroupsShape(w.groups)
    requires Calmer(w.groups[g], w'.groups[g]) && w'.groups == w.groups[g := w'.groups[g]]
    ensures AllCalmer(gids, w, w')
  {
  }

  /** A batch that is waited for arrives. */
  lemma Arrives(plan: Plan, gids: set<int>, run: seq<World>, g: int, info: ShardData)
    requires Goes(plan, gids, run) && g in gids && InsertShards(info) in Last(run).pending[g]
    requires info.num == Last(run).groups[g].config.num
    requires forall s | s in info.shards :: IsShard(s) && Last(run).groups[g].shards[s].status == Pulling
    ensures Enabled(gids, Last(run), ApplyEntry(g, InsertShards(info), info.shards.Keys))
    ensures var w' := Apply(plan, gids, Last(run), ApplyEntry(g, InsertShards(info), info.shards.Keys));
      && AllCalmer(gids, Last(run), w') && Arrived(w'.groups, g, info.shards.Keys)
  {
    var w, done := Last(run), info.shards.Keys;
    assert MayInsert(w.groups[g], info, done);
    var w' := Apply(plan, gids, w, ApplyEntry(g, InsertShards(info), done));
    EntryMoves(plan, gids, w, g, InsertShards(info), done, w');
    InsertCalms(w.groups[g], info);
    OnlyOne(gids, w, w', g);
  }

  lemma InsertCalms(g: Group, info: ShardData)
    requires Wf(g) && forall s | s in info.shards :: IsShard(s) && g.shards[s].status == Pulling
    ensures var g' := ApplyInsert(g, info, info.shards.Keys);
      && Calmer(g, g')
      && forall s | IsShard(s) && s in info.shards && info.num == g.config.num :: g'.shards[s].status == GCing
  {
  }

  ghost predicate Arrived(gs: Groups, g: int, shards: set<int>) {
    g in gs && Wf(gs[g]) && forall s | s in shards && IsShard(s) :: gs[g].shards[s].status == GCing
  }

  /** Shards of a group are handed over, or were received and are its own now. */
  ghost predicate Over(g: Group, ids: seq<int>) {
    Wf(g) && forall s | s in ids && IsShard(s) :: g.shards[s].status == Serving
  }

  lemma DeleteCalms(plan: Plan, gids: set<int>, run: seq<World>, g: int, num: int, ids: seq<int>, w': World)
    requires Goes(plan, gids, run) && g in gids && DeleteShards(num, ids) in Last(run).pending[g]
    requires w' == Apply(plan, gids, Last(run), ApplyEntry(g, DeleteShards(num, ids), {}))
    ensures w'.groups == Last(run).groups[g := w'.groups[g]] && DeleteShards(num, ids) in w'.deleted[g]
    ensures Calmer(Last(run).groups[g], w'.groups[g])
    ensures Last(run).groups[g].config.num == num ==> Over(w'.groups[g], ids)
  {
    var w, e := Last(run), DeleteShards(num, ids);
    EntryMoves(plan, gids, w, g, e, {}, w');
    if w.groups[g].config.num == num {
      forall s | 0 <= s < NSHARDS
        ensures w'.groups[g].shards[s] == w.groups[g].shards[s] || w'.groups[g].shards[s].status == Serving
        ensures s in ids ==> w'.groups[g].shards[s].status == Serving
      {
        DeleteMeans(plan, gids, run, |run| - 1, g, num, ids, s);
      }
    }
  }

  /** A delete completes a batch on one side. */
  lemma Deletes(plan: Plan, gids: set<int>, run: seq<World>, g: int, num: int, ids: seq<int>) returns (more: seq<World>)
    requires Goes(plan, gids, run) && g in gids && DeleteShards(num, ids) in Last(run).pending[g]
    ensures GoesOn(plan, gids, run, more) && AllCalmer(gids, Last(run), Last(more))
    ensures Last(more).groups == Last(run).groups[g := Last(more).groups[g]]
    ensures Last(run).groups[g].config.num == num ==> Over(Last(more).groups[g], ids)
    ensures DeleteShards(num, ids) in Last(more).deleted[g]
  {
    more := More(plan, gids, run, ApplyEntry(g, DeleteShards(num, ids), {}));
    DeleteCalms(plan, gids, run, g, num, ids, Last(more));
    OnlyOne(gids, Last(run), Last(more), g);
  }

  // ---- a migration can be completed ----

  lemma {:induction false} Listed(shards: set<int>) returns (ids: seq<int>)
    ensures Lists(ids, shards)
  {
    if shards == {} {
      ids := [];
    } else {
      var s := Element(shards);
      var rest := Listed(shards - {s});
      ids := rest + [s];
    }
  }

  lemma Present(plan: Plan, gids: set<int>, run: seq<World>, g: int)
    requires Goes(plan, gids, run) && g in gids
    ensures Last(run).groups[g] in Last(run).past[g] && GroupOk(plan, Last(run).groups[g], g)
  {
    var tok := RunHolds(plan, gids, run, |run| - 1);
  }

  lemma Pulls(plan: Plan, gids: set<int>, run: seq<World>, g: int, h: int) returns (more: seq<World>)
    requires Goes(plan, gids, run) && g in gids && h in gids && ByStatus(Last(run).groups[g], Pulling, h) != {}
    requires Last(run).groups[h].config.num >= Last(run).groups[g].config.num
    ensures GoesOn(plan, gids, run, more) && AllCalmer(gids, Last(run), Last(more))
    ensures Arrived(Last(more).groups, g, ByStatus(Last(run).groups[g], Pulling, h))
  {
    var w := Last(run);
    Present(plan, gids, run, g);
    Present(plan, gids, run, h);
    var info := Pulled(w.groups[g], h, w.groups[h]);
    var mid := More(plan, gids, run, Pull(g, w.groups[g], h, w.groups[h]));
    Arrives(plan, gids, mid, g, info);
    more := More(plan, gids, mid, ApplyEntry(g, InsertShards(info), info.shards.Keys));
    Onward(plan, gids, run, mid, more);
  }

  lemma Asks(plan: Plan, gids: set<int>, run: seq<World>, g: int, h: int, ids: seq<int>) returns (more: seq<World>)
    requires Goes(plan, gids, run) && g in gids && h in gids
    requires ByStatus(Last(run).groups[g], GCing, h) != {} && Lists(ids, ByStatus(Last(run).groups[g], GCing, h))
    ensures GoesOn(plan, gids, run, more) && Last(more).groups == Last(run).groups
    ensures DeleteShards(Last(run).groups[g].config.num, ids) in Last(more).pending[h]
  {
    Present(plan, gids, run, g);
    more := More(plan, gids, run, AskDelete(g, Last(run).groups[g], h, ids));
  }

  /** The old owner throws its copies away. */
  lemma LetsGo(plan: Plan, gids: set<int>, run: seq<World>, g: int, h: int, ids: seq<int>) returns (more: seq<World>)
    requires Goes(plan, gids, run) && g in gids && h in gids && g != h
    requires ByStatus(Last(run).groups[g], GCing, h) != {} && Lists(ids, ByStatus(Last(run).groups[g], GCing, h))
    ensures GoesOn(plan, gids, run, more) && AllCalmer(gids, Last(run), Last(more))
    ensures Last(more).groups[g] == Last(run).groups[g]
    ensures var num := Last(run).groups[g].config.num;
      && (Last(run).groups[h].config.num == num ==> Over(Last(more).groups[h], ids))
      && DeleteShards(num, ids) in Last(more).deleted[h]
  {
    var num := Last(run).groups[g].config.num;
    var mid := Asks(plan, gids, run, g, h, ids);
    more := Deletes(plan, gids, mid, h, num, ids);
    Onward(plan, gids, run, mid, more);
  }

  /** The new owner takes its copies for its own. */
  lemma Confirms(plan: Plan, gids: set<int>, run: seq<World>, g: int, h: int, ids: seq<int>) returns (more: seq<World>)
    requires Goes(plan, gids, run) && g in gids && h in gids
    requires ByStatus(Last(run).groups[g], GCing, h) != {} && Lists(ids, ByStatus(Last(run).groups[g], GCing, h))
    requires DeleteShards(Last(run).groups[g].config.num, ids) in Last(run).deleted[h]
    ensures GoesOn(plan, gids, run, more) && AllCalmer(gids, Last(run), Last(more)) && Over(Last(more).groups[g], ids)
  {
    var w := Last(run);
    var num := w.groups[g].config.num;
    Present(plan, gids, run, g);
    var mid := More(plan, gids, run, Confirm(g, w.groups[g], h, ids));
    more := Deletes(plan, gids, mid, g, num, ids);
    Onward(plan, gids, run, mid, more);
  }

  /** Shard s is not on its way at any group that is at configuration m. */
  ghost predicate Calm(w: World, m: int, s: int) {
    forall g {:trigger CalmAt(w, m, s, g)} | g in w.groups :: CalmAt(w, m, s, g)
  }

  ghost predicate CalmAt(w: World, m: int, s: int, g: int)
    requires g in w.groups
  {
    Wf(w.groups[g]) && IsShard(s) && (w.groups[g].config.num == m ==> w.groups[g].shards[s].status == Serving)
  }

  /** No group is behind configuration m. */
  ghost predicate From(w: World, m: int) { forall g | g in w.groups :: w.groups[g].config.num >= m }

  /** Who has to do with a shard that is on its way. */
  lemma OnTheWay(plan: Plan, gids: set<int>, run: seq<World>, g: int, s: int)
    requires Goes(plan, gids, run) && g in gids && IsShard(s)
    ensures var c := Last(run).groups[g];
      c.shards[s].status != Serving ==>
      && IsMove(plan, c.config.num, s)
      && g == plan(if c.shards[s].status == BePulling then c.config.num - 1 else c.config.num, s)
    ensures var c := Last(run).groups[g];
      c.config.num >= 1 ==> c.lastConfig.shards[s] == plan(c.config.num - 1, s)
  {
    Present(plan, gids, run, g);
    assert LocalOk(plan, Last(run).groups[g], s);
  }

  /** The rest of a migration once the new owner has the shard. */
  lemma Completes(plan: Plan, gids: set<int>, run: seq<World>, g: int, h: int, s: int) returns (more: seq<World>)
    requires Goes(plan, gids, run) && g in gids && h in gids && g != h && IsShard(s)
    requires s in ByStatus(Last(run).groups[g], GCing, h)
    ensures GoesOn(plan, gids, run, more) && AllCalmer(gids, Last(run), Last(more))
    ensures CalmAt(Last(more), Last(run).groups[g].config.num, s, g)
    ensures CalmAt(Last(more), Last(run).groups[g].config.num, s, h)
  {
    var w := Last(run);
    var ids := Listed(ByStatus(w.groups[g], GCing, h));
    var mid := LetsGo(plan, gids, run, g, h, ids);
    more := Confirms(plan, gids, mid, g, h, ids);
    Onward(plan, gids, run, mid, more);
    CalmerOn(gids, w, Last(mid), Last(more));
    assert Calmer(Last(mid).groups[h], Last(more).groups[h]) && Calmer(w.groups[h], Last(mid).groups[h]);
  }

  /** If the new owner has nothing left to do, neither has the old one, nor anybody else. */
  lemma PairIsCalm(plan: Plan, gids: set<int>, run: seq<World>, m: int, s: int)
    requires Goes(plan, gids, run) && From(Last(run), m) && IsShard(s)
    requires IsMove(plan, m, s) ==> plan(m, s) in gids && CalmAt(Last(run), m, s, plan(m, s))
    ensures Calm(Last(run), m, s)
  {
    forall x | x in Last(run).groups ensures CalmAt(Last(run), m, s, x) {
      GroupIsCalm(plan, gids, run, m, s, x);
    }
  }

  lemma GroupIsCalm(plan: Plan, gids: set<int>, run: seq<World>, m: int, s: int, x: int)
    requires Goes(plan, gids, run) && From(Last(run), m) && IsShard(s) && x in gids
    requires IsMove(plan, m, s) ==> plan(m, s) in gids && CalmAt(Last(run), m, s, plan(m, s))
    ensures CalmAt(Last(run), m, s, x)
  {
    OnTheWay(plan, gids, run, x, s);
    if IsMove(plan, m, s) {
      var tok := Holders(plan, gids, run);
      SourceIsCalm(Last(run), plan, tok, m, s, x);
    }
  }

  lemma Holders(plan: Plan, gids: set<int>, run: seq<World>) returns (tok: seq<int>)
    requires Goes(plan, gids, run)
    ensures GroupsInv(Last(run).groups, plan, tok)
  {
    tok := RunHolds(plan, gids, run, |run| - 1);
  }

  lemma SourceIsCalm(w: World, plan: Plan, tok: seq<int>, m: int, s: int, x: int)
    requires GroupsInv(w.groups, plan, tok) && From(w, m) && IsMove(plan, m, s) && x in w.groups
    requires plan(m, s) in w.groups && CalmAt(w, m, s, plan(m, s))
    requires
      w.groups[x].shards[s].status != Serving && w.groups[x].config.num == m ==> x in {plan(m - 1, s), plan(m, s)}
    ensures CalmAt(w, m, s, x)
  {
    assert PairInv(w.groups, plan, m, s);
    assert LocalOk(plan, w.groups[x], s);
  }

  lemma Owners(plan: Plan, gids: set<int>, m: int, s: int)
    requires PlanOk(plan, gids) && IsMove(plan, m, s)
    ensures plan(m, s) in gids && plan(m - 1, s) in gids
  {
  }

  /** The new owner gets the shard, if it waits for it. */
  lemma CanArrive(plan: Plan, gids: set<int>, run: seq<World>, m: int, s: int) returns (more: seq<World>)
    requires Goes(plan, gids, run) && From(Last(run), m) && IsMove(plan, m, s) && plan(m, s) in gids
    ensures GoesOn(plan, gids, run, more) && AllCalmer(gids, Last(run), Last(more))
    ensures var c := Last(more).groups[plan(m, s)]; c.config.num == m ==> c.shards[s].status in {Serving, GCing}
  {
    var g, h, w := plan(m, s), plan(m - 1, s), Last(run);
    Owners(plan, gids, m, s);
    OnTheWay(plan, gids, run, g, s);
    more := run;
    if w.groups[g].config.num == m && w.groups[g].shards[s].status == Pulling {
      assert s in ByStatus(w.groups[g], Pulling, h);
      more := Pulls(plan, gids, run, g, h);
    }
  }

  /** Once it has the shard, the migration can be completed. */
  lemma CanComplete(plan: Plan, gids: set<int>, run: seq<World>, m: int, s: int) returns (more: seq<World>)
    requires Goes(plan, gids, run) && IsMove(plan, m, s) && plan(m, s) in gids
    requires var c := Last(run).groups[plan(m, s)]; c.config.num == m ==> c.shards[s].status in {Serving, GCing}
    ensures GoesOn(plan, gids, run, more) && AllCalmer(gids, Last(run), Last(more))
    ensures CalmAt(Last(more), m, s, plan(m, s))
  {
    var g, h := plan(m, s), plan(m - 1, s);
    Owners(plan, gids, m, s);
    OnTheWay(plan, gids, run, g, s);
    more := run;
    if Last(run).groups[g].config.num == m && Last(run).groups[g].shards[s].status == GCing {
      assert s in ByStatus(Last(run).groups[g], GCing, h);
      more := Completes(plan, gids, run, g, h, s);
    }
  }

  /** The shard stops being on its way. */
  lemma CanCalm(plan: Plan, gids: set<int>, run: seq<World>, m: int, s: int) returns (more: seq<World>)
    requires Goes(plan, gids, run) && From(Last(run), m) && IsShard(s)
    ensures GoesOn(plan, gids, run, more) && AllCalmer(gids, Last(run), Last(more)) && Calm(Last(more), m, s)
  {
    more := run;
    if IsMove(plan, m, s) {
      Owners(plan, gids, m, s);
      var mid := CanArrive(plan, gids, run, m, s);
      more := CanComplete(plan, gids, mid, m, s);
      Onward(plan, gids, run, mid, more);
      CalmerOn(gids, Last(run), Last(mid), Last(more));
    }
    StillFrom(gids, Last(run), Last(more), m);
    PairIsCalm(plan, gids, more, m, s);
  }

  lemma CalmStays(gids: set<int>, w: World, w': World, m: int, s: int)
    requires AllCalmer(gids, w, w') && Calm(w, m, s)
    ensures Calm(w', m, s)
  {
    forall g | g in w'.groups ensures CalmAt(w', m, s, g) {
      assert CalmAt(w, m, s, g) && Calmer(w.groups[g], w'.groups[g]);
    }
  }

  /** All migrations of groups at configuration m are completed, shard after shard. */
  lemma {:induction false} AllCalm(plan: Plan, gids: set<int>, run: seq<World>, m: int, n: nat)
    returns (more: seq<World>)
    requires Goes(plan, gids, run) && From(Last(run), m) && n <= NSHARDS
    ensures GoesOn(plan, gids, run, more) && AllCalmer(gids, Last(run), Last(more))
    ensures forall s | 0 <= s < n :: Calm(Last(more), m, s)
  {
    more := run;
    if n > 0 {
      var mid := AllCalm(plan, gids, run, m, n - 1);
      StillFrom(gids, Last(run), Last(mid), m);
      more := CanCalm(plan, gids, mid, m, n - 1);
      Onward(plan, gids, run, mid, more);
      CalmerOn(gids, Last(run), Last(mid), Last(more));
      forall s | 0 <= s < n - 1 ensures Calm(Last(more), m, s) {
        CalmStays(gids, Last(mid), Last(more), m, s);
      }
    }
  }

  lemma StillFrom(gids: set<int>, w: World, w': World, m: int)
    requires AllCalmer(gids, w, w') && From(w, m)
    ensures From(w', m)
  {
    forall g | g in w'.groups ensures w'.groups[g].config.num >= m { assert Calmer(w.groups[g], w'.groups[g]); }
  }

  // ---- groups can move on ----

  /** Groups at configuration m have nothing on its way. */
  ghost predicate Idle(w: World, m: int, g: int)
    requires g in w.groups
  {
    Wf(w.groups[g]) && (w.groups[g].config.num == m ==> AllServing(w.groups[g]))
  }

  lemma CalmIsIdle(w: World, m: int, g: int)
    requires g in w.groups && Wf(w.groups[g]) && forall s | 0 <= s < NSHARDS :: Calm(w, m, s)
    ensures Idle(w, m, g)
  {
    if w.groups[g].config.num == m {
      forall s | 0 <= s < NSHARDS ensures w.groups[g].shards[s].status == Serving {
        assert Calm(w, m, s) && CalmAt(w, m, s, g);
      }
    }
  }

  /** A group with nothing on its way takes the next configuration. */
  lemma OneAdvances(plan: Plan, gids: set<int>, run: seq<World>, g: int) returns (more: seq<World>)
    requires Goes(plan, gids, run) && g in gids && AllServing(Last(run).groups[g])
    ensures GoesOn(plan, gids, run, more)
    ensures Last(more).groups == Last(run).groups[g := Last(more).groups[g]]
    ensures Last(more).groups[g].config.num == Last(run).groups[g].config.num + 1
  {
    Present(plan, gids, run, g);
    var c := ConfigOf(plan, Last(run).groups[g].config.num + 1);
    var mid := More(plan, gids, run, ProposeConfig(g, Last(run).groups[g]));
    more := Takes(plan, gids, mid, g, c);
    Onward(plan, gids, run, mid, more);
  }

  lemma Takes(plan: Plan, gids: set<int>, run: seq<World>, g: int, c: Config) returns (more: seq<World>)
    requires Goes(plan, gids, run) && g in gids && Configuration(c) in Last(run).pending[g] && |c.shards| == NSHARDS
    ensures GoesOn(plan, gids, run, more)
    ensures Last(more).groups == Last(run).groups[g := ApplyConfig(Last(run).groups[g], c)]
  {
    more := More(plan, gids, run, ApplyEntry(g, Configuration(c), {}));
    EntryMoves(plan, gids, Last(run), g, Configuration(c), {}, Last(more));
  }

  /** No group is ahead of configuration n. */
  ghost predicate UpTo(w: World, n: int) { forall g | g in w.groups :: w.groups[g].config.num <= n }

  /** Some groups may still be at configuration m, with nothing on its way; all others are past it. */
  ghost predicate ToGo(gids: set<int>, w: World, m: int, left: set<int>)
    requires w.groups.Keys == gids && left <= gids
  {
    (forall g | g in left :: Idle(w, m, g)) && forall g | g in gids && g !in left :: w.groups[g].config.num > m
  }

  /** All groups at configuration m move on, one after the other. */
  lemma {:induction false} AllAdvance(plan: Plan, gids: set<int>, run: seq<World>, m: int, n: int, left: set<int>)
    returns (more: seq<World>)
    requires Goes(plan, gids, run) && From(Last(run), m) && UpTo(Last(run), n) && m < n && left <= gids
    requires ToGo(gids, Last(run), m, left)
    ensures GoesOn(plan, gids, run, more) && From(Last(more), m + 1) && UpTo(Last(more), n)
    decreases |left|
  {
    more := run;
    if |left| > 0 {
      var g := Element(left);
      assert Idle(Last(run), m, g) && Last(run).groups[g].config.num >= m;
      var mid := run;
      if Last(run).groups[g].config.num == m {
        mid := OneAdvances(plan, gids, run, g);
      }
      Left(gids, Last(run), Last(mid), m, n, left, g);
      more := AllAdvance(plan, gids, mid, m, n, left - {g});
      Onward(plan, gids, run, mid, more);
    }
  }

  lemma Left(gids: set<int>, w: World, w': World, m: int, n: int, left: set<int>, g: int)
    requires w.groups.Keys == w'.groups.Keys == gids && g in left && left <= gids
    requires From(w, m) && UpTo(w, n) && m < n && w'.groups == w.groups[g := w'.groups[g]]
    requires m < w'.groups[g].config.num <= n
    requires ToGo(gids, w, m, left)
    ensures From(w', m) && UpTo(w', n) && ToGo(gids, w', m, left - {g})
  {
    forall x | x in left - {g} ensures Idle(w', m, x) { assert Idle(w, m, x); }
  }

  lemma CalmUpTo(gids: set<int>, w: World, w': World, n: int)
    requires AllCalmer(gids, w, w') && UpTo(w, n)
    ensures UpTo(w', n)
  {
    forall g | g in w'.groups ensures w'.groups[g].config.num <= n { assert Calmer(w.groups[g], w'.groups[g]); }
  }

  /** From configuration m on, up to configuration n. */
  lemma {:induction false} CanReach(plan: Plan, gids: set<int>, run: seq<World>, m: int, n: int)
    returns (more: seq<World>)
    requires Goes(plan, gids, run) && From(Last(run), m) && UpTo(Last(run), n) && m <= n
    ensures GoesOn(plan, gids, run, more) && From(Last(more), n) && UpTo(Last(more), n)
    ensures forall g | g in gids :: Idle(Last(more), n, g)
    decreases n - m
  {
    var calm := AllCalm(plan, gids, run, m, NSHARDS);
    StillFrom(gids, Last(run), Last(calm), m);
    CalmUpTo(gids, Last(run), Last(calm), n);
    forall g | g in gids ensures Idle(Last(calm), m, g) { CalmIsIdle(Last(calm), m, g); }
    more := calm;
    if m < n {
      var next := AllAdvance(plan, gids, calm, m, n, gids);
      Onward(plan, gids, run, calm, next);
      more := CanReach(plan, gids, next, m + 1, n);
      Onward(plan, gids, run, next, more);
    }
  }

  /** All groups are at configuration n, nothing is on its way, and every owner serves. */
  ghost predicate Settled(plan: Plan, gids: set<int>, w: World, n: int) {
    && Shape(gids, w)
    && (forall g | g in gids :: w.groups[g].config.num == n && AllServing(w.groups[g]))
    && (forall s | 0 <= s < NSHARDS && plan(n, s) != 0 :: plan(n, s) in gids && Serves(plan, w, plan(n, s), s))
  }

  /** From every state of every run, and for every configuration that no group is past, there is a way on
      to a state in which all migrations are completed and every shard is served by its owner. */
  lemma NeverStuck(plan: Plan, gids: set<int>, run: seq<World>, n: nat)
    requires IsRun(plan, gids, run) && forall g | g in Last(run).groups :: Last(run).groups[g].config.num <= n
    ensures exists more :: IsRun(plan, gids, more) && run <= more && Settled(plan, gids, Last(more), n)
  {
    var tok := RunHolds(plan, gids, run, |run| - 1);
    var w := Last(run);
    forall g | g in w.groups ensures w.groups[g].config.num >= 0 { assert GroupOk(plan, w.groups[g], g); }
    var more := CanReach(plan, gids, run, 0, n);
    IsSettled(plan, gids, Last(more), n);
  }

  lemma IsSettled(plan: Plan, gids: set<int>, w: World, n: nat)
    requires Shape(gids, w) && PlanOk(plan, gids) && From(w, n) && UpTo(w, n)
    requires forall g | g in gids :: Idle(w, n, g)
    ensures Settled(plan, gids, w, n)
  {
    forall g | g in gids ensures w.groups[g].config.num == n && AllServing(w.groups[g]) {
      assert Idle(w, n, g);
    }
    forall s | 0 <= s < NSHARDS && plan(n, s) != 0 ensures plan(n, s) in gids && Serves(plan, w, plan(n, s), s) {
      assert Idle(w, n, plan(n, s));
    }
  }
}
