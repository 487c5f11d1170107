/** The configurations that the shard controller makes, and what holds of them. */
module ShardController {
  import opened Rebalance
  import opened Sets

  datatype Config = Config(num: int, shards: seq<int>, groups: map<int, seq<string>>)

  function NoOwners(): (r: seq<int>)
    ensures |r| == N && forall s | 0 <= s < N :: r[s] == 0
  {
    seq(N, _ => 0)
  }

  function DefaultConfig(): Config { Config(0, NoOwners(), map[]) }

  /** The shards of a group among the first n, in ascending order. */
  function Owned(shards: seq<int>, g: int, n: nat): seq<int>
    requires n <= |shards|
  {
    if n == 0 then [] else Owned(shards, g, n - 1) + if shards[n - 1] == g then [n - 1] else []
  }

  lemma {:induction false} OwnedOk(shards: seq<int>, g: int, n: nat)
    requires n <= |shards|
    ensures Distinct(Owned(shards, g, n))
    ensures forall s :: s in Owned(shards, g, n) <==> 0 <= s < n && shards[s] == g
  {
    if n > 0 {
      var m := n - 1;
      OwnedOk(shards, g, m);
      var was := Owned(shards, g, m);
      if shards[m] == g {
        DistinctSnoc(was, m);
        assert Owned(shards, g, n) == was + [m];
      } else {
        assert Owned(shards, g, n) == was;
      }
    }
  }

  /** The lists of the groups with these ids and of whoever else owns a shard. */
  ghost function ListsOf(shards: seq<int>, gids: set<int>): Lists {
    map g | g in gids + Elements(shards) :: Owned(shards, g, |shards|)
  }

  lemma ListsDescribe(shards: seq<int>, gids: set<int>)
    requires |shards| == N
    ensures Describes(shards, ListsOf(shards, gids))
  {
    var l := ListsOf(shards, gids);
    forall g | g in l ensures ListOk(shards, l, g) {
      OwnedOk(shards, g, N);
    }
    forall s | 0 <= s < N ensures ShardOk(shards, l, s) {
      OwnedOk(shards, shards[s], N);
    }
  }

  // ---- the commands ----

  function JoinedGroups(had: map<int, seq<string>>, groups: map<int, seq<string>>): map<int, seq<string>> {
    map g | g in had.Keys + groups.Keys :: if g in had then had[g] else groups[g]
  }

  ghost function AfterJoin(c: Config, num: int, groups: map<int, seq<string>>): (r: Config)
    requires |c.shards| == N
    ensures |r.shards| == N
  {
    Config(num, Spread(c.shards, JoinedGroups(c.groups, groups).Keys), JoinedGroups(c.groups, groups))
  }

  /** The shards after the loop of Join, with these groups taking part. */
  ghost function Spread(shards: seq<int>, gids: set<int>): (r: seq<int>)
    requires |shards| == N
    ensures |r| == N
  {
    ListsDescribe(shards, gids);
    Settle(shards, ListsOf(shards, gids)).0
  }

  lemma Waiting(shards: seq<int>, gids: set<int>, leaving: seq<int>)
    requires |shards| == N
    ensures Partial(shards, Drop(ListsOf(shards, gids), leaving).0, Drop(ListsOf(shards, gids), leaving).1)
  {
    ListsDescribe(shards, gids);
    DropPartial(shards, ListsOf(shards, gids), leaving);
  }

  /** The shards after those of the groups that leave have been given to the others. */
  ghost function Inherit(shards: seq<int>, gids: set<int>, leaving: seq<int>): (r: seq<int>)
    requires |shards| == N
    ensures |r| == N
  {
    Waiting(shards, gids, leaving);
    Adopt(shards, Drop(ListsOf(shards, gids), leaving).0, Drop(ListsOf(shards, gids), leaving).1).0
  }

  function Staying(had: map<int, seq<string>>, gids: seq<int>): map<int, seq<string>> {
    map g | g in had && g !in gids :: had[g]
  }

  ghost function AfterLeave(c: Config, num: int, gids: seq<int>): (r: Config)
    requires |c.shards| == N
    ensures |r.shards| == N
  {
    if |Staying(c.groups, gids)| > 0 then Config(num, Inherit(c.shards, c.groups.Keys, gids), Staying(c.groups, gids))
    else Config(num, NoOwners(), map[])
  }

  function AfterMove(c: Config, num: int, shard: nat, gid: int): (r: Config)
    requires |c.shards| == N && shard < N
  {
    Config(num, c.shards[shard := gid], c.groups)
  }

  // ---- what a caller sees ----

  /** How many shards a group has. */
  ghost function Load(shards: seq<int>, g: int): nat { |set s: int | 0 <= s < |shards| && shards[s] == g| }

  lemma LoadIs(a: seq<int>, l: Lists, g: int)
    requires Describes(a, l) && g in l
    ensures |l[g]| == Load(a, g)
  {
    assert ListOk(a, l, g);
    ElementsSize(l[g]);
    forall s | 0 <= s < N && a[s] == g ensures s in l[g] {
      assert ShardOk(a, l, s);
    }
    assert Elements(l[g]) == set s: int | 0 <= s < |a| && a[s] == g;
  }

  /** Every shard is with a group of the configuration. */
  ghost predicate AllPlaced(c: Config) { forall s | 0 <= s < |c.shards| :: c.shards[s] != 0 && c.shards[s] in c.groups }

  /** Shards are with a group of the configuration or with none. */
  ghost predicate NoStranger(c: Config) {
    forall s | 0 <= s < |c.shards| :: c.shards[s] == 0 || c.shards[s] in c.groups
  }

  /** No group has two shards more than another. */
  ghost predicate Balanced(c: Config) {
    forall g, h {:trigger Load(c.shards, g), Load(c.shards, h)} | g in c.groups && h in c.groups && g != 0 && h != 0 ::
      Load(c.shards, g) <= Load(c.shards, h) + 1
  }

  ghost predicate SomeGroup(c: Config) { exists g :: g in c.groups && g != 0 }

  // ---- Join ----

  lemma JoinSettles(c: Config, num: int, groups: map<int, seq<string>>)
    requires |c.shards| == N
    ensures var gs := JoinedGroups(c.groups, groups);
      var l := ListsOf(c.shards, gs.Keys);
      && Describes(c.shards, l) && AfterJoin(c, num, groups) == Config(num, Settle(c.shards, l).0, gs)
      && l.Keys == gs.Keys + Elements(c.shards)
  {
    ListsDescribe(c.shards, JoinedGroups(c.groups, groups).Keys);
  }

  /** After a Join the groups are balanced and no shard is without a group, whatever was before. */
  lemma JoinBalances(c: Config, num: int, groups: map<int, seq<string>>)
    requires |c.shards| == N
    ensures Balanced(AfterJoin(c, num, groups))
    ensures forall s | 0 <= s < N :: AfterJoin(c, num, groups).shards[s] != 0
  {
    JoinSettles(c, num, groups);
    var c' := AfterJoin(c, num, groups);
    var l := ListsOf(c.shards, c'.groups.Keys);
    var (a', l') := Settle(c.shards, l);
    SettledIsEven(a', l');
    SettleKeys(c.shards, l);
    forall g, h | g in c'.groups && h in c'.groups && g != 0 && h != 0 ensures Load(a', g) <= Load(a', h) + 1 {
      assert g in l' && h in l';
      LoadIs(a', l', g);
      LoadIs(a', l', h);
    }
  }

  /** Every shard is then with a group of the configuration exactly when there is one and no shard was
      with a stranger: the loop feeds strangers, and without any group it makes up the group -1. */
  lemma JoinPlaces(c: Config, num: int, groups: map<int, seq<string>>)
    requires |c.shards| == N
    ensures var c0 := c.(groups := JoinedGroups(c.groups, groups));
      AllPlaced(AfterJoin(c, num, groups)) <==> SomeGroup(c0) && NoStranger(c0)
  {
    JoinSettles(c, num, groups);
    JoinBalances(c, num, groups);
    var gs, c' := JoinedGroups(c.groups, groups), AfterJoin(c, num, groups);
    if SomeGroup(c.(groups := gs)) && NoStranger(c.(groups := gs)) {
      forall s | 0 <= s < N ensures c'.shards[s] in gs {
        SpreadOver(c.shards, gs, s);
      }
    }
    if AllPlaced(c') {
      assert c'.shards[0] in c'.groups;
      forall s | 0 <= s < N && c.shards[s] != 0 ensures c.shards[s] in gs {
        StrangerStays(c.shards, ListsOf(c.shards, gs.Keys), s);
      }
    }
  }

  lemma SpreadOver(shards: seq<int>, gs: map<int, seq<string>>, s: int)
    requires |shards| == N && 0 <= s < N && (exists g :: g in gs && g != 0)
    requires forall t | 0 <= t < N :: shards[t] == 0 || shards[t] in gs
    ensures Spread(shards, gs.Keys)[s] == 0 || Spread(shards, gs.Keys)[s] in gs
  {
    var l := ListsOf(shards, gs.Keys);
    ListsDescribe(shards, gs.Keys);
    var (a', l') := Settle(shards, l);
    SettleKeys(shards, l);
    var g :| g in gs && g != 0;
    assert g in l;
    assert ShardOk(a', l', s);
  }

  /** Whoever has a shard keeps one. */
  lemma StrangerStays(a: seq<int>, l: Lists, s: int)
    requires Describes(a, l) && 0 <= s < N && a[s] != 0
    ensures exists t :: 0 <= t < N && Settle(a, l).0[t] == a[s]
  {
    assert ShardOk(a, l, s);
    SettleKeepsOwners(a, l, a[s]);
    var (a', l') := Settle(a, l);
    var t := l'[a[s]][0];
    assert ListOk(a', l', a[s]) && t in l'[a[s]];
  }

  /** From a balanced configuration, only shards that go to a group that is new move at all. */
  lemma JoinMovesLittle(c: Config, num: int, groups: map<int, seq<string>>, s: int)
    requires |c.shards| == N && Balanced(c) && NoStranger(c) && 0 <= s < N
    ensures var c' := AfterJoin(c, num, groups);
      c'.shards[s] == c.shards[s] || c.shards[s] == 0 || (c'.shards[s] in c'.groups && c'.shards[s] !in c.groups)
  {
    JoinSettles(c, num, groups);
    var c' := AfterJoin(c, num, groups);
    var l, joined := ListsOf(c.shards, c'.groups.Keys), c'.groups.Keys - c.groups.Keys;
    LeansAtFirst(c, c'.groups);
    SettleMovesLittle(c.shards, l, joined, s);
  }

  /** Whatever the configuration, no shard moves twice on the way. */
  lemma JoinMovesOnce(c: Config, num: int, groups: map<int, seq<string>>)
    requires |c.shards| == N
    ensures var gs := JoinedGroups(c.groups, groups);
      Describes(c.shards, ListsOf(c.shards, gs.Keys)) && Distinct(Moves(c.shards, ListsOf(c.shards, gs.Keys)))
  {
    JoinSettles(c, num, groups);
    var gs := JoinedGroups(c.groups, groups);
    var l := ListsOf(c.shards, gs.Keys);
    MovedOnce(c.shards, l, {});
  }

  /** A group that gives shards to others in a Join gives its lowest ones. */
  lemma JoinTakesLowest(c: Config, num: int, groups: map<int, seq<string>>, s: int, t: int)
    requires |c.shards| == N && 0 <= s < N && 0 <= t < N && c.shards[s] == c.shards[t]
    ensures var c' := AfterJoin(c, num, groups);
      c'.shards[s] != c.shards[s] && c'.shards[t] == c.shards[t] ==> s < t
  {
    JoinSettles(c, num, groups);
    var c', a := AfterJoin(c, num, groups), c.shards;
    var l := ListsOf(a, c'.groups.Keys);
    forall g ensures Aligned(a, l, g) {
      OwnedAligned(a, g, N);
      assert At(l, g) == [] || At(l, g) == Owned(a, g, N);
    }
    if c'.shards[s] != a[s] && c'.shards[t] == a[t] {
      GivesLowest(a, a, l, {}, s, t);
    }
  }

  lemma OwnedAligned(shards: seq<int>, g: int, n: nat)
    requires n <= |shards|
    ensures forall i, j {:trigger AlignedAt(shards, Owned(shards, g, n), g, i, j)} ::
      AlignedAt(shards, Owned(shards, g, n), g, i, j)
  {
    forall i, j ensures AlignedAt(shards, Owned(shards, g, n), g, i, j) {
      OwnedAscends(shards, g, n, i, j);
    }
  }

  lemma {:induction false} OwnedAscends(shards: seq<int>, g: int, n: nat, i: int, j: int)
    requires n <= |shards|
    ensures AlignedAt(shards, Owned(shards, g, n), g, i, j)
  {
    if n > 0 {
      OwnedAscends(shards, g, n - 1, i, j);
      OwnedOk(shards, g, n - 1);
      var was := Owned(shards, g, n - 1);
      assert 0 <= i < |was| ==> was[i] in was;
    }
  }

  lemma LeansAtFirst(c: Config, gs: map<int, seq<string>>)
    requires |c.shards| == N && Balanced(c) && NoStranger(c) && c.groups.Keys <= gs.Keys
    ensures Leaning(ListsOf(c.shards, gs.Keys), gs.Keys - c.groups.Keys)
  {
    var l, joined := ListsOf(c.shards, gs.Keys), gs.Keys - c.groups.Keys;
    ListsDescribe(c.shards, gs.Keys);
    forall g, h | g in l && h in l && g != 0 && h != 0 && (g in joined || h !in joined) ensures |l[g]| <= |l[h]| + 1 {
      LoadIs(c.shards, l, g);
      LoadIs(c.shards, l, h);
      if g in joined { NoLoad(c, g); }
    }
  }

  lemma NoLoad(c: Config, g: int)
    requires |c.shards| == N && NoStranger(c) && g != 0 && g !in c.groups
    ensures Load(c.shards, g) == 0
  {
    assert (set s: int | 0 <= s < |c.shards| && c.shards[s] == g) == {};
  }

  /** A Join that names no group, from the start: every shard goes to the group -1, which nobody named. */
  lemma JoinOfNothing()
    ensures AfterJoin(DefaultConfig(), 1, map[]).groups == map[]
    ensures forall s | 0 <= s < N :: AfterJoin(DefaultConfig(), 1, map[]).shards[s] == -1
  {
    var c := DefaultConfig();
    JoinSettles(c, 1, map[]);
    JoinBalances(c, 1, map[]);
    var l := ListsOf(c.shards, {});
    assert JoinedGroups(c.groups, map[]).Keys == {};
    SettleKeys(c.shards, l);
    var (a', l') := Settle(c.shards, l);
    forall s | 0 <= s < N ensures a'[s] == -1 {
      assert ShardOk(a', l', s);
    }
  }

  // ---- Leave ----

  lemma LeaveInherits(c: Config, num: int, gids: seq<int>)
    requires |c.shards| == N && |Staying(c.groups, gids)| > 0
    ensures var l := ListsOf(c.shards, c.groups.Keys);
      && Describes(c.shards, l) && Partial(c.shards, Drop(l, gids).0, Drop(l, gids).1)
      && Drop(l, gids).0.Keys == (c.groups.Keys + Elements(c.shards)) - Elements(gids)
      && (forall s | 0 <= s < N :: s in Drop(l, gids).1 <==> c.shards[s] in gids)
      && (Even(l) ==> Even(Drop(l, gids).0))
      && AfterLeave(c, num, gids) ==
         Config(num, Adopt(c.shards, Drop(l, gids).0, Drop(l, gids).1).0, Staying(c.groups, gids))
  {
    ListsDescribe(c.shards, c.groups.Keys);
    DropPartial(c.shards, ListsOf(c.shards, c.groups.Keys), gids);
  }

  /** A Leave moves the shards of the groups that leave and no others; if nobody stays, all shards are
      without a group. */
  lemma LeaveMovesOnlyOrphans(c: Config, num: int, gids: seq<int>, s: int)
    requires |c.shards| == N && 0 <= s < N
    ensures var c' := AfterLeave(c, num, gids);
      if |c'.groups| == 0 then c'.shards[s] == 0
      else if c.shards[s] !in gids then c'.shards[s] == c.shards[s]
      else c'.shards[s] != 0 && (SomeGroup(c') ==> c'.shards[s] !in gids)
  {
    var c' := AfterLeave(c, num, gids);
    if |Staying(c.groups, gids)| > 0 {
      LeaveInherits(c, num, gids);
      var l := ListsOf(c.shards, c.groups.Keys);
      AdoptKeeps(c.shards, Drop(l, gids).0, Drop(l, gids).1, s);
      if SomeGroup(c') {
        var g :| g in c'.groups && g != 0;
        assert g in Drop(l, gids).0;
      }
    }
  }

  /** A Leave keeps a balanced configuration balanced, and shards with groups of the configuration. */
  lemma LeaveKeepsBalance(c: Config, num: int, gids: seq<int>)
    requires |c.shards| == N && Balanced(c) && NoStranger(c) && SomeGroup(c.(groups := Staying(c.groups, gids)))
    ensures var c' := AfterLeave(c, num, gids);
      Balanced(c') && NoStranger(c') && (AllPlaced(c) ==> AllPlaced(c'))
  {
    var c' := AfterLeave(c, num, gids);
    assert |Staying(c.groups, gids).Keys| > 0;
    LeaveInherits(c, num, gids);
    var l := ListsOf(c.shards, c.groups.Keys);
    var l1, w := Drop(l, gids).0, Drop(l, gids).1;
    ListsEven(c);
    var g0 :| g0 in c'.groups && g0 != 0;
    assert g0 in l1;
    var (a', l') := Adopt(c.shards, l1, w);
    forall s | 0 <= s < N ensures a'[s] == 0 || a'[s] in c'.groups {
      AdoptKeeps(c.shards, l1, w, s);
    }
    AdoptKeeps(c.shards, l1, w, 0);
    forall g, h | g in c'.groups && h in c'.groups && g != 0 && h != 0 ensures Load(a', g) <= Load(a', h) + 1 {
      LoadIs(a', l', g);
      LoadIs(a', l', h);
    }
    if AllPlaced(c) {
      forall s | 0 <= s < N ensures a'[s] != 0 {
        AdoptKeeps(c.shards, l1, w, s);
      }
    }
  }

  lemma ListsEven(c: Config)
    requires |c.shards| == N && Balanced(c) && NoStranger(c)
    ensures Even(ListsOf(c.shards, c.groups.Keys))
  {
    var l := ListsOf(c.shards, c.groups.Keys);
    ListsDescribe(c.shards, c.groups.Keys);
    forall g, h | g in l && h in l && g != 0 && h != 0 ensures |l[g]| <= |l[h]| + 1 {
      LoadIs(c.shards, l, g);
      LoadIs(c.shards, l, h);
    }
  }

  // ---- whole runs ----

  datatype Command = Join(groups: map<int, seq<string>>) | Leave(gids: seq<int>) | Move(shard: nat, gid: int)

  predicate Sensible(cmd: Command) { cmd.Move? ==> cmd.shard < N }

  ghost function After(c: Config, num: int, cmd: Command): (r: Config)
    requires |c.shards| == N && Sensible(cmd)
    ensures |r.shards| == N && r.num == num
  {
    match cmd
    case Join(groups) => AfterJoin(c, num, groups)
    case Leave(gids) => AfterLeave(c, num, gids)
    case Move(shard, gid) => AfterMove(c, num, shard, gid)
  }

  ghost predicate AllSensible(cmds: seq<Command>) { forall i | 0 <= i < |cmds| :: Sensible(cmds[i]) }

  /** All configurations after a list of commands. */
  ghost function History(cmds: seq<Command>): (r: seq<Config>)
    requires AllSensible(cmds)
    ensures |r| == |cmds| + 1 && forall i | 0 <= i < |r| :: r[i].num == i && |r[i].shards| == N
  {
    if cmds == [] then [DefaultConfig()]
    else
      var h := History(cmds[..|cmds| - 1]);
      h + [After(h[|h| - 1], |h|, cmds[|cmds| - 1])]
  }

  lemma HistoryStep(cmds: seq<Command>)
    requires AllSensible(cmds) && cmds != []
    ensures History(cmds)[..|cmds|] == History(cmds[..|cmds| - 1])
  {
  }

  /** One more command adds one configuration. */
  lemma HistoryNext(cmds: seq<Command>, i: nat)
    requires AllSensible(cmds) && i < |cmds|
    ensures AllSensible(cmds[..i]) && AllSensible(cmds[..i + 1])
    ensures History(cmds[..i + 1]) == History(cmds[..i]) + [After(History(cmds[..i])[i], i + 1, cmds[i])]
  {
    var longer := cmds[..i + 1];
    assert longer[..i] == cmds[..i] && longer[i] == cmds[i];
  }

  /** The configurations after the first commands are the first ones of all. */
  lemma {:induction false} HistoryGrows(cmds: seq<Command>, k: nat)
    requires AllSensible(cmds) && k <= |cmds|
    ensures AllSensible(cmds[..k]) && History(cmds[..k]) == History(cmds)[..k + 1]
    decreases |cmds|
  {
    if k < |cmds| {
      var short := cmds[..|cmds| - 1];
      HistoryGrows(short, k);
      HistoryStep(cmds);
      assert short[..k] == cmds[..k];
      Slice(History(cmds), |cmds|, k + 1);
    } else {
      assert cmds[..k] == cmds;
    }
  }

  lemma StepIs(cmds: seq<Command>, i: nat)
    requires AllSensible(cmds) && i < |cmds|
    ensures Sensible(cmds[i]) && History(cmds)[i + 1] == After(History(cmds)[i], i + 1, cmds[i])
  {
    var h, m := History(cmds), i + 1;
    HistoryGrows(cmds, i);
    HistoryGrows(cmds, m);
    HistoryNext(cmds, i);
    assert h[..m + 1][m] == h[m] && h[..m][i] == h[i];
  }

  // ---- what each command does, in every run ----

  /** At first there is no group, and no shard is with one. */
  lemma BeginsEmpty(cmds: seq<Command>)
    requires AllSensible(cmds)
    ensures History(cmds)[0].groups == map[] && forall s | 0 <= s < N :: History(cmds)[0].shards[s] == 0
  {
    HistoryGrows(cmds, 0);
    var h := History(cmds);
    assert h[..1][0] == h[0] && cmds[..0] == [];
  }

  /** A Join adds the groups it names, with their servers; a group that is there keeps its own. */
  lemma JoinAddsGroups(cmds: seq<Command>, i: nat, g: int)
    requires AllSensible(cmds) && i < |cmds| && cmds[i].Join?
    ensures var had, has := History(cmds)[i].groups, History(cmds)[i + 1].groups;
      && (g in has <==> g in had || g in cmds[i].groups)
      && (g in had ==> has[g] == had[g]) && (g in cmds[i].groups && g !in had ==> has[g] == cmds[i].groups[g])
  {
    StepIs(cmds, i);
  }

  /** A Leave takes exactly the groups it names away. If any is left, shards of the others stay where they
      were; if none is, no shard is with a group. */
  lemma LeaveTakesGroups(cmds: seq<Command>, i: nat, g: int, s: int)
    requires AllSensible(cmds) && i < |cmds| && cmds[i].Leave? && 0 <= s < N
    ensures var c, c' := History(cmds)[i], History(cmds)[i + 1];
      && (g in c'.groups <==> g in c.groups && g !in cmds[i].gids) && (g in c'.groups ==> c'.groups[g] == c.groups[g])
      && (c'.groups == map[] ==> c'.shards[s] == 0)
      && (c'.groups != map[] && c.shards[s] !in cmds[i].gids ==> c'.shards[s] == c.shards[s])
  {
    StepIs(cmds, i);
    LeaveMovesOnlyOrphans(History(cmds)[i], i + 1, cmds[i].gids, s);
  }

  /** A Move puts that shard with that group, and changes nothing else. */
  lemma MoveMovesOne(cmds: seq<Command>, i: nat, s: int)
    requires AllSensible(cmds) && i < |cmds| && cmds[i].Move? && 0 <= s < N
    ensures var c, c' := History(cmds)[i], History(cmds)[i + 1];
      c'.groups == c.groups && c'.shards[s] == if s == cmds[i].shard then cmds[i].gid else c.shards[s]
  {
    StepIs(cmds, i);
  }

  lemma Slice(h: seq<Config>, m: nat, k: nat)
    requires k <= m <= |h|
    ensures h[..m][..k] == h[..k]
  {
  }

  /** Groups have ids other than 0, and a Move names a group of the configuration. */
  ghost predicate Proper(c: Config, cmd: Command) {
    match cmd
    case Join(groups) => 0 !in groups
    case Leave(gids) => true
    case Move(shard, gid) => gid in c.groups
  }

  ghost predicate ProperAt(cmds: seq<Command>, i: nat)
    requires AllSensible(cmds) && i < |cmds|
  {
    Proper(History(cmds)[i], cmds[i]) && (cmds[i].Join? ==> |History(cmds)[i + 1].groups| > 0)
  }

  ghost predicate Placed(c: Config) {
    0 !in c.groups && NoStranger(c) && (|c.groups| > 0 ==> AllPlaced(c))
  }

  lemma GroupIsGroup(c: Config)
    requires 0 !in c.groups
    ensures SomeGroup(c) <==> |c.groups| > 0
  {
    if |c.groups| > 0 {
      assert |c.groups.Keys| > 0;
      var g := Element(c.groups.Keys);
      assert g in c.groups && g != 0;
    }
  }

  lemma LeavePlaces(c: Config, num: int, gids: seq<int>, s: int)
    requires |c.shards| == N && 0 <= s < N && Placed(c)
    ensures var c' := AfterLeave(c, num, gids);
      if |c'.groups| > 0 then c'.shards[s] in c'.groups else c'.shards[s] == 0
  {
    var c' := AfterLeave(c, num, gids);
    if |Staying(c.groups, gids)| > 0 {
      LeaveInherits(c, num, gids);
      var l := ListsOf(c.shards, c.groups.Keys);
      GroupIsGroup(c');
      var g :| g in c'.groups && g != 0;
      assert g in Drop(l, gids).0;
      AdoptKeeps(c.shards, Drop(l, gids).0, Drop(l, gids).1, s);
    }
  }

  lemma JoinStep(c: Config, num: int, groups: map<int, seq<string>>)
    requires |c.shards| == N && Placed(c) && 0 !in groups && |AfterJoin(c, num, groups).groups| > 0
    ensures Placed(AfterJoin(c, num, groups)) && Balanced(AfterJoin(c, num, groups))
  {
    GroupIsGroup(AfterJoin(c, num, groups));
    JoinPlaces(c, num, groups);
    JoinBalances(c, num, groups);
  }

  lemma LeaveStep(c: Config, num: int, gids: seq<int>)
    requires |c.shards| == N && Placed(c)
    ensures Placed(AfterLeave(c, num, gids)) && (Balanced(c) ==> Balanced(AfterLeave(c, num, gids)))
  {
    var c' := AfterLeave(c, num, gids);
    GroupIsGroup(c');
    forall s | 0 <= s < N ensures if |c'.groups| > 0 then c'.shards[s] in c'.groups else c'.shards[s] == 0 {
      LeavePlaces(c, num, gids, s);
    }
    if |c'.groups| > 0 && Balanced(c) { LeaveKeepsBalance(c, num, gids); }
  }

  lemma StepPlaces(c: Config, num: int, cmd: Command)
    requires |c.shards| == N && Sensible(cmd) && Placed(c) && Proper(c, cmd)
    requires cmd.Join? ==> |After(c, num, cmd).groups| > 0
    ensures Placed(After(c, num, cmd))
    ensures cmd.Join? || (Balanced(c) && cmd.Leave?) ==> Balanced(After(c, num, cmd))
  {
    match cmd
    case Join(groups) => JoinStep(c, num, groups);
    case Leave(gids) => LeaveStep(c, num, gids);
    case Move(shard, gid) =>
  }

  /** Commands as clients send them: proper, and a Join leaves some group. */
  ghost predicate ProperRun(cmds: seq<Command>) {
    && AllSensible(cmds)
    && forall i {:trigger ProperAt(cmds, i)} | 0 <= i < |cmds| :: ProperAt(cmds, i)
  }

  ghost predicate Unmoved(cmds: seq<Command>) { forall i | 0 <= i < |cmds| :: !cmds[i].Move? }

  lemma PrefixProper(cmds: seq<Command>, k: nat)
    requires ProperRun(cmds) && k <= |cmds|
    ensures ProperRun(cmds[..k])
  {
    HistoryGrows(cmds, k);
    forall i | 0 <= i < k ensures ProperAt(cmds[..k], i) {
      assert ProperAt(cmds, i);
    }
  }

  lemma LastStep(cmds: seq<Command>)
    requires ProperRun(cmds) && cmds != []
    ensures var n, h := |cmds| - 1, History(cmds);
      h[n] == History(cmds[..n])[n] && h[n + 1] == After(h[n], n + 1, cmds[n]) && ProperAt(cmds, n)
  {
    HistoryStep(cmds);
    assert ProperAt(cmds, |cmds| - 1);
    assert History(cmds)[..|cmds|][|cmds| - 1] == History(cmds)[|cmds| - 1];
  }

  /** In every run every shard is with a group as long as there is one, and without Moves the load is even. */
  lemma {:induction false} LastIsPlaced(cmds: seq<Command>)
    requires ProperRun(cmds)
    ensures Placed(History(cmds)[|cmds|]) && (Unmoved(cmds) ==> Balanced(History(cmds)[|cmds|]))
    decreases |cmds|
  {
    if cmds != [] {
      var n := |cmds| - 1;
      PrefixProper(cmds, n);
      LastIsPlaced(cmds[..n]);
      LastStep(cmds);
      StepPlaces(History(cmds)[n], n + 1, cmds[n]);
    }
  }

  lemma AlwaysPlaced(cmds: seq<Command>, k: nat)
    requires ProperRun(cmds) && k <= |cmds|
    ensures Placed(History(cmds)[k]) && (Unmoved(cmds[..k]) ==> Balanced(History(cmds)[k]))
  {
    PrefixProper(cmds, k);
    LastIsPlaced(cmds[..k]);
    HistoryGrows(cmds, k);
    assert History(cmds)[..k + 1][k] == History(cmds)[k];
  }
}
