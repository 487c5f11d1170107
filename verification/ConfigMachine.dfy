/** The shard controller's state machine, which keeps every configuration it ever made. */
module ConfigMachine {
  import opened Rebalance
  import opened Sets
  import opened ShardController

  // ---- sorted keys ----

  ghost predicate Rising(gids: seq<int>) {
    forall i, j | 0 <= i < j < |gids| :: gids[i] < gids[j]
  }

  method InsertGid(gids: seq<int>, g: int) returns (r: seq<int>)
    requires Rising(gids) && g !in gids
    ensures Rising(r) && forall x :: x in r <==> x in gids || x == g
  {
    var j := |gids|;
    while j > 0 && g < gids[j - 1]
      invariant 0 <= j <= |gids| && forall i | j <= i < |gids| :: g < gids[i]
    {
      j := j - 1;
    }
    InsertedHas(gids, j, g);
    r := Inserted(gids, j, g);
    forall i | 0 <= i < j ensures gids[i] < g {
      assert gids[j - 1] != g && gids[i] <= gids[j - 1];
    }
  }

  /** The keys of the map in ascending order, in whatever order it is walked. */
  method SortedGids(l: Lists) returns (gids: seq<int>)
    ensures Rising(gids) && forall g :: g in gids <==> g in l
  {
    gids := [];
    var left := l.Keys;
    while |left| > 0
      invariant left <= l.Keys && Rising(gids) && forall g :: g in gids <==> g in l.Keys - left
    {
      ghost var some := Element(left);
      var g :| g in left;
      left := left - {g};
      gids := InsertGid(gids, g);
    }
  }

  /** The lists that are no longer than there are shards. */
  ghost function Small(l: Lists): Lists { map g | g in l && |l[g]| <= N :: l[g] }

  /** A group whose list is longer than there are shards is passed over. */
  method GetGIDWithMinimumShards(l: Lists) returns (index: int)
    ensures index == MinGid(Small(l))
    ensures forall g | g in l && g != 0 && |l[g]| <= N ::
      index in l && (|l[index]| < |l[g]| || (|l[index]| == |l[g]| && index <= g))
  {
    var gids := SortedGids(l);
    var minShards := N + 1;
    index := -1;
    ghost var small := Small(l);
    for i := 0 to |gids|
      invariant minShards <= N + 1
      invariant minShards > N ==> index == -1 && forall j | 0 <= j < i :: gids[j] == 0 || gids[j] !in small
      invariant minShards <= N ==> index in gids[..i] && index != 0 && index in small && |l[index]| == minShards
      invariant minShards <= N ==> forall j | 0 <= j < i && gids[j] != 0 && gids[j] in small ::
          FewerOrFirst(small, index, gids[j])
    {
      var gid := gids[i];
      assert gid in gids && gids[..i + 1] == gids[..i] + [gid];
      if gid != 0 && |l[gid]| < minShards {
        index, minShards := gid, |l[gid]|;
      }
    }
    assert IsMin(small, index) by {
      if minShards > N {
        assert forall g | g in small :: g in gids;
      } else {
        forall g | g in small && g != 0 ensures FewerOrFirst(small, index, g) {
          assert g in gids;
        }
      }
    }
    ChoicesUnique(small, index, MinGid(small));
  }

  method GetGIDWithMaximumShards(l: Lists) returns (index: int)
    ensures index == MaxGid(l)
    ensures 0 in l && l[0] != [] ==> index == 0
    ensures (0 in l ==> l[0] == []) ==>
      forall g | g in l :: index in l && (|l[index]| > |l[g]| || (|l[index]| == |l[g]| && index <= g))
  {
    if 0 in l && |l[0]| != 0 {
      return 0;
    }
    var gids := SortedGids(l);
    var maxShards := -1;
    index := -1;
    for i := 0 to |gids|
      invariant i == 0 ==> index == -1 && maxShards == -1
      invariant i > 0 ==> index in gids[..i] && index in l && |l[index]| == maxShards
      invariant i > 0 ==> forall j | 0 <= j < i :: MoreOrFirst(l, index, gids[j])
    {
      var gid := gids[i];
      assert gid in gids && gids[..i + 1] == gids[..i] + [gid];
      if |l[gid]| > maxShards {
        index, maxShards := gid, |l[gid]|;
      }
    }
    assert IsMax(l, index) by {
      forall g | g in l ensures index in l && MoreOrFirst(l, index, g) {
        assert g in gids;
      }
      if |l| > 0 {
        var g := Element(l.Keys);
        assert g in gids;
      }
    }
    ChoicesUnique(l, index, MaxGid(l));
  }

  // ---- lists and arrays ----

  method EmptyLists(gids: set<int>) returns (l: Lists)
    ensures l.Keys == gids && forall g | g in l :: l[g] == []
  {
    l := map[];
    var left := gids;
    while |left| > 0
      invariant left <= gids && l.Keys == gids - left && forall g | g in l :: l[g] == []
    {
      ghost var some := Element(left);
      var gid :| gid in left;
      left := left - {gid};
      l := l[gid := []];
    }
  }

  ghost predicate FilledAt(l: Lists, shards: seq<int>, n: nat, g: int)
    requires n <= |shards|
  {
    At(l, g) == Owned(shards, g, n)
  }

  /** The lists while the first n shards have been put in. */
  ghost predicate Filled(l: Lists, shards: seq<int>, gids: set<int>, n: nat)
    requires n <= |shards|
  {
    && l.Keys == gids + Elements(shards[..n])
    && (forall g {:trigger FilledAt(l, shards, n, g)} :: FilledAt(l, shards, n, g))
  }

  lemma FillOne(l: Lists, shards: seq<int>, gids: set<int>, n: nat)
    requires n < |shards| && Filled(l, shards, gids, n)
    ensures Filled(l[shards[n] := At(l, shards[n]) + [n]], shards, gids, n + 1)
  {
    var owner, m := shards[n], n + 1;
    var l' := l[owner := At(l, owner) + [n]];
    assert shards[..n + 1] == shards[..n] + [owner];
    assert Elements(shards[..n + 1]) == Elements(shards[..n]) + {owner};
    forall g ensures FilledAt(l', shards, m, g) {
      assert FilledAt(l, shards, n, g);
    }
  }

  /** Which shards each group has. */
  method Group2Shards(shards: seq<int>, groups: Groups) returns (l: Lists)
    requires |shards| == N
    ensures l == ListsOf(shards, groups.servers.Keys)
  {
    l := EmptyLists(groups.servers.Keys);
    assert shards[..0] == [] && Elements(shards[..0]) == {};
    for shard := 0 to N
      invariant Filled(l, shards, groups.servers.Keys, shard)
    {
      FillOne(l, shards, groups.servers.Keys, shard);
      var gid := shards[shard];
      l := l[gid := At(l, gid) + [shard]];
    }
    assert shards[..N] == shards;
    forall g | g in l ensures l[g] == Owned(shards, g, N) {
      assert FilledAt(l, shards, N, g);
    }
  }

  /** Write down who owns what; the order in which the map is walked does not matter. */
  method Assign(l: Lists, ghost a: seq<int>) returns (shards: seq<int>)
    requires Describes(a, l)
    ensures shards == a
  {
    var newShards := new int[N](_ => 0);
    var left := l.Keys;
    forall s | 0 <= s < N ensures a[s] in left {
      assert ShardOk(a, l, s);
    }
    while |left| > 0
      invariant left <= l.Keys
      invariant forall s | 0 <= s < N :: a[s] !in left ==> newShards[s] == a[s]
    {
      ghost var some := Element(left);
      var gid :| gid in left;
      left := left - {gid};
      assert ListOk(a, l, gid);
      for i := 0 to |l[gid]|
        invariant forall s | 0 <= s < N :: a[s] !in left && (a[s] == gid ==> s in l[gid][..i]) ==> newShards[s] == a[s]
      {
        assert l[gid][i] in l[gid] && l[gid][..i + 1] == l[gid][..i] + [l[gid][i]];
        newShards[l[gid][i]] := gid;
      }
      forall s | 0 <= s < N && a[s] == gid ensures s in l[gid][..|l[gid]|] {
        assert ShardOk(a, l, s) && l[gid][..|l[gid]|] == l[gid];
      }
    }
    forall s | 0 <= s < N ensures newShards[s] == a[s] {
      assert ShardOk(a, l, s);
    }
    shards := newShards[..];
  }

  /** The groups of one configuration: a map that is changed in place while the configuration is made. */
  class Groups {
    var servers: map<int, seq<string>>

    constructor ()
      ensures servers == map[]
    {
      servers := map[];
    }
  }

  method DeepCopy(groups: Groups) returns (r: Groups)
    ensures fresh(r) && r.servers == groups.servers
  {
    r := new Groups();
    var left := groups.servers.Keys;
    while |left| > 0
      invariant fresh(r) && left <= groups.servers.Keys && r.servers == groups.servers - left
    {
      ghost var some := Element(left);
      var gid :| gid in left;
      CopyOne(groups.servers, left, gid);
      left := left - {gid};
      r.servers := r.servers[gid := groups.servers[gid]];
    }
    assert left == {} && groups.servers - left == groups.servers;
  }

  lemma CopyOne(groups: map<int, seq<string>>, left: set<int>, gid: int)
    requires left <= groups.Keys && gid in left
    ensures groups - (left - {gid}) == (groups - left)[gid := groups[gid]]
  {
  }

  /** Add the groups that are not there yet. */
  method AddGroups(into: Groups, groups: map<int, seq<string>>)
    modifies into
    ensures into.servers == JoinedGroups(old(into.servers), groups)
  {
    var left := groups.Keys;
    while |left| > 0
      invariant left <= groups.Keys && into.servers == JoinedGroups(old(into.servers), groups - left)
    {
      ghost var some := Element(left);
      var gid :| gid in left;
      AddOne(old(into.servers), groups, left, gid);
      left := left - {gid};
      if gid !in into.servers {
        into.servers := into.servers[gid := groups[gid]];
      }
    }
    AllAdded(old(into.servers), groups, left);
  }

  lemma AllAdded(had: map<int, seq<string>>, groups: map<int, seq<string>>, left: set<int>)
    requires |left| == 0
    ensures JoinedGroups(had, groups - left) == JoinedGroups(had, groups)
  {
    assert groups - left == groups;
  }

  lemma AddOne(had: map<int, seq<string>>, groups: map<int, seq<string>>, left: set<int>, gid: int)
    requires left <= groups.Keys && gid in left
    ensures var r, r' := JoinedGroups(had, groups - left), JoinedGroups(had, groups - (left - {gid}));
      r' == if gid in r then r else r[gid := groups[gid]]
  {
    var r, r' := JoinedGroups(had, groups - left), JoinedGroups(had, groups - (left - {gid}));
    assert r'.Keys == r.Keys + {gid};
  }

  lemma ListsSmall(a: seq<int>, l: Lists)
    requires Describes(a, l)
    ensures Small(l) == l
  {
    forall g | g in l ensures |l[g]| <= N {
      assert ListOk(a, l, g);
      ListSmall(a, l, g);
    }
  }

  /** The loop of Join: take from the group with the most, give to the group with the fewest. */
  method Level(start: Lists, ghost a: seq<int>) returns (l: Lists, ghost a': seq<int>)
    requires Describes(a, start)
    ensures l == Settle(a, start).1 && a' == Settle(a, start).0
  {
    l, a' := start, a;
    while true
      invariant Describes(a', l) && Settle(a', l) == Settle(a, start)
      decreases |At(l, 0)|, |At(l, MaxGid(l))|, |Tops(l)|
    {
      ListsSmall(a', l);
      var source := GetGIDWithMaximumShards(l);
      var target := GetGIDWithMinimumShards(l);
      if source != 0 && |At(l, source)| - |At(l, target)| <= 1 {
        return;
      }
      GoesOn(a', l);
      SettleEnds(a', l);
      ShiftDescribes(a', l, source, target);
      a' := a'[l[source][0] := target];
      l := l[target := At(l, target) + [l[source][0]]][source := l[source][1..]];
    }
  }

  /** Take the lists of the groups that leave out of the map. */
  method TakeOut(start: Lists, gids: seq<int>) returns (l: Lists, orphans: seq<int>)
    ensures (l, orphans) == Drop(start, gids)
  {
    l, orphans := start, [];
    for i := 0 to |gids|
      invariant (l, orphans) == Drop(start, gids[..i])
    {
      var gid := gids[i];
      assert gids[..i + 1][..i] == gids[..i];
      if gid in l {
        orphans := orphans + l[gid];
        l := l - {gid};
      }
    }
    assert gids[..|gids|] == gids;
  }

  /** Take the groups that leave out of the configuration. */
  method RemoveGroups(from: Groups, gids: seq<int>)
    modifies from
    ensures from.servers == Staying(old(from.servers), gids)
  {
    ghost var had := from.servers;
    assert gids[..0] == [] && Staying(had, []) == had;
    for i := 0 to |gids|
      invariant from.servers == Staying(had, gids[..i])
    {
      RemoveOne(had, gids[..i], gids[i]);
      assert gids[..i + 1] == gids[..i] + [gids[i]];
      if gids[i] in from.servers {
        from.servers := from.servers - {gids[i]};
      }
    }
    assert gids[..|gids|] == gids;
  }

  lemma RemoveOne(had: map<int, seq<string>>, gids: seq<int>, gid: int)
    ensures var r, r' := Staying(had, gids), Staying(had, gids + [gid]);
      r' == if gid in r then r - {gid} else r
  {
    var r, r' := Staying(had, gids), Staying(had, gids + [gid]);
    assert r'.Keys == r.Keys - {gid};
  }

  lemma PartialSmall(a: seq<int>, l: Lists, waiting: seq<int>)
    requires Partial(a, l, waiting)
    ensures Small(l) == l
  {
    forall g | g in l ensures |l[g]| <= N {
      assert ListOk(a, l, g);
      ListSmall(a, l, g);
    }
  }

  /** The loop of Leave: every orphan goes to the group with the fewest shards. */
  method GiveAway(start: Lists, orphans: seq<int>, ghost a: seq<int>) returns (l: Lists, ghost a': seq<int>)
    requires Partial(a, start, orphans)
    ensures l == Adopt(a, start, orphans).1 && a' == Adopt(a, start, orphans).0
  {
    l, a' := start, a;
    for i := 0 to |orphans|
      invariant Partial(a', l, orphans[i..]) && Adopt(a', l, orphans[i..]) == Adopt(a, start, orphans)
    {
      PartialSmall(a', l, orphans[i..]);
      AdoptOne(a', l, orphans[i..]);
      assert orphans[i..][0] == orphans[i] && orphans[i..][1..] == orphans[i + 1..];
      var gid := GetGIDWithMinimumShards(l);
      a' := a'[orphans[i] := gid];
      l := l[gid := At(l, gid) + [orphans[i]]];
    }
  }

  /** A configuration as the machine keeps it. */
  datatype StoredConfig = StoredConfig(num: int, shards: seq<int>, groups: Groups)

  function Contents(c: StoredConfig): Config
    reads c.groups
  {
    Config(c.num, c.shards, c.groups.servers)
  }

  /** The shards and the groups of the configuration after a Join; the groups are filled in in place. */
  method MakeJoined(c: StoredConfig, groups: map<int, seq<string>>) returns (newShards: seq<int>, newGroups: Groups)
    requires |c.shards| == N
    ensures fresh(newGroups) && |newShards| == N
    ensures forall num :: AfterJoin(Contents(c), num, groups) == Config(num, newShards, newGroups.servers)
  {
    newGroups := DeepCopy(c.groups);
    AddGroups(newGroups, groups);
    var group2Shards := Group2Shards(c.shards, newGroups);
    ListsDescribe(c.shards, newGroups.servers.Keys);
    var levelled, a := Level(group2Shards, c.shards);
    newShards := Assign(levelled, a);
  }

  /** The shards and the groups of the configuration after a Leave; the groups are deleted in place. */
  method MakeLeft(c: StoredConfig, gids: seq<int>) returns (newShards: seq<int>, newGroups: Groups)
    requires |c.shards| == N
    ensures fresh(newGroups) && |newShards| == N
    ensures forall num :: AfterLeave(Contents(c), num, gids) == Config(num, newShards, newGroups.servers)
  {
    newGroups := DeepCopy(c.groups);
    var group2Shards := Group2Shards(c.shards, newGroups);
    RemoveGroups(newGroups, gids);
    var left, orphans := TakeOut(group2Shards, gids);
    newShards := NoOwners();
    if |newGroups.servers| > 0 {
      Waiting(c.shards, c.groups.servers.Keys, gids);
      var given, a := GiveAway(left, orphans, c.shards);
      newShards := Assign(given, a);
    }
  }

  class MemoryConfigStateMachine {
    var configs: seq<StoredConfig>

    ghost function Maps(): set<Groups>
      reads this
    {
      set i | 0 <= i < |configs| :: configs[i].groups
    }

    /** No two configurations share their groups. */
    ghost predicate Valid()
      reads this
    {
      && configs != []
      && (forall i | 0 <= i < |configs| :: configs[i].num == i && |configs[i].shards| == N)
      && forall i, j | 0 <= i < j < |configs| :: configs[i].groups != configs[j].groups
    }

    /** What every configuration says now. */
    ghost function View(): (r: seq<Config>)
      reads this, Maps()
      ensures |r| == |configs| && forall i | 0 <= i < |configs| :: r[i] == Contents(configs[i])
    {
      seq(|configs|, i requires 0 <= i < |configs| reads this, Maps() => Contents(configs[i]))
    }

    /** The groups of the latest configuration. */
    ghost function Servers(): map<int, seq<string>>
      requires configs != []
      reads this, configs[|configs| - 1].groups
    {
      configs[|configs| - 1].groups.servers
    }

    constructor ()
      ensures Valid() && View() == History([])
    {
      var groups := new Groups();
      configs := [StoredConfig(0, NoOwners(), groups)];
    }

    /** Add a configuration whose groups no other has. */
    method Append(newShards: seq<int>, newGroups: Groups)
      requires Valid() && |newShards| == N && newGroups !in Maps()
      modifies this
      ensures Valid() && configs == old(configs) + [StoredConfig(|old(configs)|, newShards, newGroups)]
      ensures View() == old(View()) + [Config(|old(configs)|, newShards, newGroups.servers)]
    {
      configs := configs + [StoredConfig(|configs|, newShards, newGroups)];
    }

    /** Every earlier configuration says what it said before, although Join fills in the groups of the
        new one in place. */
    method Join(groups: map<int, seq<string>>)
      requires Valid()
      modifies this
      ensures Valid() && configs[..|configs| - 1] == old(configs) && fresh(configs[|configs| - 1].groups)
      ensures View() == old(View()) + [AfterJoin(old(View())[|old(configs)| - 1], |old(configs)|, groups)]
      ensures var had, has := old(Servers()), Servers();
        && has.Keys == had.Keys + groups.Keys && (forall g | g in had :: has[g] == had[g])
        && (forall g | g in groups && g !in had :: has[g] == groups[g])
    {
      var newShards, newGroups := MakeJoined(configs[|configs| - 1], groups);
      Append(newShards, newGroups);
    }

    /** Every earlier configuration says what it said before, although Leave deletes from the groups of
        the new one in place. */
    method Leave(gids: seq<int>)
      requires Valid()
      modifies this
      ensures Valid() && configs[..|configs| - 1] == old(configs) && fresh(configs[|configs| - 1].groups)
      ensures View() == old(View()) + [AfterLeave(old(View())[|old(configs)| - 1], |old(configs)|, gids)]
      ensures var had, has := old(Servers()), Servers();
        has.Keys == had.Keys - Elements(gids) && forall g | g in has :: has[g] == had[g]
    {
      var newShards, newGroups := MakeLeft(configs[|configs| - 1], gids);
      Append(newShards, newGroups);
    }

    method Move(shard: nat, gid: int)
      requires Valid() && shard < N
      modifies this
      ensures Valid() && configs[..|configs| - 1] == old(configs) && fresh(configs[|configs| - 1].groups)
      ensures View() == old(View()) + [AfterMove(old(View())[|old(configs)| - 1], |old(configs)|, shard, gid)]
      ensures Servers() == old(Servers())
      ensures var was, now := old(configs)[|old(configs)| - 1].shards, configs[|configs| - 1].shards;
        now[shard] == gid && forall s | 0 <= s < N && s != shard :: now[s] == was[s]
    {
      var lastConfig := configs[|configs| - 1];
      var newGroups := DeepCopy(lastConfig.groups);
      Append(lastConfig.shards[shard := gid], newGroups);
    }

    /** One command of the log. */
    method Execute(cmd: Command)
      requires Valid() && Sensible(cmd)
      modifies this
      ensures Valid() && View() == old(View()) + [After(old(View())[|old(configs)| - 1], |old(configs)|, cmd)]
    {
      match cmd
      case Join(groups) => Join(groups);
      case Leave(gids) => Leave(gids);
      case Move(shard, gid) => Move(shard, gid);
    }

    /** Any number that is not that of a configuration asks for the latest. */
    method Query(num: int) returns (c: StoredConfig)
      requires Valid()
      ensures c.num == if 0 <= num < |configs| then num else |configs| - 1
      ensures c in configs
    {
      if num < 0 || num >= |configs| {
        return configs[|configs| - 1];
      }
      return configs[num];
    }
  }

  /** The controller executes the commands of its log. Whatever order its maps are walked in on the way,
      it ends with the same configurations. */
  method Run(cmds: seq<Command>) returns (m: MemoryConfigStateMachine)
    requires AllSensible(cmds)
    ensures fresh(m) && m.Valid() && m.View() == History(cmds)
  {
    m := new MemoryConfigStateMachine();
    assert cmds[..0] == [];
    for i := 0 to |cmds|
      invariant fresh(m) && m.Valid() && AllSensible(cmds[..i]) && m.View() == History(cmds[..i])
    {
      HistoryNext(cmds, i);
      m.Execute(cmds[i]);
    }
    assert cmds[..|cmds|] == cmds;
  }
}
