/**
  The state machine of one replica group as the implementation keeps it: a map from shard ids to
  shard objects that are changed in place. Applying an entry is proved to do what ShardSpec says.
 */
module ShardServer {
  import opened ShardSpec
  import opened Sets

  class StoredShard {
    var kv: map<string, string>
    var status: Status

    constructor ()
      ensures kv == map[] && status == Serving
    {
      kv, status := map[], Serving;
    }

    method Get(key: string) returns (value: string, err: Err)
      ensures Reply(err, value) == if key in kv then Reply(OK, kv[key]) else Reply(ErrNoKey, "")
    {
      if key in kv { return kv[key], OK; }
      return "", ErrNoKey;
    }

    method Put(key: string, value: string) returns (err: Err)
      modifies this`kv
      ensures kv == old(kv)[key := value] && err == OK
    {
      kv := kv[key := value];
      return OK;
    }

    method Append(key: string, value: string) returns (err: Err)
      modifies this`kv
      ensures kv == old(kv)[key := (if key in old(kv) then old(kv)[key] else "") + value] && err == OK
    {
      kv := kv[key := (if key in kv then kv[key] else "") + value];
      return OK;
    }

    /** The copy loop, in whatever order the map is walked. */
    method DeepCopy() returns (copy: map<string, string>)
      ensures copy == kv
    {
      copy := map[];
      var left := kv.Keys;
      while |left| > 0
        invariant left <= kv.Keys && copy.Keys == kv.Keys - left
        invariant forall k | k in copy :: copy[k] == kv[k]
        decreases |left|
      {
        var k :| k in left;
        copy := copy[k := kv[k]];
        left := left - {k};
      }
    }

    /** Put every pair of a map, in whatever order it is walked. */
    method PutAll(data: map<string, string>)
      modifies this`kv
      ensures kv == old(kv) + data
    {
      var left := data.Keys;
      while |left| > 0
        invariant left <= data.Keys
        invariant kv == old(kv) + (map k | k in data && k !in left :: data[k])
        decreases |left|
      {
        var k :| k in left;
        var _ := Put(k, data[k]);
        left := left - {k};
      }
      assert (map k | k in data && k !in left :: data[k]) == data;
    }
  }

  lemma MergeOne(before: Table, ops: Table, left: set<int>, c: int)
    requires left <= ops.Keys && c in left
    ensures var m := MergeOps(before, ops - left);
      MergeOps(before, ops - (left - {c})) == if c !in m || m[c].maxId < ops[c].maxId then m[c := ops[c]] else m
  {
    var m, m' := MergeOps(before, ops - left), MergeOps(before, ops - (left - {c}));
    assert m'.Keys == m.Keys + {c};
    assert forall d | d in m && d != c :: m'[d] == m[d];
  }

  lemma MergedAll(before: Table, ops: Table, left: set<int>)
    requires |left| == 0
    ensures MergeOps(before, ops - left) == MergeOps(before, ops)
  {
    assert ops - left == ops;
  }

  lemma InsertMore(g: Group, info: ShardData, done: set<int>, s: int)
    requires Wf(g) && done <= info.shards.Keys && s in info.shards && s !in done && 0 <= s < NSHARDS
    ensures InsertInto(g, info, done)[s] == g.shards[s]
    ensures InsertInto(g, info, done + {s}) ==
      InsertInto(g, info, done)[s := Shard(g.shards[s].kv + info.shards[s], GCing)]
  {
  }

  ghost predicate NoRepeat(ids: seq<int>) { forall i, j | 0 <= i < j < |ids| :: ids[i] != ids[j] }

  /** The lists so far hold exactly the shards in that state that have been looked at, each once. */
  ghost predicate Listed(g: Group, status: Status, left: set<int>, lists: map<int, seq<int>>)
    requires Wf(g)
  {
    && (forall h :: h in lists <==> h != 0 && exists s :: s in ByStatus(g, status, h) && s !in left)
    && (forall h | h in lists :: forall s :: s in lists[h] <==> s in ByStatus(g, status, h) && s !in left)
    && (forall h | h in lists :: NoRepeat(lists[h]))
  }

  lemma ListedSkip(g: Group, status: Status, left: set<int>, lists: map<int, seq<int>>, s: int)
    requires Wf(g) && Listed(g, status, left, lists) && s in left && 0 <= s < NSHARDS
    requires g.shards[s].status != status || g.lastConfig.shards[s] == 0
    ensures Listed(g, status, left - {s}, lists)
  {
    forall h | h != 0 ensures s !in ByStatus(g, status, h) {}
  }

  lemma ListedMore(g: Group, status: Status, left: set<int>, lists: map<int, seq<int>>, s: int)
    requires Wf(g) && Listed(g, status, left, lists) && s in left && 0 <= s < NSHARDS
    requires g.shards[s].status == status && g.lastConfig.shards[s] != 0
    ensures var h := g.lastConfig.shards[s];
      Listed(g, status, left - {s}, lists[h := (if h in lists then lists[h] else []) + [s]])
  {
    var h := g.lastConfig.shards[s];
    var was := if h in lists then lists[h] else [];
    var lists' := lists[h := was + [s]];
    assert s in ByStatus(g, status, h);
    assert NoRepeat(was) && s !in was;
    forall k ensures k in lists' <==> k != 0 && exists t :: t in ByStatus(g, status, k) && t !in left - {s} {
      if k != h { assert s !in ByStatus(g, status, k); }
    }
  }

  lemma AllListed(g: Group, status: Status, lists: map<int, seq<int>>)
    requires Wf(g) && Listed(g, status, {}, lists)
    ensures forall h :: h in lists <==> h != 0 && ByStatus(g, status, h) != {}
    ensures forall h | h in lists :: forall s :: s in lists[h] <==> s in ByStatus(g, status, h)
  {
    forall h ensures ByStatus(g, status, h) != {} <==> exists s :: s in ByStatus(g, status, h) && s !in {} {
      if ByStatus(g, status, h) != {} {
        var s :| s in ByStatus(g, status, h);
      }
    }
  }

  class ShardKV {
    const gid: int
    var lastConfig: Config
    var currentConfig: Config
    var stateMachine: map<int, StoredShard>
    var lastOperations: Table

    ghost predicate Valid()
      reads this
    {
      && (forall s :: s in stateMachine <==> 0 <= s < NSHARDS)
      && (forall s, t | s in stateMachine && t in stateMachine && s != t :: stateMachine[s] != stateMachine[t])
      && |lastConfig.shards| == |currentConfig.shards| == NSHARDS
    }

    /** The contents of shard s. */
    ghost function At(s: int): Shard
      requires s in stateMachine
      reads this, stateMachine.Values
    {
      Shard(stateMachine[s].kv, stateMachine[s].status)
    }

    ghost function View(): (g: Group)
      requires Valid()
      reads this, stateMachine.Values
      ensures Wf(g) && g.gid == gid && g.config == currentConfig && g.lastConfig == lastConfig
      ensures g.ops == lastOperations
      ensures forall s | 0 <= s < NSHARDS :: g.shards[s] == At(s)
    {
      Group(gid, currentConfig, lastConfig,
            seq(NSHARDS, s requires 0 <= s < NSHARDS && Valid() reads this, stateMachine.Values => At(s)),
            lastOperations)
    }

    constructor (gid: int, config: Config)
      requires |config.shards| == NSHARDS
      ensures Valid() && forall s | s in stateMachine :: fresh(stateMachine[s])
      ensures View() == Group(gid, config, config, seq(NSHARDS, _ => NEW_SHARD), map[])
    {
      this.gid := gid;
      lastConfig, currentConfig := config, config;
      stateMachine, lastOperations := map[], map[];
      new;
      var s := 0;
      while s < NSHARDS
        invariant 0 <= s <= NSHARDS
        invariant lastConfig == config && currentConfig == config && lastOperations == map[]
        invariant forall t :: t in stateMachine <==> 0 <= t < s
        invariant forall t | t in stateMachine :: fresh(stateMachine[t]) && At(t) == NEW_SHARD
        invariant forall t, u | t in stateMachine && u in stateMachine && t != u :: stateMachine[t] != stateMachine[u]
      {
        var shard := new StoredShard();
        stateMachine := stateMachine[s := shard];
        s := s + 1;
      }
    }

    method CanServeHere(s: int) returns (b: bool)
      requires Valid() && 0 <= s < NSHARDS
      ensures b == CanServe(View(), s)
    {
      b := currentConfig.shards[s] == gid && (stateMachine[s].status == Serving || stateMachine[s].status == GCing);
    }

    // ---- applying entries ----

    method ApplyOperation(op: Op) returns (reply: Reply)
      requires Valid()
      modifies this`lastOperations, stateMachine.Values
      ensures Valid() && stateMachine == old(stateMachine)
      ensures View() == ApplyOp(old(View()), op)
      ensures reply == ReplyOp(old(View()), op)
    {
      var s := ShardOf(op.key);
      var can := CanServeHere(s);
      if !can {
        reply := Reply(ErrWrongGroup, "");
      } else if op.kind != OpKind.Get && op.client in lastOperations && op.id <= lastOperations[op.client].maxId {
        reply := lastOperations[op.client].lastReply;
      } else {
        reply := ApplyToShard(op, s);
        if op.kind != OpKind.Get {
          lastOperations := lastOperations[op.client := Context(op.id, reply)];
        }
      }
    }

    method ApplyToShard(op: Op, s: int) returns (reply: Reply)
      requires Valid() && 0 <= s < NSHARDS
      modifies stateMachine.Values
      ensures Valid()
      ensures View() == old(View()).(shards := old(View()).shards[s := old(At(s)).(kv := Execute(old(At(s)).kv, op))])
      ensures reply == Answer(old(At(s)).kv, op)
      ensures op.kind == OpKind.Append && op.key in old(At(s)).kv ==>
        op.key in At(s).kv && At(s).kv[op.key] == old(At(s)).kv[op.key] + op.value
    {
      var shard := stateMachine[s];
      match op.kind {
        case Get =>
          var value, err := shard.Get(op.key);
          reply := Reply(err, value);
        case Put =>
          var err := shard.Put(op.key, op.value);
          reply := Reply(err, "");
        case Append =>
          var err := shard.Append(op.key, op.value);
          reply := Reply(err, "");
      }
      assert forall t | 0 <= t < NSHARDS && t != s :: At(t) == old(At(t));
    }

    method ApplyConfiguration(next: Config) returns (err: Err)
      requires Valid() && |next.shards| == NSHARDS
      modifies this`lastConfig, this`currentConfig, stateMachine.Values
      ensures Valid() && stateMachine == old(stateMachine)
      ensures View() == ApplyConfig(old(View()), next)
      ensures err == if next.num == old(currentConfig).num + 1 then OK else ErrOutDated
    {
      if next.num == currentConfig.num + 1 {
        UpdateShardStatus(next);
        assert View().shards == Restatus(old(View()), next);
        lastConfig := currentConfig;
        currentConfig := next;
        err := OK;
      } else {
        err := ErrOutDated;
      }
    }

    method UpdateShardStatus(next: Config)
      requires Valid() && |next.shards| == NSHARDS
      modifies stateMachine.Values
      ensures Valid()
      ensures forall s | 0 <= s < NSHARDS ::
        At(s) == old(At(s)).(status := NextStatus(gid, currentConfig.shards[s], next.shards[s], old(At(s)).status))
    {
      var s := 0;
      while s < NSHARDS
        invariant 0 <= s <= NSHARDS
        invariant forall t | 0 <= t < s ::
          At(t) == old(At(t)).(status := NextStatus(gid, currentConfig.shards[t], next.shards[t], old(At(t)).status))
        invariant forall t | s <= t < NSHARDS :: At(t) == old(At(t))
      {
        if currentConfig.shards[s] != gid && next.shards[s] == gid {
          if currentConfig.shards[s] != 0 {
            stateMachine[s].status := Pulling;
          }
        }
        if currentConfig.shards[s] == gid && next.shards[s] != gid {
          if next.shards[s] != 0 {
            stateMachine[s].status := BePulling;
          }
        }
        s := s + 1;
      }
    }

    method ApplyInsertShards(info: ShardData) returns (err: Err, ghost done: set<int>)
      requires Valid() && forall s | s in info.shards :: 0 <= s < NSHARDS
      modifies this`lastOperations, stateMachine.Values
      ensures Valid() && stateMachine == old(stateMachine)
      ensures done <= info.shards.Keys
      ensures info.num == currentConfig.num ==> MayInsert(old(View()), info, done)
      ensures View() == ApplyInsert(old(View()), info, done)
      ensures err == if info.num == currentConfig.num then OK else ErrOutDated
    {
      done := {};
      if info.num != currentConfig.num { return ErrOutDated, {}; }
      done := InsertShards(info);
      MergeOperations(info.ops);
      err := OK;
    }

    /** The insertion loop walks the pulled shards in an arbitrary order and may stop early. */
    method InsertShards(info: ShardData) returns (ghost done: set<int>)
      requires Valid() && forall s | s in info.shards :: 0 <= s < NSHARDS
      modifies stateMachine.Values
      ensures Valid()
      ensures MayInsert(old(View()), info, done)
      ensures View() == old(View()).(shards := InsertInto(old(View()), info, done))
    {
      ghost var before := View();
      done := {};
      var left := info.shards.Keys;
      assert View().shards == InsertInto(before, info, done);
      while |left| > 0
        invariant left <= info.shards.Keys && done == info.shards.Keys - left
        invariant forall s | s in done :: before.shards[s].status == Pulling
        invariant Valid() && View() == before.(shards := InsertInto(before, info, done))
        decreases |left|
      {
        ghost var some := Element(left);
        var s :| s in left;
        InsertMore(before, info, done, s);
        var more := InsertOne(s, info.shards[s]);
        if !more { break; }
        left := left - {s};
        done := done + {s};
      }
    }

    /** One turn of the insertion loop; false stops it. */
    method InsertOne(s: int, data: map<string, string>) returns (more: bool)
      requires Valid() && 0 <= s < NSHARDS
      modifies stateMachine.Values
      ensures Valid() && more == (old(View()).shards[s].status == Pulling)
      ensures var was := old(View());
        View() == if more then was.(shards := was.shards[s := Shard(was.shards[s].kv + data, GCing)]) else was
    {
      var shard := stateMachine[s];
      more := shard.status == Pulling;
      if more {
        shard.PutAll(data);
        shard.status := GCing;
      }
    }

    method MergeOperations(ops: Table)
      modifies this`lastOperations
      ensures lastOperations == MergeOps(old(lastOperations), ops)
    {
      ghost var before := lastOperations;
      var left := ops.Keys;
      while |left| > 0
        invariant left <= ops.Keys && lastOperations == MergeOps(before, ops - left)
        decreases |left|
      {
        ghost var some := Element(left);
        var c :| c in left;
        MergeOne(before, ops, left, c);
        if c !in lastOperations || lastOperations[c].maxId < ops[c].maxId {
          lastOperations := lastOperations[c := ops[c]];
        }
        left := left - {c};
      }
      MergedAll(before, ops, left);
    }

    method ApplyDeleteShards(num: int, ids: seq<int>)
      requires Valid() && IdsOk(ids)
      modifies this`stateMachine, stateMachine.Values
      ensures Valid()
      ensures View() == ApplyDelete(old(View()), num, ids)
      ensures fresh(stateMachine.Values - old(stateMachine.Values))
    {
      if num == currentConfig.num {
        DeleteShards(ids);
      }
    }

    method DeleteShards(ids: seq<int>)
      requires Valid() && IdsOk(ids)
      modifies this`stateMachine, stateMachine.Values
      ensures Valid() && View() == old(View()).(shards := DeleteLoop(old(View()).shards, ids))
      ensures fresh(stateMachine.Values - old(stateMachine.Values))
    {
      var i := 0;
      while i < |ids|
        invariant 0 <= i <= |ids| && Valid()
        invariant fresh(stateMachine.Values - old(stateMachine.Values))
        invariant View() == old(View()).(shards := View().shards)
        invariant DeleteLoop(View().shards, ids[i..]) == DeleteLoop(old(View()).shards, ids)
      {
        assert ids[i..][1..] == ids[i + 1..] && ids[i..][0] == ids[i];
        ghost var before := View().shards;
        var more := DeleteOne(ids[i]);
        assert View().shards == before[ids[i] := At(ids[i])];
        if !more { return; }
        i := i + 1;
      }
    }

    /** One turn of the deletion loop; false stops it. */
    method DeleteOne(s: int) returns (more: bool)
      requires Valid() && 0 <= s < NSHARDS
      modifies this`stateMachine, stateMachine.Values
      ensures Valid() && fresh(stateMachine.Values - old(stateMachine.Values))
      ensures forall t | 0 <= t < NSHARDS && t != s :: At(t) == old(At(t))
      ensures At(s) ==
        if old(At(s)).status == GCing then old(At(s)).(status := Serving) else if more then NEW_SHARD else old(At(s))
      ensures more == (old(At(s)).status in {GCing, BePulling})
    {
      var shard := stateMachine[s];
      if shard.status == GCing {
        shard.status := Serving;
        more := true;
      } else if shard.status == BePulling {
        var empty := new StoredShard();
        stateMachine := stateMachine[s := empty];
        more := true;
      } else {
        more := false;
      }
    }

    // ---- what the leader reads ----

    /** GetShardsData at a server that is its group's leader: a copy of the shards and the table. */
    method GetShardsData(num: int, ids: seq<int>) returns (ready: bool, data: ShardData)
      requires Valid() && IdsOk(ids)
      ensures ready == (currentConfig.num >= num)
      ensures ready ==> data.num == num && data.ops == lastOperations && (forall s :: s in data.shards <==> s in ids)
      ensures ready ==> forall s | s in data.shards :: 0 <= s < NSHARDS && data.shards[s] == View().shards[s].kv
    {
      data := ShardData(num, map[], map[]);
      if currentConfig.num < num { return false, data; }
      var shards: map<int, map<string, string>> := map[];
      var i := 0;
      while i < |ids|
        invariant 0 <= i <= |ids|
        invariant forall s :: s in shards <==> s in ids[..i]
        invariant forall s | s in shards :: 0 <= s < NSHARDS && shards[s] == View().shards[s].kv
      {
        var copy := stateMachine[ids[i]].DeepCopy();
        shards := shards[ids[i] := copy];
        assert ids[..i + 1] == ids[..i] + [ids[i]];
        i := i + 1;
      }
      assert ids[..i] == ids;
      return true, ShardData(num, shards, lastOperations);
    }

    /** configurationAction: may the next configuration be asked for? */
    method CanPerformNextConfig() returns (b: bool)
      requires Valid()
      ensures b == AllServing(View())
    {
      var left := stateMachine.Keys;
      b := true;
      while |left| > 0
        invariant left <= stateMachine.Keys
        invariant b ==> forall s | s in stateMachine && s !in left :: stateMachine[s].status == Serving
        invariant b
        decreases |left|
      {
        ghost var some := Element(left);
        var s :| s in left;
        if stateMachine[s].status != Serving {
          assert View().shards[s].status != Serving;
          return false;
        }
        left := left - {s};
      }
    }

    /** The shards in a given state, listed by the group they came from. */
    method GetShardIDsByStatus(status: Status) returns (lists: map<int, seq<int>>)
      requires Valid()
      ensures forall h :: h in lists <==> h != 0 && ByStatus(View(), status, h) != {}
      ensures forall h | h in lists :: forall s :: s in lists[h] <==> s in ByStatus(View(), status, h)
      ensures forall h | h in lists :: NoRepeat(lists[h])
    {
      lists := map[];
      var left := stateMachine.Keys;
      while |left| > 0
        invariant left <= stateMachine.Keys && Listed(View(), status, left, lists)
        decreases |left|
      {
        ghost var some := Element(left);
        var s :| s in left;
        if stateMachine[s].status == status && lastConfig.shards[s] != 0 {
          var h := lastConfig.shards[s];
          ListedMore(View(), status, left, lists, s);
          lists := lists[h := (if h in lists then lists[h] else []) + [s]];
        } else {
          ListedSkip(View(), status, left, lists, s);
        }
        left := left - {s};
      }
      AllListed(View(), status, lists);
    }
  }
}
