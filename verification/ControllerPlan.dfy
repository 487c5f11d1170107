/** The configurations of the controller are such as the sharded store relies on. */
module ControllerPlan {
  import opened ShardController
  import ShardWorld

  /** The configurations as the groups fetch them, the last one for ever. */
  function PlanOf(h: seq<Config>): ShardWorld.Plan
    requires h != [] && forall i | 0 <= i < |h| :: |h[i].shards| == Rebalance.N
  {
    (k: int, s: int) =>
      if k < 0 || !(0 <= s < Rebalance.N) then 0
      else if k < |h| then h[k].shards[s]
      else h[|h| - 1].shards[s]
  }

  ghost function GidsOf(h: seq<Config>): set<int> { set i, g | 0 <= i < |h| && g in h[i].groups :: g }

  /** A Leave of all groups there are. */
  predicate TakesLast(c: Config, cmd: Command) {
    cmd.Leave? && |c.groups| > 0 && |Staying(c.groups, cmd.gids)| == 0
  }

  ghost predicate LeavesSomeGroup(cmds: seq<Command>)
    requires AllSensible(cmds)
  {
    forall i {:trigger TakesLast(History(cmds)[i], cmds[i])} | 0 <= i < |cmds| :: !TakesLast(History(cmds)[i], cmds[i])
  }

  lemma OwnerAt(cmds: seq<Command>, k: nat, s: nat)
    requires ProperRun(cmds) && k <= |cmds| && s < Rebalance.N
    ensures var owner := History(cmds)[k].shards[s];
      (owner == 0 <==> |History(cmds)[k].groups| == 0) && (owner == 0 || owner in GidsOf(History(cmds)))
  {
    var h := History(cmds);
    AlwaysPlaced(cmds, k);
    assert h[k].shards[s] in h[k].groups ==> h[k].shards[s] in GidsOf(h) && |h[k].groups.Keys| > 0;
  }

  lemma StepAt(cmds: seq<Command>, k: nat)
    requires ProperRun(cmds) && k < |cmds|
    ensures History(cmds)[k + 1] == After(History(cmds)[k], k + 1, cmds[k]) && ProperAt(cmds, k)
  {
    assert ProperAt(cmds, k);
    StepIs(cmds, k);
  }

  /** Only such a Leave takes the last group. */
  lemma EmptiedBy(c: Config, num: int, cmd: Command)
    requires |c.shards| == Rebalance.N && Sensible(cmd) && |c.groups| > 0
    requires cmd.Join? ==> |After(c, num, cmd).groups| > 0
    ensures |After(c, num, cmd).groups| == 0 <==> TakesLast(c, cmd)
  {
  }

  /** A shard is handed back to nobody exactly when the command before takes the last group. */
  lemma HandedBack(cmds: seq<Command>, k: nat, s: nat)
    requires ProperRun(cmds) && k < |cmds| && s < Rebalance.N
    ensures var h := History(cmds);
      h[k].shards[s] != 0 && h[k + 1].shards[s] == 0 <==> TakesLast(h[k], cmds[k])
  {
    OwnerAt(cmds, k, s);
    OwnerAt(cmds, k + 1, s);
    StepAt(cmds, k);
    var c := History(cmds)[k];
    if |c.groups| > 0 { EmptiedBy(c, k + 1, cmds[k]); }
  }

  lemma NoGroupZero(cmds: seq<Command>)
    requires ProperRun(cmds)
    ensures 0 !in GidsOf(History(cmds))
  {
    var h := History(cmds);
    forall i | 0 <= i < |h| ensures 0 !in h[i].groups {
      AlwaysPlaced(cmds, i);
    }
  }

  lemma StartsUnowned(cmds: seq<Command>)
    requires ProperRun(cmds)
    ensures History(cmds)[0] == DefaultConfig()
  {
    var h := History(cmds);
    HistoryGrows(cmds, 0);
    assert h[..1][0] == h[0] && cmds[..0] == [];
  }

  /** Whatever happens, owners are known groups and nothing is owned at first. */
  lemma OwnersKnown(cmds: seq<Command>)
    requires ProperRun(cmds)
    ensures var h := History(cmds);
      && 0 !in GidsOf(h)
      && (forall s | 0 <= s < Rebalance.N :: PlanOf(h)(0, s) == 0)
      && (forall k, s | 0 <= k && 0 <= s < Rebalance.N :: PlanOf(h)(k, s) == 0 || PlanOf(h)(k, s) in GidsOf(h))
  {
    var h := History(cmds);
    forall k, s | 0 <= k && 0 <= s < Rebalance.N ensures PlanOf(h)(k, s) == 0 || PlanOf(h)(k, s) in GidsOf(h) {
      OwnerAt(cmds, if k < |h| then k else |h| - 1, s);
    }
    StartsUnowned(cmds);
    NoGroupZero(cmds);
  }

  lemma NotReturnedIn(h: seq<Config>, k: nat, s: nat)
    requires k + 1 < |h| && s < Rebalance.N && forall i | 0 <= i < |h| :: |h[i].shards| == Rebalance.N
    ensures ShardWorld.NotReturned(PlanOf(h), k + 1, s) <==> !(h[k].shards[s] != 0 && h[k + 1].shards[s] == 0)
  {
  }

  /** The configurations are a plan on which the sharded store is safe if and only if no Leave takes the
      last group. */
  lemma PlanFits(cmds: seq<Command>)
    requires ProperRun(cmds)
    ensures ShardWorld.PlanOk(PlanOf(History(cmds)), GidsOf(History(cmds))) <==> LeavesSomeGroup(cmds)
  {
    var plan := PlanOf(History(cmds));
    OwnersKnown(cmds);
    if LeavesSomeGroup(cmds) {
      forall k, s | 1 <= k && 0 <= s < Rebalance.N ensures ShardWorld.NotReturned(plan, k, s) {
        if k <= |cmds| {
          HandedBack(cmds, k - 1, s);
          NotReturnedIn(History(cmds), k - 1, s);
        }
      }
    }
    if ShardWorld.PlanOk(plan, GidsOf(History(cmds))) {
      forall i | 0 <= i < |cmds| ensures !TakesLast(History(cmds)[i], cmds[i]) {
        var k := i + 1;
        assert ShardWorld.NotReturned(plan, k, 0);
        HandedBack(cmds, i, 0);
        NotReturnedIn(History(cmds), i, 0);
      }
    }
  }
}
