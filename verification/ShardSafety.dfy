/**
  What the sharded store promises, for every interleaving of clients, reconfigurations,
  migrations and deletions across its groups.
 */
module ShardSafety {
  import opened ShardSpec
  import opened ShardWorld
  import opened ShardInvariant
  import opened ShardSteps
  import opened ShardEntries

  // ---- assembling one step ----

  /** Group g alone has moved on, and its new state is remembered. */
  ghost predicate MovedTo(w: World, w': World, g: int, next: Group)
    requires g in w.past
  {
    && w'.groups == w.groups[g := next] && w'.past == w.past[g := w.past[g] + {next}]
    && w'.pending == w.pending && w'.issued == w.issued
  }

  lemma MovedInv(plan: Plan, gids: set<int>, w: World, tok: seq<int>, w': World, tok': seq<int>, g: int)
    requires Inv(plan, gids, w, tok) && Stepped(plan, w.groups, w'.groups, tok', w.log, w'.log, g)
    requires MovedTo(w, w', g, w'.groups[g])
    requires w'.deleted.Keys == w'.groups.Keys && DeletedAll(w'.groups, plan, w'.deleted)
    requires ClientInv(w'.issued, w'.acked, w'.log) && Once(w'.log)
    ensures Inv(plan, gids, w', tok')
  {
    assert w'.groups.Keys == w.groups.Keys;
    PastAllKept(w.groups, w'.groups, plan, tok', w.log, w'.log, w.past, g);
    PendingAllKept(w.groups, w'.groups, plan, tok', w.log, w'.log, w.issued, w.pending, g);
    PastInShape(w'.groups, plan, w'.log, w'.past);
  }

  lemma PastInShape(gs: Groups, plan: Plan, log: seq<Op>, past: Past)
    requires Known(plan, gs) && past.Keys == gs.Keys && PastAll(gs, plan, log, past)
    ensures GroupsShape(gs) && PastShape(past)
  {
    forall g, p | g in past && p in past[g] ensures Wf(p) {
      assert PastOk(gs, plan, log, g, p);
    }
  }

  /** What applying an entry does to the world. */
  lemma EntryMoves(plan: Plan, gids: set<int>, w: World, g: int, entry: Entry, done: set<int>, w': World)
    requires Shape(gids, w) && Enabled(gids, w, ApplyEntry(g, entry, done))
    requires w' == Apply(plan, gids, w, ApplyEntry(g, entry, done))
    ensures EntryShape(entry) && MovedTo(w, w', g, AfterEntry(w.groups[g], entry, done))
    ensures w'.deleted == if entry.DeleteShards? then w.deleted[g := w.deleted[g] + {entry}] else w.deleted
    ensures !entry.Operation? ==> w'.log == w.log && w'.acked == w.acked
    ensures entry.Operation? ==> w'.log == LogAfter(w.groups[g], w.log, entry.op)
    ensures entry.Operation? ==> w'.acked == AckedAfter(w.groups[g], w.acked, entry.op)
  {
  }

  function LogAfter(g: Group, log: seq<Op>, op: Op): seq<Op>
    requires Wf(g)
  {
    if Effective(g, op) && op.kind != Get then log + [op] else log
  }

  function AckedAfter(g: Group, acked: set<(int, int)>, op: Op): set<(int, int)>
    requires Wf(g)
  {
    if ReplyOp(g, op).err in {OK, ErrNoKey} then acked + {(op.client, op.id)} else acked
  }

  /** An entry that is in the log of a group was sound when it came there. */
  lemma PendingIsOk(plan: Plan, gids: set<int>, w: World, tok: seq<int>, g: int, e: Entry)
    requires Inv(plan, gids, w, tok) && g in gids && e in w.pending[g]
    ensures EntryOk(w.groups, plan, w.log, w.issued, g, e) && EntryShape(e)
    ensures PastOk(w.groups, plan, w.log, g, w.groups[g])
  {
  }

  /** Proposing a sound entry. */
  lemma ProposedInv(plan: Plan, gids: set<int>, w: World, tok: seq<int>, g: int, e: Entry, w': World)
    requires Inv(plan, gids, w, tok) && g in gids && EntryShape(e) && EntryOk(w.groups, plan, w.log, w.issued, g, e)
    requires w' == Propose(w, g, e)
    ensures Inv(plan, gids, w', tok)
  {
    PendingMore(w.groups, plan, w.log, w.issued, w.pending, g, e);
  }

  lemma PendingMore(gs: Groups, plan: Plan, log: seq<Op>, issued: Issued, pending: Entries, g: int, e: Entry)
    requires Known(plan, gs) && pending.Keys == gs.Keys && PendingAll(gs, plan, log, issued, pending)
    requires PendingShape(pending) && g in gs && EntryShape(e) && EntryOk(gs, plan, log, issued, g, e)
    ensures PendingAll(gs, plan, log, issued, pending[g := pending[g] + {e}])
    ensures PendingShape(pending[g := pending[g] + {e}])
  {
    var pending' := pending[g := pending[g] + {e}];
    forall x, y | x in gs && y in pending'[x] ensures EntryOk(gs, plan, log, issued, x, y) && EntryShape(y) {
      if y in pending[x] {
        assert EntryOk(gs, plan, log, issued, x, y);
      }
    }
  }

  // ---- clients ----

  lemma IssueKeeps(plan: Plan, gids: set<int>, w: World, tok: seq<int>, op: Op)
    requires Inv(plan, gids, w, tok) && Enabled(gids, w, Issue(op))
    ensures Inv(plan, gids, Apply(plan, gids, w, Issue(op)), tok)
  {
    IssueClients(w.issued, w.acked, w.log, op);
    IssuePending(w.groups, plan, w.log, w.issued, w.pending, op);
  }

  lemma IssueClients(issued: Issued, acked: set<(int, int)>, log: seq<Op>, op: Op)
    requires ClientInv(issued, acked, log) && (op.client, op.id) !in issued && op.id >= 0
    requires op.id > 0 ==> (op.client, op.id - 1) in acked
    ensures ClientInv(issued[(op.client, op.id) := op], acked, log)
  {
    var issued' := issued[(op.client, op.id) := op];
    forall c, id | (c, id) in issued' ensures IssuedOk(issued', acked, c, id) {
      assert (c, id) in issued ==> IssuedOk(issued, acked, c, id);
    }
    forall c, id | (c, id) in acked ensures AckedOk(issued', log, c, id) {
      assert AckedOk(issued, log, c, id);
    }
    forall j | 0 <= j < |log| ensures IsIssued(issued', log[j]) && log[j].kind != Get {
      assert IsIssued(issued, log[j]);
    }
  }

  lemma IssuePending(gs: Groups, plan: Plan, log: seq<Op>, issued: Issued, pending: Entries, op: Op)
    requires Known(plan, gs) && pending.Keys == gs.Keys && PendingAll(gs, plan, log, issued, pending)
    requires (op.client, op.id) !in issued
    ensures PendingAll(gs, plan, log, issued[(op.client, op.id) := op], pending)
  {
    var issued' := issued[(op.client, op.id) := op];
    forall g, e | g in gs && e in pending[g] ensures EntryOk(gs, plan, log, issued', g, e) {
      assert EntryOk(gs, plan, log, issued, g, e);
    }
  }

  lemma DuplicateKeeps(plan: Plan, gids: set<int>, w: World, tok: seq<int>, op: Op, g: int, seen: Group)
    requires Inv(plan, gids, w, tok) && Enabled(gids, w, AnswerDuplicate(op, g, seen))
    ensures Inv(plan, gids, Apply(plan, gids, w, AnswerDuplicate(op, g, seen)), tok)
  {
    assert PastOk(w.groups, plan, w.log, g, seen);
    DuplicateWrote(w.issued, w.acked, w.log, seen.ops, op);
    MoreAcked(w.issued, w.acked, w.log, op);
  }

  lemma MoreAcked(issued: Issued, acked: set<(int, int)>, log: seq<Op>, op: Op)
    requires ClientInv(issued, acked, log) && IsIssued(issued, op) && (op.kind != Get ==> Wrote(log, op.client, op.id))
    ensures ClientInv(issued, acked + {(op.client, op.id)}, log)
  {
    var acked' := acked + {(op.client, op.id)};
    forall c, id | (c, id) in issued ensures IssuedOk(issued, acked', c, id) {
      assert IssuedOk(issued, acked, c, id);
    }
    forall c, id | (c, id) in acked' ensures AckedOk(issued, log, c, id) {
      assert (c, id) in acked ==> AckedOk(issued, log, c, id);
    }
  }

  // ---- proposals ----

  lemma BatchRead(plan: Plan, gids: set<int>, p: Group, g: int, h: int, st: Status)
    requires PlanOk(plan, gids) && GroupOk(plan, p, g) && (st == Pulling || st == GCing) && ByStatus(p, st, h) != {}
    ensures p.config.num >= 1 && h != 0 && h != g
    ensures ByStatus(p, st, h) == Batch(plan, h, g, p.config.num)
  {
    var n := p.config.num;
    var x :| x in ByStatus(p, st, h);
    assert LocalOk(plan, p, x);
    forall s | s in ByStatus(p, st, h) ensures s in Batch(plan, h, g, n) { assert LocalOk(plan, p, s); }
    forall s | s in Batch(plan, h, g, n) ensures s in ByStatus(p, st, h) { assert Together(plan, n, x, s); }
  }

  lemma ConfigProposal(plan: Plan, gids: set<int>, w: World, tok: seq<int>, g: int, seen: Group)
    requires Inv(plan, gids, w, tok) && Enabled(gids, w, ProposeConfig(g, seen))
    ensures EntryOk(w.groups, plan, w.log, w.issued, g, Configuration(ConfigOf(plan, seen.config.num + 1)))
  {
    assert PastOk(w.groups, plan, w.log, g, seen);
    assert Later(seen, w.groups[g]);
    if w.groups[g].config.num == seen.config.num {
      forall s | IsShard(s) ensures w.groups[g].shards[s].status == Serving {
        assert ShardLater(seen.shards[s], w.groups[g].shards[s]);
      }
    }
  }

  lemma PullProposal(plan: Plan, gids: set<int>, w: World, tok: seq<int>, g: int, seen: Group, h: int, theirs: Group)
    requires Inv(plan, gids, w, tok) && Enabled(gids, w, Pull(g, seen, h, theirs))
    ensures InsertOk(w.groups, plan, w.log, g, Pulled(seen, h, theirs), h)
  {
    var info, n := Pulled(seen, h, theirs), seen.config.num;
    assert PastOk(w.groups, plan, w.log, g, seen) && PastOk(w.groups, plan, w.log, h, theirs);
    BatchRead(plan, gids, seen, g, h, Pulling);
    assert info.shards.Keys == ByStatus(seen, Pulling, h);
    assert info.shards != map[];
    forall s | s in info.shards ensures ArrivalOk(w.groups, w.log, g, info, h, s) {
      PulledShard(w.groups, plan, tok, w.log, g, h, theirs, info, s);
    }
  }

  /** A copy read in any state of the source past its move is the frozen one, while the target waits. */
  lemma PulledShard(gs: Groups, plan: Plan, tok: seq<int>, log: seq<Op>, g: int, h: int, theirs: Group,
                    info: ShardData, s: int)
    requires GroupsInv(gs, plan, tok) && g in gs && h in gs && h != g && PastOk(gs, plan, log, h, theirs)
    requires info.num >= 1 && s in Batch(plan, h, g, info.num) && h != 0 && theirs.config.num >= info.num
    requires s in info.shards && info.shards[s] == theirs.shards[s].kv && info.ops == theirs.ops
    ensures ArrivalOk(gs, log, g, info, h, s)
  {
    var n := info.num;
    assert LocalOk(plan, theirs, s);
    if gs[g].config.num == n && gs[g].shards[s].status == Pulling {
      assert IsMove(plan, n, s) && PairInv(gs, plan, n, s);
      assert Later(theirs, gs[h]);
      assert gs[h].config.num == n && theirs.config.num == n;
      assert ShardLater(theirs.shards[s], gs[h].shards[s]);
      assert Frozen(gs, plan, h, s) by { assert LocalOk(plan, gs[h], s); }
    }
  }

  /** Whatever a group has ever seen GCing, it has received. */
  lemma SeenReceived(plan: Plan, gids: set<int>, w: World, tok: seq<int>, g: int, seen: Group, h: int, s: int)
    requires Inv(plan, gids, w, tok) && g in gids && seen in w.past[g] && h in gids && h != g && h != 0
    requires seen.config.num >= 1 && s in Batch(plan, h, g, seen.config.num) && Wf(seen)
    requires seen.shards[s].status == GCing
    ensures IsMove(plan, seen.config.num, s) && !Before(w.groups, plan, seen.config.num, s)
  {
    assert PastOk(w.groups, plan, w.log, g, seen);
    assert Later(seen, w.groups[g]);
    assert w.groups[g].config.num == seen.config.num ==> ShardLater(seen.shards[s], w.groups[g].shards[s]);
  }

  lemma AskProposal(plan: Plan, gids: set<int>, w: World, tok: seq<int>, g: int, seen: Group, h: int, ids: seq<int>)
    requires Inv(plan, gids, w, tok) && Enabled(gids, w, AskDelete(g, seen, h, ids))
    ensures DeleteOk(w.groups, plan, h, seen.config.num, ids, g) && IdsOk(ids)
  {
    assert PastOk(w.groups, plan, w.log, g, seen);
    BatchRead(plan, gids, seen, g, h, GCing);
    forall s | s in Batch(plan, h, g, seen.config.num) ensures !Before(w.groups, plan, seen.config.num, s) {
      SeenReceived(plan, gids, w, tok, g, seen, h, s);
    }
    ListedIds(ids, ByStatus(seen, GCing, h));
  }

  lemma ListedIds(ids: seq<int>, shards: set<int>)
    requires Lists(ids, shards) && forall s | s in shards :: IsShard(s)
    ensures IdsOk(ids)
  {
    forall j | 0 <= j < |ids| ensures 0 <= ids[j] < NSHARDS { assert ids[j] in ids; }
  }

  lemma ConfirmProposal(plan: Plan, gids: set<int>, w: World, tok: seq<int>, g: int, seen: Group, h: int, ids: seq<int>)
    requires Inv(plan, gids, w, tok) && Enabled(gids, w, Confirm(g, seen, h, ids))
    ensures DeleteOk(w.groups, plan, g, seen.config.num, ids, h) && IdsOk(ids)
  {
    var n := seen.config.num;
    assert PastOk(w.groups, plan, w.log, g, seen);
    BatchRead(plan, gids, seen, g, h, GCing);
    ListedIds(ids, ByStatus(seen, GCing, h));
    forall s | s in Batch(plan, h, g, n) ensures !AtSource(w.groups, plan, n, s) {
      assert s in ids && IsMove(plan, n, s);
      if DeleteShards(n, ids) in w.deleted[h] {
        assert DeletedOk(w.groups, plan, h, DeleteShards(n, ids));
      } else {
        var theirs :| theirs in w.past[h] && theirs.config.num > n;
        assert PastOk(w.groups, plan, w.log, h, theirs);
      }
    }
  }

  // ---- entries ----

  lemma OperationKeeps(plan: Plan, gids: set<int>, w: World, tok: seq<int>, g: int, op: Op, done: set<int>)
    requires Inv(plan, gids, w, tok) && Enabled(gids, w, ApplyEntry(g, Operation(op), done))
    ensures Inv(plan, gids, Apply(plan, gids, w, ApplyEntry(g, Operation(op), done)), tok)
  {
    var w' := Apply(plan, gids, w, ApplyEntry(g, Operation(op), done));
    EntryMoves(plan, gids, w, g, Operation(op), done, w');
    PendingIsOk(plan, gids, w, tok, g, Operation(op));
    if Effective(w.groups[g], op) && op.kind != Get {
      WriteInv(plan, gids, w, tok, g, op, w');
    } else {
      NoWriteInv(plan, gids, w, tok, g, op, w');
    }
  }

  /** A write that takes effect. */
  lemma WriteInv(plan: Plan, gids: set<int>, w: World, tok: seq<int>, g: int, op: Op, w': World)
    requires Inv(plan, gids, w, tok) && g in gids && IsIssued(w.issued, op) && TableOk(w.groups[g].ops, w.log)
    requires Effective(w.groups[g], op) && op.kind != Get
    requires MovedTo(w, w', g, ApplyOp(w.groups[g], op)) && w'.deleted == w.deleted
    requires w'.log == w.log + [op] && w'.acked == AckedAfter(w.groups[g], w.acked, op)
    ensures Inv(plan, gids, w', tok)
  {
    WriteGroups(w.groups, w'.groups, plan, tok, w.log, w.issued, g, op);
    WriteClients(w.issued, w.acked, w.log, op);
    AckedOrSame(w.issued, w.groups[g], w.acked, w'.log, op);
    DeletedAllKept(w.groups, w'.groups, plan, w.deleted, g);
    OnceMore(w.log, op);
    MovedInv(plan, gids, w, tok, w', tok, g);
  }

  lemma WriteGroups(gs: Groups, gs': Groups, plan: Plan, tok: seq<int>, log: seq<Op>, issued: Issued, g: int, op: Op)
    requires GroupsInv(gs, plan, tok) && DataAll(gs, plan, tok, log) && g in gs && TableOk(gs[g].ops, log)
    requires forall j {:trigger log[j]} | 0 <= j < |log| :: IsIssued(issued, log[j])
    requires Effective(gs[g], op) && op.kind != Get && IsIssued(issued, op) && gs' == gs[g := ApplyOp(gs[g], op)]
    ensures Stepped(plan, gs, gs', tok, log, log + [op], g) && !Wrote(log, op.client, op.id)
  {
    OpGroupOk(plan, gs[g], g, op);
    assert gs'.Keys == gs.Keys;
    StatesKept(gs, gs', plan, tok, g);
    OpData(gs, gs', plan, tok, log, g, op);
    EffectIsNew(gs, plan, tok, log, issued, g, op);
    OpLog(gs, gs', plan, tok, log, g, op);
  }

  lemma OpLog(gs: Groups, gs': Groups, plan: Plan, tok: seq<int>, log: seq<Op>, g: int, op: Op)
    requires GroupsInv(gs', plan, tok) && g in gs && Wf(gs[g]) && TableOk(gs[g].ops, log)
    requires Effective(gs[g], op) && op.kind != Get && gs' == gs[g := ApplyOp(gs[g], op)]
    ensures LogStep(gs', plan, log, log + [op]) && TableOk(gs'[g].ops, log + [op])
  {
    var x, log' := ShardOf(op.key), log + [op];
    forall h | h in gs' ensures !Frozen(gs', plan, h, x) {
      ServedNotFrozen(gs', plan, tok, x, g, h);
    }
    assert log'[..|log|] == log && log'[|log|] == op;
    TableKept(gs[g].ops, gs', plan, log, log');
  }

  lemma OnceMore(log: seq<Op>, op: Op)
    requires Once(log) && !Wrote(log, op.client, op.id)
    ensures Once(log + [op])
  {
  }

  lemma WriteClients(issued: Issued, acked: set<(int, int)>, log: seq<Op>, op: Op)
    requires ClientInv(issued, acked, log) && IsIssued(issued, op) && op.kind != Get
    ensures ClientInv(issued, acked, log + [op]) && Wrote(log + [op], op.client, op.id)
  {
    var log' := log + [op];
    assert log'[|log|] == op;
    forall c, id | (c, id) in acked ensures AckedOk(issued, log', c, id) {
      assert AckedOk(issued, log, c, id);
      if issued[(c, id)].kind != Get {
        var j :| 0 <= j < |log| && log[j].client == c && log[j].id == id;
        assert log'[j] == log[j];
      }
    }
    forall j | 0 <= j < |log'| ensures IsIssued(issued, log'[j]) && log'[j].kind != Get {
      assert j < |log| ==> log'[j] == log[j];
    }
  }

  lemma AckedOrSame(issued: Issued, b: Group, acked: set<(int, int)>, log: seq<Op>, op: Op)
    requires Wf(b) && ClientInv(issued, acked, log) && IsIssued(issued, op)
    requires op.kind != Get && ReplyOp(b, op).err in {OK, ErrNoKey} ==> Wrote(log, op.client, op.id)
    ensures ClientInv(issued, AckedAfter(b, acked, op), log)
  {
    if ReplyOp(b, op).err in {OK, ErrNoKey} {
      MoreAcked(issued, acked, log, op);
    }
  }

  /** A read, a repeated write, or an operation at the wrong group. */
  lemma NoWriteInv(plan: Plan, gids: set<int>, w: World, tok: seq<int>, g: int, op: Op, w': World)
    requires Inv(plan, gids, w, tok) && g in gids && IsIssued(w.issued, op) && TableOk(w.groups[g].ops, w.log)
    requires !Effective(w.groups[g], op) || op.kind == Get
    requires MovedTo(w, w', g, ApplyOp(w.groups[g], op)) && w'.deleted == w.deleted
    requires w'.log == w.log && w'.acked == AckedAfter(w.groups[g], w.acked, op)
    ensures Inv(plan, gids, w', tok)
  {
    var b := w.groups[g];
    if op.kind != Get && ReplyOp(b, op).err in {OK, ErrNoKey} {
      DuplicateWrote(w.issued, w.acked, w.log, b.ops, op);
    }
    AckedOrSame(w.issued, b, w.acked, w.log, op);
    UnmovedInv(plan, gids, w, tok, w', g);
  }

  /** An entry that leaves its group as it was. */
  lemma UnmovedInv(plan: Plan, gids: set<int>, w: World, tok: seq<int>, w': World, g: int)
    requires Inv(plan, gids, w, tok) && g in gids && MovedTo(w, w', g, w.groups[g])
    requires w'.deleted.Keys == gids && DeletedAll(w.groups, plan, w'.deleted)
    requires w'.log == w.log && ClientInv(w'.issued, w'.acked, w'.log)
    ensures Inv(plan, gids, w', tok)
  {
    assert w'.groups == w.groups;
    assert w.past[g] + {w.groups[g]} == w.past[g];
    assert w'.past == w.past;
  }

  lemma ConfigurationKeeps(plan: Plan, gids: set<int>, w: World, tok: seq<int>, g: int, c: Config, done: set<int>)
    returns (tok': seq<int>)
    requires Inv(plan, gids, w, tok) && Enabled(gids, w, ApplyEntry(g, Configuration(c), done))
    ensures Inv(plan, gids, Apply(plan, gids, w, ApplyEntry(g, Configuration(c), done)), tok')
  {
    var w' := Apply(plan, gids, w, ApplyEntry(g, Configuration(c), done));
    EntryMoves(plan, gids, w, g, Configuration(c), done, w');
    PendingIsOk(plan, gids, w, tok, g, Configuration(c));
    if c.num == w.groups[g].config.num + 1 {
      tok' := ConfigInv(plan, gids, w, tok, g, w');
    } else {
      tok' := tok;
      UnmovedInv(plan, gids, w, tok, w', g);
    }
  }

  lemma ConfigInv(plan: Plan, gids: set<int>, w: World, tok: seq<int>, g: int, w': World) returns (tok': seq<int>)
    requires Inv(plan, gids, w, tok) && g in gids && AllServing(w.groups[g]) && TableOk(w.groups[g].ops, w.log)
    requires MovedTo(w, w', g, ApplyConfig(w.groups[g], ConfigOf(plan, w.groups[g].config.num + 1)))
    requires w'.deleted == w.deleted && w'.log == w.log && w'.acked == w.acked
    ensures Inv(plan, gids, w', tok')
  {
    tok' := FirstOwned(plan, tok, g, w.groups[g].config.num);
    ConfigStep(w.groups, w'.groups, plan, tok, w.log, g);
    DeletedAllKept(w.groups, w'.groups, plan, w.deleted, g);
    MovedInv(plan, gids, w, tok, w', tok', g);
  }

  lemma InsertGroups(gs: Groups, gs': Groups, plan: Plan, tok: seq<int>, log: seq<Op>, g: int, info: ShardData, h: int,
                     done: set<int>) returns (tok': seq<int>)
    requires GroupsInv(gs, plan, tok) && DataAll(gs, plan, tok, log) && g in gs && TableOk(gs[g].ops, log)
    requires InsertOk(gs, plan, log, g, info, h) && gs[g].config.num == info.num && MayInsert(gs[g], info, done)
    requires done <= info.shards.Keys && gs' == gs[g := ApplyInsert(gs[g], info, done)]
    ensures Stepped(plan, gs, gs', tok', log, log, g)
  {
    tok' := tok;
    InsertAllOrNothing(gs, plan, log, g, info, h, done);
    MergeTables(gs[g].ops, info.ops, log);
    if done == {} {
      LateInsertStep(gs, gs', plan, tok, log, g, info);
    } else {
      tok' := HandOver(tok, info.shards.Keys, info.num);
      InsertStep(gs, gs', plan, tok, log, g, info, h);
    }
  }

  lemma InsertKeeps(plan: Plan, gids: set<int>, w: World, tok: seq<int>, g: int, info: ShardData, done: set<int>)
    returns (tok': seq<int>)
    requires Inv(plan, gids, w, tok) && Enabled(gids, w, ApplyEntry(g, InsertShards(info), done))
    ensures Inv(plan, gids, Apply(plan, gids, w, ApplyEntry(g, InsertShards(info), done)), tok')
  {
    var w' := Apply(plan, gids, w, ApplyEntry(g, InsertShards(info), done));
    EntryMoves(plan, gids, w, g, InsertShards(info), done, w');
    PendingIsOk(plan, gids, w, tok, g, InsertShards(info));
    if w.groups[g].config.num != info.num {
      tok' := tok;
      UnmovedInv(plan, gids, w, tok, w', g);
    } else {
      var h :| InsertOk(w.groups, plan, w.log, g, info, h);
      tok' := InsertInv(plan, gids, w, tok, g, info, h, done, w');
    }
  }

  lemma InsertInv(plan: Plan, gids: set<int>, w: World, tok: seq<int>, g: int, info: ShardData, h: int, done: set<int>,
                  w': World) returns (tok': seq<int>)
    requires Inv(plan, gids, w, tok) && g in gids && TableOk(w.groups[g].ops, w.log)
    requires InsertOk(w.groups, plan, w.log, g, info, h) && w.groups[g].config.num == info.num
    requires MayInsert(w.groups[g], info, done)
    requires MovedTo(w, w', g, ApplyInsert(w.groups[g], info, done)) && w'.deleted == w.deleted
    requires w'.log == w.log && w'.acked == w.acked
    ensures Inv(plan, gids, w', tok')
  {
    tok' := InsertGroups(w.groups, w'.groups, plan, tok, w.log, g, info, h, done);
    DeletedAllKept(w.groups, w'.groups, plan, w.deleted, g);
    MovedInv(plan, gids, w, tok, w', tok', g);
  }

  lemma DeleteKeeps(plan: Plan, gids: set<int>, w: World, tok: seq<int>, g: int, num: int, ids: seq<int>,
                    done: set<int>)
    requires Inv(plan, gids, w, tok) && Enabled(gids, w, ApplyEntry(g, DeleteShards(num, ids), done))
    ensures Inv(plan, gids, Apply(plan, gids, w, ApplyEntry(g, DeleteShards(num, ids), done)), tok)
  {
    var w' := Apply(plan, gids, w, ApplyEntry(g, DeleteShards(num, ids), done));
    EntryMoves(plan, gids, w, g, DeleteShards(num, ids), done, w');
    PendingIsOk(plan, gids, w, tok, g, DeleteShards(num, ids));
    DeleteInv(plan, gids, w, tok, g, num, ids, w');
  }

  lemma DeleteInv(plan: Plan, gids: set<int>, w: World, tok: seq<int>, g: int, num: int, ids: seq<int>, w': World)
    requires Inv(plan, gids, w, tok) && g in gids && IdsOk(ids) && TableOk(w.groups[g].ops, w.log)
    requires exists x :: DeleteOk(w.groups, plan, g, num, ids, x)
    requires MovedTo(w, w', g, ApplyDelete(w.groups[g], num, ids)) && w'.log == w.log && w'.acked == w.acked
    requires w'.deleted == w.deleted[g := w.deleted[g] + {DeleteShards(num, ids)}]
    ensures Inv(plan, gids, w', tok)
  {
    DeleteGroups(w.groups, w'.groups, plan, tok, w.log, g, num, ids);
    DeletedAllKept(w.groups, w'.groups, plan, w.deleted, g);
    DeletedMore(w'.groups, plan, w.deleted, g, DeleteShards(num, ids));
    MovedInv(plan, gids, w, tok, w', tok, g);
  }

  lemma DeletedMore(gs: Groups, plan: Plan, deleted: Entries, g: int, e: Entry)
    requires Known(plan, gs) && deleted.Keys == gs.Keys && DeletedAll(gs, plan, deleted)
    requires g in gs && DeletedOk(gs, plan, g, e)
    ensures DeletedAll(gs, plan, deleted[g := deleted[g] + {e}])
  {
    var deleted' := deleted[g := deleted[g] + {e}];
    forall x, y | x in gs && y in deleted'[x] ensures DeletedOk(gs, plan, x, y) {
      assert y in deleted[x] ==> DeletedOk(gs, plan, x, y);
    }
  }

  lemma DeleteGroups(gs: Groups, gs': Groups, plan: Plan, tok: seq<int>, log: seq<Op>, g: int, num: int, ids: seq<int>)
    requires GroupsInv(gs, plan, tok) && DataAll(gs, plan, tok, log) && g in gs && IdsOk(ids) && TableOk(gs[g].ops, log)
    requires exists x :: DeleteOk(gs, plan, g, num, ids, x)
    requires gs' == gs[g := ApplyDelete(gs[g], num, ids)]
    ensures Stepped(plan, gs, gs', tok, log, log, g) && DeletedOk(gs', plan, g, DeleteShards(num, ids))
  {
    var x :| DeleteOk(gs, plan, g, num, ids, x);
    if gs[g].config.num == num {
      DeleteStep(gs, gs', plan, tok, log, g, num, ids, x);
    } else {
      assert gs' == gs;
      LateDelete(gs, plan, tok, g, num, ids, x);
    }
  }

  lemma LateDelete(gs: Groups, plan: Plan, tok: seq<int>, g: int, num: int, ids: seq<int>, x: int)
    requires GroupsInv(gs, plan, tok) && g in gs && DeleteOk(gs, plan, g, num, ids, x) && gs[g].config.num != num
    ensures DeletedOk(gs, plan, g, DeleteShards(num, ids))
  {
    forall s | s in ids && IsMove(plan, num, s) && plan(num - 1, s) == g ensures !AtSource(gs, plan, num, s) {
      assert PairInv(gs, plan, num, s);
    }
  }

  // ---- whole runs ----

  const NO_HOLDER: seq<int> := seq(NSHARDS, _ => 0)

  lemma InitHolds(plan: Plan, gids: set<int>, w: World)
    requires PlanOk(plan, gids) && Init(plan, gids, w)
    ensures Inv(plan, gids, w, NO_HOLDER)
  {
    assert w.groups.Keys == gids;
    InitGroups(plan, w.groups);
    InitPast(plan, w.groups, w.past);
    PastInShape(w.groups, plan, w.log, w.past);
  }

  lemma InitGroups(plan: Plan, gs: Groups)
    requires PlanOk(plan, gs.Keys) && forall g | g in gs :: gs[g] == Fresh(plan, g)
    ensures GroupsInv(gs, plan, NO_HOLDER) && DataAll(gs, plan, NO_HOLDER, [])
  {
    forall g | g in gs ensures GroupOk(plan, gs[g], g) {
      forall s | IsShard(s) ensures LocalOk(plan, gs[g], s) {}
    }
    forall s | IsShard(s) ensures TokenInv(gs, plan, NO_HOLDER[s], s) && DataInv(gs, plan, [], NO_HOLDER[s], s) {}
    forall k, s | IsMove(plan, k, s) ensures PairInv(gs, plan, k, s) {}
  }

  lemma InitPast(plan: Plan, gs: Groups, past: Past)
    requires Known(plan, gs) && past.Keys == gs.Keys
    requires forall g | g in gs :: gs[g] == Fresh(plan, g) && past[g] == {Fresh(plan, g)}
    ensures PastAll(gs, plan, [], past)
  {
    forall g, p | g in gs && p in past[g] ensures PastOk(gs, plan, [], g, p) {
      assert p == gs[g];
    }
  }

  lemma SendKeeps(plan: Plan, gids: set<int>, w: World, tok: seq<int>, op: Op, g: int)
    requires Inv(plan, gids, w, tok) && Enabled(gids, w, Send(op, g))
    ensures Inv(plan, gids, Apply(plan, gids, w, Send(op, g)), tok)
  {
    ProposedInv(plan, gids, w, tok, g, Operation(op), Apply(plan, gids, w, Send(op, g)));
  }

  lemma ProposeConfigKeeps(plan: Plan, gids: set<int>, w: World, tok: seq<int>, g: int, seen: Group)
    requires Inv(plan, gids, w, tok) && Enabled(gids, w, ProposeConfig(g, seen))
    ensures Inv(plan, gids, Apply(plan, gids, w, ProposeConfig(g, seen)), tok)
  {
    ConfigProposal(plan, gids, w, tok, g, seen);
    var e := Configuration(ConfigOf(plan, seen.config.num + 1));
    ProposedInv(plan, gids, w, tok, g, e, Apply(plan, gids, w, ProposeConfig(g, seen)));
  }

  lemma PullKeeps(plan: Plan, gids: set<int>, w: World, tok: seq<int>, g: int, seen: Group, h: int, theirs: Group)
    requires Inv(plan, gids, w, tok) && Enabled(gids, w, Pull(g, seen, h, theirs))
    ensures Inv(plan, gids, Apply(plan, gids, w, Pull(g, seen, h, theirs)), tok)
  {
    PullProposal(plan, gids, w, tok, g, seen, h, theirs);
    var e := InsertShards(Pulled(seen, h, theirs));
    ProposedInv(plan, gids, w, tok, g, e, Apply(plan, gids, w, Pull(g, seen, h, theirs)));
  }

  lemma AskDeleteKeeps(plan: Plan, gids: set<int>, w: World, tok: seq<int>, g: int, seen: Group, h: int, ids: seq<int>)
    requires Inv(plan, gids, w, tok) && Enabled(gids, w, AskDelete(g, seen, h, ids))
    ensures Inv(plan, gids, Apply(plan, gids, w, AskDelete(g, seen, h, ids)), tok)
  {
    AskProposal(plan, gids, w, tok, g, seen, h, ids);
    var e := DeleteShards(seen.config.num, ids);
    ProposedInv(plan, gids, w, tok, h, e, Apply(plan, gids, w, AskDelete(g, seen, h, ids)));
  }

  lemma ConfirmKeeps(plan: Plan, gids: set<int>, w: World, tok: seq<int>, g: int, seen: Group, h: int, ids: seq<int>)
    requires Inv(plan, gids, w, tok) && Enabled(gids, w, Confirm(g, seen, h, ids))
    ensures Inv(plan, gids, Apply(plan, gids, w, Confirm(g, seen, h, ids)), tok)
  {
    ConfirmProposal(plan, gids, w, tok, g, seen, h, ids);
    var e := DeleteShards(seen.config.num, ids);
    ProposedInv(plan, gids, w, tok, g, e, Apply(plan, gids, w, Confirm(g, seen, h, ids)));
  }

  lemma StepHolds(plan: Plan, gids: set<int>, w: World, tok: seq<int>, e: Event) returns (tok': seq<int>)
    requires Inv(plan, gids, w, tok) && Enabled(gids, w, e)
    ensures Inv(plan, gids, Apply(plan, gids, w, e), tok')
  {
    tok' := tok;
    if e.ApplyEntry? {
      tok' := EntryHolds(plan, gids, w, tok, e.g, e.entry, e.done);
    } else if e.Issue? || e.Send? || e.AnswerDuplicate? {
      ClientHolds(plan, gids, w, tok, e);
    } else if e.ProposeConfig? || e.Pull? || e.ProposeEmpty? {
      MigrationHolds(plan, gids, w, tok, e);
    } else {
      CollectionHolds(plan, gids, w, tok, e);
    }
  }

  lemma ClientHolds(plan: Plan, gids: set<int>, w: World, tok: seq<int>, e: Event)
    requires Inv(plan, gids, w, tok) && Enabled(gids, w, e) && (e.Issue? || e.Send? || e.AnswerDuplicate?)
    ensures Inv(plan, gids, Apply(plan, gids, w, e), tok)
  {
    match e
    case Issue(op) => IssueKeeps(plan, gids, w, tok, op);
    case Send(op, g) => SendKeeps(plan, gids, w, tok, op, g);
    case AnswerDuplicate(op, g, seen) => DuplicateKeeps(plan, gids, w, tok, op, g, seen);
  }

  lemma MigrationHolds(plan: Plan, gids: set<int>, w: World, tok: seq<int>, e: Event)
    requires Inv(plan, gids, w, tok) && Enabled(gids, w, e) && (e.ProposeConfig? || e.Pull? || e.ProposeEmpty?)
    ensures Inv(plan, gids, Apply(plan, gids, w, e), tok)
  {
    match e
    case ProposeConfig(g, seen) => ProposeConfigKeeps(plan, gids, w, tok, g, seen);
    case Pull(g, seen, h, theirs) => PullKeeps(plan, gids, w, tok, g, seen, h, theirs);
    case ProposeEmpty(g) => ProposedInv(plan, gids, w, tok, g, EmptyEntry, Apply(plan, gids, w, e));
  }

  lemma CollectionHolds(plan: Plan, gids: set<int>, w: World, tok: seq<int>, e: Event)
    requires Inv(plan, gids, w, tok) && Enabled(gids, w, e) && (e.AskDelete? || e.Confirm?)
    ensures Inv(plan, gids, Apply(plan, gids, w, e), tok)
  {
    match e
    case AskDelete(g, seen, h, ids) => AskDeleteKeeps(plan, gids, w, tok, g, seen, h, ids);
    case Confirm(g, seen, h, ids) => ConfirmKeeps(plan, gids, w, tok, g, seen, h, ids);
  }

  lemma EntryHolds(plan: Plan, gids: set<int>, w: World, tok: seq<int>, g: int, entry: Entry, done: set<int>)
    returns (tok': seq<int>)
    requires Inv(plan, gids, w, tok) && Enabled(gids, w, ApplyEntry(g, entry, done))
    ensures Inv(plan, gids, Apply(plan, gids, w, ApplyEntry(g, entry, done)), tok')
  {
    tok' := tok;
    match entry
    case Operation(op) => OperationKeeps(plan, gids, w, tok, g, op, done);
    case Configuration(c) => tok' := ConfigurationKeeps(plan, gids, w, tok, g, c, done);
    case InsertShards(info) => tok' := InsertKeeps(plan, gids, w, tok, g, info, done);
    case DeleteShards(num, ids) => DeleteKeeps(plan, gids, w, tok, g, num, ids, done);
    case EmptyEntry => EmptyKeeps(plan, gids, w, tok, g, done);
  }

  lemma EmptyKeeps(plan: Plan, gids: set<int>, w: World, tok: seq<int>, g: int, done: set<int>)
    requires Inv(plan, gids, w, tok) && Enabled(gids, w, ApplyEntry(g, EmptyEntry, done))
    ensures Inv(plan, gids, Apply(plan, gids, w, ApplyEntry(g, EmptyEntry, done)), tok)
  {
    var w' := Apply(plan, gids, w, ApplyEntry(g, EmptyEntry, done));
    EntryMoves(plan, gids, w, g, EmptyEntry, done, w');
    UnmovedInv(plan, gids, w, tok, w', g);
  }

  lemma {:induction false} RunHolds(plan: Plan, gids: set<int>, run: seq<World>, k: int) returns (tok: seq<int>)
    requires IsRun(plan, gids, run) && 0 <= k < |run|
    ensures Inv(plan, gids, run[k], tok)
    decreases k
  {
    if k == 0 {
      InitHolds(plan, gids, run[0]);
      tok := NO_HOLDER;
    } else {
      var prior := RunHolds(plan, gids, run, k - 1);
      assert Next(plan, gids, run[k - 1], run[k]);
      var e :| Enabled(gids, run[k - 1], e) && run[k] == Apply(plan, gids, run[k - 1], e);
      tok := StepHolds(plan, gids, run[k - 1], prior, e);
    }
  }

  // ---- the theorems ----

  /** At most one group can serve a shard. */
  lemma SingleServer(plan: Plan, gids: set<int>, run: seq<World>, k: int, s: int, g: int, h: int)
    requires IsRun(plan, gids, run) && 0 <= k < |run| && IsShard(s)
    requires g in run[k].groups && h in run[k].groups && Wf(run[k].groups[g]) && Wf(run[k].groups[h])
    requires CanServe(run[k].groups[g], s) && CanServe(run[k].groups[h], s)
    ensures g == h
  {
    var tok := RunHolds(plan, gids, run, k);
    ServerHolds(run[k].groups, plan, tok, s, g);
    ServerHolds(run[k].groups, plan, tok, s, h);
  }

  /** A configuration entry that takes effect finds every shard of the group Serving, although only
      its number is checked when it is applied. */
  lemma SafeReconfiguration(plan: Plan, gids: set<int>, run: seq<World>, k: int, g: int, c: Config)
    requires IsRun(plan, gids, run) && 0 <= k < |run| && g in gids && Shape(gids, run[k])
    requires Configuration(c) in run[k].pending[g] && c.num == run[k].groups[g].config.num + 1
    ensures AllServing(run[k].groups[g]) && c == ConfigOf(plan, c.num)
  {
    var tok := RunHolds(plan, gids, run, k);
    assert EntryOk(run[k].groups, plan, run[k].log, run[k].issued, g, Configuration(c));
  }

  /** Whatever order its map is walked in, an insertion leaves all replicas of a group in the same
      state: it takes the whole batch or none of it. */
  lemma ReplicasAgree(plan: Plan, gids: set<int>, run: seq<World>, k: int, g: int, info: ShardData, one: set<int>,
                      two: set<int>)
    requires IsRun(plan, gids, run) && 0 <= k < |run| && g in gids && Shape(gids, run[k])
    requires InsertShards(info) in run[k].pending[g] && info.num == run[k].groups[g].config.num
    requires MayInsert(run[k].groups[g], info, one) && MayInsert(run[k].groups[g], info, two)
    ensures ApplyInsert(run[k].groups[g], info, one) == ApplyInsert(run[k].groups[g], info, two)
    ensures one == info.shards.Keys || one == {}
  {
    var tok := RunHolds(plan, gids, run, k);
    PendingIsOk(plan, gids, run[k], tok, g, InsertShards(info));
    OneOutcome(run[k].groups, plan, run[k].log, g, info, one, two);
  }

  lemma OneOutcome(gs: Groups, plan: Plan, log: seq<Op>, g: int, info: ShardData, one: set<int>, two: set<int>)
    requires Known(plan, gs) && g in gs && exists h :: InsertOk(gs, plan, log, g, info, h)
    requires info.num == gs[g].config.num && MayInsert(gs[g], info, one) && MayInsert(gs[g], info, two)
    ensures one == two && (one == info.shards.Keys || one == {})
  {
    var h :| InsertOk(gs, plan, log, g, info, h);
    InsertAllOrNothing(gs, plan, log, g, info, h, one);
    InsertAllOrNothing(gs, plan, log, g, info, h, two);
  }

  /** All shards that move between the same two groups in the same configuration are in the same
      state, at either end. */
  lemma BatchesInLockstep(plan: Plan, gids: set<int>, run: seq<World>, k: int, g: int, s: int, t: int)
    requires IsRun(plan, gids, run) && 0 <= k < |run| && g in gids && Shape(gids, run[k]) && IsShard(s) && IsShard(t)
    requires var n := run[k].groups[g].config.num;
      Together(plan, n, s, t) && (plan(n - 1, s) == g || plan(n, s) == g)
    ensures run[k].groups[g].shards[s].status == run[k].groups[g].shards[t].status
  {
    var tok := RunHolds(plan, gids, run, k);
    SameState(run[k].groups, plan, g, s, t);
  }

  lemma SameState(gs: Groups, plan: Plan, g: int, s: int, t: int)
    requires Known(plan, gs) && g in gs && IsShard(s) && IsShard(t)
    requires var n := gs[g].config.num; Together(plan, n, s, t) && (plan(n - 1, s) == g || plan(n, s) == g)
    ensures gs[g].shards[s].status == gs[g].shards[t].status
  {
    assert GroupOk(plan, gs[g], g);
  }

  /** A pulled shard that is about to be inserted lands in an empty shard and equals the copy frozen
      at its source, which has not been deleted. */
  lemma PulledEqualsFrozen(plan: Plan, gids: set<int>, run: seq<World>, k: int, g: int, info: ShardData, s: int)
    returns (h: int)
    requires IsRun(plan, gids, run) && 0 <= k < |run| && g in gids && Shape(gids, run[k])
    requires InsertShards(info) in run[k].pending[g] && s in info.shards && IsShard(s)
    requires info.num == run[k].groups[g].config.num && run[k].groups[g].shards[s].status == Pulling
    ensures run[k].groups[g].shards[s].kv == map[]
    ensures h in gids && h == plan(info.num - 1, s)
    ensures run[k].groups[h].config.num == info.num && run[k].groups[h].shards[s] == Shard(info.shards[s], BePulling)
  {
    var tok := RunHolds(plan, gids, run, k);
    PendingIsOk(plan, gids, run[k], tok, g, InsertShards(info));
    h := FrozenSource(run[k].groups, plan, run[k].log, g, info, s);
  }

  lemma FrozenSource(gs: Groups, plan: Plan, log: seq<Op>, g: int, info: ShardData, s: int) returns (h: int)
    requires Known(plan, gs) && g in gs && exists h :: InsertOk(gs, plan, log, g, info, h)
    requires s in info.shards && IsShard(s) && info.num == gs[g].config.num && gs[g].shards[s].status == Pulling
    ensures gs[g].shards[s].kv == map[] && h in gs && h == plan(info.num - 1, s)
    ensures gs[h].config.num == info.num && gs[h].shards[s] == Shard(info.shards[s], BePulling)
  {
    h :| InsertOk(gs, plan, log, g, info, h);
    assert ArrivalOk(gs, log, g, info, h, s) && LocalOk(plan, gs[g], s);
  }

  /** An operation that takes effect is answered as by the map of all earlier writes. */
  lemma EffectIsAnswered(plan: Plan, gids: set<int>, w: World, tok: seq<int>, g: int, op: Op)
    requires Inv(plan, gids, w, tok) && g in gids && Effective(w.groups[g], op)
    ensures ReplyOp(w.groups[g], op) == Answer(Replay(w.log), op)
  {
    var x := ShardOf(op.key);
    ServerHolds(w.groups, plan, tok, x, g);
    assert TokenInv(w.groups, plan, tok[x], x) && DataInv(w.groups, plan, w.log, tok[x], x);
  }

  /** Only a write that takes effect changes the log of writes. */
  lemma LogChanges(plan: Plan, gids: set<int>, w: World, e: Event)
    requires Shape(gids, w) && Enabled(gids, w, e)
    ensures Apply(plan, gids, w, e).log ==
      if e.ApplyEntry? && e.entry.Operation? then LogAfter(w.groups[e.g], w.log, e.entry.op) else w.log
  {
  }

  /** The sharded store is one map. Each operation that takes effect is answered as the map that
      executes all earlier writes answers it, and becomes the next write of that map; nothing else
      changes the map. */
  lemma ActsAsOneMap(plan: Plan, gids: set<int>, run: seq<World>, k: int, e: Event)
    requires IsRun(plan, gids, run) && 0 <= k < |run| && Shape(gids, run[k]) && Enabled(gids, run[k], e)
    ensures var w, w' := run[k], Apply(plan, gids, run[k], e);
      if e.ApplyEntry? && e.entry.Operation? && Effective(w.groups[e.g], e.entry.op) then
        && ReplyOp(w.groups[e.g], e.entry.op) == Answer(Replay(w.log), e.entry.op)
        && Replay(w'.log) == Execute(Replay(w.log), e.entry.op)
      else
        Replay(w'.log) == Replay(w.log)
  {
    LogChanges(plan, gids, run[k], e);
    if e.ApplyEntry? && e.entry.Operation? && Effective(run[k].groups[e.g], e.entry.op) {
      var tok := RunHolds(plan, gids, run, k);
      EffectIsAnswered(plan, gids, run[k], tok, e.g, e.entry.op);
      ReplaySnoc(run[k].log, e.entry.op);
    }
  }

  /** A group that can serve a shard has exactly that shard's part of the one map. */
  lemma ServerHasItsPart(plan: Plan, gids: set<int>, run: seq<World>, k: int, g: int, s: int)
    requires IsRun(plan, gids, run) && 0 <= k < |run| && g in gids && Shape(gids, run[k]) && IsShard(s)
    requires CanServe(run[k].groups[g], s)
    ensures run[k].groups[g].shards[s].kv ==
      map key | key in Replay(run[k].log) && ShardOf(key) == s :: Replay(run[k].log)[key]
  {
    var tok := RunHolds(plan, gids, run, k);
    PartIs(run[k].groups, plan, tok, run[k].log, g, s);
  }

  lemma PartIs(gs: Groups, plan: Plan, tok: seq<int>, log: seq<Op>, g: int, s: int)
    requires GroupsInv(gs, plan, tok) && DataAll(gs, plan, tok, log) && g in gs && IsShard(s) && CanServe(gs[g], s)
    ensures gs[g].shards[s].kv == map key | key in Replay(log) && ShardOf(key) == s :: Replay(log)[key]
  {
    ServerHolds(gs, plan, tok, s, g);
    assert TokenInv(gs, plan, tok[s], s) && DataInv(gs, plan, log, tok[s], s);
    assert GroupOk(plan, gs[g], g) && LocalOk(plan, gs[g], s);
    var kv, m := gs[g].shards[s].kv, Replay(log);
    assert kv.Keys == set key | key in m && ShardOf(key) == s;
  }

  /** Each command changes the store at most once, and one that a client was told is done has. */
  lemma ExactlyOnce(plan: Plan, gids: set<int>, run: seq<World>, k: int)
    requires IsRun(plan, gids, run) && 0 <= k < |run|
    ensures Once(run[k].log)
    ensures forall c, id | (c, id) in run[k].acked ::
      && (c, id) in run[k].issued
      && (run[k].issued[(c, id)].kind != Get ==>
            exists j :: 0 <= j < |run[k].log| && run[k].log[j] == run[k].issued[(c, id)])
  {
    var tok := RunHolds(plan, gids, run, k);
    var w := run[k];
    forall c, id | (c, id) in w.acked
      ensures (c, id) in w.issued
      ensures w.issued[(c, id)].kind != Get ==> exists j :: 0 <= j < |w.log| && w.log[j] == w.issued[(c, id)]
    {
      AckedWasWritten(w.issued, w.acked, w.log, c, id);
    }
  }

  lemma AckedWasWritten(issued: Issued, acked: set<(int, int)>, log: seq<Op>, c: int, id: int)
    requires ClientInv(issued, acked, log) && (c, id) in acked
    ensures (c, id) in issued
    ensures issued[(c, id)].kind != Get ==> exists j :: 0 <= j < |log| && log[j] == issued[(c, id)]
  {
    assert AckedOk(issued, log, c, id);
    if issued[(c, id)].kind != Get {
      var j :| 0 <= j < |log| && log[j].client == c && log[j].id == id;
      assert IsIssued(issued, log[j]);
    }
  }

  /** Every step keeps the shape the handlers rely on, so no run is cut short by it. */
  lemma WorldsStayWellFormed(plan: Plan, gids: set<int>, run: seq<World>, k: int)
    requires IsRun(plan, gids, run) && 0 <= k < |run|
    ensures Shape(gids, run[k])
  {
    var tok := RunHolds(plan, gids, run, k);
  }
}
