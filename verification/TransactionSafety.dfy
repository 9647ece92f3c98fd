/** What every run of the executor transaction keeps, and how it ends. */
module TransactionSafety {
  import opened Prelude
  import opened Effects
  import opened Transaction

  // ----- A prepared plan -----------------------------------------------------------------

  ghost function Pre(context: Context, op: Op): Option<File> {
    At(context.base, op.path)
  }

  ghost function Post(context: Context, op: Op): Option<File> {
    match Bound(context.sha, context.pack, op)
    case Payload(bytes) => Some(File(bytes, if op.mode.Some? then op.mode.value else CREATED_MODE))
    case _ => None
  }

  /** The receipt entry names the exact file of the base worktree and its installed backup. */
  ghost predicate BackedUp(context: Context, op: Op) {
    && Pre(context, op).Some?
    && var file := Pre(context, op).value;
    && |file.bytes| <= MAX_FILE_BYTES
    && op.pre == Some(context.sha(file.bytes))
    && op.mode == Some(file.mode)
    && op.backupSha == op.pre
    && op.backupName == Some(BackupName(op.id, op.pre.value))
    && op.backupName.value in context.backups
    && context.backups[op.backupName.value] == file.bytes
  }

  ghost predicate SoundOp(context: Context, op: Op) {
    var payload := Bound(context.sha, context.pack, op);
    && (payload.Payload? ==> |payload.bytes| <= MAX_FILE_BYTES)
    && match op.kind
       case Create => Pre(context, op).None? && op.mode.None? && payload.Payload?
       case Replace => BackedUp(context, op) && payload.Payload?
       case Delete => BackedUp(context, op) && payload.NoPayload?
  }

  ghost function Paths(ops: seq<Op>): set<Path> {
    set i | 0 <= i < |ops| :: ops[i].path
  }

  ghost predicate Sound(context: Context, ops: seq<Op>) {
    && CollisionFree(context.sha)
    && (forall i :: 0 <= i < |ops| ==> SoundOp(context, ops[i]))
    && (forall i, j :: 0 <= i < j < |ops| ==> ops[i].path != ops[j].path)
  }

  /** The receipt carries the plan; only the `applied` flags may differ. */
  ghost predicate Carries(plan: seq<Op>, ops: seq<Op>) {
    && |ops| == |plan|
    && forall i :: 0 <= i < |plan| ==> ops[i] == plan[i].(applied := ops[i].applied)
  }

  // ----- The safety invariant ------------------------------------------------------------

  ghost predicate Settled(context: Context, tree: Tree, op: Op) {
    At(tree, op.path) == Pre(context, op) || At(tree, op.path) == Post(context, op)
  }

  /** Every operation path holds its exact preimage or its exact postimage; nothing else changed. */
  ghost predicate TreeSafe(context: Context, plan: seq<Op>, tree: Tree) {
    && (forall i :: 0 <= i < |plan| ==> Settled(context, tree, plan[i]))
    && (forall p :: p !in Paths(plan) ==> At(tree, p) == At(context.base, p))
  }

  ghost predicate Finished(context: Context, tree: Tree, ops: seq<Op>) {
    forall i :: 0 <= i < |ops| ==> ops[i].applied && At(tree, ops[i].path) == Post(context, ops[i])
  }

  /** The invariant on durable state: worktree and durable receipt. */
  ghost predicate Safe(context: Context, plan: seq<Op>, m: Txn) {
    && TreeSafe(context, plan, m.tree)
    && Carries(plan, m.durable.ops)
    && (m.durable.phase.Applied? ==> Finished(context, m.tree, m.durable.ops))
  }

  /** The invariant while one process is between the APPLYING write and the end. */
  ghost predicate InFlight(context: Context, plan: seq<Op>, m: Txn) {
    && TreeSafe(context, plan, m.tree)
    && Carries(plan, m.memory.ops)
    && Carries(plan, m.durable.ops)
    && m.memory.phase.Applying?
    && m.durable.phase.Applying?
  }

  // ----- One step ------------------------------------------------------------------------

  lemma WriteOpStep(context: Context, m: Txn, op: Op)
    requires SoundOp(context, op) && At(m.tree, op.path) == Pre(context, op)
    ensures var r := WriteOp(context, m, op, Bound(context.sha, context.pack, op));
            && Touches(m, r, op.path)
            && Settled(context, r.tree, op)
            && (r.status.Running? ==> At(r.tree, op.path) == Post(context, op))
  {
    var payload := Bound(context.sha, context.pack, op);
    ReadStep(m, op.path);
    var read := m.Read(op.path);
    if read.status.Running? {
      match op.kind
      case Create => WriteStep(read, op.path, File(payload.bytes, CREATED_MODE), true);
      case Replace => WriteStep(read, op.path, File(payload.bytes, op.mode.value), false);
      case Delete => RemoveStep(read, op.path);
    }
  }

  lemma ApplyOneStep(context: Context, m: Txn, i: nat)
    requires CollisionFree(context.sha) && m.status.Running? && i < |m.memory.ops|
    requires SoundOp(context, m.memory.ops[i]) && Settled(context, m.tree, m.memory.ops[i])
    ensures var r, op := ApplyOne(context, m, i), m.memory.ops[i];
            && (forall p :: p != op.path ==> At(r.tree, p) == At(m.tree, p))
            && Settled(context, r.tree, op)
            && (r.memory == m.memory || (r.memory == m.memory.Mark(i, true)
                                         && At(r.tree, op.path) == Post(context, op)))
            && (r.durable == m.durable || r.durable == r.memory)
            && (r.status.Running? ==>
                  r.memory == r.durable == m.memory.Mark(i, true) && At(r.tree, op.path) == Post(context, op))
  {
    var op := m.memory.ops[i];
    var payload := Bound(context.sha, context.pack, op);
    ReadStep(m, op.path);
    var read := m.Read(op.path);
    if read.status.Running? {
      var found := Classify(context.sha, op, At(read.tree, op.path));
      if found.Preimage? {
        assert At(m.tree, op.path) == Pre(context, op);
        WriteOpStep(context, read, op);
      }
      var written := if found.Preimage? then WriteOp(context, read, op, payload) else read;
      if !found.Ambiguous? && written.status.Running? {
        ReadStep(written, op.path);
        SaveStep(Mark(written.Read(op.path), i, true));
      }
    }
  }

  lemma RestoreStep(context: Context, m: Txn, op: Op)
    requires BackedUp(context, op)
    ensures var r := Restore(context, m, op);
            && Touches(m, r, op.path)
            && (At(r.tree, op.path) == At(m.tree, op.path) || At(r.tree, op.path) == Pre(context, op))
            && (r.status.Running? ==> At(r.tree, op.path) == Pre(context, op))
  {
    var bytes := context.backups[op.backupName.value];
    WriteStep(m.Effect(true, m), op.path, File(bytes, op.mode.value), op.kind.Delete?);
  }

  lemma RollbackOneStep(context: Context, m: Txn, i: nat)
    requires CollisionFree(context.sha) && m.status.Running? && i < |m.memory.ops|
    requires SoundOp(context, m.memory.ops[i])
    ensures var r, op := RollbackOne(context, m, i), m.memory.ops[i];
            var found := Classify(context.sha, op, At(m.tree, op.path));
            && (forall p :: p != op.path ==> At(r.tree, p) == At(m.tree, p))
            && (At(r.tree, op.path) == At(m.tree, op.path)
                || (found.Postimage? && At(r.tree, op.path) == Pre(context, op)))
            && (r.memory == m.memory ||
                (r.memory == m.memory.Mark(i, false) && !found.Ambiguous? &&
                 (found.Postimage? ==> At(r.tree, op.path) == Pre(context, op))))
            && (r.durable == m.durable || r.durable == r.memory)
            && (r.status.Running? ==> r.memory == r.durable == m.memory.Mark(i, false))
  {
    var op := m.memory.ops[i];
    ReadStep(m, op.path);
    var read := m.Read(op.path);
    if read.status.Running? {
      var found := Classify(context.sha, op, At(read.tree, op.path));
      var undone :=
        if found.Preimage? then read
        else if op.kind.Create? then read.Remove(op.path)
        else Restore(context, read, op);
      if op.kind.Create? {
        RemoveStep(read, op.path);
      } else {
        RestoreStep(context, read, op);
      }
      if !found.Ambiguous? && undone.status.Running? {
        ReadStep(undone, op.path);
        SaveStep(Mark(undone.Read(op.path), i, false));
      }
    }
  }

  // ----- The loops keep the invariant ----------------------------------------------------

  /** One step that changed only the path of operation i, settling it, keeps the worktree safe. */
  lemma TreeSafeStep(context: Context, plan: seq<Op>, before: Tree, after: Tree, i: nat)
    requires Sound(context, plan) && TreeSafe(context, plan, before) && i < |plan|
    requires forall p :: p != plan[i].path ==> At(after, p) == At(before, p)
    requires Settled(context, after, plan[i])
    ensures TreeSafe(context, plan, after)
  {
    forall k | 0 <= k < |plan| ensures Settled(context, after, plan[k]) {
      if k != i {
        assert plan[k].path != plan[i].path;
        assert Settled(context, before, plan[k]);
      }
    }
    assert plan[i].path in Paths(plan);
  }

  ghost predicate DoneUpTo(context: Context, m: Txn, i: nat)
    requires i <= |m.memory.ops|
  {
    forall j :: 0 <= j < i ==>
        m.memory.ops[j].applied && At(m.tree, m.memory.ops[j].path) == Post(context, m.memory.ops[j])
  }

  lemma FlagFree(context: Context, op: Op, other: Op)
    requires op == other.(applied := op.applied)
    ensures SoundOp(context, op) == SoundOp(context, other)
    ensures Pre(context, op) == Pre(context, other) && Post(context, op) == Post(context, other)
  {
  }

  lemma ApplyOneSafe(context: Context, plan: seq<Op>, m: Txn, i: nat)
    requires Sound(context, plan) && InFlight(context, plan, m) && m.status.Running? && i < |plan|
    ensures InFlight(context, plan, ApplyOne(context, m, i))
    ensures var r := ApplyOne(context, m, i);
            DoneUpTo(context, m, i) && r.status.Running? ==> DoneUpTo(context, r, i + 1)
  {
    hide ApplyOne, Bound, SoundOp, Post, Pre;
    var op := m.memory.ops[i];
    FlagFree(context, op, plan[i]);
    ApplyOneStep(context, m, i);
    var r := ApplyOne(context, m, i);
    TreeSafeStep(context, plan, m.tree, r.tree, i);
    if DoneUpTo(context, m, i) && r.status.Running? {
      forall j | 0 <= j < i + 1
        ensures r.memory.ops[j].applied && At(r.tree, r.memory.ops[j].path) == Post(context, r.memory.ops[j])
      {
        if j < i {
          assert m.memory.ops[j].path == plan[j].path != plan[i].path;
        } else {
          FlagFree(context, r.memory.ops[i], plan[i]);
          FlagFree(context, op, plan[i]);
        }
      }
    }
  }

  lemma {:induction false} ApplyFromSafe(context: Context, plan: seq<Op>, m: Txn, i: nat)
    requires Sound(context, plan) && InFlight(context, plan, m)
    requires m.status.Running? && i <= |plan| && DoneUpTo(context, m, i)
    ensures var r := ApplyFrom(context, m, i);
            InFlight(context, plan, r) && (r.status.Running? ==> DoneUpTo(context, r, |plan|))
    decreases |plan| - i
  {
    hide ApplyOne, TreeSafe;
    if i < |plan| {
      ApplyOneSafe(context, plan, m, i);
      if ApplyOne(context, m, i).status.Running? {
        ApplyFromSafe(context, plan, ApplyOne(context, m, i), i + 1);
      }
    }
  }

  lemma RollbackOneSafe(context: Context, plan: seq<Op>, m: Txn, i: nat)
    requires Sound(context, plan) && InFlight(context, plan, m) && m.status.Running? && i < |plan|
    ensures InFlight(context, plan, RollbackOne(context, m, i))
  {
    hide RollbackOne, Bound, SoundOp, Post, Pre;
    FlagFree(context, m.memory.ops[i], plan[i]);
    RollbackOneStep(context, m, i);
    TreeSafeStep(context, plan, m.tree, RollbackOne(context, m, i).tree, i);
  }

  lemma {:induction false} RollbackFromSafe(context: Context, plan: seq<Op>, m: Txn, n: nat, unresolved: seq<Path>)
    requires Sound(context, plan) && InFlight(context, plan, m) && n <= |plan|
    ensures InFlight(context, plan, RollbackFrom(context, m, n, unresolved).0)
    decreases n
  {
    hide RollbackOne, TreeSafe, Sound;
    if n > 0 && m.status.Running? {
      var op := m.memory.ops[n - 1];
      if !op.applied {
        RollbackFromSafe(context, plan, m, n - 1, unresolved);
      } else {
        RollbackOneSafe(context, plan, m, n - 1);
        var one := RollbackOne(context, m, n - 1);
        if one.status.Threw? {
          RollbackFromSafe(context, plan, one.(status := Running), n - 1, unresolved + [op.path]);
        } else {
          RollbackFromSafe(context, plan, one, n - 1, unresolved);
        }
      }
    }
  }

  /** One process keeps the invariant, whatever fails and wherever it crashes. */
  lemma ApplySafe(context: Context, plan: seq<Op>, m: Txn)
    requires Sound(context, plan) && Safe(context, plan, m)
    requires m.memory == m.durable && m.status.Running?
    ensures Safe(context, plan, Apply(context, m))
  {
    if !m.memory.phase.Applied? {
      SaveStep(Enter(m, Applying));
      var begun := Enter(m, Applying).Save();
      if begun.status.Running? {
        ApplyFromSafe(context, plan, begun, 0);
        var done := ApplyFrom(context, begun, 0);
        if done.status.Threw? {
          RollbackSafe(context, plan, done.(status := Running));
        } else {
          SaveStep(Enter(done, Applied));
        }
      }
    }
  }

  lemma RollbackSafe(context: Context, plan: seq<Op>, m: Txn)
    requires Sound(context, plan) && InFlight(context, plan, m)
    ensures Safe(context, plan, Rollback(context, m))
  {
    RollbackFromSafe(context, plan, m, |plan|, []);
    var rolled := RollbackFrom(context, m, |m.memory.ops|, []).0;
    SaveStep(Enter(rolled, Applying));
    SaveStep(Enter(rolled, Prepared));
  }

  // ----- Main result 1: crash safety over any number of processes ------------------------

  /**
   From a prepared receipt whose preimages are in place, after any number of processes, each
   with any pattern of failures and crashes, every registered path holds its exact preimage or
   its exact postimage, no other path changed, and a receipt that says APPLIED is right.
   */
  lemma {:induction false} CrashSafety(context: Context, plan: seq<Op>, m: Txn, schedules: seq<seq<Fault>>)
    requires Sound(context, plan) && Safe(context, plan, m)
    ensures Safe(context, plan, Run(context, m, schedules))
    decreases |schedules|
  {
    if schedules != [] {
      ApplySafe(context, plan, Resume(m, schedules[0]));
      CrashSafety(context, plan, Apply(context, Resume(m, schedules[0])), schedules[1..]);
    }
  }

  // ----- Main result 2: when a fault-free process completes ------------------------------

  /** A replacement by the same bytes is always classified as a preimage, never as done. */
  ghost predicate ChangesBytes(op: Op) {
    op.kind.Replace? ==> op.pre != op.post
  }

  lemma FaultFreeOne(context: Context, m: Txn, i: nat)
    requires CollisionFree(context.sha) && m.status.Running? && m.faults == [] && i < |m.memory.ops|
    requires SoundOp(context, m.memory.ops[i]) && Settled(context, m.tree, m.memory.ops[i])
    ensures var r := ApplyOne(context, m, i);
            r.faults == [] && r.status == if ChangesBytes(m.memory.ops[i]) then Running else Threw
  {
    var op := m.memory.ops[i];
    var found := Classify(context.sha, op, At(m.tree, op.path));
    if found.Preimage? {
      assert At(m.tree, op.path) == Pre(context, op);
      FaultFreeWrite(context, m, op);
      WriteOpStep(context, m, op);
      hide WriteOp;
      assert m.Read(op.path) == m;
    }
  }

  lemma FaultFreeWrite(context: Context, m: Txn, op: Op)
    requires m.status.Running? && m.faults == []
    requires SoundOp(context, op) && At(m.tree, op.path) == Pre(context, op)
    ensures var r := WriteOp(context, m, op, Bound(context.sha, context.pack, op));
            r.status.Running? && r.faults == []
  {
  }

  lemma {:induction false} FaultFreeFrom(context: Context, plan: seq<Op>, m: Txn, i: nat)
    requires Sound(context, plan) && InFlight(context, plan, m)
    requires m.status.Running? && m.faults == [] && i <= |plan|
    ensures var r := ApplyFrom(context, m, i);
            r.faults == [] &&
            r.status == if forall j :: i <= j < |plan| ==> ChangesBytes(plan[j]) then Running else Threw
    decreases |plan| - i
  {
    hide ApplyOne, TreeSafe, ChangesBytes, CollisionFree, SoundOp, Bound;
    if i < |plan| {
      FaultFreeStep(context, plan, m, i);
      ApplyOneSafe(context, plan, m, i);
      if ChangesBytes(plan[i]) {
        FaultFreeFrom(context, plan, ApplyOne(context, m, i), i + 1);
      }
    }
  }

  lemma FaultFreeStep(context: Context, plan: seq<Op>, m: Txn, i: nat)
    requires Sound(context, plan) && InFlight(context, plan, m)
    requires m.status.Running? && m.faults == [] && i < |plan|
    ensures var r := ApplyOne(context, m, i);
            r.faults == [] && r.status == if ChangesBytes(plan[i]) then Running else Threw
  {
    FlagFree(context, m.memory.ops[i], plan[i]);
    FaultFreeOne(context, m, i);
  }

  /**
   From every safe state that is not yet APPLIED, one fault-free process ends APPLIED with every
   path at its postimage and every flag set exactly when no registered replacement keeps the
   bytes it replaces.
   */
  lemma Completion(context: Context, plan: seq<Op>, m: Txn)
    requires Sound(context, plan) && Safe(context, plan, m) && !m.durable.phase.Applied?
    ensures var r := Apply(context, Resume(m, []));
            (r.status.Running? && r.durable.phase.Applied? && Finished(context, r.tree, r.durable.ops))
            <==> forall i :: 0 <= i < |plan| ==> ChangesBytes(plan[i])
  {
    hide ApplyFrom, Rollback, ChangesBytes, TreeSafe, Sound;
    var begun := Enter(Resume(m, []), Applying).Save();
    FaultFreeFrom(context, plan, begun, 0);
    ApplyFromSafe(context, plan, begun, 0);
  }

  /** A prepared plan with one replacement that keeps its bytes: no fault-free call ever completes it. */
  lemma SameBytesNeverComplete(sha: Bytes -> Digest) returns (context: Context, plan: seq<Op>, m: Txn)
    requires CollisionFree(sha)
    ensures context.sha == sha && Sound(context, plan) && Safe(context, plan, m) && m.durable.phase.Prepared?
    ensures var r := Apply(context, Resume(m, []));
            !(r.status.Running? && r.durable.phase.Applied? && Finished(context, r.tree, r.durable.ops))
  {
    var tree := map["a" := File([1], CREATED_MODE)];
    var digest, name := Some(sha([1])), BackupName("1", sha([1]));
    context := Context(sha, Pack([PackOp("1", Replace, "a", digest, Some("a"), digest)], map["a" := [1]]),
                       map[name := [1]], tree);
    plan := [Op("1", Replace, "a", digest, digest, Some(name), digest, Some(CREATED_MODE), false)];
    var receipt := Receipt(Prepared, plan);
    m := Machine(tree, receipt, receipt, [], Running);
    assert SoundOp(context, plan[0]);
    assert Settled(context, tree, plan[0]);
    Completion(context, plan, m);
    assert !ChangesBytes(plan[0]);
  }
}
