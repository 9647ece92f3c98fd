/** Repairs are all-or-nothing across failures, crashes and resumes. */
module RepairSafety {
  import opened Prelude
  import opened Effects
  import opened Repair

  /** The file at a repair path when the repair was bound. */
  ghost function Pre(context: Context, op: RepairOp): Option<File> {
    At(context.bound, op.path)
  }

  ghost function Post(context: Context, receipt: Receipt, op: RepairOp): Option<File> {
    var payload, tx := Payload(context.sha, op), TxFor(receipt.txs, op.path);
    match op.kind
    case Delete => None
    case Create => if payload.Some? && tx.Some? then Some(File(payload.value, ModeOr(tx.value.mode))) else None
    case Replace =>
      if payload.Some? && Pre(context, op).Some? then Some(File(payload.value, Pre(context, op).value.mode)) else None
  }

  /** The file the registered pack and the transaction record for a path. */
  ghost function RegisteredFile(context: Context, receipt: Receipt, path: Path): Option<File> {
    var source, tx := SourceFor(context.pack.ops, path), TxFor(receipt.txs, path);
    if source.None? || tx.None? || source.value.kind.Delete? then None
    else if source.value.payloadEntry.None? || source.value.payloadEntry.value !in context.pack.entries then None
    else
      Some(File(context.pack.entries[source.value.payloadEntry.value],
                if source.value.kind.Create? then CREATED_MODE else ModeOr(tx.value.mode)))
  }

  /** The bound file can be written back: from its generation backup, else from the pack. */
  ghost predicate Restorable(context: Context, receipt: Receipt, op: RepairOp) {
    && Pre(context, op).Some?
    && var file := Pre(context, op).value;
    && |file.bytes| <= MAX_FILE_BYTES
    && op.pre == Some(context.sha(file.bytes))
    && match BackupFor(receipt.backups, op.path)
       case Some(backup) =>
         && backup.name in context.installed
         && context.installed[backup.name] == file.bytes
         && backup.sha == context.sha(file.bytes)
         && backup.mode == file.mode
       case None =>
         && RegisteredFile(context, receipt, op.path) == Some(file)
         && TxFor(receipt.txs, op.path).value.post == op.pre
  }

  ghost predicate SoundOp(context: Context, receipt: Receipt, op: RepairOp) {
    && (Payload(context.sha, op).Some? ==> |Payload(context.sha, op).value| <= MAX_FILE_BYTES)
    && match op.kind
       case Create => Pre(context, op).None? && Payload(context.sha, op).Some? && TxFor(receipt.txs, op.path).Some?
       case Replace => Restorable(context, receipt, op) && Payload(context.sha, op).Some?
       case Delete => Restorable(context, receipt, op)
  }

  ghost predicate Sound(context: Context, receipt: Receipt) {
    && CollisionFree(context.sha)
    && (forall i :: 0 <= i < |receipt.ops| ==> SoundOp(context, receipt, receipt.ops[i]))
    && (forall i, j :: 0 <= i < j < |receipt.ops| ==> receipt.ops[i].path != receipt.ops[j].path)
  }

  ghost function Paths(ops: seq<RepairOp>): set<Path> {
    set i | 0 <= i < |ops| :: ops[i].path
  }

  ghost predicate Settled(context: Context, receipt: Receipt, tree: Tree, op: RepairOp) {
    At(tree, op.path) == Pre(context, op) || At(tree, op.path) == Post(context, receipt, op)
  }

  ghost predicate TreeSafe(context: Context, plan: Receipt, tree: Tree) {
    && (forall i :: 0 <= i < |plan.ops| ==> Settled(context, plan, tree, plan.ops[i]))
    && (forall p :: p !in Paths(plan.ops) ==> At(tree, p) == At(context.bound, p))
  }

  ghost predicate AllDone(context: Context, plan: Receipt, tree: Tree) {
    forall i :: 0 <= i < |plan.ops| ==> At(tree, plan.ops[i].path) == Post(context, plan, plan.ops[i])
  }

  ghost predicate AsBound(context: Context, tree: Tree) {
    forall p :: At(tree, p) == At(context.bound, p)
  }

  /** Only state, stage and the verification flag of the plan change. */
  ghost predicate Carries(plan: Receipt, receipt: Receipt) {
    receipt == plan.(state := receipt.state, stage := receipt.stage, verified := receipt.verified)
  }

  /** The stage a persisted repair state requires (validateRepair). */
  predicate StageMatches(receipt: Receipt) {
    match receipt.state
    case Proposed => receipt.stage.Reviewing?
    case Applying => receipt.stage.RepairApplying?
    case Applied => receipt.stage.RepairApplied?
  }

  /**
   The durable invariant: a PROPOSED repair has touched nothing, an APPLIED one has reached every
   postimage and lost its verification, and in between every path is at one of its two files.
   */
  ghost predicate Safe(context: Context, plan: Receipt, m: State) {
    && TreeSafe(context, plan, m.tree)
    && Carries(plan, m.durable)
    && StageMatches(m.durable)
    && (m.durable.state.Proposed? ==> AsBound(context, m.tree))
    && (m.durable.state.Applied? ==> AllDone(context, plan, m.tree) && !m.durable.verified)
  }

  // ----- One step ------------------------------------------------------------------------

  lemma WriteOpStep(context: Context, m: State, op: RepairOp)
    requires SoundOp(context, m.memory, op) && At(m.tree, op.path) == Pre(context, op)
    ensures var r := WriteOp(context, m, op);
            && Touches(m, r, op.path)
            && Settled(context, m.memory, r.tree, op)
            && (r.status.Running? ==> At(r.tree, op.path) == Post(context, m.memory, op))
  {
    ReadStep(m, op.path);
    var read := m.Read(op.path);
    var payload := Payload(context.sha, op);
    if read.status.Running? {
      match op.kind
      case Create => WriteStep(read, op.path, File(payload.value, ModeOr(TxFor(m.memory.txs, op.path).value.mode)),
                               true);
      case Replace => WriteStep(read, op.path, File(payload.value, Pre(context, op).value.mode), false);
      case Delete => RemoveStep(read, op.path);
    }
  }

  lemma ApplyOneStep(context: Context, m: State, op: RepairOp)
    requires CollisionFree(context.sha) && SoundOp(context, m.memory, op)
    requires Settled(context, m.memory, m.tree, op)
    ensures var r := ApplyOne(context, m, op);
            && Touches(m, r, op.path)
            && Settled(context, m.memory, r.tree, op)
            && (r.status.Running? ==> At(r.tree, op.path) == Post(context, m.memory, op))
  {
    ReadStep(m, op.path);
    var read := m.Read(op.path);
    if read.status.Running? {
      var found := Classify(context.sha, op, At(read.tree, op.path));
      if found.Preimage? {
        assert At(m.tree, op.path) == Pre(context, op);
        WriteOpStep(context, read, op);
        hide WriteOp;
        ReadStep(WriteOp(context, read, op), op.path);
      }
    }
  }

  lemma RestoreOriginalStep(context: Context, m: State, op: RepairOp)
    requires Restorable(context, m.memory, op) && BackupFor(m.memory.backups, op.path).None?
    requires CollisionFree(context.sha)
    requires At(m.tree, op.path).Some? ==> Some(context.sha(At(m.tree, op.path).value.bytes)) != op.pre
    ensures var r := RestoreOriginal(context, m, op.path);
            && Touches(m, r, op.path)
            && (At(r.tree, op.path) == At(m.tree, op.path) || At(r.tree, op.path) == Pre(context, op))
            && (r.status.Running? ==> At(r.tree, op.path) == Pre(context, op))
  {
    ReadStep(m, op.path);
    WriteStep(m.Read(op.path), op.path, Pre(context, op).value, At(m.tree, op.path).None?);
  }

  lemma RestoreStep(context: Context, m: State, op: RepairOp)
    requires Restorable(context, m.memory, op) && CollisionFree(context.sha)
    requires At(m.tree, op.path).Some? ==> Some(context.sha(At(m.tree, op.path).value.bytes)) != op.pre
    ensures var r := Restore(context, m, op);
            && Touches(m, r, op.path)
            && (At(r.tree, op.path) == At(m.tree, op.path) || At(r.tree, op.path) == Pre(context, op))
            && (r.status.Running? ==> At(r.tree, op.path) == Pre(context, op))
  {
    var backup := BackupFor(m.memory.backups, op.path);
    if backup.None? {
      RestoreOriginalStep(context, m, op);
    } else {
      var readBackup := m.Effect(true, m);
      ReadStep(readBackup, op.path);
      WriteStep(readBackup.Read(op.path), op.path, Pre(context, op).value, At(m.tree, op.path).None?);
    }
  }

  lemma UndoOneStep(context: Context, m: State, op: RepairOp)
    requires CollisionFree(context.sha) && SoundOp(context, m.memory, op)
    requires Settled(context, m.memory, m.tree, op)
    ensures var r := UndoOne(context, m, op);
            && Touches(m, r, op.path)
            && Settled(context, m.memory, r.tree, op)
            && (r.status.Running? ==> At(r.tree, op.path) == Pre(context, op))
  {
    ReadStep(m, op.path);
    var read := m.Read(op.path);
    if read.status.Running? {
      var found := Classify(context.sha, op, At(read.tree, op.path));
      if found.Postimage? {
        if op.kind.Create? {
          RemoveStep(read, op.path);
        } else {
          RestoreStep(context, read, op);
          hide Restore;
          ReadStep(Restore(context, read, op), op.path);
        }
      }
    }
  }

  // ----- The loops -----------------------------------------------------------------------

  lemma TreeSafeStep(context: Context, plan: Receipt, before: Tree, after: Tree, i: nat)
    requires Sound(context, plan) && TreeSafe(context, plan, before) && i < |plan.ops|
    requires forall p :: p != plan.ops[i].path ==> At(after, p) == At(before, p)
    requires Settled(context, plan, after, plan.ops[i])
    ensures TreeSafe(context, plan, after)
  {
    forall k | 0 <= k < |plan.ops| ensures Settled(context, plan, after, plan.ops[k]) {
      if k != i {
        assert plan.ops[k].path != plan.ops[i].path;
        assert Settled(context, plan, before, plan.ops[k]);
      }
    }
    assert plan.ops[i].path in Paths(plan.ops);
  }

  /** Pre, Post and soundness read only the parts of the receipt that never change. */
  lemma PartsFree(context: Context, plan: Receipt, receipt: Receipt, op: RepairOp)
    requires Carries(plan, receipt)
    ensures SoundOp(context, plan, op) == SoundOp(context, receipt, op)
    ensures Post(context, plan, op) == Post(context, receipt, op)
    ensures forall tree: Tree :: Settled(context, plan, tree, op) == Settled(context, receipt, tree, op)
  {
  }

  ghost predicate DoneUpTo(context: Context, plan: Receipt, tree: Tree, i: nat)
    requires i <= |plan.ops|
  {
    forall j :: 0 <= j < i ==> At(tree, plan.ops[j].path) == Post(context, plan, plan.ops[j])
  }

  lemma ApplyOneSafe(context: Context, plan: Receipt, m: State, i: nat)
    requires Sound(context, plan) && TreeSafe(context, plan, m.tree) && Carries(plan, m.memory) && i < |plan.ops|
    ensures var r := ApplyOne(context, m, plan.ops[i]);
            && TreeSafe(context, plan, r.tree) && r.memory == m.memory && r.durable == m.durable
            && (r.status.Running? && DoneUpTo(context, plan, m.tree, i) ==> DoneUpTo(context, plan, r.tree, i + 1))
  {
    hide ApplyOne, SoundOp, Post, Pre;
    var op := plan.ops[i];
    PartsFree(context, plan, m.memory, op);
    assert Settled(context, plan, m.tree, op);
    ApplyOneStep(context, m, op);
    var r := ApplyOne(context, m, op);
    TreeSafeStep(context, plan, m.tree, r.tree, i);
    assert forall j :: 0 <= j < i ==> plan.ops[j].path != op.path;
  }

  lemma {:induction false} ApplyAllSafe(context: Context, plan: Receipt, m: State, i: nat)
    requires Sound(context, plan) && TreeSafe(context, plan, m.tree) && Carries(plan, m.memory)
    requires i <= |plan.ops| && DoneUpTo(context, plan, m.tree, i)
    ensures var r := ApplyAll(context, m, plan.ops[i..]);
            && TreeSafe(context, plan, r.tree) && r.memory == m.memory && r.durable == m.durable
            && (r.status.Running? ==> AllDone(context, plan, r.tree))
    decreases |plan.ops| - i
  {
    hide ApplyOne, TreeSafe, Sound;
    if i < |plan.ops| && m.status.Running? {
      ApplyOneSafe(context, plan, m, i);
      var one := ApplyOne(context, m, plan.ops[i]);
      assert plan.ops[i..][0] == plan.ops[i] && plan.ops[i..][1..] == plan.ops[i + 1..];
      if one.status.Running? {
        ApplyAllSafe(context, plan, one, i + 1);
      }
    }
  }

  ghost predicate UndoneFrom(context: Context, plan: Receipt, tree: Tree, n: nat)
    requires n <= |plan.ops|
  {
    forall j :: n <= j < |plan.ops| ==> At(tree, plan.ops[j].path) == Pre(context, plan.ops[j])
  }

  lemma UndoOneSafe(context: Context, plan: Receipt, m: State, i: nat)
    requires Sound(context, plan) && TreeSafe(context, plan, m.tree) && Carries(plan, m.memory) && i < |plan.ops|
    ensures var r := UndoOne(context, m, plan.ops[i]);
            && TreeSafe(context, plan, r.tree) && r.memory == m.memory && r.durable == m.durable
            && (r.status.Running? && UndoneFrom(context, plan, m.tree, i + 1) ==> UndoneFrom(context, plan, r.tree, i))
  {
    hide UndoOne, SoundOp, Post, Pre;
    var op := plan.ops[i];
    PartsFree(context, plan, m.memory, op);
    assert Settled(context, plan, m.tree, op);
    UndoOneStep(context, m, op);
    var r := UndoOne(context, m, op);
    TreeSafeStep(context, plan, m.tree, r.tree, i);
    assert forall j :: i < j < |plan.ops| ==> plan.ops[j].path != op.path;
  }

  lemma {:induction false} UndoAllSafe(context: Context, plan: Receipt, m: State, n: nat)
    requires Sound(context, plan) && TreeSafe(context, plan, m.tree) && Carries(plan, m.memory)
    requires n <= |plan.ops| && UndoneFrom(context, plan, m.tree, n)
    ensures var r := UndoAll(context, m, plan.ops[..n]);
            && TreeSafe(context, plan, r.tree) && r.memory == m.memory && r.durable == m.durable
            && (r.status.Running? ==> UndoneFrom(context, plan, r.tree, 0))
    decreases n
  {
    hide UndoOne, TreeSafe, Sound;
    if n > 0 && m.status.Running? {
      UndoOneSafe(context, plan, m, n - 1);
      var one := UndoOne(context, m, plan.ops[n - 1]);
      assert plan.ops[..n][n - 1] == plan.ops[n - 1] && plan.ops[..n][..n - 1] == plan.ops[..n - 1];
      if one.status.Running? {
        UndoAllSafe(context, plan, one, n - 1);
      }
    }
  }

  lemma UndoneIsBound(context: Context, plan: Receipt, tree: Tree)
    requires TreeSafe(context, plan, tree) && UndoneFrom(context, plan, tree, 0)
    ensures AsBound(context, tree)
  {
    forall p ensures At(tree, p) == At(context.bound, p) {
      if p in Paths(plan.ops) {
        var i :| 0 <= i < |plan.ops| && plan.ops[i].path == p;
      }
    }
  }

  lemma ApplySafe(context: Context, plan: Receipt, m: State)
    requires Sound(context, plan) && Safe(context, plan, m) && m.memory == m.durable && m.status.Running?
    ensures Safe(context, plan, Apply(context, m))
  {
    hide ApplyAll, UndoAll, TreeSafe, Sound, AllDone, AsBound;
    if !m.memory.state.Applied? {
      var entered := Enter(m, Applying, RepairApplying);
      SaveStep(entered);
      var begun := entered.Save();
      if begun.status.Running? {
        assert plan.ops[0..] == plan.ops == begun.memory.ops;
        ApplyAllSafe(context, plan, begun, 0);
        var done := ApplyAll(context, begun, begun.memory.ops);
        if done.status.Running? {
          var applied := Enter(done, Applied, RepairApplied);
          SaveStep(applied.(memory := applied.memory.(verified := false)));
        } else if done.status.Threw? {
          assert plan.ops[..|plan.ops|] == plan.ops;
          UndoAllSafe(context, plan, done.(status := Running), |plan.ops|);
          var back := UndoAll(context, done.(status := Running), done.memory.ops);
          if back.status.Running? {
            UndoneIsBound(context, plan, back.tree);
            SaveStep(Enter(back, Proposed, Reviewing));
          }
        }
      }
    }
  }

  // ----- Main result: a repair is all or nothing -----------------------------------------

  /**
   Across any number of processes, failures and crashes: a durable PROPOSED receipt means that
   every path of the worktree has the exact bytes and mode it had when the repair was bound,
   a durable APPLIED receipt means that every repaired path is at its postimage and the old
   verification is gone, and at any other time each path is at one of the two.
   */
  lemma {:induction false} RepairAtomicity(context: Context, plan: Receipt, m: State, schedules: seq<seq<Fault>>)
    requires Sound(context, plan) && Safe(context, plan, m)
    ensures Safe(context, plan, Run(context, m, schedules))
    decreases |schedules|
  {
    hide Apply, Sound, TreeSafe, AllDone, AsBound;
    if schedules != [] {
      var m' := Resume(m, schedules[0]);
      ApplySafe(context, plan, m');
      RepairAtomicity(context, plan, Apply(context, m'), schedules[1..]);
    }
  }

  /**
   What a call leaves in the worktree when it throws, by the state in which it leaves the receipt in
   memory: PROPOSED is set once the rollback has returned, APPLIED once the last postimage is checked.
   The write of that state may be what failed, so the durable receipt need not agree.
   */
  lemma ThrownCall(context: Context, plan: Receipt, m: State)
    requires Sound(context, plan) && Safe(context, plan, m) && m.memory == m.durable && m.status.Running?
    ensures var r := Apply(context, m);
            r.status.Threw? ==>
              match r.memory.state
              case Proposed => AsBound(context, r.tree)
              case Applying => TreeSafe(context, plan, r.tree)
              case Applied => AllDone(context, plan, r.tree)
  {
    hide ApplyAll, UndoAll, TreeSafe, Sound, AllDone, AsBound;
    if !m.memory.state.Applied? {
      var begun := Enter(m, Applying, RepairApplying).Save();
      if begun.status.Running? {
        assert plan.ops[0..] == plan.ops == begun.memory.ops;
        ApplyAllSafe(context, plan, begun, 0);
        var done := ApplyAll(context, begun, begun.memory.ops);
        if done.status.Threw? {
          assert plan.ops[..|plan.ops|] == plan.ops;
          UndoAllSafe(context, plan, done.(status := Running), |plan.ops|);
          var back := UndoAll(context, done.(status := Running), done.memory.ops);
          if back.status.Running? {
            UndoneIsBound(context, plan, back.tree);
          }
        }
      }
    }
  }

  /**
   Whatever processes, failures and crashes came before: a call that throws after its rollback returned
   has restored the exact worktree the repair was bound to, even when the durable receipt still says
   APPLYING because the final write failed.
   */
  lemma ThrownCallRestores(context: Context, plan: Receipt, m: State, schedules: seq<seq<Fault>>, faults: seq<Fault>)
    requires Sound(context, plan) && Safe(context, plan, m)
    ensures var r := Apply(context, Resume(Run(context, m, schedules), faults));
            r.status.Threw? && r.memory.state.Proposed? ==> AsBound(context, r.tree)
  {
    hide Apply, Run, Sound, TreeSafe, AllDone, AsBound;
    RepairAtomicity(context, plan, m, schedules);
    ThrownCall(context, plan, Resume(Run(context, m, schedules), faults));
  }

  // ----- A repair that fails is rolled back ------------------------------------------------

  lemma FaultFreeUndoOne(context: Context, m: State, op: RepairOp)
    requires CollisionFree(context.sha) && m.status.Running? && m.faults == []
    requires SoundOp(context, m.memory, op) && Settled(context, m.memory, m.tree, op)
    ensures var r := UndoOne(context, m, op); r.status.Running? && r.faults == []
  {
    assert m.Read(op.path) == m;
    var found := Classify(context.sha, op, At(m.tree, op.path));
    if found.Postimage? && !op.kind.Create? {
      RestoreStep(context, m, op);
      FaultFreeRestore(context, m, op);
      hide Restore;
      assert Restore(context, m, op).Read(op.path) == Restore(context, m, op);
    }
  }

  lemma FaultFreeRestore(context: Context, m: State, op: RepairOp)
    requires CollisionFree(context.sha) && m.status.Running? && m.faults == []
    requires Restorable(context, m.memory, op) && Settled(context, m.memory, m.tree, op)
    requires At(m.tree, op.path).Some? ==>
               && Some(context.sha(At(m.tree, op.path).value.bytes)) != op.pre
               && |At(m.tree, op.path).value.bytes| <= MAX_FILE_BYTES
    ensures var r := Restore(context, m, op); r.status.Running? && r.faults == []
  {
    assert m.Read(op.path) == m;
  }

  /** Without faults the rollback of a repair returns, with every path at the file that was bound. */
  lemma {:induction false} FaultFreeUndoAll(context: Context, plan: Receipt, m: State, n: nat)
    requires Sound(context, plan) && TreeSafe(context, plan, m.tree) && Carries(plan, m.memory)
    requires m.status.Running? && m.faults == [] && n <= |plan.ops| && UndoneFrom(context, plan, m.tree, n)
    ensures var r := UndoAll(context, m, plan.ops[..n]);
            r.status.Running? && r.faults == [] && r.memory == m.memory && r.durable == m.durable
                && AsBound(context, r.tree)
    decreases n
  {
    hide UndoOne, TreeSafe, Sound, AsBound, SoundOp, Settled;
    if n == 0 {
      UndoneIsBound(context, plan, m.tree);
    } else {
      FaultFreeUndoStep(context, plan, m, n - 1);
      UndoOneSafe(context, plan, m, n - 1);
      assert plan.ops[..n][n - 1] == plan.ops[n - 1] && plan.ops[..n][..n - 1] == plan.ops[..n - 1];
      FaultFreeUndoAll(context, plan, UndoOne(context, m, plan.ops[n - 1]), n - 1);
    }
  }

  lemma FaultFreeUndoStep(context: Context, plan: Receipt, m: State, i: nat)
    requires Sound(context, plan) && TreeSafe(context, plan, m.tree) && Carries(plan, m.memory)
    requires m.status.Running? && m.faults == [] && i < |plan.ops|
    ensures var r := UndoOne(context, m, plan.ops[i]); r.status.Running? && r.faults == []
  {
    PartsFree(context, plan, m.memory, plan.ops[i]);
    assert Settled(context, plan, m.tree, plan.ops[i]);
    FaultFreeUndoOne(context, m, plan.ops[i]);
  }

  /**
   A repair whose loop failed, from PROPOSED or resumed from APPLYING, is undone: when no fault is scheduled
   after the one that failed, the call throws with a durable PROPOSED receipt, back in the stage of the
   review, and every path of the worktree has the exact file it had when the repair was bound.
   */
  lemma FailedRepairIsUndone(context: Context, plan: Receipt, m: State)
    requires Sound(context, plan) && Safe(context, plan, m) && m.memory == m.durable && m.status.Running?
    requires !m.memory.state.Applied?
    requires var begun := Enter(m, Applying, RepairApplying).Save();
             && begun.status.Running?
             && var failed := ApplyAll(context, begun, begun.memory.ops);
             failed.status.Threw? && failed.faults == []
    ensures var r := Apply(context, m);
            && r.status.Threw? && r.durable == r.memory
            && r.memory == plan.(state := Proposed, stage := Reviewing, verified := m.memory.verified)
            && AsBound(context, r.tree)
  {
    hide ApplyAll, UndoAll, TreeSafe, Sound, AllDone, AsBound;
    var begun := Enter(m, Applying, RepairApplying).Save();
    assert plan.ops[0..] == plan.ops == begun.memory.ops;
    ApplyAllSafe(context, plan, begun, 0);
    var failed := ApplyAll(context, begun, begun.memory.ops);
    assert plan.ops[..|plan.ops|] == plan.ops;
    FaultFreeUndoAll(context, plan, failed.(status := Running), |plan.ops|);
  }

  // ----- When a fault-free process completes ---------------------------------------------

  /** A replacement by the same bytes is always classified as a preimage. */
  predicate ChangesBytes(op: RepairOp) {
    op.kind.Replace? ==> op.pre != op.post
  }

  lemma FaultFreeOne(context: Context, m: State, op: RepairOp)
    requires CollisionFree(context.sha) && m.status.Running? && m.faults == []
    requires SoundOp(context, m.memory, op) && Settled(context, m.memory, m.tree, op)
    ensures var r := ApplyOne(context, m, op);
            r.faults == [] && r.status == if ChangesBytes(op) then Running else Threw
  {
    if Classify(context.sha, op, At(m.tree, op.path)).Preimage? {
      assert At(m.tree, op.path) == Pre(context, op);
      var written := WriteOp(context, m, op);
      assert written.status.Running? && written.faults == [];
      WriteOpStep(context, m, op);
      hide WriteOp;
    }
  }

  lemma {:induction false} FaultFreeAll(context: Context, plan: Receipt, m: State, i: nat)
    requires Sound(context, plan) && TreeSafe(context, plan, m.tree) && Carries(plan, m.memory)
    requires m.status.Running? && m.faults == [] && i <= |plan.ops|
    ensures var r := ApplyAll(context, m, plan.ops[i..]);
            r.faults == [] &&
            r.status == if forall j :: i <= j < |plan.ops| ==> ChangesBytes(plan.ops[j]) then Running else Threw
    decreases |plan.ops| - i
  {
    hide ApplyOne, TreeSafe, Sound, ChangesBytes;
    if i < |plan.ops| {
      FaultFreeStep(context, plan, m, i);
      ApplyOneSafe(context, plan, m, i);
      assert plan.ops[i..][0] == plan.ops[i] && plan.ops[i..][1..] == plan.ops[i + 1..];
      if ChangesBytes(plan.ops[i]) {
        FaultFreeAll(context, plan, ApplyOne(context, m, plan.ops[i]), i + 1);
      }
    }
  }

  lemma FaultFreeStep(context: Context, plan: Receipt, m: State, i: nat)
    requires Sound(context, plan) && TreeSafe(context, plan, m.tree) && Carries(plan, m.memory)
    requires m.status.Running? && m.faults == [] && i < |plan.ops|
    ensures var r := ApplyOne(context, m, plan.ops[i]);
            r.faults == [] && r.status == if ChangesBytes(plan.ops[i]) then Running else Threw
  {
    PartsFree(context, plan, m.memory, plan.ops[i]);
    assert Settled(context, plan, m.tree, plan.ops[i]);
    FaultFreeOne(context, m, plan.ops[i]);
  }

  /** From PROPOSED or APPLYING one fault-free process completes exactly when no replacement keeps its bytes. */
  lemma RepairCompletion(context: Context, plan: Receipt, m: State)
    requires Sound(context, plan) && Safe(context, plan, m) && !m.durable.state.Applied?
    ensures var r := Apply(context, Resume(m, []));
            (r.status.Running? && r.durable.state.Applied? && AllDone(context, plan, r.tree))
            <==> forall i :: 0 <= i < |plan.ops| ==> ChangesBytes(plan.ops[i])
  {
    hide ApplyAll, UndoAll, ChangesBytes, TreeSafe, Sound, AllDone, AsBound;
    var begun := Enter(Resume(m, []), Applying, RepairApplying).Save();
    assert plan.ops[0..] == plan.ops == begun.memory.ops;
    FaultFreeAll(context, plan, begun, 0);
    ApplyAllSafe(context, plan, begun, 0);
  }

  // ----- What a completed repair leaves ------------------------------------------------------

  /** The repair carries the bytes it writes, under the digest it names and within 8 MiB. */
  predicate Carried(sha: Bytes -> Digest, op: RepairOp) {
    op.payload.Some? && op.post == Some(sha(op.payload.value)) && |op.payload.value| <= 8 * 1024 * 1024
  }

  /** An operation a repair can carry out: a new path of the transaction, or a bound file that can be written back. */
  ghost predicate Proper(context: Context, receipt: Receipt, op: RepairOp) {
    match op.kind
    case Create => op.path !in context.bound && Carried(context.sha, op) && TxFor(receipt.txs, op.path).Some?
    case Replace => op.path in context.bound && Carried(context.sha, op) && Restorable(context, receipt, op)
    case Delete => op.path in context.bound && Restorable(context, receipt, op)
  }

  /** The file a repair wants at a path: recreated files have their original mode, or else rw-r--r--. */
  ghost function Wanted(context: Context, receipt: Receipt, op: RepairOp): Option<File>
    requires Proper(context, receipt, op)
  {
    match op.kind
    case Create =>
      var tx := TxFor(receipt.txs, op.path).value;
      Some(File(op.payload.value, if tx.mode == None then 6 * 64 + 4 * 8 + 4 else tx.mode.value))
    case Replace => Some(File(op.payload.value, context.bound[op.path].mode))
    case Delete => None
  }

  lemma ProperIsSound(context: Context, receipt: Receipt, op: RepairOp)
    requires Proper(context, receipt, op)
    ensures SoundOp(context, receipt, op) && Post(context, receipt, op) == Wanted(context, receipt, op)
  {
  }

  /**
   A repair does what it says: applied without faults to the worktree it was bound to, it ends APPLIED with
   each of its paths exactly as wanted, every other path as it was, and the old verification gone, provided
   that no replacement brings the bytes it finds.
   */
  lemma RepairIsApplied(context: Context, plan: Receipt, m: State)
    requires CollisionFree(context.sha) && plan.state == Proposed && plan.stage == Reviewing
    requires forall i :: 0 <= i < |plan.ops| ==> Proper(context, plan, plan.ops[i])
    requires forall i :: 0 <= i < |plan.ops| && plan.ops[i].kind.Replace? ==> plan.ops[i].pre != plan.ops[i].post
    requires forall i, j :: 0 <= i < j < |plan.ops| ==> plan.ops[i].path != plan.ops[j].path
    requires m == Machine(context.bound, plan, plan, [], Running)
    ensures var r := Apply(context, m);
            && r.status == Running && r.durable == plan.(state := Applied, stage := RepairApplied, verified := false)
            && (forall i :: 0 <= i < |plan.ops| ==>
                  At(r.tree, plan.ops[i].path) == Wanted(context, plan, plan.ops[i]))
            && (forall p :: (forall i :: 0 <= i < |plan.ops| ==> plan.ops[i].path != p) ==>
                  At(r.tree, p) == At(context.bound, p))
  {
    forall i | 0 <= i < |plan.ops|
      ensures SoundOp(context, plan, plan.ops[i]) && ChangesBytes(plan.ops[i])
      ensures Post(context, plan, plan.ops[i]) == Wanted(context, plan, plan.ops[i])
    {
      ProperIsSound(context, plan, plan.ops[i]);
    }
    hide SoundOp, Post, Wanted, Proper;
    assert AsBound(context, m.tree);
    assert Safe(context, plan, m);
    assert Resume(m, []) == m;
    RepairCompletion(context, plan, m);
    ApplySafe(context, plan, m);
  }

  // ----- A plan that never completes -----------------------------------------------------

  /** A registered file "a" holding one byte, and a bound repair that replaces it by the same byte. */
  function SameBytePack(sha: Bytes -> Digest): Pack {
    Transaction.Pack([Transaction.PackOp("1", Transaction.Create, "a", None, Some("a"), Some(sha([1])))],
                     map["a" := [1]])
  }

  function SameByteRepair(sha: Bytes -> Digest): Receipt {
    Receipt(Proposed, Reviewing, true,
            [RepairOp("1", Transaction.Replace, "a", Some(sha([1])), Some(sha([1])), Some([1]))], [],
            [Transaction.Op("1", Transaction.Create, "a", None, Some(sha([1])), None, None, None, true)])
  }

  /** A sound, proposed repair with that replacement throws on every fault-free call, for good. */
  lemma SameBytesNeverComplete(sha: Bytes -> Digest) returns (context: Context, plan: Receipt, m: State)
    requires CollisionFree(sha)
    ensures context.sha == sha && Sound(context, plan) && Safe(context, plan, m) && m.durable.state.Proposed?
    ensures var r := Apply(context, Resume(m, []));
            !(r.status.Running? && r.durable.state.Applied? && AllDone(context, plan, r.tree))
  {
    var tree := map["a" := File([1], CREATED_MODE)];
    context, plan := Context(sha, SameBytePack(sha), map[], tree), SameByteRepair(sha);
    m := Machine(tree, plan, plan, [], Running);
    assert RegisteredFile(context, plan, "a") == Some(File([1], CREATED_MODE));
    assert SoundOp(context, plan, plan.ops[0]);
    assert Settled(context, plan, tree, plan.ops[0]);
    RepairCompletion(context, plan, m);
    assert !ChangesBytes(plan.ops[0]);
  }
}
