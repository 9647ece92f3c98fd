/**
 Bounded repairs on top of a finished transaction (src/executor/repair.ts), as functions of a
 machine whose receipt is the repair in progress. RepairProcess.dfy runs the same steps in place.
 */
module Repair {
  import opened Prelude
  import opened Effects
  import Transaction

  type Kind = Transaction.Kind
  type Class = Transaction.Class
  type Tx = Transaction.Op
  type PackOp = Transaction.PackOp
  type Pack = Transaction.Pack

  datatype RepairOp = RepairOp(id: string, kind: Kind, path: Path, pre: Option<Digest>,
                               post: Option<Digest>, payload: Option<Bytes>)

  /** `backups/repairs/<evidence>-<op_id>-<sha>.bin`. */
  datatype GenerationName = GenerationName(evidence: Digest, opId: string, sha: Digest)
  datatype Backup = Backup(path: Path, sha: Digest, name: GenerationName, mode: nat)

  datatype RepairState = Proposed | Applying | Applied
  datatype Stage = Reviewing | RepairApplying | RepairApplied

  /** receipt.repair with the parts of the receipt that a repair reads or writes. */
  datatype Receipt = Receipt(state: RepairState, stage: Stage, verified: bool,
                             ops: seq<RepairOp>, backups: seq<Backup>, txs: seq<Tx>)

  type State = Machine<Receipt>

  /** Installed generation backups, the registered pack, and the worktree the repair was bound to. */
  datatype Context = Context(sha: Bytes -> Digest, pack: Pack, installed: map<GenerationName, Bytes>, ghost bound: Tree)

  function TxFor(txs: seq<Tx>, path: Path): Option<Tx> {
    if txs == [] then None
    else if txs[0].path == path then Some(txs[0])
    else TxFor(txs[1..], path)
  }

  function SourceFor(ops: seq<PackOp>, path: Path): Option<PackOp> {
    if ops == [] then None
    else if ops[0].path == path then Some(ops[0])
    else SourceFor(ops[1..], path)
  }

  function BackupFor(backups: seq<Backup>, path: Path): Option<Backup> {
    if backups == [] then None
    else if backups[0].path == path then Some(backups[0])
    else BackupFor(backups[1..], path)
  }

  /** classifyRepair: the same tests, in the same order, as for a registered operation. */
  function Classify(sha: Bytes -> Digest, op: RepairOp, current: Option<File>): Class {
    match op.kind
    case Create =>
      if current.None? then Transaction.Preimage
      else if Some(sha(current.value.bytes)) == op.post then Transaction.Postimage else Transaction.Ambiguous
    case Delete =>
      if current.None? then Transaction.Postimage
      else if Some(sha(current.value.bytes)) == op.pre then Transaction.Preimage else Transaction.Ambiguous
    case Replace =>
      if current.None? then Transaction.Ambiguous
      else if Some(sha(current.value.bytes)) == op.pre then Transaction.Preimage
      else if Some(sha(current.value.bytes)) == op.post then Transaction.Postimage
      else Transaction.Ambiguous
  }

  /** The decoded postimage of a create or replace, None when its digest does not match. */
  function Payload(sha: Bytes -> Digest, op: RepairOp): Option<Bytes> {
    if op.kind.Delete? || op.payload.None? || op.post != Some(sha(op.payload.value)) then None else op.payload
  }

  function ModeOr(mode: Option<nat>): nat {
    if mode.Some? then mode.value else CREATED_MODE
  }

  // ----- Apply ---------------------------------------------------------------------------

  function WriteOp(context: Context, m: State, op: RepairOp): State {
    var read := m.Read(op.path);
    if !read.status.Running? then read
    else
      var current := At(read.tree, op.path);
      var payload := Payload(context.sha, op);
      match op.kind
      case Create =>
        var tx := TxFor(m.memory.txs, op.path);
        if tx.None? || payload.None? then read.Throw()
        else read.Write(op.path, File(payload.value, ModeOr(tx.value.mode)), true)
      case Replace =>
        if current.None? || Some(context.sha(current.value.bytes)) != op.pre || payload.None? then read.Throw()
        else read.Write(op.path, File(payload.value, current.value.mode), false)
      case Delete =>
        if current.None? || Some(context.sha(current.value.bytes)) != op.pre then read.Throw()
        else read.Remove(op.path)
  }

  function ApplyOne(context: Context, m: State, op: RepairOp): State {
    var read := m.Read(op.path);
    if !read.status.Running? then read
    else
      var found := Classify(context.sha, op, At(read.tree, op.path));
      if found.Ambiguous? then read.Throw()
      else if found.Postimage? then read
      else
        var written := WriteOp(context, read, op);
        if !written.status.Running? then written
        else
          var checked := written.Read(op.path);
          if !checked.status.Running? then checked
          else if !Classify(context.sha, op, At(checked.tree, op.path)).Postimage? then checked.Throw()
          else checked
  }

  function ApplyAll(context: Context, m: State, ops: seq<RepairOp>): State
    decreases |ops|
  {
    if ops == [] || !m.status.Running? then m
    else ApplyAll(context, ApplyOne(context, m, ops[0]), ops[1..])
  }

  // ----- Rollback ------------------------------------------------------------------------

  /** restoreOriginalPostimage: rewrite the registered postimage of a path. */
  function RestoreOriginal(context: Context, m: State, path: Path): State {
    var source, tx := SourceFor(context.pack.ops, path), TxFor(m.memory.txs, path);
    if source.None? || tx.None? then m.Throw()
    else
      var entry := source.value.payloadEntry;
      var missing := !source.value.kind.Delete? && (entry.None? || entry.value !in context.pack.entries);
      if missing then m.Throw()
      else
        var read := m.Read(path);
        if !read.status.Running? then read
        else
          var current := At(read.tree, path);
          if source.value.kind.Delete? then
            if current.Some? then read.Remove(path) else read
          else if tx.value.post.None? then read.Throw()
          else if current.Some? && Some(context.sha(current.value.bytes)) == tx.value.post then read
          else
            var mode := if source.value.kind.Create? then CREATED_MODE else ModeOr(tx.value.mode);
            read.Write(path, File(context.pack.entries[entry.value], mode), current.None?)
  }

  /** Write one repaired path back: from its generation backup, else from the registered pack. */
  function Restore(context: Context, m: State, op: RepairOp): State {
    var backup := BackupFor(m.memory.backups, op.path);
    if backup.None? then RestoreOriginal(context, m, op.path)
    else
      var readBackup := m.Effect(backup.value.name in context.installed, m);
      if !readBackup.status.Running? then readBackup
      else
        var bytes := context.installed[backup.value.name];
        if context.sha(bytes) != backup.value.sha || Some(backup.value.sha) != op.pre then readBackup.Throw()
        else
          var read := readBackup.Read(op.path);
          if !read.status.Running? then read
          else read.Write(op.path, File(bytes, backup.value.mode), At(read.tree, op.path).None?)
  }

  /** One iteration of rollbackRepairs; an ambiguous target throws. */
  function UndoOne(context: Context, m: State, op: RepairOp): State {
    var read := m.Read(op.path);
    if !read.status.Running? then read
    else
      var found := Classify(context.sha, op, At(read.tree, op.path));
      if found.Ambiguous? then read.Throw()
      else if found.Preimage? then read
      else if op.kind.Create? then read.Remove(op.path)
      else
        var restored := Restore(context, read, op);
        if !restored.status.Running? then restored
        else
          var checked := restored.Read(op.path);
          if !checked.status.Running? then checked
          else if !Classify(context.sha, op, At(checked.tree, op.path)).Preimage? then checked.Throw()
          else checked
  }

  function UndoAll(context: Context, m: State, ops: seq<RepairOp>): State
    decreases |ops|
  {
    if ops == [] || !m.status.Running? then m
    else UndoAll(context, UndoOne(context, m, ops[|ops| - 1]), ops[..|ops| - 1])
  }

  function Enter(m: State, state: RepairState, stage: Stage): State {
    m.(memory := m.memory.(state := state, stage := stage))
  }

  /** applyReviewerRepair. */
  function Apply(context: Context, m: State): State {
    if m.memory.state.Applied? then m
    else
      var begun := Enter(m, Applying, RepairApplying).Save();
      if !begun.status.Running? then begun
      else
        var done := ApplyAll(context, begun, begun.memory.ops);
        match done.status
        case Crashed => done
        case Running =>
          var applied := Enter(done, Applied, RepairApplied);
          applied.(memory := applied.memory.(verified := false)).Save()
        case Threw =>
          var back := UndoAll(context, done.(status := Running), done.memory.ops);
          if !back.status.Running? then back
          else
            var saved := Enter(back, Proposed, Reviewing).Save();
            if saved.status.Running? then saved.Throw() else saved
  }

  function Resume(m: State, faults: seq<Fault>): State {
    Machine(m.tree, m.durable, m.durable, faults, Running)
  }

  function Run(context: Context, m: State, schedules: seq<seq<Fault>>): State
    decreases |schedules|
  {
    if schedules == [] then m
    else Run(context, Apply(context, Resume(m, schedules[0])), schedules[1..])
  }
}
