/**
 src/executor/repair.ts step by step: methods that change the worktree and the repair receipt of
 a process in place, each proved to compute the matching function of module Repair.
 */
module RepairProcess {
  import opened Prelude
  import opened Effects
  import opened Repair

  type Host = Process<Receipt>

  method WriteOp(context: Context, host: Host, op: RepairOp)
    requires host.status.Running?
    modifies host
    ensures host.State() == Repair.WriteOp(context, old(host.State()), op)
  {
    var current := host.Read(op.path);
    if !host.status.Running? {
      return;
    }
    var payload := Payload(context.sha, op);
    match op.kind
    case Create =>
      var tx := TxFor(host.memory.txs, op.path);
      if tx.None? || payload.None? {
        host.status := Threw;
      } else {
        host.Write(op.path, File(payload.value, ModeOr(tx.value.mode)), true);
      }
    case Replace =>
      if current.None? || Some(context.sha(current.value.bytes)) != op.pre || payload.None? {
        host.status := Threw;
      } else {
        host.Write(op.path, File(payload.value, current.value.mode), false);
      }
    case Delete =>
      if current.None? || Some(context.sha(current.value.bytes)) != op.pre {
        host.status := Threw;
      } else {
        host.Remove(op.path);
      }
  }

  method ApplyOne(context: Context, host: Host, op: RepairOp)
    requires host.status.Running?
    modifies host
    ensures host.State() == Repair.ApplyOne(context, old(host.State()), op)
  {
    hide Repair.WriteOp, Classify;
    var current := host.Read(op.path);
    if !host.status.Running? {
      return;
    }
    var found := Classify(context.sha, op, current);
    if found.Ambiguous? {
      host.status := Threw;
      return;
    }
    if found.Postimage? {
      return;
    }
    WriteOp(context, host, op);
    if !host.status.Running? {
      return;
    }
    var after := host.Read(op.path);
    if host.status.Running? && !Classify(context.sha, op, after).Postimage? {
      host.status := Threw;
    }
  }

  method RestoreOriginal(context: Context, host: Host, path: Path)
    requires host.status.Running?
    modifies host
    ensures host.State() == Repair.RestoreOriginal(context, old(host.State()), path)
  {
    var source, tx := SourceFor(context.pack.ops, path), TxFor(host.memory.txs, path);
    if source.None? || tx.None? {
      host.status := Threw;
      return;
    }
    var entry := source.value.payloadEntry;
    if !source.value.kind.Delete? && (entry.None? || entry.value !in context.pack.entries) {
      host.status := Threw;
      return;
    }
    var current := host.Read(path);
    if !host.status.Running? {
      return;
    }
    if source.value.kind.Delete? {
      if current.Some? {
        host.Remove(path);
      }
      return;
    }
    if tx.value.post.None? {
      host.status := Threw;
      return;
    }
    if current.Some? && Some(context.sha(current.value.bytes)) == tx.value.post {
      return;
    }
    var mode := if source.value.kind.Create? then CREATED_MODE else ModeOr(tx.value.mode);
    host.Write(path, File(context.pack.entries[entry.value], mode), current.None?);
  }

  method Restore(context: Context, host: Host, op: RepairOp)
    requires host.status.Running?
    modifies host
    ensures host.State() == Repair.Restore(context, old(host.State()), op)
  {
    hide Repair.RestoreOriginal;
    var backup := BackupFor(host.memory.backups, op.path);
    if backup.None? {
      RestoreOriginal(context, host, op.path);
      return;
    }
    var _ := host.Take(backup.value.name in context.installed);
    if !host.status.Running? {
      return;
    }
    var bytes := context.installed[backup.value.name];
    if context.sha(bytes) != backup.value.sha || Some(backup.value.sha) != op.pre {
      host.status := Threw;
      return;
    }
    var current := host.Read(op.path);
    if host.status.Running? {
      host.Write(op.path, File(bytes, backup.value.mode), current.None?);
    }
  }

  method UndoOne(context: Context, host: Host, op: RepairOp)
    requires host.status.Running?
    modifies host
    ensures host.State() == Repair.UndoOne(context, old(host.State()), op)
  {
    hide Repair.Restore, Classify;
    var current := host.Read(op.path);
    if !host.status.Running? {
      return;
    }
    var found := Classify(context.sha, op, current);
    if found.Ambiguous? {
      host.status := Threw;
      return;
    }
    if found.Preimage? {
      return;
    }
    if op.kind.Create? {
      host.Remove(op.path);
      return;
    }
    Restore(context, host, op);
    if !host.status.Running? {
      return;
    }
    var after := host.Read(op.path);
    if host.status.Running? && !Classify(context.sha, op, after).Preimage? {
      host.status := Threw;
    }
  }

  /** rollbackRepairs: the operations of the repair in reverse order. */
  method Undo(context: Context, host: Host)
    requires host.status.Running?
    modifies host
    ensures host.State() == UndoAll(context, old(host.State()), old(host.memory.ops))
  {
    hide Repair.UndoOne;
    ghost var begun := host.State();
    var ops := host.memory.ops;
    var n := |ops|;
    assert ops[..n] == ops;
    while n > 0 && host.status.Running?
      invariant 0 <= n <= |ops|
      invariant UndoAll(context, begun, ops) == UndoAll(context, host.State(), ops[..n])
      decreases n
    {
      assert ops[..n][..n - 1] == ops[..n - 1];
      n := n - 1;
      UndoOne(context, host, ops[n]);
    }
  }

  method Apply(context: Context, host: Host)
    requires host.status.Running?
    modifies host
    ensures host.State() == Repair.Apply(context, old(host.State()))
  {
    hide Repair.ApplyOne;
    if host.memory.state.Applied? {
      return;
    }
    host.memory := host.memory.(state := Applying, stage := RepairApplying);
    host.Save();
    if !host.status.Running? {
      return;
    }
    ghost var begun := host.State();
    var ops := host.memory.ops;
    var i := 0;
    while i < |ops| && host.status.Running?
      invariant i <= |ops|
      invariant ApplyAll(context, begun, ops) == ApplyAll(context, host.State(), ops[i..])
    {
      assert ops[i..][1..] == ops[i + 1..];
      ApplyOne(context, host, ops[i]);
      i := i + 1;
    }
    if host.status.Threw? {
      host.status := Running;
      Undo(context, host);
      if host.status.Running? {
        host.memory := host.memory.(state := Proposed, stage := Reviewing);
        host.Save();
        if host.status.Running? {
          host.status := Threw;
        }
      }
    } else if host.status.Running? {
      host.memory := host.memory.(state := Applied, stage := RepairApplied, verified := false);
      host.Save();
    }
  }
}
