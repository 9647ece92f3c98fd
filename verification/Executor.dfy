/**
 src/executor/applier.ts step by step: methods that change the worktree, the receipts and the
 `applied` flags of a process in place. Each is proved to compute the matching function of
 module Transaction, whose properties are proved in TransactionSafety and TransactionRollback.
 */
module Executor {
  import opened Prelude
  import opened Effects
  import opened Transaction

  type Host = Process<Receipt>

  method WriteOp(context: Context, host: Host, op: Op, payload: Payload)
    requires host.status.Running?
    modifies host
    ensures host.State() == Transaction.WriteOp(context, old(host.State()), op, payload)
  {
    var current := host.Read(op.path);
    if !host.status.Running? {
      return;
    }
    match op.kind
    case Create =>
      if payload.Payload? {
        host.Write(op.path, File(payload.bytes, CREATED_MODE), true);
      } else {
        host.status := Threw;
      }
    case Replace =>
      if current.None? || Some(context.sha(current.value.bytes)) != op.pre || !payload.Payload? {
        host.status := Threw;
      } else {
        host.Write(op.path, File(payload.bytes, if op.mode.Some? then op.mode.value else CREATED_MODE), false);
      }
    case Delete =>
      if current.None? || Some(context.sha(current.value.bytes)) != op.pre {
        host.status := Threw;
      } else {
        host.Remove(op.path);
      }
  }

  method ApplyOne(context: Context, host: Host, i: nat)
    requires host.status.Running? && i < |host.memory.ops|
    modifies host
    ensures host.State() == Transaction.ApplyOne(context, old(host.State()), i)
  {
    hide Transaction.WriteOp, Bound, Classify;
    var op := host.memory.ops[i];
    var payload := Bound(context.sha, context.pack, op);
    if payload.Unbound? {
      host.status := Threw;
      return;
    }
    var current := host.Read(op.path);
    if !host.status.Running? {
      return;
    }
    var found := Classify(context.sha, op, current);
    if found.Ambiguous? {
      host.status := Threw;
      return;
    }
    if found.Preimage? {
      WriteOp(context, host, op, payload);
      if !host.status.Running? {
        return;
      }
    }
    var after := host.Read(op.path);
    if !host.status.Running? {
      return;
    }
    if !Classify(context.sha, op, after).Postimage? {
      host.status := Threw;
      return;
    }
    host.memory := host.memory.Mark(i, true);
    host.Save();
  }

  method Restore(context: Context, host: Host, op: Op)
    requires host.status.Running?
    modifies host
    ensures host.State() == Transaction.Restore(context, old(host.State()), op)
  {
    if op.backupSha.None? || op.backupName.None? || op.mode.None?
       || op.backupName.value != BackupName(op.id, op.backupSha.value) {
      host.status := Threw;
      return;
    }
    var _ := host.Take(op.backupName.value in context.backups);
    if !host.status.Running? {
      return;
    }
    var bytes := context.backups[op.backupName.value];
    if context.sha(bytes) != op.backupSha.value {
      host.status := Threw;
      return;
    }
    host.Write(op.path, File(bytes, op.mode.value), op.kind.Delete?);
  }

  method RollbackOne(context: Context, host: Host, i: nat)
    requires host.status.Running? && i < |host.memory.ops|
    modifies host
    ensures host.State() == Transaction.RollbackOne(context, old(host.State()), i)
  {
    hide Transaction.Restore, Classify;
    var op := host.memory.ops[i];
    var current := host.Read(op.path);
    if !host.status.Running? {
      return;
    }
    var found := Classify(context.sha, op, current);
    if found.Ambiguous? {
      host.status := Threw;
      return;
    }
    if found.Postimage? {
      if op.kind.Create? {
        host.Remove(op.path);
      } else {
        Restore(context, host, op);
      }
      if !host.status.Running? {
        return;
      }
    }
    var after := host.Read(op.path);
    if !host.status.Running? {
      return;
    }
    if !Classify(context.sha, op, after).Preimage? {
      host.status := Threw;
      return;
    }
    host.memory := host.memory.Mark(i, false);
    host.Save();
  }

  method Rollback(context: Context, host: Host)
    requires host.status.Running?
    modifies host
    ensures host.State() == Transaction.Rollback(context, old(host.State()))
  {
    hide Transaction.RollbackOne;
    var unresolved: seq<Path> := [];
    var n := |host.memory.ops|;
    while n > 0 && host.status.Running?
      invariant 0 <= n <= |host.memory.ops| && !host.status.Threw?
      invariant RollbackFrom(context, old(host.State()), |old(host.memory.ops)|, []) == RollbackFrom(context,
              host.State(), n, unresolved)
      decreases n
    {
      n := n - 1;
      if host.memory.ops[n].applied {
        var path := host.memory.ops[n].path;
        RollbackOne(context, host, n);
        if host.status.Threw? {
          unresolved := unresolved + [path];
          host.status := Running;
        }
      }
    }
    if !host.status.Running? {
      return;
    }
    host.memory := host.memory.(phase := if unresolved != [] then Applying else Prepared);
    host.Save();
    if host.status.Running? && unresolved != [] {
      host.status := Threw;
    }
  }

  method Apply(context: Context, host: Host)
    requires host.status.Running?
    modifies host
    ensures host.State() == Transaction.Apply(context, old(host.State()))
  {
    hide Transaction.ApplyOne, Transaction.Rollback;
    if host.memory.phase.Applied? {
      return;
    }
    host.memory := host.memory.(phase := Applying);
    host.Save();
    if !host.status.Running? {
      return;
    }
    ghost var begun := host.State();
    var i := 0;
    while i < |host.memory.ops| && host.status.Running?
      invariant i <= |host.memory.ops|
      invariant ApplyFrom(context, begun, 0) == ApplyFrom(context, host.State(), i)
    {
      ApplyOne(context, host, i);
      i := i + 1;
    }
    if host.status.Threw? {
      host.status := Running;
      Rollback(context, host);
      if host.status.Running? {
        host.status := Threw;
      }
    } else if host.status.Running? {
      host.memory := host.memory.(phase := Applied);
      host.Save();
    }
  }
}
