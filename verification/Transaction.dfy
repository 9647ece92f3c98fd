/**
 The executor transaction of src/executor/applier.ts as a function of a machine value: the
 worktree, the durable receipt, the receipt object held in memory and a fault schedule. Class
 Process in Executor.dfy runs the same steps in place.
 */
module Transaction {
  import opened Prelude
  import opened Effects

  // ----- The registered pack and the receipt ---------------------------------------------

  datatype Kind = Create | Replace | Delete

  datatype PackOp = PackOp(id: string, kind: Kind, path: Path, pre: Option<Digest>,
                           payloadEntry: Option<string>, payloadSha: Option<Digest>)

  datatype Pack = Pack(ops: seq<PackOp>, entries: map<string, Bytes>)

  /** `backups/<op_id>-<sha>.bin`; digests have one fixed length, so the name is this pair. */
  datatype BackupName = BackupName(opId: string, sha: Digest)

  datatype Op = Op(id: string, kind: Kind, path: Path, pre: Option<Digest>, post: Option<Digest>,
                   backupName: Option<BackupName>, backupSha: Option<Digest>, mode: Option<nat>,
                   applied: bool)

  datatype Phase = Prepared | Applying | Applied

  datatype Receipt = Receipt(phase: Phase, ops: seq<Op>) {
    function Mark(i: nat, applied: bool): Receipt
      requires i < |ops|
    {
      this.(ops := ops[i := ops[i].(applied := applied)])
    }
  }

  /** What never changes during a transaction. `base` is the worktree that was prepared. */
  datatype Context = Context(sha: Bytes -> Digest, pack: Pack, backups: map<BackupName, Bytes>, ghost base: Tree)

  type Txn = Machine<Receipt>

  function Enter(m: Txn, phase: Phase): Txn {
    m.(memory := m.memory.(phase := phase))
  }

  function Mark(m: Txn, i: nat, applied: bool): Txn
    requires i < |m.memory.ops|
  {
    m.(memory := m.memory.Mark(i, applied))
  }

  // ----- Classification and pack binding -------------------------------------------------

  datatype Class = Preimage | Postimage | Ambiguous

  /** classifyTarget on the file it read; the preimage test comes first. */
  function Classify(sha: Bytes -> Digest, op: Op, current: Option<File>): Class {
    match op.kind
    case Create =>
      if current.None? then Preimage
      else if Some(sha(current.value.bytes)) == op.post then Postimage else Ambiguous
    case Delete =>
      if current.None? then Postimage
      else if Some(sha(current.value.bytes)) == op.pre then Preimage else Ambiguous
    case Replace =>
      if current.None? then Ambiguous
      else if Some(sha(current.value.bytes)) == op.pre then Preimage
      else if Some(sha(current.value.bytes)) == op.post then Postimage
      else Ambiguous
  }

  datatype Payload = NoPayload | Payload(bytes: Bytes) | Unbound

  /** payloadFor; Unbound is the thrown EXECUTOR_TRANSACTION_INVALID. */
  function PayloadFor(sha: Bytes -> Digest, pack: Pack, op: PackOp): Payload {
    if op.kind.Delete? then NoPayload
    else if op.payloadEntry.None? || op.payloadEntry.value !in pack.entries then Unbound
    else
      var bytes := pack.entries[op.payloadEntry.value];
      if Some(sha(bytes)) == op.payloadSha then Payload(bytes) else Unbound
  }

  function Find(ops: seq<PackOp>, id: string, path: Path, kind: Kind): Option<PackOp> {
    if ops == [] then None
    else if ops[0].id == id && ops[0].path == path && ops[0].kind == kind then Some(ops[0])
    else Find(ops[1..], id, path, kind)
  }

  /** matchingPackOperation followed by payloadFor. */
  function Bound(sha: Bytes -> Digest, pack: Pack, op: Op): Payload {
    match Find(pack.ops, op.id, op.path, op.kind)
    case None => Unbound
    case Some(source) =>
      if source.pre != op.pre then Unbound
      else
        var payload := PayloadFor(sha, pack, source);
        var post := if payload.Payload? then Some(sha(payload.bytes)) else None;
        if payload.Unbound? || post != op.post then Unbound else payload
  }

  // ----- Apply ---------------------------------------------------------------------------

  /** The write of one operation that was classified as a preimage. */
  function WriteOp(context: Context, m: Txn, op: Op, payload: Payload): (r: Txn)
    ensures r.memory == m.memory
  {
    var read := m.Read(op.path);
    if !read.status.Running? then read
    else
      var current := At(read.tree, op.path);
      match op.kind
      case Create =>
        if payload.Payload? then read.Write(op.path, File(payload.bytes, CREATED_MODE), true) else read.Throw()
      case Replace =>
        if current.None? || Some(context.sha(current.value.bytes)) != op.pre || !payload.Payload? then read.Throw()
        else read.Write(op.path, File(payload.bytes, if op.mode.Some? then op.mode.value else CREATED_MODE), false)
      case Delete =>
        if current.None? || Some(context.sha(current.value.bytes)) != op.pre then read.Throw()
        else read.Remove(op.path)
  }

  /** One iteration of the apply loop. */
  function ApplyOne(context: Context, m: Txn, i: nat): (r: Txn)
    requires i < |m.memory.ops|
    ensures |r.memory.ops| == |m.memory.ops|
  {
    var op := m.memory.ops[i];
    var payload := Bound(context.sha, context.pack, op);
    if payload.Unbound? then m.Throw()
    else
      var read := m.Read(op.path);
      if !read.status.Running? then read
      else
        var found := Classify(context.sha, op, At(read.tree, op.path));
        if found.Ambiguous? then read.Throw()
        else
          var written := if found.Preimage? then WriteOp(context, read, op, payload) else read;
          if !written.status.Running? then written
          else
            var checked := written.Read(op.path);
            if !checked.status.Running? then checked
            else if !Classify(context.sha, op, At(checked.tree, op.path)).Postimage? then checked.Throw()
            else Mark(checked, i, true).Save()
  }

  function ApplyFrom(context: Context, m: Txn, i: nat): (r: Txn)
    requires i <= |m.memory.ops|
    ensures |r.memory.ops| == |m.memory.ops|
    decreases |m.memory.ops| - i
  {
    if i == |m.memory.ops| || !m.status.Running? then m
    else ApplyFrom(context, ApplyOne(context, m, i), i + 1)
  }

  // ----- Rollback ------------------------------------------------------------------------

  /** Write a replaced or deleted file back from its installed backup. */
  function Restore(context: Context, m: Txn, op: Op): (r: Txn)
    ensures r.memory == m.memory
  {
    if op.backupSha.None? || op.backupName.None? || op.mode.None? then m.Throw()
    else if op.backupName.value != BackupName(op.id, op.backupSha.value) then m.Throw()
    else
      var read := m.Effect(op.backupName.value in context.backups, m);
      if !read.status.Running? then read
      else
        var bytes := context.backups[op.backupName.value];
        if context.sha(bytes) != op.backupSha.value then read.Throw()
        else read.Write(op.path, File(bytes, op.mode.value), op.kind.Delete?)
  }

  /** The try block of one rollback iteration: Running when resolved, Threw when unresolved. */
  function RollbackOne(context: Context, m: Txn, i: nat): (r: Txn)
    requires i < |m.memory.ops|
    ensures |r.memory.ops| == |m.memory.ops|
  {
    var op := m.memory.ops[i];
    var read := m.Read(op.path);
    if !read.status.Running? then read
    else
      var found := Classify(context.sha, op, At(read.tree, op.path));
      if found.Ambiguous? then read.Throw()
      else
        var undone :=
          if found.Preimage? then read
          else if op.kind.Create? then read.Remove(op.path)
          else Restore(context, read, op);
        if !undone.status.Running? then undone
        else
          var checked := undone.Read(op.path);
          if !checked.status.Running? then checked
          else if !Classify(context.sha, op, At(checked.tree, op.path)).Preimage? then checked.Throw()
          else Mark(checked, i, false).Save()
  }

  /** The rollback loop over operations n-1 down to 0, with the paths left unresolved so far. */
  function RollbackFrom(context: Context, m: Txn, n: nat, unresolved: seq<Path>): (r: (Txn, seq<Path>))
    requires n <= |m.memory.ops|
    ensures |r.0.memory.ops| == |m.memory.ops|
    decreases n
  {
    if n == 0 || !m.status.Running? then (m, unresolved)
    else if !m.memory.ops[n - 1].applied then RollbackFrom(context, m, n - 1, unresolved)
    else
      var one := RollbackOne(context, m, n - 1);
      if one.status.Threw? then
        RollbackFrom(context, one.(status := Running), n - 1, unresolved + [m.memory.ops[n - 1].path])
      else RollbackFrom(context, one, n - 1, unresolved)
  }

  /** rollbackAppliedOperations: Running when it returns normally. */
  function Rollback(context: Context, m: Txn): (r: Txn)
    ensures |r.memory.ops| == |m.memory.ops|
  {
    var (rolled, unresolved) := RollbackFrom(context, m, |m.memory.ops|, []);
    if !rolled.status.Running? then rolled
    else if unresolved != [] then
      var saved := Enter(rolled, Applying).Save();
      if saved.status.Running? then saved.Throw() else saved
    else Enter(rolled, Prepared).Save()
  }

  /** applyExecutorTransaction. */
  function Apply(context: Context, m: Txn): Txn {
    if m.memory.phase.Applied? then m
    else
      var begun := Enter(m, Applying).Save();
      if !begun.status.Running? then begun
      else
        var done := ApplyFrom(context, begun, 0);
        match done.status
        case Crashed => done
        case Running => Enter(done, Applied).Save()
        case Threw =>
          var back := Rollback(context, done.(status := Running));
          if back.status.Running? then back.Throw() else back
  }

  /** A new process reads the durable receipt and gets a fresh schedule. */
  function Resume(m: Txn, faults: seq<Fault>): Txn {
    Machine(m.tree, m.durable, m.durable, faults, Running)
  }

  /** Any number of processes, one after another, each running Apply under its own schedule. */
  function Run(context: Context, m: Txn, schedules: seq<seq<Fault>>): Txn
    decreases |schedules|
  {
    if schedules == [] then m
    else Run(context, Apply(context, Resume(m, schedules[0])), schedules[1..])
  }
}
