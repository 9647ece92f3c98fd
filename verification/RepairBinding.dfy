/**
 Binding a repair to the worktree it found, and the chain of generations: every bind of a
 sequence of repairs on a finished transaction makes the repair all-or-nothing.
 */
module RepairBinding {
  import opened Prelude
  import opened Effects
  import opened Repair
  import opened RepairSafety
  import Transaction
  import TransactionSafety

  const MAX_REPAIR_OPERATIONS: nat := 16
  const MAX_REPAIR_PAYLOAD_BYTES: nat := 256 * 1024

  function PayloadBytes(ops: seq<RepairOp>): nat {
    if ops == [] then 0
    else PayloadBytes(ops[..|ops| - 1]) + (if ops[|ops| - 1].payload.Some? then |ops[|ops| - 1].payload.value| else 0)
  }

  /** The checks of validateRepair on one proposed operation. */
  predicate WellFormedOp(sha: Bytes -> Digest, op: RepairOp) {
    && (op.kind.Create? <==> op.pre.None?)
    && if op.kind.Delete? then op.payload.None? && op.post.None? else Payload(sha, op).Some?
  }

  predicate WellFormed(sha: Bytes -> Digest, ops: seq<RepairOp>) {
    && 1 <= |ops| <= MAX_REPAIR_OPERATIONS
    && PayloadBytes(ops) <= MAX_REPAIR_PAYLOAD_BYTES
    && (forall i :: 0 <= i < |ops| ==> WellFormedOp(sha, ops[i]))
    && (forall i, j :: 0 <= i < j < |ops| ==> ops[i].id != ops[j].id && ops[i].path != ops[j].path)
  }

  /** The operations of a repair, test by test: identifiers, paths, digests, payloads, and their number and size. */
  method ValidateOperations(sha: Bytes -> Digest, ops: seq<RepairOp>) returns (ok: bool)
    ensures ok <==> WellFormed(sha, ops)
  {
    if |ops| < 1 || |ops| > 16 {
      return false;
    }
    var ids: set<string>, paths: set<Path> := {}, {};
    var payloadBytes, i := 0, 0;
    while i < |ops|
      invariant i <= |ops| && payloadBytes == PayloadBytes(ops[..i])
      invariant forall id :: id in ids <==> exists j :: 0 <= j < i && ops[j].id == id
      invariant forall path :: path in paths <==> exists j :: 0 <= j < i && ops[j].path == path
      invariant forall j :: 0 <= j < i ==> WellFormedOp(sha, ops[j])
      invariant forall j, k :: 0 <= j < k < i ==> ops[j].id != ops[k].id && ops[j].path != ops[k].path
    {
      var op := ops[i];
      if op.id in ids || op.path in paths {
        return false;
      }
      var one := ValidateOperation(sha, op);
      if !one {
        return false;
      }
      assert ops[..i + 1][..i] == ops[..i];
      payloadBytes := payloadBytes + match op.payload { case None => 0 case Some(bytes) => |bytes| };
      ids, paths := ids + {op.id}, paths + {op.path};
      i := i + 1;
    }
    assert ops[..i] == ops;
    ok := payloadBytes <= 256 * 1024;
  }

  method ValidateOperation(sha: Bytes -> Digest, op: RepairOp) returns (ok: bool)
    ensures ok <==> WellFormedOp(sha, op)
  {
    if (op.kind == Transaction.Create && op.pre != None) || (op.kind != Transaction.Create && op.pre == None) {
      return false;
    }
    if op.kind == Transaction.Delete {
      return op.payload == None && op.post == None;
    }
    if op.payload == None || op.post == None {
      return false;
    }
    ok := sha(op.payload.value) == op.post.value;
  }

  /** What makes an operation bindable, by kind, and which files it needs backed up. */
  lemma BindableIs(sha: Bytes -> Digest, txs: seq<Tx>, tree: Tree, op: RepairOp)
    ensures Bindable(sha, txs, tree, op) <==>
            TxFor(txs, op.path).Some?
            && match op.kind
               case Create => op.path !in tree
               case Replace =>
                 op.path in tree && |tree[op.path].bytes| <= 8 * 1024 * 1024 && op.pre == Some(sha(tree[op.path].bytes))
               case Delete =>
                 op.path in tree && |tree[op.path].bytes| <= 8 * 1024 * 1024 && op.pre == Some(sha(tree[op.path].bytes))
    ensures NeedsBackup(sha, txs, tree, op) <==>
            && (op.kind == Transaction.Replace || op.kind == Transaction.Delete) && op.path in tree
            && (TxFor(txs, op.path) == None || TxFor(txs, op.path).value.post != Some(sha(tree[op.path].bytes)))
  {
  }

  /** assertProposalPreimages on one operation: a registered path at its proposed preimage. */
  predicate Bindable(sha: Bytes -> Digest, txs: seq<Tx>, tree: Tree, op: RepairOp) {
    && TxFor(txs, op.path).Some?
    && (op.path in tree ==> |tree[op.path].bytes| <= MAX_FILE_BYTES)
    && Classify(sha, op, At(tree, op.path)).Preimage?
  }

  /** The bytes of this path need a generation backup: they are not the registered postimage. */
  predicate NeedsBackup(sha: Bytes -> Digest, txs: seq<Tx>, tree: Tree, op: RepairOp) {
    && !op.kind.Create?
    && op.path in tree
    && !(TxFor(txs, op.path).Some? && TxFor(txs, op.path).value.post == Some(sha(tree[op.path].bytes)))
  }

  ghost predicate Captured(sha: Bytes -> Digest, evidence: Digest, tree: Tree, op: RepairOp, backups: seq<Backup>,
                           installed: map<GenerationName, Bytes>)
  {
    && op.path in tree
    && var file := tree[op.path];
    var name := GenerationName(evidence, op.id, sha(file.bytes));
    && Backup(op.path, sha(file.bytes), name, file.mode) in backups
    && name in installed && installed[name] == file.bytes
  }

  /**
   bindWebReviewRepair on the worktree: refuse a stale or unregistered target, then install a
   backup of every file whose bytes the registered pack cannot restore. The same name always
   holds the same bytes, so backups left by an interrupted bind are kept.
   */
  method BindWeb(sha: Bytes -> Digest, pack: Pack, txs: seq<Tx>, ops: seq<RepairOp>, evidence: Digest, tree: Tree,
                 store: map<GenerationName, Bytes>)
    returns (bound: Option<Receipt>, installed: map<GenerationName, Bytes>)
    requires CollisionFree(sha) && WellNamed(sha, store)
    ensures bound.Some? <==> WellFormed(sha, ops) && forall i :: 0 <= i < |ops| ==> Bindable(sha, txs, tree, ops[i])
    ensures bound.Some? && Registered(sha, pack, txs) && AuthorityModes(txs, tree) ==>
              var context := Context(sha, pack, installed, tree);
              Sound(context, bound.value) && Safe(context, bound.value,
                                                  Machine(tree, bound.value, bound.value, [], Running))
    ensures Kept(store, installed) && WellNamed(sha, installed)
    ensures bound.Some? ==>
              && bound.value.state == Proposed && bound.value.stage == Reviewing && bound.value.verified
              && bound.value.ops == ops && bound.value.txs == txs
  {
    hide Registered, AuthorityModes, Sound, Safe, WellFormedOp;
    if !WellFormed(sha, ops) {
      return None, store;
    }
    var k := 0;
    while k < |ops|
      invariant k <= |ops|
      invariant forall i :: 0 <= i < k ==> Bindable(sha, txs, tree, ops[i])
    {
      if !Bindable(sha, txs, tree, ops[k]) {
        return None, store;
      }
      k := k + 1;
    }
    var backups;
    backups, installed := Capture(sha, txs, ops, evidence, tree, store);
    bound := Some(Receipt(Proposed, Reviewing, true, ops, backups, txs));
    if Registered(sha, pack, txs) && AuthorityModes(txs, tree) {
      forall i | 0 <= i < |ops|
        ensures if NeedsBackup(sha, txs, tree, ops[i]) then HasBackup(installed, tree, bound.value, ops[i])
                else BackupFor(backups, ops[i].path).None?
      {
        BackupLookup(sha, evidence, txs, tree, ops, backups, installed, i);
      }
      BoundIsSound(Context(sha, pack, installed, tree), bound.value);
    }
  }

  /** captureGenerationPreimages. */
  method Capture(sha: Bytes -> Digest, txs: seq<Tx>, ops: seq<RepairOp>, evidence: Digest, tree: Tree,
                 store: map<GenerationName, Bytes>)
    returns (backups: seq<Backup>, installed: map<GenerationName, Bytes>)
    requires CollisionFree(sha) && WellNamed(sha, store)
    ensures forall i :: 0 <= i < |ops| && NeedsBackup(sha, txs, tree, ops[i]) ==>
              Captured(sha, evidence, tree, ops[i], backups, installed)
    ensures forall b :: b in backups ==> exists i :: 0 <= i < |ops| && Origin(sha, evidence, txs, tree, ops[i], b)
    ensures Kept(store, installed) && WellNamed(sha, installed)
  {
    installed, backups := store, [];
    var k := 0;
    while k < |ops|
      invariant k <= |ops|
      invariant forall i :: 0 <= i < k && NeedsBackup(sha, txs, tree, ops[i]) ==>
                  Captured(sha, evidence, tree, ops[i], backups, installed)
      invariant forall b :: b in backups ==> exists i :: 0 <= i < k && Origin(sha, evidence, txs, tree, ops[i], b)
      invariant Kept(store, installed) && WellNamed(sha, installed)
    {
      var op := ops[k];
      if NeedsBackup(sha, txs, tree, op) {
        var file := tree[op.path];
        var name := GenerationName(evidence, op.id, sha(file.bytes));
        assert name in installed ==> installed[name] == file.bytes;
        installed := installed[name := file.bytes];
        backups := backups + [Backup(op.path, sha(file.bytes), name, file.mode)];
        assert Origin(sha, evidence, txs, tree, ops[k], backups[|backups| - 1]);
      }
      k := k + 1;
    }
  }

  /** A backup file is named by the digest of its bytes. */
  ghost predicate WellNamed(sha: Bytes -> Digest, store: map<GenerationName, Bytes>) {
    forall name :: name in store ==> name.sha == sha(store[name])
  }

  ghost predicate Kept(store: map<GenerationName, Bytes>, installed: map<GenerationName, Bytes>) {
    forall name :: name in store ==> name in installed && installed[name] == store[name]
  }

  ghost predicate Origin(sha: Bytes -> Digest, evidence: Digest, txs: seq<Tx>, tree: Tree, op: RepairOp,
                         backup: Backup) {
    && NeedsBackup(sha, txs, tree, op)
    && backup == Backup(op.path, sha(tree[op.path].bytes), GenerationName(evidence, op.id, sha(tree[op.path].bytes)),
                        tree[op.path].mode)
  }

  ghost predicate HasBackup(installed: map<GenerationName, Bytes>, tree: Tree, receipt: Receipt, op: RepairOp) {
    && BackupFor(receipt.backups, op.path).Some?
    && op.path in tree
    && var backup := BackupFor(receipt.backups, op.path).value;
    && backup.name in installed && installed[backup.name] == tree[op.path].bytes
    && backup.mode == tree[op.path].mode
    && backup.sha == backup.name.sha
  }

  lemma {:induction false} BackupForIsIn(backups: seq<Backup>, path: Path)
    ensures BackupFor(backups, path).Some? ==>
              BackupFor(backups, path).value in backups && BackupFor(backups, path).value.path == path
    ensures BackupFor(backups, path).None? ==> forall b :: b in backups ==> b.path != path
  {
    if backups != [] && backups[0].path != path {
      BackupForIsIn(backups[1..], path);
      assert backups == [backups[0]] + backups[1..];
    }
  }

  lemma BackupLookup(sha: Bytes -> Digest, evidence: Digest, txs: seq<Tx>, tree: Tree, ops: seq<RepairOp>,
                     backups: seq<Backup>, installed: map<GenerationName, Bytes>, i: nat)
    requires i < |ops|
    requires forall i, j :: 0 <= i < j < |ops| ==> ops[i].path != ops[j].path
    requires NeedsBackup(sha, txs, tree, ops[i]) ==> Captured(sha, evidence, tree, ops[i], backups, installed)
    requires forall b :: b in backups ==> exists i :: 0 <= i < |ops| && Origin(sha, evidence, txs, tree, ops[i], b)
    ensures NeedsBackup(sha, txs, tree, ops[i]) ==>
              HasBackup(installed, tree, Receipt(Proposed, Reviewing, true, ops, backups, txs), ops[i])
    ensures !NeedsBackup(sha, txs, tree, ops[i]) ==> BackupFor(backups, ops[i].path).None?
  {
    BackupForIsIn(backups, ops[i].path);
    if BackupFor(backups, ops[i].path).Some? {
      var b := BackupFor(backups, ops[i].path).value;
      var j :| 0 <= j < |ops| && Origin(sha, evidence, txs, tree, ops[j], b);
      assert j == i;
    }
  }

  // ----- What the pack and the transaction guarantee --------------------------------------

  /** Every transaction entry restores from the registered pack exactly what it wrote. */
  ghost predicate Registered(sha: Bytes -> Digest, pack: Pack, txs: seq<Tx>) {
    forall path :: TxFor(txs, path).Some? && TxFor(txs, path).value.post.Some? ==>
      var source, tx := SourceFor(pack.ops, path), TxFor(txs, path).value;
      && source.Some? && !source.value.kind.Delete?
      && source.value.payloadEntry.Some? && source.value.payloadEntry.value in pack.entries
      && Some(sha(pack.entries[source.value.payloadEntry.value])) == tx.post
      && (source.value.kind.Create? ==> tx.mode.None?)
  }

  /** Every registered file carries the mode its transaction entry prescribes. */
  ghost predicate AuthorityModes(txs: seq<Tx>, tree: Tree) {
    forall path :: TxFor(txs, path).Some? && path in tree ==> tree[path].mode == ModeOr(TxFor(txs, path).value.mode)
  }

  lemma {:induction false} PayloadBounded(sha: Bytes -> Digest, ops: seq<RepairOp>, i: nat)
    requires i < |ops| && ops[i].payload.Some?
    ensures |ops[i].payload.value| <= PayloadBytes(ops)
  {
    if i < |ops| - 1 {
      assert ops[..|ops| - 1][i] == ops[i];
      PayloadBounded(sha, ops[..|ops| - 1], i);
    }
  }

  lemma BoundIsSound(context: Context, receipt: Receipt)
    requires CollisionFree(context.sha) && WellFormed(context.sha, receipt.ops)
    requires Registered(context.sha, context.pack, receipt.txs) && AuthorityModes(receipt.txs, context.bound)
    requires receipt.state.Proposed? && receipt.stage.Reviewing?
    requires WellNamed(context.sha, context.installed)
    requires forall i :: 0 <= i < |receipt.ops| ==> Bindable(context.sha, receipt.txs, context.bound, receipt.ops[i])
    requires forall i :: 0 <= i < |receipt.ops| ==>
               if NeedsBackup(context.sha, receipt.txs, context.bound, receipt.ops[i])
               then HasBackup(context.installed, context.bound, receipt, receipt.ops[i])
               else BackupFor(receipt.backups, receipt.ops[i].path).None?
    ensures Sound(context, receipt)
    ensures Safe(context, receipt, Machine(context.bound, receipt, receipt, [], Running))
  {
    forall i | 0 <= i < |receipt.ops| ensures SoundOp(context, receipt, receipt.ops[i]) {
      var op := receipt.ops[i];
      assert Bindable(context.sha, receipt.txs, context.bound, op) && WellFormedOp(context.sha, op);
      if op.payload.Some? {
        PayloadBounded(context.sha, receipt.ops, i);
      }
      if !op.kind.Create? {
        BoundFileRestores(context, receipt, op);
      }
    }
  }

  lemma BoundFileRestores(context: Context, receipt: Receipt, op: RepairOp)
    requires CollisionFree(context.sha) && !op.kind.Create?
    requires Registered(context.sha, context.pack, receipt.txs) && AuthorityModes(receipt.txs, context.bound)
    requires WellNamed(context.sha, context.installed)
    requires Bindable(context.sha, receipt.txs, context.bound, op)
    requires if NeedsBackup(context.sha, receipt.txs, context.bound, op)
             then HasBackup(context.installed, context.bound, receipt, op)
             else BackupFor(receipt.backups, op.path).None?
    ensures Restorable(context, receipt, op)
  {
  }

  // ----- The chain of generations ---------------------------------------------------------

  /** A finished transaction has the prescribed modes. */
  lemma FinishedModes(context: Transaction.Context, tree: Tree, ops: seq<Tx>)
    requires TransactionSafety.Sound(context, ops) && TransactionSafety.Finished(context, tree, ops)
    ensures AuthorityModes(ops, tree)
  {
    forall path | TxFor(ops, path).Some? && path in tree
      ensures tree[path].mode == ModeOr(TxFor(ops, path).value.mode)
    {
      var i := TxForAt(ops, path);
      assert TransactionSafety.SoundOp(context, ops[i]);
      assert At(tree, path) == TransactionSafety.Post(context, ops[i]);
    }
  }

  lemma {:induction false} TxForAt(txs: seq<Tx>, path: Path) returns (i: nat)
    requires TxFor(txs, path).Some?
    ensures i < |txs| && txs[i] == TxFor(txs, path).value && txs[i].path == path
  {
    if txs[0].path == path {
      i := 0;
    } else {
      var j := TxForAt(txs[1..], path);
      i := j + 1;
    }
  }

  /** A completed repair keeps the prescribed modes, so the next generation can be bound on it. */
  lemma GenerationModes(context: Context, plan: Receipt, tree: Tree)
    requires Sound(context, plan) && TreeSafe(context, plan, tree) && AllDone(context, plan, tree)
    requires AuthorityModes(plan.txs, context.bound)
    ensures AuthorityModes(plan.txs, tree)
  {
    forall path | TxFor(plan.txs, path).Some? && path in tree
      ensures tree[path].mode == ModeOr(TxFor(plan.txs, path).value.mode)
    {
      if path in Paths(plan.ops) {
        var i :| 0 <= i < |plan.ops| && plan.ops[i].path == path;
        assert SoundOp(context, plan, plan.ops[i]);
      } else {
        assert At(tree, path) == At(context.bound, path);
      }
    }
  }

  /** A pack that passed the transaction checks is registered in the sense above. */
  lemma SoundIsRegistered(context: Transaction.Context, txs: seq<Tx>)
    requires TransactionSafety.Sound(context, txs)
    requires forall i, j :: 0 <= i < j < |context.pack.ops| ==> context.pack.ops[i].path != context.pack.ops[j].path
    ensures Registered(context.sha, context.pack, txs)
  {
    forall path | TxFor(txs, path).Some? && TxFor(txs, path).value.post.Some?
      ensures var source, tx := SourceFor(context.pack.ops, path), TxFor(txs, path).value;
              && source.Some? && !source.value.kind.Delete?
              && source.value.payloadEntry.Some? && source.value.payloadEntry.value in context.pack.entries
              && Some(context.sha(context.pack.entries[source.value.payloadEntry.value])) == tx.post
              && (source.value.kind.Create? ==> tx.mode.None?)
    {
      var i := TxForAt(txs, path);
      assert TransactionSafety.SoundOp(context, txs[i]);
      SameSource(context.pack.ops, txs[i]);
    }
  }

  /** With distinct paths, looking up by path finds the same pack operation as by identity. */
  lemma {:induction false} SameSource(ops: seq<PackOp>, tx: Tx)
    requires forall i, j :: 0 <= i < j < |ops| ==> ops[i].path != ops[j].path
    requires Transaction.Find(ops, tx.id, tx.path, tx.kind).Some?
    ensures SourceFor(ops, tx.path) == Transaction.Find(ops, tx.id, tx.path, tx.kind)
    ensures SourceFor(ops, tx.path).value in ops
    ensures SourceFor(ops, tx.path).value.kind == tx.kind
  {
    if ops[0].path != tx.path {
      SameSource(ops[1..], tx);
    } else if !(ops[0].id == tx.id && ops[0].kind == tx.kind) {
      FoundPath(ops[1..], tx);
      assert false;
    }
  }

  lemma {:induction false} FoundPath(ops: seq<PackOp>, tx: Tx)
    requires Transaction.Find(ops, tx.id, tx.path, tx.kind).Some?
    ensures exists i :: 0 <= i < |ops| && ops[i].path == tx.path
  {
    if !(ops[0].id == tx.id && ops[0].path == tx.path && ops[0].kind == tx.kind) {
      FoundPath(ops[1..], tx);
      var i :| 0 <= i < |ops| - 1 && ops[1..][i].path == tx.path;
      assert ops[i + 1].path == tx.path;
    }
  }

  /**
   A model reviewer's repair is bound without backups. It is still all-or-nothing, because it is
   bound while the worktree is exactly the finished transaction.
   */
  lemma ModelRepairIsSound(base: Transaction.Context, context: Context, receipt: Receipt)
    requires TransactionSafety.Sound(base, receipt.txs) && TransactionSafety.Finished(base, context.bound, receipt.txs)
    requires forall i, j :: 0 <= i < j < |base.pack.ops| ==> base.pack.ops[i].path != base.pack.ops[j].path
    requires context.sha == base.sha && context.pack == base.pack && context.installed == map[]
    requires WellFormed(context.sha, receipt.ops) && receipt.backups == []
    requires receipt.state.Proposed? && receipt.stage.Reviewing?
    requires forall i :: 0 <= i < |receipt.ops| ==> Bindable(context.sha, receipt.txs, context.bound, receipt.ops[i])
    ensures Sound(context, receipt)
    ensures Safe(context, receipt, Machine(context.bound, receipt, receipt, [], Running))
  {
    SoundIsRegistered(base, receipt.txs);
    FinishedModes(base, context.bound, receipt.txs);
    forall k | 0 <= k < |receipt.ops|
      ensures !NeedsBackup(context.sha, receipt.txs, context.bound, receipt.ops[k])
    {
      var op := receipt.ops[k];
      assert Bindable(context.sha, receipt.txs, context.bound, op);
      var i := TxForAt(receipt.txs, op.path);
      assert TransactionSafety.SoundOp(base, receipt.txs[i]);
      assert At(context.bound, op.path) == TransactionSafety.Post(base, receipt.txs[i]);
    }
    BoundIsSound(context, receipt);
  }
}
