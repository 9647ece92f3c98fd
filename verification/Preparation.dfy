/**
 Preparing a transaction (prepareExecutorTransaction) and the two checks a resumed process runs
 on the receipt it finds (src/executor/transaction-authority.ts).
 */
module Preparation {
  import opened Prelude
  import opened Effects
  import opened Transaction
  import opened TransactionSafety

  predicate DistinctPack(ops: seq<PackOp>) {
    forall i, j :: 0 <= i < j < |ops| ==> ops[i].id != ops[j].id && ops[i].path != ops[j].path
  }

  /** The registered pack reader bounds every payload. */
  ghost predicate Registered(pack: Pack) {
    forall entry :: entry in pack.entries ==> |pack.entries[entry]| <= MAX_FILE_BYTES
  }

  /** The exact precondition of one operation on the worktree that is being prepared. */
  predicate Fresh(sha: Bytes -> Digest, pack: Pack, tree: Tree, op: PackOp) {
    var current := At(tree, op.path);
    && !PayloadFor(sha, pack, op).Unbound?
    && (current.Some? ==> |current.value.bytes| <= MAX_FILE_BYTES)
    && match op.kind
       case Create => current.None? && op.pre.None?
       case _ => current.Some? && op.pre == Some(sha(current.value.bytes))
  }

  /** Every operation is fresh, its entry is in the receipt, and every file it replaces or deletes is backed up. */
  ghost predicate Covers(sha: Bytes -> Digest, pack: Pack, tree: Tree, backups: map<BackupName, Bytes>, ops: seq<Op>) {
    && DistinctPack(pack.ops) && |ops| == |pack.ops|
    && (forall k :: 0 <= k < |ops| ==>
        Fresh(sha, pack, tree, pack.ops[k]) && ops[k] == Entry(sha, pack, tree, pack.ops[k]))
    && (forall k :: 0 <= k < |ops| && !pack.ops[k].kind.Create? ==> Installed(backups, sha, tree, pack.ops[k]))
  }

  /** Backups are named by the digest of their bytes. */
  ghost predicate WellNamed(sha: Bytes -> Digest, backups: map<BackupName, Bytes>) {
    forall name :: name in backups ==> sha(backups[name]) == name.sha
  }

  ghost predicate Kept(before: map<BackupName, Bytes>, after: map<BackupName, Bytes>) {
    forall name :: name in before ==> name in after && after[name] == before[name]
  }

  /** prepareExecutorTransaction, run by one process after another until a receipt is stored. */
  class Preparer {
    const sha: Bytes -> Digest
    const pack: Pack
    /** The worktree, which preparation only reads. */
    const tree: Tree
    var durable: Option<seq<Op>>
    var backups: map<BackupName, Bytes>
    var faults: seq<Fault>
    var status: Status

    constructor (sha: Bytes -> Digest, pack: Pack, tree: Tree)
      ensures Valid() && durable.None? && this.sha == sha && this.pack == pack && this.tree == tree
      ensures status == Running && faults == [] && backups == map[]
    {
      this.sha, this.pack, this.tree := sha, pack, tree;
      durable, backups, faults, status := None, map[], [], Running;
    }

    /** A stored receipt covers its pack; before that the backups may be incomplete. */
    ghost predicate Valid()
      reads this
    {
      WellNamed(sha, backups) && (durable.Some? ==> Covers(sha, pack, tree, backups, durable.value))
    }

    method Take(allowed: bool) returns (takesEffect: bool)
      modifies `faults, `status
      ensures takesEffect == TakesEffect(if old(faults) == [] then Ok else old(faults)[0], allowed)
      ensures status == StatusAfter(if old(faults) == [] then Ok else old(faults)[0], allowed, old(status))
      ensures faults == if old(faults) == [] then [] else old(faults)[1..]
    {
      var fault := if faults == [] then Ok else faults[0];
      faults := if faults == [] then [] else faults[1..];
      takesEffect, status := TakesEffect(fault, allowed), StatusAfter(fault, allowed, status);
    }

    /** installBackup: a name is taken once; a second installation must bring the same bytes. */
    method Install(name: BackupName, bytes: Bytes)
      requires Valid() && durable.None? && status.Running? && sha(bytes) == name.sha
      modifies `backups, `faults, `status
      ensures Valid() && Kept(old(backups), backups)
      ensures status.Running? ==> name in backups && backups[name] == bytes
      ensures old(faults) == [] && CollisionFree(sha) ==> status.Running? && faults == []
      ensures name in old(backups) ==>
                && backups == old(backups) && faults == old(faults)
                && status == if old(backups)[name] == bytes then Running else Threw
    {
      if name in backups {
        if backups[name] != bytes {
          status := Threw;
        }
        return;
      }
      var done := Take(true);
      if done {
        backups := backups[name := bytes];
      }
    }

    /** Inspect one target and, if it will be replaced or deleted, install its backup. */
    method Inspect(op: PackOp)
      requires Valid() && durable.None? && status.Running?
      modifies `backups, `faults, `status
      ensures Valid() && Kept(old(backups), backups)
      ensures status.Running? ==> Fresh(sha, pack, tree, op) && (!op.kind.Create? ==> Installed(backups, sha, tree, op))
      ensures old(faults) == [] && CollisionFree(sha) ==>
                faults == [] && status == if Fresh(sha, pack, tree, op) then Running else Threw
    {
      var current := At(tree, op.path);
      var _ := Take(current.Some? ==> |current.value.bytes| <= MAX_FILE_BYTES);
      if !status.Running? {
        return;
      }
      if PayloadFor(sha, pack, op).Unbound? {
        status := Threw;
        return;
      }
      if op.kind.Create? {
        if current.Some? || op.pre.Some? {
          status := Threw;
        }
      } else if current.None? || op.pre != Some(sha(current.value.bytes)) {
        status := Threw;
      } else {
        Install(BackupName(op.id, op.pre.value), current.value.bytes);
      }
    }

    /**
     One process: return the stored receipt if there is one; otherwise inspect every target, install
     every backup, and only then write the receipt. A duplicated identifier or path is refused when the
     receipt is validated before it is written.
     */
    method Prepare(schedule: seq<Fault>) returns (ops: Option<seq<Op>>)
      requires Valid()
      modifies `durable, `backups, `faults, `status
      ensures Valid() && Kept(old(backups), backups)
      ensures old(durable).Some? ==> ops == durable == old(durable) && backups == old(backups)
      ensures ops.Some? ==> durable == ops
      ensures old(durable).None? && schedule == [] && CollisionFree(sha) ==>
                (ops.Some? <==> DistinctPack(pack.ops) && forall k :: 0 <= k < |pack.ops| ==>
                 Fresh(sha, pack, tree, pack.ops[k]))
    {
      hide Fresh, Entry, CollisionFree;
      faults, status := schedule, Running;
      if durable.Some? {
        return durable;
      }
      var prepared: seq<Op> := [];
      var k := 0;
      while k < |pack.ops|
        invariant k == |prepared| <= |pack.ops|
        invariant Valid() && durable.None? && status.Running? && Kept(old(backups), backups)
        invariant schedule == [] && CollisionFree(sha) ==> faults == []
        invariant forall j :: 0 <= j < k ==> Fresh(sha, pack, tree, pack.ops[j])
        invariant forall j :: 0 <= j < k ==> prepared[j] == Entry(sha, pack, tree, pack.ops[j])
        invariant forall j :: 0 <= j < k && !pack.ops[j].kind.Create? ==> Installed(backups, sha, tree, pack.ops[j])
      {
        var op := pack.ops[k];
        Inspect(op);
        if !status.Running? {
          return None;
        }
        prepared := prepared + [Entry(sha, pack, tree, op)];
        k := k + 1;
      }
      if !DistinctPack(pack.ops) {
        return None;
      }
      var done := Take(true);
      if done {
        durable := Some(prepared);
      }
      ops := if status.Running? then durable else None;
    }

    /**
     Any number of processes, failing or crashing anywhere: no product file is touched, a stored receipt
     never changes, and whatever is stored is an unmarked, attested and sound plan with all its backups.
     */
    method Run(schedules: seq<seq<Fault>>)
      requires Valid()
      modifies `durable, `backups, `faults, `status
      ensures Valid() && Kept(old(backups), backups) && (old(durable).Some? ==> durable == old(durable))
      ensures durable.Some? ==>
                && BoundToPack(sha, pack, durable.value) && BackupsAttested(sha, backups, durable.value)
                && (forall i :: 0 <= i < |durable.value| ==> !durable.value[i].applied)
                && (CollisionFree(sha) && Registered(pack) ==> Sound(Context(sha, pack, backups, tree), durable.value))
    {
      for k := 0 to |schedules|
        invariant Valid() && Kept(old(backups), backups) && (old(durable).Some? ==> durable == old(durable))
      {
        var _ := Prepare(schedules[k]);
      }
      if durable.Some? {
        PreparedIsAttested(sha, pack, tree, backups, durable.value);
        if CollisionFree(sha) && Registered(pack) {
          PreparedIsSound(sha, pack, tree, backups, durable.value);
        }
      }
    }
  }

  /** A prepared receipt over an untouched worktree is where the safety results start. */
  lemma PreparedIsSafe(context: Context, ops: seq<Op>)
    requires Sound(context, ops)
    ensures var receipt := Receipt(Prepared, ops); Safe(context, ops,
                                                        Machine(context.base, receipt, receipt, [], Running))
  {
  }

  /** The receipt entry of an operation whose precondition holds. */
  function Entry(sha: Bytes -> Digest, pack: Pack, tree: Tree, op: PackOp): Op {
    var payload := PayloadFor(sha, pack, op);
    var post := if payload.Payload? then Some(sha(payload.bytes)) else None;
    if op.kind.Create? || op.pre.None? || At(tree, op.path).None? then
      Op(op.id, op.kind, op.path, None, post, None, None, None, false)
    else
      Op(op.id, op.kind, op.path, op.pre, post, Some(BackupName(op.id, op.pre.value)), op.pre,
         Some(tree[op.path].mode), false)
  }

  ghost predicate Installed(backups: map<BackupName, Bytes>, sha: Bytes -> Digest, tree: Tree, op: PackOp) {
    && op.path in tree
    && BackupName(op.id, sha(tree[op.path].bytes)) in backups
    && backups[BackupName(op.id, sha(tree[op.path].bytes))] == tree[op.path].bytes
  }

  lemma {:induction false} FindAt(ops: seq<PackOp>, k: nat)
    requires k < |ops| && DistinctPack(ops)
    ensures Find(ops, ops[k].id, ops[k].path, ops[k].kind) == Some(ops[k])
  {
    if k > 0 {
      assert ops[0].id != ops[k].id;
      assert ops[1..][k - 1] == ops[k];
      FindAt(ops[1..], k - 1);
    }
  }

  lemma PreparedIsSound(sha: Bytes -> Digest, pack: Pack, tree: Tree, backups: map<BackupName, Bytes>, ops: seq<Op>)
    requires CollisionFree(sha) && Registered(pack) && Covers(sha, pack, tree, backups, ops)
    ensures Sound(Context(sha, pack, backups, tree), ops)
  {
    forall k | 0 <= k < |ops| ensures SoundOp(Context(sha, pack, backups, tree), ops[k]) {
      FindAt(pack.ops, k);
      assert Fresh(sha, pack, tree, pack.ops[k]);
    }
  }

  // ----- The checks of a resumed process -------------------------------------------------

  /** The transaction entry a lookup table keyed by identifier would return: the last one. */
  function ById(ops: seq<Op>, id: string): Option<Op> {
    if ops == [] then None
    else if ops[|ops| - 1].id == id then Some(ops[|ops| - 1])
    else ById(ops[..|ops| - 1], id)
  }

  predicate AssertOne(sha: Bytes -> Digest, pack: Pack, op: Op, source: PackOp) {
    var payload := PayloadFor(sha, pack, source);
    var post := if payload.Payload? then Some(sha(payload.bytes)) else None;
    && !payload.Unbound?
    && op.id == source.id && op.kind == source.kind && op.path == source.path && op.pre == source.pre && op.post == post
    && (if source.kind.Create? then op.backupName.None? && op.backupSha.None? && op.mode.None?
        else
          && op.backupName == (if source.pre.None? then None else Some(BackupName(source.id, source.pre.value)))
          && op.backupSha == source.pre
          && op.mode.Some?)
  }

  /** assertExecutorTransactionBoundToPack. */
  predicate BoundToPack(sha: Bytes -> Digest, pack: Pack, ops: seq<Op>) {
    && |ops| == |pack.ops|
    && forall k :: 0 <= k < |pack.ops| ==>
         var found := ById(ops, pack.ops[k].id);
         found.Some? && AssertOne(sha, pack, found.value, pack.ops[k])
  }

  /** attestExecutorTransactionBackups. */
  predicate BackupsAttested(sha: Bytes -> Digest, backups: map<BackupName, Bytes>, ops: seq<Op>) {
    forall i :: 0 <= i < |ops| && !ops[i].kind.Create? ==>
      && ops[i].backupSha.Some?
      && ops[i].backupName == Some(BackupName(ops[i].id, ops[i].backupSha.value))
      && ops[i].backupName.value in backups
      && |backups[ops[i].backupName.value]| <= MAX_FILE_BYTES
      && sha(backups[ops[i].backupName.value]) == ops[i].backupSha.value
  }

  predicate DistinctOps(ops: seq<Op>) {
    forall i, j :: 0 <= i < j < |ops| ==> ops[i].id != ops[j].id && ops[i].path != ops[j].path
  }

  lemma {:induction false} ByIdAt(ops: seq<Op>, k: nat)
    requires k < |ops| && DistinctOps(ops)
    ensures ById(ops, ops[k].id) == Some(ops[k])
  {
    if k < |ops| - 1 {
      assert ops[..|ops| - 1][k] == ops[k];
      ByIdAt(ops[..|ops| - 1], k);
    }
  }

  lemma {:induction false} ByIdIsIn(ops: seq<Op>, id: string)
    requires ById(ops, id).Some?
    ensures exists i :: 0 <= i < |ops| && ops[i] == ById(ops, id).value && ops[i].id == id
  {
    if ops[|ops| - 1].id != id {
      ByIdIsIn(ops[..|ops| - 1], id);
      var i :| 0 <= i < |ops| - 1 && ops[..|ops| - 1][i] == ById(ops, id).value && ops[..|ops| - 1][i].id == id;
      assert ops[i] == ops[..|ops| - 1][i];
    } else {
      assert ops[|ops| - 1].id == id;
    }
  }

  lemma PreparedIsAttested(sha: Bytes -> Digest, pack: Pack, tree: Tree, backups: map<BackupName, Bytes>, ops: seq<Op>)
    requires Covers(sha, pack, tree, backups, ops)
    ensures DistinctOps(ops) && BoundToPack(sha, pack, ops) && BackupsAttested(sha, backups, ops)
  {
    forall i, j | 0 <= i < j < |ops| ensures ops[i].id != ops[j].id && ops[i].path != ops[j].path {
      assert pack.ops[i].id != pack.ops[j].id && pack.ops[i].path != pack.ops[j].path;
    }
    forall k | 0 <= k < |ops|
      ensures var found := ById(ops, pack.ops[k].id); found.Some? && AssertOne(sha, pack, found.value, pack.ops[k])
    {
      ByIdAt(ops, k);
      assert Fresh(sha, pack, tree, pack.ops[k]);
    }
    forall i | 0 <= i < |ops| && !ops[i].kind.Create?
      ensures ops[i].backupSha.Some? && ops[i].backupName == Some(BackupName(ops[i].id, ops[i].backupSha.value))
      ensures ops[i].backupName.value in backups && |backups[ops[i].backupName.value]| <= MAX_FILE_BYTES
      ensures sha(backups[ops[i].backupName.value]) == ops[i].backupSha.value
    {
      assert Fresh(sha, pack, tree, pack.ops[i]);
      assert Installed(backups, sha, tree, pack.ops[i]);
    }
  }

  /**
   After any number of processes, failures and crashes the durable receipt still passes both
   checks, so a resume is never refused on an untampered state directory.
   */
  lemma ResumeIsAttested(context: Context, plan: seq<Op>, m: Txn, schedules: seq<seq<Fault>>)
    requires Sound(context, plan) && Safe(context, plan, m) && DistinctOps(plan)
    requires BoundToPack(context.sha, context.pack, plan) && BackupsAttested(context.sha, context.backups, plan)
    ensures var ops := Run(context, m, schedules).durable.ops;
            BoundToPack(context.sha, context.pack, ops) && BackupsAttested(context.sha, context.backups, ops)
  {
    CrashSafety(context, plan, m, schedules);
    hide Run;
    var ops := Run(context, m, schedules).durable.ops;
    forall i, j | 0 <= i < j < |ops| ensures ops[i].id != ops[j].id && ops[i].path != ops[j].path {
      assert ops[i].id == plan[i].id && ops[j].id == plan[j].id && ops[i].path == plan[i].path
             && ops[j].path == plan[j].path;
    }
    forall k | 0 <= k < |context.pack.ops|
      ensures var found := ById(ops, context.pack.ops[k].id);
              found.Some? && AssertOne(context.sha, context.pack, found.value, context.pack.ops[k])
    {
      ByIdIsIn(plan, context.pack.ops[k].id);
      var i :| 0 <= i < |plan| && plan[i] == ById(plan, context.pack.ops[k].id).value
          && plan[i].id == context.pack.ops[k].id;
      assert ops[i] == plan[i].(applied := ops[i].applied);
      ByIdAt(ops, i);
    }
    forall i | 0 <= i < |ops| && !ops[i].kind.Create?
      ensures ops[i].backupSha.Some? && ops[i].backupName == Some(BackupName(ops[i].id, ops[i].backupSha.value))
      ensures ops[i].backupName.value in context.backups
      ensures |context.backups[ops[i].backupName.value]| <= MAX_FILE_BYTES
      ensures context.sha(context.backups[ops[i].backupName.value]) == ops[i].backupSha.value
    {
      assert ops[i] == plan[i].(applied := ops[i].applied);
    }
  }

  /** The worktree that the backups describe: one file for each replaced or deleted path. */
  ghost function BackedUpTree(backups: map<BackupName, Bytes>, ops: seq<Op>): Tree
    requires forall i :: 0 <= i < |ops| && !ops[i].kind.Create? ==>
               ops[i].backupName.Some? && ops[i].backupName.value in backups && ops[i].mode.Some?
    requires DistinctOps(ops)
    decreases |ops|
  {
    if ops == [] then map[]
    else
      var n := |ops| - 1;
      var rest := BackedUpTree(backups, ops[..n]);
      if ops[n].kind.Create? then rest
      else rest[ops[n].path := File(backups[ops[n].backupName.value], ops[n].mode.value)]
  }

  lemma {:induction false} BackedUpAt(backups: map<BackupName, Bytes>, ops: seq<Op>, i: nat)
    requires forall i :: 0 <= i < |ops| && !ops[i].kind.Create? ==>
               ops[i].backupName.Some? && ops[i].backupName.value in backups && ops[i].mode.Some?
    requires DistinctOps(ops) && i < |ops|
    ensures At(BackedUpTree(backups, ops), ops[i].path) ==
            if ops[i].kind.Create? then None else Some(File(backups[ops[i].backupName.value], ops[i].mode.value))
    decreases |ops|
  {
    var n := |ops| - 1;
    if i < n {
      assert ops[..n][i] == ops[i];
      BackedUpAt(backups, ops[..n], i);
    } else {
      NotBackedUp(backups, ops[..n], ops[n].path);
    }
  }

  lemma {:induction false} NotBackedUp(backups: map<BackupName, Bytes>, ops: seq<Op>, path: Path)
    requires forall i :: 0 <= i < |ops| && !ops[i].kind.Create? ==>
               ops[i].backupName.Some? && ops[i].backupName.value in backups && ops[i].mode.Some?
    requires DistinctOps(ops)
    requires forall i :: 0 <= i < |ops| ==> ops[i].path != path
    ensures path !in BackedUpTree(backups, ops)
    decreases |ops|
  {
    if ops != [] {
      NotBackedUp(backups, ops[..|ops| - 1], path);
    }
  }

  /**
   Conversely the two checks are enough: a receipt that passes them, with distinct entries,
   is a sound plan against the worktree that its own backups describe. A resumed process
   therefore needs no record of the original worktree.
   */
  lemma AttestedIsSound(sha: Bytes -> Digest, pack: Pack, backups: map<BackupName, Bytes>, ops: seq<Op>)
    requires CollisionFree(sha) && Registered(pack) && DistinctPack(pack.ops) && DistinctOps(ops)
    requires BoundToPack(sha, pack, ops) && BackupsAttested(sha, backups, ops)
    ensures forall i :: 0 <= i < |ops| && !ops[i].kind.Create? ==>
              ops[i].backupName.Some? && ops[i].backupName.value in backups && ops[i].mode.Some?
    ensures Sound(Context(sha, pack, backups, BackedUpTree(backups, ops)), ops)
  {
    hide BoundToPack, BackupsAttested, Registered, SoundOp, CollisionFree;
    forall i | 0 <= i < |ops| && !ops[i].kind.Create?
      ensures ops[i].backupName.Some? && ops[i].backupName.value in backups && ops[i].mode.Some?
    {
      AttestedEntry(sha, pack, backups, ops, i);
    }
    var base := BackedUpTree(backups, ops);
    forall i | 0 <= i < |ops| ensures SoundOp(Context(sha, pack, backups, base), ops[i]) {
      AttestedOp(sha, pack, backups, ops, i, base);
    }
  }

  /** What the two checks say of one entry, apart from the worktree. */
  lemma AttestedEntry(sha: Bytes -> Digest, pack: Pack, backups: map<BackupName, Bytes>, ops: seq<Op>, i: nat)
    requires DistinctPack(pack.ops) && DistinctOps(ops) && i < |ops|
    requires BoundToPack(sha, pack, ops) && BackupsAttested(sha, backups, ops)
    ensures exists k :: 0 <= k < |pack.ops| && AssertOne(sha, pack, ops[i], pack.ops[k])
    ensures !ops[i].kind.Create? ==> ops[i].backupName.Some? && ops[i].backupName.value in backups && ops[i].mode.Some?
  {
    Covered(sha, pack, ops, i);
    hide BoundToPack;
    var k :| 0 <= k < |pack.ops| && AssertOne(sha, pack, ops[i], pack.ops[k]);
  }

  lemma AttestedOp(sha: Bytes -> Digest, pack: Pack, backups: map<BackupName, Bytes>, ops: seq<Op>, i: nat, base: Tree)
    requires Registered(pack) && DistinctPack(pack.ops) && DistinctOps(ops) && i < |ops|
    requires BoundToPack(sha, pack, ops) && BackupsAttested(sha, backups, ops)
    requires forall i :: 0 <= i < |ops| && !ops[i].kind.Create? ==>
               ops[i].backupName.Some? && ops[i].backupName.value in backups && ops[i].mode.Some?
    requires base == BackedUpTree(backups, ops)
    ensures SoundOp(Context(sha, pack, backups, base), ops[i])
  {
    AttestedEntry(sha, pack, backups, ops, i);
    hide BoundToPack;
    var k :| 0 <= k < |pack.ops| && AssertOne(sha, pack, ops[i], pack.ops[k]);
    FindAt(pack.ops, k);
    BackedUpAt(backups, ops, i);
    hide BackedUpTree, DistinctOps, DistinctPack;
  }

  /** Every transaction entry is the one some pack operation was checked against. */
  lemma Covered(sha: Bytes -> Digest, pack: Pack, ops: seq<Op>, i: nat)
    requires DistinctPack(pack.ops) && DistinctOps(ops) && BoundToPack(sha, pack, ops) && i < |ops|
    ensures exists k :: 0 <= k < |pack.ops| && AssertOne(sha, pack, ops[i], pack.ops[k])
  {
    var packId, opId := (op: PackOp) => op.id, (op: Op) => op.id;
    forall id | id in Image(pack.ops, packId) ensures id in Image(ops, opId) {
      ByIdIsIn(ops, id);
    }
    CountImage(pack.ops, packId);
    CountImage(ops, opId);
    SameSize(Image(pack.ops, packId), Image(ops, opId));
    assert opId(ops[i]) in Image(pack.ops, packId);
    var k :| 0 <= k < |pack.ops| && packId(pack.ops[k]) == ops[i].id;
    ByIdAt(ops, i);
  }

  ghost function Image<T>(s: seq<T>, f: T -> string): set<string> {
    set i | 0 <= i < |s| :: f(s[i])
  }

  lemma {:induction false} CountImage<T>(s: seq<T>, f: T -> string)
    requires forall i, j :: 0 <= i < j < |s| ==> f(s[i]) != f(s[j])
    ensures |Image(s, f)| == |s|
  {
    if s != [] {
      var n := |s| - 1;
      CountImage(s[..n], f);
      assert Image(s, f) == Image(s[..n], f) + {f(s[n])} by {
        assert forall i :: 0 <= i < n ==> s[..n][i] == s[i];
      }
    }
  }

  lemma SameSize<T>(small: set<T>, large: set<T>)
    requires small <= large && |small| == |large|
    ensures small == large
  {
    if small != large {
      var x :| x in large && x !in small;
      assert small <= large - {x};
      SubsetSize(small, large - {x});
    }
  }

  lemma {:induction false} SubsetSize<T>(small: set<T>, large: set<T>)
    requires small <= large
    ensures |small| <= |large|
    decreases small
  {
    if x :| x in small {
      SubsetSize(small - {x}, large - {x});
    }
  }

  // ----- From the pack to the worktree -----------------------------------------------------

  /** The bytes that the pack holds for an operation, under the digest it names. */
  predicate Carried(sha: Bytes -> Digest, pack: Pack, op: PackOp) {
    && op.payloadEntry.Some? && op.payloadEntry.value in pack.entries
    && op.payloadSha == Some(sha(pack.entries[op.payloadEntry.value]))
  }

  /** The worktree holds what the operation expects, no larger than 8 MiB, and the pack what it writes. */
  predicate Expected(sha: Bytes -> Digest, pack: Pack, tree: Tree, op: PackOp) {
    match op.kind
    case Create => op.path !in tree && op.pre == None && Carried(sha, pack, op)
    case Replace =>
      && op.path in tree && |tree[op.path].bytes| <= 8 * 1024 * 1024 && op.pre == Some(sha(tree[op.path].bytes))
      && Carried(sha, pack, op)
    case Delete =>
      op.path in tree && |tree[op.path].bytes| <= 8 * 1024 * 1024 && op.pre == Some(sha(tree[op.path].bytes))
  }

  lemma FreshIsExpected(sha: Bytes -> Digest, pack: Pack, tree: Tree, op: PackOp)
    ensures Fresh(sha, pack, tree, op) <==> Expected(sha, pack, tree, op)
  {
  }

  /** What the pack makes of the path of one operation: new files have the mode rw-r--r--, replaced ones keep theirs. */
  function Wanted(pack: Pack, tree: Tree, op: PackOp): Option<File>
    requires op.kind.Delete? || (op.payloadEntry.Some? && op.payloadEntry.value in pack.entries)
    requires op.kind.Replace? ==> op.path in tree
  {
    match op.kind
    case Create => Some(File(pack.entries[op.payloadEntry.value], 6 * 64 + 4 * 8 + 4))
    case Replace => Some(File(pack.entries[op.payloadEntry.value], tree[op.path].mode))
    case Delete => None
  }

  /** The receipt entry of an expected operation, field by field. */
  lemma EntryIsExact(sha: Bytes -> Digest, pack: Pack, tree: Tree, op: PackOp)
    requires Expected(sha, pack, tree, op)
    ensures var entry := Entry(sha, pack, tree, op);
            && entry.id == op.id && entry.kind == op.kind && entry.path == op.path && entry.pre == op.pre
            && entry.post == (if op.kind == Delete then None else op.payloadSha) && !entry.applied
            && (op.kind == Create ==> entry.backupName == None && entry.backupSha == None && entry.mode == None)
            && (op.kind != Create ==>
                  && entry.backupName == Some(BackupName(op.id, op.pre.value)) && entry.backupSha == op.pre
                  && entry.mode == Some(tree[op.path].mode))
  {
  }

  /**
   The transaction does what its pack says: applied without faults to the worktree that it was prepared on, it ends
   APPLIED with each path of the pack exactly as wanted and every other path as it was, provided that no
   replacement brings the bytes it finds.
   */
  lemma PackIsApplied(sha: Bytes -> Digest, pack: Pack, tree: Tree, backups: map<BackupName, Bytes>, ops: seq<Op>)
    requires CollisionFree(sha) && Registered(pack) && Covers(sha, pack, tree, backups, ops)
    requires forall k :: 0 <= k < |pack.ops| && pack.ops[k].kind == Replace ==>
               pack.ops[k].pre != pack.ops[k].payloadSha
    ensures var r := Apply(Context(sha, pack, backups, tree),
                           Machine(tree, Receipt(Prepared, ops), Receipt(Prepared, ops), [], Running));
            && r.status == Running && r.durable.phase == Applied
            && (forall k :: 0 <= k < |pack.ops| ==>
                  Expected(sha, pack, tree, pack.ops[k])
                  && At(r.tree, pack.ops[k].path) == Wanted(pack, tree, pack.ops[k]))
            && (forall p :: (forall k :: 0 <= k < |pack.ops| ==> pack.ops[k].path != p) ==>
                At(r.tree, p) == At(tree, p))
  {
    var context := Context(sha, pack, backups, tree);
    var receipt := Receipt(Prepared, ops);
    var m := Machine(tree, receipt, receipt, [], Running);
    PreparedIsSound(sha, pack, tree, backups, ops);
    PreparedIsSafe(context, ops);
    forall k | 0 <= k < |ops| ensures ChangesBytes(ops[k]) {
      FreshIsExpected(sha, pack, tree, pack.ops[k]);
      EntryIsExact(sha, pack, tree, pack.ops[k]);
    }
    Completion(context, ops, m);
    ApplySafe(context, ops, m);
    assert Resume(m, []) == m;
    var r := Apply(context, m);
    hide Apply, Sound, Fresh, Entry, ChangesBytes;
    forall k | 0 <= k < |pack.ops|
      ensures Expected(sha, pack, tree, pack.ops[k])
      ensures At(r.tree, pack.ops[k].path) == Wanted(pack, tree, pack.ops[k])
    {
      FreshIsExpected(sha, pack, tree, pack.ops[k]);
      WantedIsPost(sha, pack, tree, backups, ops, k);
      assert At(r.tree, r.durable.ops[k].path) == Post(context, r.durable.ops[k]);
      assert r.durable.ops[k] == ops[k].(applied := r.durable.ops[k].applied);
      FlagFree(context, r.durable.ops[k], ops[k]);
    }
    forall p | forall k :: 0 <= k < |pack.ops| ==> pack.ops[k].path != p ensures At(r.tree, p) == At(tree, p) {
      forall k | 0 <= k < |ops| ensures ops[k].path != p {
        WantedIsPost(sha, pack, tree, backups, ops, k);
      }
    }
  }

  lemma WantedIsPost(sha: Bytes -> Digest, pack: Pack, tree: Tree, backups: map<BackupName, Bytes>, ops: seq<Op>,
                     k: nat)
    requires Covers(sha, pack, tree, backups, ops) && k < |ops|
    ensures Expected(sha, pack, tree, pack.ops[k]) && ops[k].path == pack.ops[k].path
    ensures Post(Context(sha, pack, backups, tree), ops[k]) == Wanted(pack, tree, pack.ops[k])
  {
    FindAt(pack.ops, k);
    FreshIsExpected(sha, pack, tree, pack.ops[k]);
    EntryIsExact(sha, pack, tree, pack.ops[k]);
  }
}
