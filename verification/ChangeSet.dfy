/**
 Deriving the final worktree from the receipt alone, and attesting the worktree against it
 (src/executor/change-set.ts).
 */
module ChangeSet {
  import opened Prelude
  import opened Effects
  import opened Ordering
  import Transaction
  import TransactionSafety
  import Repair
  import RepairSafety
  import RepairBinding

  type Tx = Transaction.Op
  type RepairOp = Repair.RepairOp

  datatype Final = Final(sha: Option<Digest>, mode: Option<nat>)

  /** The transaction entries and the current repair, if it is APPLIED or VERIFIED. */
  datatype Receipt = Receipt(txs: seq<Tx>, repair: Option<seq<RepairOp>>, runId: string, artifact: Digest,
                             baseCommit: string)

  function RepairFor(ops: seq<RepairOp>, path: Path): Option<RepairOp> {
    if ops == [] then None
    else if ops[0].path == path then Some(ops[0])
    else RepairFor(ops[1..], path)
  }

  function OriginalMode(tx: Tx): Option<nat> {
    if tx.post.None? then None
    else if tx.kind.Create? then Some(CREATED_MODE) else tx.mode
  }

  function EffectiveFinal(receipt: Receipt, tx: Tx): Final {
    var repair := if receipt.repair.None? then None else RepairFor(receipt.repair.value, tx.path);
    match repair
    case None => Final(tx.post, OriginalMode(tx))
    case Some(op) =>
      match op.kind
      case Delete => Final(None, None)
      case Create => Final(op.post, Some(Repair.ModeOr(tx.mode)))
      case Replace =>
        Final(op.post, Some(if OriginalMode(tx).Some? then OriginalMode(tx).value else Repair.ModeOr(tx.mode)))
  }

  function DiffersFromBase(tx: Tx, final: Final): bool {
    if tx.pre.None? then final.sha.Some?
    else if final.sha.None? then true
    else final.sha != tx.pre || final.mode != tx.mode
  }

  function ChangedTxs(receipt: Receipt, txs: seq<Tx>): seq<Path> {
    if txs == [] then []
    else
      (if DiffersFromBase(txs[0], EffectiveFinal(receipt, txs[0])) then [txs[0].path] else [])
      + ChangedTxs(receipt, txs[1..])
  }

  /** effectiveExecutorChangedPaths. */
  function ChangedPaths(receipt: Receipt): seq<Path> {
    Sort(ChangedTxs(receipt, receipt.txs), SelfKey())
  }

  /** What a reader of the worktree sees at a path. */
  function Describe(sha: Bytes -> Digest, file: Option<File>): Final {
    if file.None? then Final(None, None) else Final(Some(sha(file.value.bytes)), Some(file.value.mode))
  }

  // ----- The receipt describes the worktree -----------------------------------------------

  ghost predicate Describes(sha: Bytes -> Digest, receipt: Receipt, tree: Tree) {
    forall i :: 0 <= i < |receipt.txs| ==>
      EffectiveFinal(receipt, receipt.txs[i]) == Describe(sha, At(tree, receipt.txs[i].path))
  }

  /** A registered path that the current repair does not mention. */
  ghost predicate Unrepaired(ops: seq<RepairOp>, path: Path) {
    forall j :: 0 <= j < |ops| ==> ops[j].path != path
  }

  lemma {:induction false} RepairForAt(ops: seq<RepairOp>, path: Path)
    ensures RepairFor(ops, path).None? <==> Unrepaired(ops, path)
    ensures RepairFor(ops, path).Some? ==>
              exists j :: 0 <= j < |ops| && ops[j] == RepairFor(ops, path).value && ops[j].path == path
  {
    if ops != [] && ops[0].path != path {
      RepairForAt(ops[1..], path);
      assert ops == [ops[0]] + ops[1..];
      if RepairFor(ops, path).Some? {
        var j :| 0 <= j < |ops| - 1 && ops[1..][j] == RepairFor(ops, path).value && ops[1..][j].path == path;
        assert ops[j + 1] == RepairFor(ops, path).value;
      }
    } else if ops != [] {
      assert ops[0].path == path;
    }
  }

  lemma {:induction false} TxForIndex(txs: seq<Tx>, i: nat)
    requires i < |txs| && forall a, b :: 0 <= a < b < |txs| ==> txs[a].path != txs[b].path
    ensures Repair.TxFor(txs, txs[i].path) == Some(txs[i])
  {
    if i > 0 {
      assert txs[1..][i - 1] == txs[i];
      TxForIndex(txs[1..], i - 1);
    }
  }

  /** After the transaction alone, the receipt describes the worktree. */
  lemma TransactionIsDescribed(base: Transaction.Context, receipt: Receipt, tree: Tree)
    requires TransactionSafety.Sound(base, receipt.txs) && TransactionSafety.Finished(base, tree, receipt.txs)
    requires receipt.repair.None?
    ensures Describes(base.sha, receipt, tree)
  {
    forall i | 0 <= i < |receipt.txs|
      ensures EffectiveFinal(receipt, receipt.txs[i]) == Describe(base.sha, At(tree, receipt.txs[i].path))
    {
      assert TransactionSafety.SoundOp(base, receipt.txs[i]);
    }
  }

  /** On a path of the current repair the receipt is always right. */
  lemma RepairedPathIsDescribed(base: Transaction.Context, context: Repair.Context, plan: Repair.Receipt,
                                receipt: Receipt, tree: Tree, i: nat)
    requires TransactionSafety.Sound(base, receipt.txs) && context.sha == base.sha
    requires RepairSafety.Sound(context, plan) && RepairSafety.AllDone(context, plan, tree)
    requires plan.txs == receipt.txs && receipt.repair == Some(plan.ops)
    requires RepairBinding.AuthorityModes(receipt.txs, context.bound)
    requires forall k :: 0 <= k < |plan.ops| ==> RepairBinding.WellFormedOp(context.sha, plan.ops[k])
    requires i < |receipt.txs| && !Unrepaired(plan.ops, receipt.txs[i].path)
    ensures EffectiveFinal(receipt, receipt.txs[i]) == Describe(base.sha, At(tree, receipt.txs[i].path))
  {
    var tx := receipt.txs[i];
    RepairForAt(plan.ops, tx.path);
    var j :| 0 <= j < |plan.ops| && plan.ops[j] == RepairFor(plan.ops, tx.path).value && plan.ops[j].path == tx.path;
    TxForIndex(receipt.txs, i);
    assert RepairSafety.SoundOp(context, plan, plan.ops[j]) && RepairBinding.WellFormedOp(context.sha, plan.ops[j]);
    assert TransactionSafety.SoundOp(base, tx);
  }

  /**
   After a final repair generation the receipt describes the worktree exactly when every
   registered path that this generation does not mention is still at its registered postimage.
   The receipt keeps only digests of earlier generations, so it cannot describe what they did.
   */
  lemma EffectiveFinalExact(base: Transaction.Context, context: Repair.Context, plan: Repair.Receipt, receipt: Receipt,
                            tree: Tree)
    requires TransactionSafety.Sound(base, receipt.txs) && context.sha == base.sha
    requires RepairSafety.Sound(context, plan) && RepairSafety.AllDone(context, plan, tree)
             && RepairSafety.TreeSafe(context, plan, tree)
    requires plan.txs == receipt.txs && receipt.repair == Some(plan.ops)
    requires RepairBinding.AuthorityModes(receipt.txs, context.bound)
    requires forall k :: 0 <= k < |plan.ops| ==> RepairBinding.WellFormedOp(context.sha, plan.ops[k])
    ensures Describes(base.sha, receipt, tree) <==>
            forall i :: 0 <= i < |receipt.txs| && Unrepaired(plan.ops, receipt.txs[i].path) ==>
              At(context.bound, receipt.txs[i].path) == TransactionSafety.Post(base, receipt.txs[i])
  {
    hide RepairSafety.Sound, RepairSafety.AllDone;
    forall i | 0 <= i < |receipt.txs|
      ensures var tx := receipt.txs[i];
              EffectiveFinal(receipt, tx) == Describe(base.sha, At(tree, tx.path)) <==>
              (Unrepaired(plan.ops, tx.path) ==> At(context.bound, tx.path) == TransactionSafety.Post(base, tx))
    {
      var tx := receipt.txs[i];
      RepairForAt(plan.ops, tx.path);
      if Unrepaired(plan.ops, tx.path) {
        assert tx.path !in RepairSafety.Paths(plan.ops);
        UnrepairedPath(base, receipt, tree, i);
      } else {
        RepairedPathIsDescribed(base, context, plan, receipt, tree, i);
      }
    }
  }

  lemma UnrepairedPath(base: Transaction.Context, receipt: Receipt, tree: Tree, i: nat)
    requires TransactionSafety.Sound(base, receipt.txs) && i < |receipt.txs|
    requires receipt.repair.None? || RepairFor(receipt.repair.value, receipt.txs[i].path).None?
    ensures var tx := receipt.txs[i];
            EffectiveFinal(receipt, tx) == Describe(base.sha, At(tree, tx.path)) <==>
            At(tree, tx.path) == TransactionSafety.Post(base, tx)
  {
    assert TransactionSafety.SoundOp(base, receipt.txs[i]);
  }

  /** One final generation on a finished transaction: the receipt replays to the worktree. */
  lemma OneGenerationReplays(base: Transaction.Context, context: Repair.Context, plan: Repair.Receipt,
                             receipt: Receipt, tree: Tree)
    requires TransactionSafety.Sound(base, receipt.txs) && TransactionSafety.Finished(base, context.bound, receipt.txs)
    requires context.sha == base.sha && plan.txs == receipt.txs && receipt.repair == Some(plan.ops)
    requires RepairSafety.Sound(context, plan) && RepairSafety.AllDone(context, plan, tree)
             && RepairSafety.TreeSafe(context, plan, tree)
    requires forall k :: 0 <= k < |plan.ops| ==> RepairBinding.WellFormedOp(context.sha, plan.ops[k])
    ensures Describes(base.sha, receipt, tree)
  {
    RepairBinding.FinishedModes(base, context.bound, receipt.txs);
    EffectiveFinalExact(base, context, plan, receipt, tree);
  }

  /** A sound final repair generation that took the worktree from `context.bound` to `tree`. */
  ghost predicate Generation(context: Repair.Context, plan: Repair.Receipt, tree: Tree) {
    && RepairSafety.Sound(context, plan) && RepairSafety.AllDone(context, plan, tree)
    && RepairSafety.TreeSafe(context, plan, tree)
    && forall k :: 0 <= k < |plan.ops| ==> RepairBinding.WellFormedOp(context.sha, plan.ops[k])
  }

  // ----- Two generations over different files -------------------------------------------------

  function TwoFiles(sha: Bytes -> Digest): Transaction.Pack {
    Transaction.Pack(
      [Transaction.PackOp("1", Transaction.Create, "a", None, Some("a"), Some(sha([1]))),
       Transaction.PackOp("2", Transaction.Create, "b", None, Some("b"), Some(sha([2])))],
      map["a" := [1], "b" := [2]])
  }

  function TwoTxs(sha: Bytes -> Digest): seq<Tx> {
    [CreatedTx("1", "a", sha([1])), CreatedTx("2", "b", sha([2]))]
  }

  function FilesAt(a: byte, b: byte): Tree {
    map["a" := File([a], CREATED_MODE), "b" := File([b], CREATED_MODE)]
  }

  lemma TwoFilesFinish(sha: Bytes -> Digest)
    requires CollisionFree(sha)
    ensures var base := Transaction.Context(sha, TwoFiles(sha), map[], map[]);
            TransactionSafety.Sound(base, TwoTxs(sha)) && TransactionSafety.Finished(base, FilesAt(1, 2), TwoTxs(sha))
  {
    var pack, txs := TwoFiles(sha), TwoTxs(sha);
    assert pack.ops[1..] == [pack.ops[1]];
    assert Transaction.Find(pack.ops, "2", "b", Transaction.Create) ==
           Transaction.Find([pack.ops[1]], "2", "b", Transaction.Create);
    assert Transaction.Bound(sha, pack, txs[0]) == Transaction.Payload([1])
           && Transaction.Bound(sha, pack, txs[1]) == Transaction.Payload([2]);
  }

  /** The plan that replaces the one byte of one of the two files. */
  function OneReplace(sha: Bytes -> Digest, path: Path, before: byte, after: byte): Repair.Receipt {
    Repair.Receipt(Repair.Applied, Repair.RepairApplied, false,
                   [Repair.RepairOp("1", Transaction.Replace, path, Some(sha([before])), Some(sha([after])),
                                    Some([after]))], [], TwoTxs(sha))
  }

  lemma OneReplaceIsGeneration(sha: Bytes -> Digest, path: Path, before: byte, after: byte, bound: Tree, tree: Tree)
    requires CollisionFree(sha) && ((path == "a" && before == 1) || (path == "b" && before == 2))
    requires At(bound, path) == Some(File([before], CREATED_MODE)) && tree == bound[path := File([after], CREATED_MODE)]
    ensures Generation(Repair.Context(sha, TwoFiles(sha), map[], bound), OneReplace(sha, path, before, after), tree)
  {
    var pack, txs := TwoFiles(sha), TwoTxs(sha);
    var context, plan := Repair.Context(sha, pack, map[], bound), OneReplace(sha, path, before, after);
    assert pack.ops[1..] == [pack.ops[1]] && txs[1..] == [txs[1]];
    assert Repair.SourceFor(pack.ops, "b") == Repair.SourceFor([pack.ops[1]], "b")
           && Repair.TxFor(txs, "b") == Repair.TxFor([txs[1]], "b");
    assert RepairSafety.RegisteredFile(context, plan, path) == Some(File([before], CREATED_MODE));
    assert RepairSafety.SoundOp(context, plan, plan.ops[0]);
    assert forall p :: p !in RepairSafety.Paths(plan.ops) ==> p != path by {
      assert plan.ops[0].path in RepairSafety.Paths(plan.ops);
    }
  }

  /**
   Two generations over different files: the receipt of the second no longer describes the
   file that only the first one repaired.
   */
  lemma SecondGenerationForgets(sha: Bytes -> Digest)
    returns (base: Transaction.Context, first: Repair.Context, second: Repair.Context,
             one: Repair.Receipt, two: Repair.Receipt, receipt: Receipt, tree: Tree)
    requires CollisionFree(sha)
    ensures base.sha == sha && TransactionSafety.Sound(base, receipt.txs)
            && TransactionSafety.Finished(base, first.bound, receipt.txs)
    ensures Generation(first, one, second.bound) && Generation(second, two, tree)
    ensures one.txs == two.txs == receipt.txs && receipt.repair == Some(two.ops)
    ensures !Describes(sha, receipt, tree)
  {
    TwoFilesFinish(sha);
    OneReplaceIsGeneration(sha, "a", 1, 3, FilesAt(1, 2), FilesAt(3, 2));
    OneReplaceIsGeneration(sha, "b", 2, 4, FilesAt(3, 2), FilesAt(3, 4));
    hide Generation, TransactionSafety.Sound, TransactionSafety.Finished;
    base := Transaction.Context(sha, TwoFiles(sha), map[], map[]);
    one, two := OneReplace(sha, "a", 1, 3), OneReplace(sha, "b", 2, 4);
    receipt := Receipt(TwoTxs(sha), Some(two.ops), "run", "artifact", "base");
    first := Repair.Context(sha, TwoFiles(sha), map[], FilesAt(1, 2));
    second := Repair.Context(sha, TwoFiles(sha), map[], FilesAt(3, 2));
    tree := FilesAt(3, 4);
    RepairForAt(two.ops, "a");
    var bytes: (Bytes, Bytes) := ([1], [3]);
    assert bytes.0[0] != bytes.1[0];
    assert EffectiveFinal(receipt, receipt.txs[0]) != Describe(sha, At(tree, "a"));
  }

  function CreatedTx(id: string, path: Path, post: Digest): Tx {
    Transaction.Op(id, Transaction.Create, path, None, Some(post), None, None, None, true)
  }

  // ----- Attestation ----------------------------------------------------------------------

  datatype Postimage = Postimage(path: Path, final: Final)
  datatype Body = Body(version: string, runId: string, artifact: Digest, baseCommit: string, postimages: seq<Postimage>)

  function PathKey(): Postimage -> string {
    (p: Postimage) => p.path
  }

  function SelfKey(): Path -> string {
    (p: Path) => p
  }

  function Postimages(receipt: Receipt, txs: seq<Tx>): seq<Postimage> {
    if txs == [] then []
    else Postimages(receipt, txs[..|txs| - 1]) + [Postimage(txs[|txs| - 1].path,
                                                            EffectiveFinal(receipt, txs[|txs| - 1]))]
  }

  function DigestBody(receipt: Receipt): Body {
    Body(if receipt.repair.Some? then "1.2" else "1.1", receipt.runId, receipt.artifact, receipt.baseCommit,
         Sort(Postimages(receipt, receipt.txs), PathKey()))
  }

  /** Every create or replace repair carries a postimage, as validateRepair demands. */
  ghost predicate WellFormed(receipt: Receipt) {
    receipt.repair.Some? ==>
      forall k :: 0 <= k < |receipt.repair.value| ==>
          receipt.repair.value[k].kind.Delete? || receipt.repair.value[k].post.Some?
  }

  /** attestExecutorChangeSet: `actual` is the sorted list of changed paths Git reports. */
  method Attest(sha: Bytes -> Digest, hash: Body -> Digest, receipt: Receipt, tree: Tree, actual: seq<Path>)
    returns (digest: Option<Digest>)
    requires WellFormed(receipt)
    ensures digest.Some? <==> actual == ChangedPaths(receipt) && Describes(sha, receipt, tree)
    ensures digest.Some? ==> digest.value == hash(DigestBody(receipt))
  {
    hide EffectiveFinal, ChangedPaths, Sort, WellFormed;
    if actual != ChangedPaths(receipt) {
      return None;
    }
    var postimages: seq<Postimage> := [];
    var i := 0;
    while i < |receipt.txs|
      invariant i <= |receipt.txs|
      invariant forall j :: 0 <= j < i ==>
                  EffectiveFinal(receipt, receipt.txs[j]) == Describe(sha, At(tree, receipt.txs[j].path))
      invariant postimages == Postimages(receipt, receipt.txs[..i])
    {
      var tx := receipt.txs[i];
      var expected, current := EffectiveFinal(receipt, tx), At(tree, tx.path);
      AbsentHasNoMode(receipt, tx);
      if expected.sha.None? {
        if current.Some? {
          return None;
        }
        postimages := postimages + [Postimage(tx.path, Final(None, None))];
      } else {
        if current.None? || Some(sha(current.value.bytes)) != expected.sha
           || expected.mode != Some(current.value.mode) {
          return None;
        }
        postimages := postimages + [Postimage(tx.path,
                                              Final(Some(sha(current.value.bytes)), Some(current.value.mode)))];
      }
      assert receipt.txs[..i + 1][..i] == receipt.txs[..i];
      i := i + 1;
    }
    assert receipt.txs[..i] == receipt.txs;
    digest := Some(hash(Body(if receipt.repair.Some? then "1.2" else "1.1", receipt.runId, receipt.artifact,
                             receipt.baseCommit, Sort(postimages, PathKey()))));
  }

  lemma AbsentHasNoMode(receipt: Receipt, tx: Tx)
    requires WellFormed(receipt)
    ensures var final := EffectiveFinal(receipt, tx); final.sha.None? ==> final.mode.None?
  {
    if receipt.repair.Some? {
      RepairForAt(receipt.repair.value, tx.path);
    }
  }

  // ----- What an attestation means --------------------------------------------------------

  ghost predicate Registered(receipt: Receipt, path: Path) {
    exists i :: 0 <= i < |receipt.txs| && receipt.txs[i].path == path
  }

  /** A create records no preimage (prepareExecutorTransaction refuses any other). */
  ghost predicate CreatesFresh(txs: seq<Tx>) {
    forall i :: 0 <= i < |txs| && txs[i].kind.Create? ==> txs[i].pre.None?
  }

  ghost predicate Distinct(s: seq<Path>) {
    forall i, j :: 0 <= i < j < |s| ==> s[i] != s[j]
  }

  /** Git's report for a worktree: sorted, without repetition, exactly the paths that changed. */
  ghost predicate Reports(base: Tree, tree: Tree, actual: seq<Path>) {
    && Ascending(actual)
    && forall p :: p in actual <==> At(base, p) != At(tree, p)
  }

  ghost predicate ChangesAt(receipt: Receipt, txs: seq<Tx>, i: nat, p: Path) {
    i < |txs| && txs[i].path == p && DiffersFromBase(txs[i], EffectiveFinal(receipt, txs[i]))
  }

  lemma PrependDistinct(p: Path, rest: seq<Path>)
    requires Distinct(rest) && p !in rest
    ensures Distinct([p] + rest)
  {
    forall i, j | 0 <= i < j < |rest| + 1 ensures ([p] + rest)[i] != ([p] + rest)[j] {
      assert ([p] + rest)[j] == rest[j - 1];
      if i > 0 {
        assert ([p] + rest)[i] == rest[i - 1];
      }
    }
  }

  lemma {:induction false} ChangedTxsMembers(receipt: Receipt, txs: seq<Tx>)
    requires forall i, j :: 0 <= i < j < |txs| ==> txs[i].path != txs[j].path
    ensures Distinct(ChangedTxs(receipt, txs))
    ensures forall p :: p in ChangedTxs(receipt, txs) <==> exists i: nat :: ChangesAt(receipt, txs, i, p)
  {
    hide EffectiveFinal, DiffersFromBase;
    if txs != [] {
      var rest := ChangedTxs(receipt, txs[1..]);
      ChangedTxsMembers(receipt, txs[1..]);
      forall p | p in rest ensures p != txs[0].path && exists i: nat :: ChangesAt(receipt, txs, i, p) {
        var i: nat :| ChangesAt(receipt, txs[1..], i, p);
        assert txs[i + 1] == txs[1..][i];
        assert ChangesAt(receipt, txs, i + 1, p);
      }
      forall p, i: nat | ChangesAt(receipt, txs, i, p) ensures p in ChangedTxs(receipt, txs) {
        if i > 0 {
          assert txs[1..][i - 1] == txs[i];
          assert ChangesAt(receipt, txs[1..], i - 1, p);
        }
      }
      assert ChangesAt(receipt, txs, 0, txs[0].path) <==> DiffersFromBase(txs[0], EffectiveFinal(receipt, txs[0]));
      PrependDistinct(txs[0].path, rest);
      assert [] + rest == rest;
    }
  }

  lemma DistinctSorted(s: seq<Path>)
    requires Distinct(s)
    ensures var t := Sort(s, SelfKey()); SortedBy(t, SelfKey()) && Distinct(t) && forall p :: p in t <==> p in s
  {
    var t := Sort(s, SelfKey());
    SortSorts(s, SelfKey());
    forall p ensures p in t <==> p in s {
      assert p in t <==> p in multiset(t);
    }
    if i, j :| 0 <= i < j < |t| && t[i] == t[j] {
      MultisetTwice(t, i, j);
      OnceEach(s, t[i]);
    }
  }

  lemma MultisetTwice(t: seq<Path>, i: nat, j: nat)
    requires i < j < |t| && t[i] == t[j]
    ensures multiset(t)[t[i]] >= 2
  {
    assert t == t[..j] + [t[j]] + t[j + 1..];
    assert t[i] in t[..j];
    assert t[i] in multiset(t[..j]);
  }

  lemma {:induction false} OnceEach(s: seq<Path>, p: Path)
    requires Distinct(s)
    ensures multiset(s)[p] <= 1
  {
    if s != [] {
      assert s == [s[0]] + s[1..];
      OnceEach(s[1..], p);
      if s[0] == p {
        assert p !in s[1..];
        assert p !in multiset(s[1..]);
      }
    }
  }

  /** effectiveExecutorChangedPaths is the sorted set of registered paths whose file changed. */
  lemma ChangedPathsExact(base: Transaction.Context, receipt: Receipt, tree: Tree)
    requires TransactionSafety.Sound(base, receipt.txs) && CreatesFresh(receipt.txs)
             && Describes(base.sha, receipt, tree)
    ensures Ascending(ChangedPaths(receipt)) && Distinct(ChangedPaths(receipt))
    ensures forall p :: p in ChangedPaths(receipt) <==> Registered(receipt, p) && At(base.base, p) != At(tree, p)
  {
    hide EffectiveFinal, DiffersFromBase, TransactionSafety.SoundOp;
    ChangedTxsMembers(receipt, receipt.txs);
    DistinctSorted(ChangedTxs(receipt, receipt.txs));
    SortSorts(ChangedTxs(receipt, receipt.txs), SelfKey());
    SortedAscends(ChangedPaths(receipt), SelfKey());
    forall i | 0 <= i < |receipt.txs|
      ensures DiffersFromBase(receipt.txs[i], EffectiveFinal(receipt, receipt.txs[i])) <==>
              At(base.base, receipt.txs[i].path) != At(tree, receipt.txs[i].path)
    {
      DiffersExactly(base, receipt.txs[i], At(tree, receipt.txs[i].path));
    }
    forall p ensures p in ChangedPaths(receipt) <==> Registered(receipt, p) && At(base.base, p) != At(tree, p) {
      if Registered(receipt, p) {
        var i: nat :| i < |receipt.txs| && receipt.txs[i].path == p;
        assert ChangesAt(receipt, receipt.txs, i, p) <==> At(base.base, p) != At(tree, p);
        if k: nat :| ChangesAt(receipt, receipt.txs, k, p) {
          assert k == i;
        }
      }
    }
  }

  lemma DiffersExactly(base: Transaction.Context, tx: Tx, file: Option<File>)
    requires CollisionFree(base.sha) && TransactionSafety.SoundOp(base, tx) && (tx.kind.Create? ==> tx.pre.None?)
    ensures DiffersFromBase(tx, Describe(base.sha, file)) <==> At(base.base, tx.path) != file
  {
  }

  /**
   Attestation is exact: given Git's report, it succeeds if and only if every registered path is
   in the state the receipt derives and no other path differs from the base.
   */
  lemma AttestExact(base: Transaction.Context, receipt: Receipt, tree: Tree, actual: seq<Path>)
    requires TransactionSafety.Sound(base, receipt.txs) && CreatesFresh(receipt.txs) && Reports(base.base, tree, actual)
    ensures actual == ChangedPaths(receipt) && Describes(base.sha, receipt, tree) <==>
            Describes(base.sha, receipt, tree) && forall p :: !Registered(receipt, p) ==>
                At(tree, p) == At(base.base, p)
  {
    hide Describes;
    if Describes(base.sha, receipt, tree) {
      ChangedPathsExact(base, receipt, tree);
      if forall p :: !Registered(receipt, p) ==> At(tree, p) == At(base.base, p) {
        SortedAscends(actual, SelfKey());
        SortedAscends(ChangedPaths(receipt), SelfKey());
        SortedUnique(actual, ChangedPaths(receipt), SelfKey());
      }
    }
  }

  ghost predicate PostimageOf(receipt: Receipt, txs: seq<Tx>, i: nat, image: Postimage) {
    i < |txs| && image == Postimage(txs[i].path, EffectiveFinal(receipt, txs[i]))
  }

  lemma {:induction false} PostimageMembers(receipt: Receipt, txs: seq<Tx>)
    ensures forall image :: image in Postimages(receipt, txs) <==> exists i: nat :: PostimageOf(receipt, txs, i, image)
  {
    hide EffectiveFinal;
    if txs != [] {
      var n := |txs| - 1;
      PostimageMembers(receipt, txs[..n]);
      forall image | image in Postimages(receipt, txs[..n])
        ensures exists i: nat :: PostimageOf(receipt, txs, i, image) {
        var i: nat :| PostimageOf(receipt, txs[..n], i, image);
        assert PostimageOf(receipt, txs, i, image);
      }
      forall image, i: nat | PostimageOf(receipt, txs, i, image) ensures image in Postimages(receipt, txs) {
        if i < n {
          assert PostimageOf(receipt, txs[..n], i, image);
        }
      }
      assert PostimageOf(receipt, txs, n, Postimage(txs[n].path, EffectiveFinal(receipt, txs[n])));
    }
  }

  lemma InDigestBody(receipt: Receipt, image: Postimage)
    ensures image in DigestBody(receipt).postimages <==> exists i: nat :: PostimageOf(receipt, receipt.txs, i, image)
  {
    var images := Postimages(receipt, receipt.txs);
    SortSorts(images, PathKey());
    PostimageMembers(receipt, receipt.txs);
    assert image in Sort(images, PathKey()) <==> image in multiset(Sort(images, PathKey()));
    assert image in images <==> image in multiset(images);
  }

  /**
   Equal digests of two attested worktrees mean the same run, the same registered paths, and
   the same bytes and mode, or absence, at each of them.
   */
  lemma DigestPinsFinalState(sha: Bytes -> Digest, hash: Body -> Digest, a: Receipt, b: Receipt, left: Tree,
                             right: Tree)
    requires CollisionFree(sha) && CollisionFree(hash)
    requires Describes(sha, a, left) && Describes(sha, b, right)
    requires hash(DigestBody(a)) == hash(DigestBody(b))
    ensures a.runId == b.runId && a.artifact == b.artifact && a.baseCommit == b.baseCommit
    ensures forall p :: Registered(a, p) <==> Registered(b, p)
    ensures forall p :: Registered(a, p) ==> At(left, p) == At(right, p)
  {
    hide EffectiveFinal;
    assert DigestBody(a) == DigestBody(b);
    forall p ensures Registered(a, p) ==> Registered(b, p) && At(left, p) == At(right, p) {
      if Registered(a, p) {
        PinnedAt(sha, a, b, left, right, p);
      }
    }
    forall p ensures Registered(b, p) ==> Registered(a, p) {
      if Registered(b, p) {
        PinnedAt(sha, b, a, right, left, p);
      }
    }
  }

  lemma PinnedAt(sha: Bytes -> Digest, a: Receipt, b: Receipt, left: Tree, right: Tree, p: Path)
    requires CollisionFree(sha) && DigestBody(a) == DigestBody(b) && Registered(a, p)
    requires Describes(sha, a, left) && Describes(sha, b, right)
    ensures Registered(b, p) && At(left, p) == At(right, p)
  {
    hide EffectiveFinal;
    var i: nat :| i < |a.txs| && a.txs[i].path == p;
    var image := Postimage(p, EffectiveFinal(a, a.txs[i]));
    assert PostimageOf(a, a.txs, i, image);
    InDigestBody(a, image);
    InDigestBody(b, image);
    var j: nat :| PostimageOf(b, b.txs, j, image);
    assert b.txs[j].path == p;
  }
}
