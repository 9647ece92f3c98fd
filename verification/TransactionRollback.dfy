/** What rollback restores, on any worktree, including one that others have altered. */
module TransactionRollback {
  import opened Prelude
  import opened Effects
  import opened Transaction
  import opened TransactionSafety

  ghost predicate Lost(context: Context, tree: Tree, op: Op) {
    Classify(context.sha, op, At(tree, op.path)).Ambiguous?
  }

  /** A target is lost exactly when it holds neither what the operation found nor what it writes. */
  lemma LostExactly(context: Context, tree: Tree, op: Op)
    ensures Lost(context, tree, op) <==>
            match op.kind
            case Create => op.path in tree && Some(context.sha(tree[op.path].bytes)) != op.post
            case Replace => op.path in tree ==> Some(context.sha(tree[op.path].bytes)) !in {op.pre, op.post}
            case Delete => op.path in tree && Some(context.sha(tree[op.path].bytes)) != op.pre
  {
  }

  /** Where rollback should leave the path of a marked operation. */
  ghost function Undone(context: Context, tree: Tree, op: Op): Option<File> {
    if Classify(context.sha, op, At(tree, op.path)).Postimage? then Pre(context, op) else At(tree, op.path)
  }

  /** Holds of every operation under every schedule: only marked, recognised targets are touched. */
  ghost predicate Respected(context: Context, before: Txn, after: Txn, i: nat)
    requires i < |before.memory.ops| == |after.memory.ops|
  {
    var op, left := before.memory.ops[i], after.memory.ops[i];
    && (left == op || left == op.(applied := false))
    && (At(after.tree, op.path) == At(before.tree, op.path)
        || At(after.tree, op.path) == Undone(context, before.tree, op))
    && (!op.applied || Lost(context, before.tree, op) ==>
        left == op && At(after.tree, op.path) == At(before.tree, op.path))
  }

  /** A marked operation was undone exactly. */
  ghost predicate Resolved(context: Context, before: Txn, after: Txn, i: nat)
    requires i < |before.memory.ops| == |after.memory.ops|
  {
    var op := before.memory.ops[i];
    op.applied ==>
      && !Lost(context, before.tree, op)
      && !after.memory.ops[i].applied
      && At(after.tree, op.path) == Undone(context, before.tree, op)
  }

  /** Operations from n on, and paths outside the first n operations, are as before. */
  ghost predicate UntouchedFrom(before: Txn, after: Txn, n: nat)
    requires n <= |before.memory.ops| == |after.memory.ops|
  {
    && (forall i :: n <= i < |before.memory.ops| ==> after.memory.ops[i] == before.memory.ops[i])
    && (forall p :: p !in Paths(before.memory.ops[..n]) ==> At(after.tree, p) == At(before.tree, p))
  }

  /** The facts about one rollback step, with `one` as it is after any change of status. */
  ghost predicate Stepped(context: Context, m: Txn, one: Txn, i: nat)
    requires i < |m.memory.ops| == |one.memory.ops|
  {
    && Respected(context, m, one, i)
    && (forall j :: 0 <= j < |m.memory.ops| && j != i ==> one.memory.ops[j] == m.memory.ops[j])
    && (forall p :: p != m.memory.ops[i].path ==> At(one.tree, p) == At(m.tree, p))
    && Sound(context, one.memory.ops)
  }

  lemma OneAny(context: Context, m: Txn, i: nat)
    requires Sound(context, m.memory.ops) && m.status.Running? && i < |m.memory.ops|
    requires m.memory.ops[i].applied
    ensures var r := RollbackOne(context, m, i);
            && Stepped(context, m, r, i)
            && Stepped(context, m, r.(status := Running), i)
            && (r.status.Running? ==> Resolved(context, m, r, i))
  {
    hide RollbackOne, SoundOp;
    RollbackOneStep(context, m, i);
    var op := m.memory.ops[i];
    if Lost(context, m.tree, op) {
      LostThrows(context, m, i);
    }
    FlagFree(context, op.(applied := false), op);
  }

  lemma LostThrows(context: Context, m: Txn, i: nat)
    requires m.status.Running? && i < |m.memory.ops| && Lost(context, m.tree, m.memory.ops[i])
    ensures !RollbackOne(context, m, i).status.Running?
    ensures RollbackOne(context, m, i).memory == m.memory
  {
  }

  lemma {:induction false} RollbackFromAny(context: Context, m: Txn, n: nat, unresolved: seq<Path>)
    requires Sound(context, m.memory.ops) && m.status.Running? && n <= |m.memory.ops|
    ensures var (r, left) := RollbackFrom(context, m, n, unresolved);
            && UntouchedFrom(m, r, n)
            && (forall i :: 0 <= i < n ==> Respected(context, m, r, i))
            && (r.status.Running? && left == [] ==> forall i :: 0 <= i < n ==> Resolved(context, m, r, i))
            && (unresolved != [] ==> left != [])
            && !r.status.Threw?
    decreases n
  {
    hide RollbackOne, Sound, Lost, Undone, Respected, Resolved, UntouchedFrom, Paths;
    Nothing(context, m, n);
    if n > 0 {
      var op := m.memory.ops[n - 1];
      if !op.applied {
        RollbackFromAny(context, m, n - 1, unresolved);
        Widen(context, m, m, RollbackFrom(context, m, n - 1, unresolved).0, n - 1);
      } else {
        OneAny(context, m, n - 1);
        var one := RollbackOne(context, m, n - 1);
        if one.status.Crashed? {
          Nothing(context, one, n - 1);
          Widen(context, m, one, one, n - 1);
        } else {
          var next := one.(status := Running);
          var more := if one.status.Threw? then unresolved + [op.path] else unresolved;
          RollbackFromAny(context, next, n - 1, more);
          Widen(context, m, next, RollbackFrom(context, next, n - 1, more).0, n - 1);
        }
      }
    }
  }

  /** Doing nothing is respectful. */
  lemma Nothing(context: Context, m: Txn, n: nat)
    requires n <= |m.memory.ops|
    ensures UntouchedFrom(m, m, n)
    ensures forall i :: 0 <= i < |m.memory.ops| ==> Respected(context, m, m, i)
    ensures forall i :: 0 <= i < |m.memory.ops| && !m.memory.ops[i].applied ==> Resolved(context, m, m, i)
  {
  }

  lemma PathPrefix(context: Context, ops: seq<Op>, i: nat)
    requires Sound(context, ops) && i < |ops|
    ensures ops[i].path !in Paths(ops[..i]) && Paths(ops[..i + 1]) == Paths(ops[..i]) + {ops[i].path}
  {
    assert forall j :: 0 <= j < i ==> ops[..i + 1][j] == ops[..i][j] == ops[j];
    assert ops[..i + 1][i] == ops[i];
  }

  /** From a step at i and a rollback of the operations before i to a rollback up to i. */
  lemma Widen(context: Context, m: Txn, mid: Txn, r: Txn, i: nat)
    requires i < |m.memory.ops| == |mid.memory.ops| == |r.memory.ops|
    requires Sound(context, m.memory.ops) && Stepped(context, m, mid, i)
    requires UntouchedFrom(mid, r, i)
    requires forall j :: 0 <= j < i ==> Respected(context, mid, r, j)
    ensures UntouchedFrom(m, r, i + 1)
    ensures forall j :: 0 <= j < i + 1 ==> Respected(context, m, r, j)
    ensures Resolved(context, m, mid, i) ==> Resolved(context, m, r, i)
    ensures forall j :: 0 <= j < i && Resolved(context, mid, r, j) ==> Resolved(context, m, r, j)
  {
    assert m.memory.ops[..i] == mid.memory.ops[..i];
    PathPrefix(context, m.memory.ops, i);
    hide Paths, SoundOp;
    forall j | 0 <= j < i
      ensures Respected(context, m, r, j) && (Resolved(context, mid, r, j) ==> Resolved(context, m, r, j))
    {
      assert m.memory.ops[j].path != m.memory.ops[i].path;
      assert Respected(context, mid, r, j);
    }
  }

  lemma FaultFreeUndo(context: Context, m: Txn, i: nat)
    requires Sound(context, m.memory.ops) && m.status.Running? && m.faults == [] && i < |m.memory.ops|
    requires !Lost(context, m.tree, m.memory.ops[i])
    ensures var r := RollbackOne(context, m, i); r.status.Running? && r.faults == []
  {
    var op := m.memory.ops[i];
    assert SoundOp(context, op);
    var current := At(m.tree, op.path);
    if op.path in m.tree {
      Readable(context, m, i);
    }
    assert m.Read(op.path) == m;
    if Classify(context.sha, op, current).Postimage? {
      if op.kind.Create? {
        assert m.Remove(op.path).status.Running?;
      } else {
        RestoreStep(context, m, op);
        assert Restore(context, m, op).status.Running? && Restore(context, m, op).faults == [];
        hide Restore;
      }
    }
  }

  /** A recognised file is no larger than the read limit. */
  lemma Readable(context: Context, m: Txn, i: nat)
    requires Sound(context, m.memory.ops) && i < |m.memory.ops|
    requires !Lost(context, m.tree, m.memory.ops[i]) && m.memory.ops[i].path in m.tree
    ensures |m.tree[m.memory.ops[i].path].bytes| <= MAX_FILE_BYTES
  {
    assert SoundOp(context, m.memory.ops[i]);
  }

  lemma FaultFreeStatus(context: Context, m: Txn, i: nat)
    requires Sound(context, m.memory.ops) && m.status.Running? && m.faults == [] && i < |m.memory.ops|
    ensures var r := RollbackOne(context, m, i);
            r.faults == [] && r.status == if Lost(context, m.tree, m.memory.ops[i]) then Threw else Running
  {
    if Lost(context, m.tree, m.memory.ops[i]) {
    } else {
      FaultFreeUndo(context, m, i);
    }
  }

  lemma SameElsewhere(context: Context, m: Txn, next: Txn, i: nat)
    requires Sound(context, m.memory.ops) && i < |m.memory.ops| == |next.memory.ops|
    requires forall j :: 0 <= j < |m.memory.ops| && j != i ==> next.memory.ops[j] == m.memory.ops[j]
    requires forall p :: p != m.memory.ops[i].path ==> At(next.tree, p) == At(m.tree, p)
    ensures forall j :: 0 <= j < |m.memory.ops| && j != i ==>
              (Lost(context, next.tree, next.memory.ops[j]) <==> Lost(context, m.tree, m.memory.ops[j]))
  {
    forall j | 0 <= j < |m.memory.ops| && j != i
      ensures Lost(context, next.tree, next.memory.ops[j]) <==> Lost(context, m.tree, m.memory.ops[j])
    {
      assert m.memory.ops[j].path != m.memory.ops[i].path;
    }
  }

  /** No marked operation among the first n has an ambiguous target. */
  ghost predicate Clean(context: Context, m: Txn, n: nat)
    requires n <= |m.memory.ops|
  {
    forall i :: 0 <= i < n ==> !(m.memory.ops[i].applied && Lost(context, m.tree, m.memory.ops[i]))
  }

  ghost predicate ResolvedUpTo(context: Context, m: Txn, r: Txn, n: nat)
    requires n <= |m.memory.ops| == |r.memory.ops|
  {
    forall i :: 0 <= i < n && !Lost(context, m.tree, m.memory.ops[i]) ==> Resolved(context, m, r, i)
  }

  lemma {:induction false} FaultFreeRollbackFrom(context: Context, m: Txn, n: nat, unresolved: seq<Path>)
    requires Sound(context, m.memory.ops) && m.status.Running? && m.faults == [] && n <= |m.memory.ops|
    ensures var (r, left) := RollbackFrom(context, m, n, unresolved);
            && r.status.Running? && r.faults == []
            && (left == [] <==> unresolved == [] && Clean(context, m, n))
            && ResolvedUpTo(context, m, r, n)
    decreases n
  {
    hide RollbackOne, Sound, Undone, Lost, Respected, Resolved;
    if n > 0 {
      var op := m.memory.ops[n - 1];
      if !op.applied {
        FaultFreeRollbackFrom(context, m, n - 1, unresolved);
        var r := RollbackFrom(context, m, n - 1, unresolved).0;
        Unmarked(context, m, r, n - 1);
      } else {
        var one := RollbackOne(context, m, n - 1);
        FaultFreeStatus(context, m, n - 1);
        var next := one.(status := Running);
        var more := if one.status.Threw? then unresolved + [op.path] else unresolved;
        OneAny(context, m, n - 1);
        FaultFreeRollbackFrom(context, next, n - 1, more);
        FaultFreeCombine(context, m, one, n - 1, more);
      }
    }
  }

  lemma Unmarked(context: Context, m: Txn, r: Txn, i: nat)
    requires i < |m.memory.ops| == |r.memory.ops| && !m.memory.ops[i].applied
    ensures Resolved(context, m, r, i)
  {
  }

  lemma FaultFreeCombine(context: Context, m: Txn, one: Txn, i: nat, more: seq<Path>)
    requires Sound(context, m.memory.ops) && i < |m.memory.ops| == |one.memory.ops| && m.memory.ops[i].applied
    requires Stepped(context, m, one, i)
    requires !Lost(context, m.tree, m.memory.ops[i]) ==> Resolved(context, m, one, i)
    requires var next := one.(status := Running); ResolvedUpTo(context, next, RollbackFrom(context, next, i, more).0, i)
    ensures ResolvedUpTo(context, m, RollbackFrom(context, one.(status := Running), i, more).0, i + 1)
    ensures Clean(context, m, i + 1) <==>
              Clean(context, one.(status := Running), i) && !Lost(context, m.tree, m.memory.ops[i])
  {
    var next := one.(status := Running);
    RollbackFromAny(context, next, i, more);
    hide RollbackFrom;
    Widen(context, m, next, RollbackFrom(context, next, i, more).0, i);
    SameElsewhere(context, m, next, i);
    hide Sound, Undone, Respected;
  }

  // ----- Main result 3: best-effort rollback ---------------------------------------------

  /**
   On any worktree and under any schedule, rollback touches only marked operations whose target
   it recognises, moves each of those at most to its exact preimage, and reports PREPARED only
   when every marked operation was undone.
   */
  lemma RollbackBestEffort(context: Context, m: Txn)
    requires Sound(context, m.memory.ops) && m.status.Running?
    ensures var r := Rollback(context, m);
            && (forall i :: 0 <= i < |m.memory.ops| ==> Respected(context, m, r, i))
            && (forall p :: p !in Paths(m.memory.ops) ==> At(r.tree, p) == At(m.tree, p))
            && (!r.status.Crashed? && r.memory.phase.Prepared? && !m.memory.phase.Prepared? ==>
                  forall i :: 0 <= i < |m.memory.ops| ==> Resolved(context, m, r, i))
  {
    var n := |m.memory.ops|;
    assert m.memory.ops[..n] == m.memory.ops;
    RollbackFromAny(context, m, n, []);
    PhaseKept(context, m, n, []);
    var (rolled, left) := RollbackFrom(context, m, n, []);
    var r := Rollback(context, m);
    assert r.tree == rolled.tree && r.memory.ops == rolled.memory.ops;
    forall i | 0 <= i < n ensures Respected(context, m, r, i) {
      assert Respected(context, m, rolled, i);
    }
    if !r.status.Crashed? && r.memory.phase.Prepared? && !m.memory.phase.Prepared? {
      forall i | 0 <= i < n ensures Resolved(context, m, r, i) {
        assert Resolved(context, m, rolled, i);
      }
    }
  }

  lemma PhaseKeptOne(context: Context, m: Txn, i: nat)
    requires i < |m.memory.ops|
    ensures RollbackOne(context, m, i).memory.phase == m.memory.phase
  {
    hide Restore, Classify, At;
  }

  lemma {:induction false} PhaseKept(context: Context, m: Txn, n: nat, unresolved: seq<Path>)
    requires n <= |m.memory.ops|
    ensures RollbackFrom(context, m, n, unresolved).0.memory.phase == m.memory.phase
    decreases n
  {
    if n > 0 && m.status.Running? {
      var one := RollbackOne(context, m, n - 1);
      PhaseKeptOne(context, m, n - 1);
      hide RollbackOne;
      var op := m.memory.ops[n - 1];
      if !op.applied {
        PhaseKept(context, m, n - 1, unresolved);
      } else if one.status.Threw? {
        PhaseKept(context, one.(status := Running), n - 1, unresolved + [op.path]);
      } else {
        PhaseKept(context, one, n - 1, unresolved);
      }
    }
  }

  /**
   Without faults the outcome is exact: a marked operation ends unmarked at its preimage unless
   its target is ambiguous, an ambiguous one stays marked and untouched, and the call returns
   with a durable PREPARED receipt exactly when nothing marked was ambiguous; otherwise it
   throws with a durable APPLYING receipt.
   */
  lemma RollbackExact(context: Context, m: Txn)
    requires Sound(context, m.memory.ops) && m.status.Running? && m.faults == []
    ensures var r := Rollback(context, m);
            var clean := forall i :: 0 <= i < |m.memory.ops| ==>
                !(m.memory.ops[i].applied && Lost(context, m.tree, m.memory.ops[i]));
            && r.status == (if clean then Running else Threw)
            && r.durable == r.memory
            && r.memory.phase == (if clean then Prepared else Applying)
            && forall i :: 0 <= i < |m.memory.ops| ==>
                 var op := m.memory.ops[i];
                 && r.memory.ops[i] == op.(applied := op.applied && Lost(context, m.tree, op))
                 && At(r.tree, op.path) == if op.applied then Undone(context, m.tree, op) else At(m.tree, op.path)
  {
    var n := |m.memory.ops|;
    RollbackFromAny(context, m, n, []);
    FaultFreeRollbackFrom(context, m, n, []);
    var rolled := RollbackFrom(context, m, n, []).0;
    var r := Rollback(context, m);
    assert r.tree == rolled.tree && r.memory.ops == rolled.memory.ops;
    forall i | 0 <= i < n
      ensures var op := m.memory.ops[i];
              && r.memory.ops[i] == op.(applied := op.applied && Lost(context, m.tree, op))
              && At(r.tree, op.path) == if op.applied then Undone(context, m.tree, op) else At(m.tree, op.path)
    {
      assert Respected(context, m, rolled, i);
      if !Lost(context, m.tree, m.memory.ops[i]) {
        assert Resolved(context, m, rolled, i);
      }
    }
  }

  // ----- Main result 4: what a failed call leaves behind ---------------------------------

  lemma {:induction false} ApplyFromStops(context: Context, plan: seq<Op>, m: Txn, i: nat) returns (k: nat)
    requires Sound(context, plan) && InFlight(context, plan, m) && m.status.Running? && i <= |plan|
    requires forall j :: 0 <= j < |plan| ==> (m.memory.ops[j].applied <==> j < i)
    requires forall j :: i <= j < |plan| ==> At(m.tree, plan[j].path) == Pre(context, plan[j])
    requires ApplyFrom(context, m, i).status.Threw?
    ensures i <= k < |plan|
    ensures var r := ApplyFrom(context, m, i);
            && |r.memory.ops| == |plan|
            && (forall j :: 0 <= j < k ==> r.memory.ops[j].applied)
            && (forall j :: k < j < |plan| ==>
                !r.memory.ops[j].applied && At(r.tree, plan[j].path) == Pre(context, plan[j]))
    decreases |plan| - i
  {
    hide ApplyOne, Bound, Pre, Post, TreeSafe;
    StopStep(context, plan, m, i);
    var one := ApplyOne(context, m, i);
    if one.status.Running? {
      k := ApplyFromStops(context, plan, one, i + 1);
    } else {
      k := i;
    }
  }

  lemma StopStep(context: Context, plan: seq<Op>, m: Txn, i: nat)
    requires Sound(context, plan) && InFlight(context, plan, m) && m.status.Running? && i < |plan|
    requires forall j :: i < j < |plan| ==> At(m.tree, plan[j].path) == Pre(context, plan[j])
    ensures var one := ApplyOne(context, m, i);
            && InFlight(context, plan, one)
            && (forall j :: 0 <= j < |plan| && j != i ==> one.memory.ops[j] == m.memory.ops[j])
            && (one.status.Running? ==> one.memory.ops[i].applied)
            && (forall j :: i < j < |plan| ==> At(one.tree, plan[j].path) == Pre(context, plan[j]))
  {
    FlagFree(context, m.memory.ops[i], plan[i]);
    ApplyOneStep(context, m, i);
    ApplyOneSafe(context, plan, m, i);
    hide ApplyOne, Bound, Pre, Post, TreeSafe;
    forall j | i < j < |plan|
      ensures At(ApplyOne(context, m, i).tree, plan[j].path) == Pre(context, plan[j])
    {
      assert plan[j].path != plan[i].path;
    }
  }

  /**
   A call that began with every path at its preimage and threw after a clean rollback leaves the
   whole base worktree, except possibly the path k of the operation that failed: that one keeps
   whatever the failed step left there, unless the operation had already been marked.
   */
  lemma FailedApplyUndone(context: Context, plan: seq<Op>, m: Txn) returns (k: nat)
    requires Sound(context, plan) && m.status.Running? && m.memory == m.durable && m.memory.ops == plan
    requires forall j :: 0 <= j < |plan| ==> !plan[j].applied
    requires forall p :: At(m.tree, p) == At(context.base, p)
    requires m.memory.phase.Prepared?
    requires Apply(context, m).status.Threw? && Apply(context, m).memory.phase.Prepared?
    ensures k < |plan|
    ensures var r := Apply(context, m);
            var failed := ApplyFrom(context, Enter(m, Applying).Save(), 0);
            && |failed.memory.ops| == |plan|
            && (forall p :: p != plan[k].path ==> At(r.tree, p) == At(context.base, p))
            && At(r.tree, plan[k].path) ==
                 (if failed.memory.ops[k].applied then Pre(context, plan[k]) else At(failed.tree, plan[k].path))
  {
    hide ApplyFrom, Rollback, SoundOp, Post, Bound;
    var begun := Enter(m, Applying).Save();
    SaveStep(Enter(m, Applying));
    assert begun.status.Running?;
    var failed := ApplyFrom(context, begun, 0);
    ApplyFromSafe(context, plan, begun, 0);
    assert failed.status.Threw?;
    k := ApplyFromStops(context, plan, begun, 0);
    var start := failed.(status := Running);
    assert Apply(context, m).tree == Rollback(context, start).tree;
    AfterCleanRollback(context, plan, start, k);
  }

  /** A clean rollback of a prefix of marked operations up to k. */
  lemma AfterCleanRollback(context: Context, plan: seq<Op>, start: Txn, k: nat)
    requires Sound(context, plan) && InFlight(context, plan, start) && start.status.Running? && k < |plan|
    requires start.memory.phase.Applying?
    requires forall j :: 0 <= j < k ==> start.memory.ops[j].applied
    requires forall j :: k < j < |plan| ==>
               !start.memory.ops[j].applied && At(start.tree, plan[j].path) == Pre(context, plan[j])
    requires !Rollback(context, start).status.Crashed? && Rollback(context, start).memory.phase.Prepared?
    ensures var r := Rollback(context, start);
            && (forall p :: p != plan[k].path ==> At(r.tree, p) == At(context.base, p))
            && At(r.tree, plan[k].path) ==
                 (if start.memory.ops[k].applied then Pre(context, plan[k]) else At(start.tree, plan[k].path))
  {
    hide Rollback, Classify, Bound, SoundOp, Sound, TreeSafe, Undone, Lost;
    ClosedUnderFlags(context, plan, start.memory.ops);
    RollbackBestEffort(context, start);
    Outside(context, plan, start);
    var r := Rollback(context, start);
    forall j | 0 <= j < |plan|
      ensures At(r.tree, plan[j].path) == if start.memory.ops[j].applied then Pre(context, plan[j])
              else At(start.tree, plan[j].path)
    {
      assert Resolved(context, start, r, j) && Respected(context, start, r, j);
      Recovered(context, plan, start, j);
    }
    forall p | p != plan[k].path ensures At(r.tree, p) == At(context.base, p) {
      if p in Paths(plan) {
        var j :| 0 <= j < |plan| && plan[j].path == p;
      }
    }
  }

  lemma Outside(context: Context, plan: seq<Op>, m: Txn)
    requires InFlight(context, plan, m)
    ensures forall p :: p !in Paths(plan) ==> At(m.tree, p) == At(context.base, p)
  {
  }

  lemma ClosedUnderFlags(context: Context, plan: seq<Op>, ops: seq<Op>)
    requires Sound(context, plan) && Carries(plan, ops)
    ensures Sound(context, ops) && Paths(ops) == Paths(plan)
  {
    forall i | 0 <= i < |ops| ensures SoundOp(context, ops[i]) {
      FlagFree(context, ops[i], plan[i]);
    }
    assert forall i :: 0 <= i < |ops| ==> ops[i].path == plan[i].path;
  }

  /** A settled target is undone to its preimage. */
  lemma Recovered(context: Context, plan: seq<Op>, m: Txn, i: nat)
    requires Sound(context, plan) && InFlight(context, plan, m) && i < |plan|
    ensures Undone(context, m.tree, m.memory.ops[i]) == Pre(context, plan[i])
  {
    FlagFree(context, m.memory.ops[i], plan[i]);
    assert Settled(context, m.tree, plan[i]);
  }

  /**
   The same, told in advance: when no fault is scheduled after the step that failed, the rollback is clean.
   The call throws, its durable receipt is PREPARED with no operation marked, and the base worktree is back
   except possibly at the path of the operation that failed.
   */
  lemma LastFaultIsUndone(context: Context, plan: seq<Op>, m: Txn) returns (k: nat)
    requires Sound(context, plan) && m.status.Running? && m.memory == m.durable && m.memory.ops == plan
    requires forall j :: 0 <= j < |plan| ==> !plan[j].applied
    requires forall p :: At(m.tree, p) == At(context.base, p)
    requires m.memory.phase.Prepared? && Enter(m, Applying).Save().status.Running?
    requires var failed := ApplyFrom(context, Enter(m, Applying).Save(), 0); failed.status.Threw? && failed.faults == []
    ensures k < |plan|
    ensures var r := Apply(context, m);
            && r.status.Threw? && r.durable == r.memory && r.memory.phase.Prepared?
            && (forall i :: 0 <= i < |r.memory.ops| ==> !r.memory.ops[i].applied)
            && (forall p :: p != plan[k].path ==> At(r.tree, p) == At(context.base, p))
  {
    hide ApplyFrom, Rollback, SoundOp, Post, Bound, Classify;
    var begun := Enter(m, Applying).Save();
    var failed := ApplyFrom(context, begun, 0);
    var start := failed.(status := Running);
    ApplyFromSafe(context, plan, begun, 0);
    ClosedUnderFlags(context, plan, start.memory.ops);
    forall i | 0 <= i < |start.memory.ops| ensures !Lost(context, start.tree, start.memory.ops[i]) {
      SettledIsKnown(context, plan, start, i);
    }
    RollbackExact(context, start);
    k := FailedApplyUndone(context, plan, m);
  }

  lemma SettledIsKnown(context: Context, plan: seq<Op>, m: Txn, i: nat)
    requires Sound(context, plan) && InFlight(context, plan, m) && i < |plan|
    ensures !Lost(context, m.tree, m.memory.ops[i])
  {
    FlagFree(context, m.memory.ops[i], plan[i]);
    assert Settled(context, m.tree, plan[i]);
  }

  /** A write that took effect before it failed: a created file stays behind a receipt that says PREPARED again. */
  lemma WrittenOperationStays(sha: Bytes -> Digest)
    returns (context: Context, plan: seq<Op>, m: Txn, faults: seq<Fault>)
    requires CollisionFree(sha)
    ensures Sound(context, plan) && Safe(context, plan, m) && m.durable.phase.Prepared? && m.tree == context.base
    ensures var r := Apply(context, Resume(m, faults));
            r.status.Threw? && r.durable.phase.Prepared? && At(r.tree, "a") != At(context.base, "a")
  {
    var digest := Some(sha([1]));
    context := Context(sha, Pack([PackOp("1", Create, "a", None, Some("a"), digest)], map["a" := [1]]), map[], map[]);
    plan := [Op("1", Create, "a", None, digest, None, None, None, false)];
    var receipt := Receipt(Prepared, plan);
    m, faults := Machine(map[], receipt, receipt, [], Running), [Ok, Ok, Ok, FailAfter];
    assert SoundOp(context, plan[0]);
    assert Settled(context, map[], plan[0]);
    var begun := Enter(Resume(m, faults), Applying).Save();
    assert begun.faults == [Ok, Ok, FailAfter] && begun.status.Running?;
    var read := begun.Read("a");
    assert read.faults == [Ok, FailAfter] && read.status.Running?;
    var again := read.Read("a");
    assert again.faults == [FailAfter] && again.status.Running?;
    var written := again.Write("a", File([1], CREATED_MODE), true);
    assert written.faults == [] && written.status.Threw?;
    assert At(written.tree, "a") == Some(File([1], CREATED_MODE));
    assert ApplyOne(context, begun, 0) == written;
    assert ApplyFrom(context, begun, 0) == ApplyFrom(context, written, 1) == written;
    var back := Rollback(context, written.(status := Running));
    assert RollbackFrom(context, written.(status := Running), 1, []) == (written.(status := Running), []);
    assert back.tree == written.tree && back.status.Running? && back.durable.phase.Prepared?;
  }
}
