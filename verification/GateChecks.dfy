/**
 The review gates of the Phase 4 loop, test by test as the program runs them
 (src/execution/review-gates.ts, src/execution/execution-service.ts, src/execution/execution-store.ts).
 False stands for the error that is thrown.
 */
module GateChecks {
  import opened Prelude
  import opened ExecutionGates

  /** approvalValid: the results become a table, in which a later entry replaces an earlier one. */
  method ApprovalHolds(review: Result, digest: Digest, required: seq<string>) returns (ok: bool)
    ensures ok <==> ApprovalValid(review, digest, required)
  {
    if review.verdict != Approve || review.reviewed != digest {
      return false;
    }
    if review.blocking > 0 || review.scope > 0 || review.unverified > 0 {
      return false;
    }
    var table: map<string, bool> := map[];
    var i := 0;
    while i < |review.results|
      invariant i <= |review.results|
      invariant forall id :: StatusOf(review.results[..i], id) == if id in table then Some(table[id]) else None
    {
      table := table[review.results[i].0 := review.results[i].1];
      assert review.results[..i + 1][..i] == review.results[..i];
      i := i + 1;
    }
    assert review.results[..i] == review.results;
    var k := 0;
    while k < |required|
      invariant k <= |required|
      invariant forall j :: 0 <= j < k ==> StatusOf(review.results, required[j]) == Some(true)
    {
      if required[k] !in table || !table[required[k]] {
        return false;
      }
      k := k + 1;
    }
    ok := true;
  }

  /** The verification in the receipt does not stand for its digest. */
  predicate Unverified(r: Receipt) {
    !r.passed || r.verified != r.digest
  }

  /** A thread that is missing, empty, or the implementer's. */
  predicate Dependent(r: Receipt, thread: Option<Thread>) {
    thread == None || thread == Some("") || thread == Some(r.implementer)
  }

  method SomeIn(xs: seq<Thread>, ys: seq<Thread>) returns (found: bool)
    ensures found <==> !Disjoint(xs, ys)
  {
    var i := 0;
    while i < |xs|
      invariant i <= |xs| && forall j :: 0 <= j < i ==> xs[j] !in ys
    {
      if xs[i] in ys {
        return true;
      }
      i := i + 1;
    }
    found := false;
  }

  /** assertTerraCanStart, with a review to check. */
  method AssertTerraCanStart(r: Receipt, review: Result, required: seq<string>) returns (ok: bool)
    ensures ok <==> TerraCanStart(r, review, required)
  {
    hide ApprovalValid;
    if Unverified(r) {
      return false;
    }
    var latest := r.internal.latest;
    if latest.Some? && latest.value != "" && latest.value == r.implementer {
      return false;
    }
    ok := ApprovalHolds(review, if r.digest == None then "" else r.digest.value, required);
  }

  method AssertSolCanStart(r: Receipt, review: Result, required: seq<string>) returns (ok: bool)
    ensures ok <==> SolCanStart(r, review, required)
  {
    hide ApprovalValid;
    if Unverified(r) {
      return false;
    }
    ok := ApprovalHolds(review, if r.digest == None then "" else r.digest.value, required);
    if !ok {
      return;
    }
    if Dependent(r, r.internal.latest) {
      return false;
    }
    var latest := r.final.latest;
    ok := !(latest.Some? && latest.value != ""
            && (latest.value == r.implementer || latest.value in r.internal.threads));
  }

  method AssertSingleReviewerCanStart(r: Receipt, kind: Kind) returns (ok: bool)
    ensures ok <==> SingleCanStart(r, kind)
  {
    if Unverified(r) {
      return false;
    }
    var latest := if kind == Terra then r.internal.latest else r.final.latest;
    ok := !(latest.Some? && latest.value != "" && latest.value == r.implementer);
  }

  method AssertSingleReviewerReady(r: Receipt, review: Result, kind: Kind, required: seq<string>) returns (ok: bool)
    ensures ok <==> SingleReady(r, review, kind, required)
  {
    hide ApprovalValid;
    if r.digest == None || Unverified(r) {
      return false;
    }
    ok := ApprovalHolds(review, r.digest.value, required);
    if ok {
      ok := !Dependent(r, if kind == Terra then r.internal.latest else r.final.latest);
    }
  }

  /** assertReadyForPublish. */
  method AssertReadyForPublish(r: Receipt, terra: Result, sol: Result, required: seq<string>) returns (ok: bool)
    ensures ok <==> BothReady(r, terra, sol, required)
  {
    hide ApprovalValid, Disjoint;
    if r.digest == None || Unverified(r) {
      return false;
    }
    var first := ApprovalHolds(terra, r.digest.value, required);
    if !first {
      return false;
    }
    var second := ApprovalHolds(sol, r.digest.value, required);
    if !second {
      return false;
    }
    if Dependent(r, r.internal.latest) || Dependent(r, r.final.latest) {
      return false;
    }
    var shared := SomeIn(r.final.threads, r.internal.threads);
    ok := !shared;
  }

  /** validateCompletedReceipt. */
  method ValidateCompletedReceipt(r: Receipt) returns (ok: bool)
    ensures ok <==> Completed(r)
  {
    hide Disjoint;
    if r.digest == None || Unverified(r) {
      return false;
    }
    if r.selection == Some(Terra) {
      return r.internal.verdict == Some(Approve) && r.internal.rounds >= 1 && r.internal.reviewed == r.digest
             && !Dependent(r, r.internal.latest);
    }
    if r.selection == Some(Sol) {
      return r.final.verdict == Some(Approve) && r.final.rounds >= 1 && r.final.reviewed == r.digest
             && !Dependent(r, r.final.latest);
    }
    assert r.selection == None by { NoOtherKind(r.selection); }
    if r.internal.verdict != Some(Approve) || r.final.verdict != Some(Approve) || r.internal.rounds < 1
       || r.final.rounds < 1 || r.internal.reviewed != r.digest || r.final.reviewed != r.digest
       || Dependent(r, r.internal.latest) || Dependent(r, r.final.latest) {
      return false;
    }
    var shared := SomeIn(r.final.threads, r.internal.threads);
    ok := !shared;
  }

  lemma NoOtherKind(kind: Option<Kind>)
    requires kind != Some(Terra) && kind != Some(Sol)
    ensures kind == None
  {
    if kind.Some? {
      match kind.value {
        case Terra =>
        case Sol =>
      }
    }
  }

  /** The reviewer and READY clauses of validateExecutionReceipt. */
  method ValidateStoredReceipt(r: Receipt) returns (ok: bool)
    ensures ok <==> Storable(r)
  {
    if r.selection == Some(Sol) && (r.internal.rounds != 0 || r.internal.verdict != None
                                    || r.internal.reviewed != None) {
      return false;
    }
    if r.selection == Some(Terra) && (r.final.rounds != 0 || r.final.verdict != None || r.final.reviewed != None) {
      return false;
    }
    if r.state != ReadyForPublish {
      return true;
    }
    if r.digest == None || Unverified(r) {
      return false;
    }
    if r.selection == Some(Sol) {
      return r.final.verdict == Some(Approve) && r.final.reviewed == r.digest && r.final.rounds >= 1
             && r.final.latest != None && r.final.latest != Some("");
    }
    if r.selection == Some(Terra) {
      return r.internal.verdict == Some(Approve) && r.internal.reviewed == r.digest && r.internal.rounds >= 1
             && r.internal.latest != None && r.internal.latest != Some("");
    }
    assert r.selection == None by { NoOtherKind(r.selection); }
    ok := r.internal.verdict == Some(Approve) && r.final.verdict == Some(Approve)
          && r.internal.reviewed == r.digest && r.final.reviewed == r.digest;
  }

  /** invalidateReviews: verdicts, reviewed digests and the verification are gone, and nothing else. */
  lemma InvalidationIs(r: Receipt)
    ensures var closed := Invalidated(r);
            && closed.internal == Slot(r.internal.rounds, r.internal.latest, r.internal.threads, None, None)
            && closed.final == Slot(r.final.rounds, r.final.latest, r.final.threads, None, None)
            && !closed.passed && closed.verified == None
            && closed == r.(internal := closed.internal, final := closed.final, passed := false, verified := None)
  {
  }
}
