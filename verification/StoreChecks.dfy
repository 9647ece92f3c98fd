/**
 The checks on an executor receipt, test by test as the program runs them: the store before every write
 (src/executor/store.ts), the service (src/executor/service.ts), the authority walk
 (src/executor/review-authority.ts) and publication (src/orchestration/executor-ready.ts). False stands for
 the error that is thrown.
 */
module StoreChecks {
  import opened Prelude
  import opened ReviewAuthority

  function SelectedReview(r: Receipt): Option<Review> {
    match r.selection
    case None => None
    case Some(Terra) => Some(r.terra)
    case Some(Sol) => Some(r.sol)
  }

  method ValidateRepairHistory(r: Receipt) returns (ok: bool)
    ensures ok <==> ValidHistory(r)
  {
    if |r.history| > 4 {
      return false;
    }
    var evidence: set<Digest> := {};
    var index := 0;
    while index < |r.history|
      invariant index <= |r.history|
      invariant forall digest :: digest in evidence <==> exists j :: 0 <= j < index && r.history[j].evidence == digest
      invariant forall j :: 0 <= j < index ==> ValidEntry(r, j)
    {
      var bound := ValidateEntry(r, index, evidence);
      if !bound {
        assert !ValidEntry(r, index);
        return false;
      }
      evidence := evidence + {r.history[index].evidence};
      index := index + 1;
    }
    if r.history != [] {
      var latest := r.history[|r.history| - 1];
      if r.repair.Some? && r.repair.value.source != latest.final {
        return false;
      }
      if r.repair.None? && r.digest != Some(latest.final) {
        return false;
      }
    }
    ok := true;
  }

  /** One archived generation, against the evidence of those before it. */
  method ValidateEntry(r: Receipt, index: nat, evidence: set<Digest>) returns (ok: bool)
    requires index < |r.history|
    requires forall digest :: digest in evidence <==> exists j :: 0 <= j < index && r.history[j].evidence == digest
    ensures ok <==> ValidEntry(r, index)
  {
    var entry := r.history[index];
    if entry.generation != index + 1 || entry.count < 1 || entry.count > 16 || entry.evidence in evidence {
      return false;
    }
    assert FreshEvidence(r.history, index);
    if index > 0 && r.history[index - 1].final != entry.source {
      return false;
    }
    if r.strategy == Some(ByWeb) {
      return entry.owner == Web;
    }
    if r.strategy != Some(ByModel) || r.selection == None {
      return false;
    }
    var review := SelectedReview(r).value;
    if index == 0 && entry.owner == Reviewer(r.selection.value) {
      return review.verdict == Some(Revise) && review.changeSet == Some(entry.source)
             && review.evidence == Some(entry.evidence);
    }
    if entry.owner != Web {
      return false;
    }
    ok := index > 0 || (review.verdict == Some(Approve) && review.changeSet == Some(entry.source));
  }

  method WebRepairBoundToAuthority(r: Receipt) returns (ok: bool)
    requires r.repair.Some? && r.repair.value.owner == Web
    ensures ok <==> WebRepairBound(r, r.repair.value.source)
  {
    if r.strategy == Some(ByWeb) {
      return r.selection == None;
    }
    if r.strategy != Some(ByModel) || r.selection == None {
      return false;
    }
    if r.history != [] {
      return r.history[|r.history| - 1].final == r.repair.value.source;
    }
    var review := SelectedReview(r).value;
    ok := review.verdict == Some(Approve) && review.changeSet == Some(r.repair.value.source);
  }

  method ValidateRepair(r: Receipt) returns (ok: bool)
    ensures ok <==> ValidRepair(r)
  {
    ok := ValidateRepairHistory(r);
    if !ok {
      return;
    }
    hide ValidHistory;
    if r.repair.None? {
      return r.state != ReviewingWeb && r.state != RepairApplying && r.state != RepairApplied;
    }
    var repair := r.repair.value;
    if repair.owner == Web {
      var bound := WebRepairBoundToAuthority(r);
      if !bound {
        return false;
      }
    } else {
      if r.strategy != Some(ByModel) || r.selection == None || repair.owner != Reviewer(r.selection.value)
         || r.history != [] {
        return false;
      }
      var review := SelectedReview(r).value;
      if review.verdict != Some(Revise) || review.changeSet != Some(repair.source)
         || review.evidence != Some(repair.evidence) {
        return false;
      }
    }
    if repair.count < 1 || repair.count > 16 || Misplaced(r, repair) {
      return false;
    }
    ok := repair.progress != Verified
          || (repair.final != None && r.digest == repair.final && r.verification.passed
              && r.verification.changeSet == repair.final);
  }

  /** The state of the executor does not fit the stage of the repair. */
  predicate Misplaced(r: Receipt, repair: Repair) {
    var proposed := match repair.owner
                    case Web => ReviewingWeb
                    case Reviewer(Terra) => Reviewing(Terra)
                    case Reviewer(Sol) => Reviewing(Sol);
    && r.state != EscalateToWeb && r.state != Failed
    && (|| (repair.progress == Proposed && r.state != proposed)
        || (repair.progress == InProgress && r.state != RepairApplying)
        || (repair.progress == Written && r.state != RepairApplied && r.state != Verifying))
  }

  /** The constant-time check of the store. */
  method StoreCoversDigest(r: Receipt, digest: Digest, kind: Kind) returns (ok: bool)
    ensures ok <==> StoreCovers(r, digest, kind)
  {
    var review := if kind == Terra then r.terra else r.sol;
    if review.verdict == Some(Approve) && review.changeSet == Some(digest) {
      return true;
    }
    if r.repair.Some? && r.repair.value.progress == Verified && r.repair.value.final == Some(digest) {
      var repair := r.repair.value;
      if repair.owner == Reviewer(kind) && review.verdict == Some(Revise) && review.changeSet == Some(repair.source)
         && review.evidence == Some(repair.evidence) {
        return true;
      }
      if repair.owner == Web {
        if r.history != [] {
          return r.history[|r.history| - 1].final == repair.source;
        }
        return review.verdict == Some(Approve) && review.changeSet == Some(repair.source);
      }
    }
    if r.history == [] || r.history[|r.history| - 1].final != digest {
      return false;
    }
    var first := r.history[0];
    if first.owner == Reviewer(kind) {
      return review.verdict == Some(Revise) && review.changeSet == Some(first.source)
             && review.evidence == Some(first.evidence);
    }
    ok := first.owner == Web && review.verdict == Some(Approve) && review.changeSet == Some(first.source);
  }

  /** A verdict names the round, the digest and the evidence it rests on. */
  predicate Nameless(review: Review) {
    review.verdict != None && (review.rounds < 1 || review.changeSet == None || review.evidence == None)
  }

  method ValidateGateConsistency(r: Receipt) returns (ok: bool)
    ensures ok <==> ConsistentGates(r)
  {
    hide StoreReady;
    if r.verification.passed
       && (r.verification.rounds < 1 || r.verification.changeSet == None || r.verification.evidence == None) {
      return false;
    }
    if Nameless(r.terra) || Nameless(r.sol) {
      return false;
    }
    if r.strategy == Some(ByWeb)
       && (r.selection != None || r.terra != Review(0, None, None, None) || r.sol != Review(0, None, None, None)
           || (r.repair.Some? && r.repair.value.owner != Web)) {
      return false;
    }
    if r.strategy == Some(ByModel) && r.selection == None {
      return false;
    }
    var verified := r.verification.passed && r.digest != None && r.verification.changeSet == r.digest;
    if r.terra.verdict == Some(Approve) && r.selection != Some(Terra) && (!verified || r.terra.changeSet != r.digest) {
      return false;
    }
    if r.sol.verdict == Some(Approve) && r.selection != Some(Sol) {
      if !verified || r.sol.changeSet != r.digest {
        return false;
      }
      if r.selection == None && (r.terra.verdict != Some(Approve) || r.terra.changeSet != r.digest) {
        return false;
      }
    }
    if (r.selection == Some(Sol) && r.terra.verdict != None) || (r.selection == Some(Terra) && r.sol.verdict != None) {
      return false;
    }
    if r.state == ReadyForPublish {
      ok := ValidateReady(r);
    } else {
      ok := true;
    }
  }

  /** The READY_FOR_PUBLISH part of the gate check. */
  method ValidateReady(r: Receipt) returns (ok: bool)
    ensures ok <==> StoreReady(r)
  {
    hide StoreCovers;
    if r.digest == None || !r.verification.passed || r.verification.changeSet != r.digest {
      return false;
    }
    if r.strategy == Some(ByWeb) {
      return r.repair == None
             || (r.repair.value.owner == Web && r.repair.value.progress == Verified
                 && r.repair.value.final == r.digest);
    }
    if r.selection.Some? {
      ok := StoreCoversDigest(r, r.digest.value, r.selection.value);
    } else {
      ok := r.terra.verdict == Some(Approve) && r.sol.verdict == Some(Approve)
            && r.terra.changeSet == r.digest && r.sol.changeSet == r.digest;
    }
  }

  /** What writeExecutorReceipt checks before it writes. */
  method ValidateReceipt(r: Receipt) returns (ok: bool)
    ensures ok <==> Valid(r)
  {
    hide ValidRepair, ConsistentGates;
    ok := ValidateRepair(r);
    if ok {
      ok := ValidateGateConsistency(r);
    }
  }

  // ----- The authority walk ----------------------------------------------------------------------

  method AuthorityCoversDigest(r: Receipt, digest: Digest) returns (ok: bool)
    ensures ok <==> Covers(r, digest)
  {
    hide Anchored;
    if r.strategy != Some(ByModel) || r.selection == None {
      return false;
    }
    var review := SelectedReview(r).value;
    if review.verdict == Some(Approve) && review.changeSet == Some(digest) {
      return true;
    }
    if r.repair.Some? {
      var repair := r.repair.value;
      if repair.owner == Reviewer(r.selection.value) && repair.progress == Verified && repair.final == Some(digest)
         && review.verdict == Some(Revise) && review.changeSet == Some(repair.source)
         && review.evidence == Some(repair.evidence) {
        return true;
      }
    }
    var anchor := ModelHistoryAnchor(r);
    ok := anchor == Some(digest);
  }

  method FinalWebRepairCompletes(r: Receipt, digest: Digest) returns (ok: bool)
    ensures ok <==> FinalWebCompletes(r, digest)
  {
    hide Anchored;
    if r.strategy != Some(ByModel) || r.selection == None || r.repair == None {
      return false;
    }
    var repair := r.repair.value;
    if repair.owner != Web || repair.progress != Verified || repair.final != Some(digest) {
      return false;
    }
    var review := SelectedReview(r).value;
    if review.verdict == Some(Approve) && review.changeSet == Some(repair.source) {
      return true;
    }
    var anchor := ModelHistoryAnchor(r);
    ok := anchor == Some(repair.source);
  }

  /** webRepairSourceAllowed. */
  method WebRepairSourceAllowed(r: Receipt, source: Digest) returns (ok: bool)
    ensures ok <==> SourceAllowed(r, source)
  {
    hide Covers;
    if r.strategy == Some(ByWeb) {
      return r.selection == None && r.terra.rounds == 0 && r.sol.rounds == 0 && r.terra.verdict == None
             && r.sol.verdict == None;
    }
    if r.strategy != Some(ByModel) || r.selection == None {
      return false;
    }
    ok := AuthorityCoversDigest(r, source);
    if ok {
      return;
    }
    if r.repair.Some? && r.repair.value.owner == Web && r.repair.value.progress == Verified
       && r.repair.value.final == Some(source) {
      return true;
    }
    ok := r.history != [] && r.history[|r.history| - 1].final == source;
  }

  // ----- The service and publication -----------------------------------------------------------

  /** selectedReviewReady without the authority walk: an approval, or the reviewer's own verified repair. */
  method ReviewReaches(r: Receipt, digest: Digest, kind: Kind) returns (ok: bool)
    ensures ok <==> Approves(ReviewOf(r, kind), digest) || OwnRepairReaches(r, kind, digest)
  {
    var review := if kind == Terra then r.terra else r.sol;
    if review.verdict == Some(Approve) && review.changeSet == Some(digest) {
      return true;
    }
    ok := r.repair.Some? && r.repair.value.progress == Verified && r.repair.value.owner == Reviewer(kind)
          && r.repair.value.final == Some(digest) && review.verdict == Some(Revise)
          && review.changeSet == Some(r.repair.value.source) && review.evidence == Some(r.repair.value.evidence);
  }

  /** assertReadyEvidence of the service. */
  method AssertReadyEvidence(r: Receipt) returns (ok: bool)
    ensures ok <==> ServiceReady(r)
  {
    hide OwnRepairReaches, FinalWebCompletes;
    if r.digest == None || !r.verification.passed || r.verification.changeSet != r.digest {
      return false;
    }
    if r.strategy == Some(ByWeb) {
      if r.selection != None || r.terra.verdict != None || r.sol.verdict != None {
        return false;
      }
      return r.repair == None
             || (r.repair.value.owner == Web && r.repair.value.progress == Verified
                 && r.repair.value.final == r.digest);
    }
    if r.strategy == Some(ByModel) && r.selection == None {
      return false;
    }
    if r.selection.Some? {
      ok := FinalWebRepairCompletes(r, r.digest.value);
      if !ok {
        ok := ReviewReaches(r, r.digest.value, r.selection.value);
      }
    } else {
      ok := r.terra.verdict == Some(Approve) && r.terra.changeSet == r.digest
            && r.sol.verdict == Some(Approve) && r.sol.changeSet == r.digest;
    }
  }

  /** assertReviewAuthority before publication. */
  method AssertReviewAuthority(r: Receipt) returns (ok: bool)
    ensures ok <==> PublishReady(r)
  {
    hide OwnRepairReaches;
    if r.state != ReadyForPublish || r.digest == None || !r.verification.passed
       || r.verification.changeSet != r.digest {
      return false;
    }
    if r.strategy == Some(ByWeb) {
      return r.repair == None && r.selection == None && r.terra.verdict == None && r.sol.verdict == None;
    }
    if r.strategy == Some(ByModel) && r.selection == None {
      return false;
    }
    if r.selection.Some? {
      ok := ReviewReaches(r, r.digest.value, r.selection.value);
    } else {
      ok := r.terra.changeSet == r.digest && r.sol.changeSet == r.digest
            && r.terra.verdict == Some(Approve) && r.sol.verdict == Some(Approve);
    }
  }
}
