/**
 Which review authorises a change-set digest (src/executor/review-authority.ts), the receipt
 checks that keep the chain of repair generations intact (src/executor/store.ts), and the
 three gates that ask the question: store, service and publish.
 */
module ReviewAuthority {
  import opened Prelude

  const MAX_REPAIR_GENERATIONS: nat := 4
  const MAX_REPAIR_OPERATIONS: nat := 16

  datatype Strategy = ByWeb | ByModel
  datatype Kind = Terra | Sol
  datatype Owner = Web | Reviewer(kind: Kind)
  datatype Verdict = Approve | Revise | Escalate
  datatype State = Validating | Prepared | Applying | Applied | Verifying | ReviewingWeb | Reviewing(kind: Kind)
                 | RepairApplying | RepairApplied | ReadyForPublish | EscalateToWeb | Failed

  datatype Review = Review(rounds: nat, verdict: Option<Verdict>, changeSet: Option<Digest>, evidence: Option<Digest>)
  datatype Verification = Verification(rounds: nat, passed: bool, changeSet: Option<Digest>, evidence: Option<Digest>)

  datatype Progress = Proposed | InProgress | Written | Verified
  datatype Repair = Repair(owner: Owner, source: Digest, evidence: Digest, operations: Digest, count: nat,
                           progress: Progress, final: Option<Digest>)

  /** An archived generation: only digests are kept. */
  datatype Entry = Entry(generation: nat, owner: Owner, source: Digest, evidence: Digest, operations: Digest,
                         count: nat, final: Digest)

  datatype Receipt = Receipt(state: State, strategy: Option<Strategy>, selection: Option<Kind>, digest: Option<Digest>,
                             repair: Option<Repair>, history: seq<Entry>, verification: Verification,
                             terra: Review, sol: Review)

  function ReviewOf(r: Receipt, kind: Kind): Review {
    if kind.Terra? then r.terra else r.sol
  }

  predicate ModelSelected(r: Receipt) {
    r.strategy == Some(ByModel) && r.selection.Some?
  }

  function Selected(r: Receipt): Review
    requires r.selection.Some?
  {
    ReviewOf(r, r.selection.value)
  }

  predicate Approves(review: Review, digest: Digest) {
    review.verdict == Some(Approve) && review.changeSet == Some(digest)
  }

  /** The REVISE verdict that a model repair answers. */
  predicate Answers(review: Review, source: Digest, evidence: Digest) {
    review.verdict == Some(Revise) && review.changeSet == Some(source) && review.evidence == Some(evidence)
  }

  // ----- The full walk over the archived generations ---------------------------------------

  /** The first generation starts at the selected review. */
  predicate Rooted(r: Receipt)
    requires r.selection.Some? && r.history != []
  {
    var first := r.history[0];
    if first.owner == Reviewer(r.selection.value) then Answers(Selected(r), first.source, first.evidence)
    else first.owner == Web && Approves(Selected(r), first.source)
  }

  /** Every later generation is the Web's and starts where the one before it ended. */
  predicate Continues(history: seq<Entry>, i: nat)
    requires 0 < i < |history|
  {
    history[i].owner == Web && history[i].source == history[i - 1].final
  }

  predicate Anchored(r: Receipt, digest: Digest) {
    && ModelSelected(r)
    && r.history != []
    && Rooted(r)
    && (forall i :: 0 < i < |r.history| ==> Continues(r.history, i))
    && r.history[|r.history| - 1].final == digest
  }

  /** modelHistoryAnchor: the walk finds exactly the digest the unbroken chain ends in. */
  method ModelHistoryAnchor(r: Receipt) returns (anchor: Option<Digest>)
    ensures forall digest :: anchor == Some(digest) <==> Anchored(r, digest)
  {
    if r.strategy != Some(ByModel) || r.selection.None? || r.history == [] {
      return None;
    }
    var review, first := Selected(r), r.history[0];
    var current: Digest;
    if first.owner == Reviewer(r.selection.value) {
      if review.verdict != Some(Revise) || review.changeSet != Some(first.source)
         || review.evidence != Some(first.evidence) {
        return None;
      }
      current := first.final;
    } else if first.owner == Web {
      if review.verdict != Some(Approve) || review.changeSet != Some(first.source) {
        return None;
      }
      current := first.final;
    } else {
      return None;
    }
    var index := 1;
    while index < |r.history|
      invariant 1 <= index <= |r.history|
      invariant forall i :: 0 < i < index ==> Continues(r.history, i)
      invariant current == r.history[index - 1].final
    {
      var entry := r.history[index];
      if entry.owner != Web || entry.source != current {
        assert !Continues(r.history, index);
        return None;
      }
      current := entry.final;
      index := index + 1;
    }
    anchor := Some(current);
  }

  /** The current repair is the selected reviewer's own and reached this digest. */
  predicate OwnRepairReaches(r: Receipt, kind: Kind, digest: Digest) {
    && r.repair.Some?
    && r.repair.value.owner == Reviewer(kind)
    && r.repair.value.progress.Verified?
    && r.repair.value.final == Some(digest)
    && Answers(ReviewOf(r, kind), r.repair.value.source, r.repair.value.evidence)
  }

  predicate WebRepairReaches(r: Receipt, digest: Digest) {
    && r.repair.Some?
    && r.repair.value.owner == Web
    && r.repair.value.progress.Verified?
    && r.repair.value.final == Some(digest)
  }

  /** selectedModelAuthorityCoversDigest of the authority module. */
  predicate Covers(r: Receipt, digest: Digest) {
    && ModelSelected(r)
    && (Approves(Selected(r), digest) || OwnRepairReaches(r, r.selection.value, digest) || Anchored(r, digest))
  }

  /** finalWebRepairCompletesModelAuthority. */
  predicate FinalWebCompletes(r: Receipt, digest: Digest) {
    && ModelSelected(r)
    && WebRepairReaches(r, digest)
    && (Approves(Selected(r), r.repair.value.source) || Anchored(r, r.repair.value.source))
  }

  // ----- The three gates -------------------------------------------------------------------

  /** The constant-time check of the store: it reads the first and last generation only. */
  predicate StoreCovers(r: Receipt, digest: Digest, kind: Kind) {
    var review := ReviewOf(r, kind);
    if Approves(review, digest) || OwnRepairReaches(r, kind, digest) then true
    else if WebRepairReaches(r, digest) then
      if r.history != [] then r.history[|r.history| - 1].final == r.repair.value.source
      else Approves(review, r.repair.value.source)
    else if r.history == [] || r.history[|r.history| - 1].final != digest then false
    else if r.history[0].owner == Reviewer(kind) then Answers(review, r.history[0].source, r.history[0].evidence)
    else r.history[0].owner == Web && Approves(review, r.history[0].source)
  }

  predicate LegacyApproved(r: Receipt, digest: Digest) {
    Approves(r.terra, digest) && Approves(r.sol, digest)
  }

  /** The READY_FOR_PUBLISH clause of validateGateConsistency. */
  predicate StoreReady(r: Receipt) {
    && r.digest.Some?
    && r.verification.passed && r.verification.changeSet == r.digest
    && if r.strategy == Some(ByWeb) then r.repair.None? || WebRepairReaches(r, r.digest.value)
       else if r.selection.Some? then StoreCovers(r, r.digest.value, r.selection.value)
       else LegacyApproved(r, r.digest.value)
  }

  /** assertReadyEvidence of the service. */
  predicate ServiceReady(r: Receipt) {
    && r.digest.Some?
    && r.verification.passed && r.verification.changeSet == r.digest
    && if r.strategy == Some(ByWeb) then
         && r.selection.None? && r.terra.verdict.None? && r.sol.verdict.None?
         && (r.repair.None? || WebRepairReaches(r, r.digest.value))
       else
         && (r.strategy == Some(ByModel) ==> r.selection.Some?)
         && if r.selection.Some? then
              || FinalWebCompletes(r, r.digest.value)
              || Approves(Selected(r), r.digest.value)
              || OwnRepairReaches(r, r.selection.value, r.digest.value)
            else LegacyApproved(r, r.digest.value)
  }

  /** assertReviewAuthority before publication, on the digest of the worktree. */
  predicate PublishReady(r: Receipt) {
    && r.state.ReadyForPublish? && r.digest.Some?
    && r.verification.passed && r.verification.changeSet == r.digest
    && if r.strategy == Some(ByWeb) then
         r.repair.None? && r.selection.None? && r.terra.verdict.None? && r.sol.verdict.None?
       else
         && (r.strategy == Some(ByModel) ==> r.selection.Some?)
         && if r.selection.Some? then
              Approves(Selected(r), r.digest.value) || OwnRepairReaches(r, r.selection.value, r.digest.value)
            else LegacyApproved(r, r.digest.value)
  }

  // ----- What every stored receipt satisfies -----------------------------------------------

  ghost predicate FreshEvidence(history: seq<Entry>, i: nat)
    requires i < |history|
  {
    forall j :: 0 <= j < i ==> history[j].evidence != history[i].evidence
  }

  ghost predicate ValidEntry(r: Receipt, i: nat)
    requires i < |r.history|
  {
    var entry := r.history[i];
    && entry.generation == i + 1
    && 1 <= entry.count <= MAX_REPAIR_OPERATIONS
    && FreshEvidence(r.history, i)
    && (i > 0 ==> r.history[i - 1].final == entry.source)
    && match r.strategy
       case Some(ByWeb) => entry.owner == Web
       case Some(ByModel) =>
         && r.selection.Some?
         && if i == 0 && entry.owner == Reviewer(r.selection.value)
            then Answers(Selected(r), entry.source, entry.evidence)
            else entry.owner == Web && (i == 0 ==> Approves(Selected(r), entry.source))
       case None => false
  }

  /** validateRepairHistory. */
  ghost predicate ValidHistory(r: Receipt) {
    && |r.history| <= MAX_REPAIR_GENERATIONS
    && (forall i :: 0 <= i < |r.history| ==> ValidEntry(r, i))
    && (r.history != [] ==>
          var latest := r.history[|r.history| - 1].final;
          if r.repair.Some? then r.repair.value.source == latest else r.digest == Some(latest))
  }

  /** webRepairBoundToAuthority. */
  predicate WebRepairBound(r: Receipt, source: Digest) {
    match r.strategy
    case Some(ByWeb) => r.selection.None?
    case Some(ByModel) =>
      && r.selection.Some?
      && if r.history != [] then r.history[|r.history| - 1].final == source else Approves(Selected(r), source)
    case None => false
  }

  /** The executor state each stage of a repair requires. */
  predicate StageMatches(r: Receipt)
    requires r.repair.Some?
  {
    r.state.EscalateToWeb? || r.state.Failed? ||
    match r.repair.value.progress
    case Proposed =>
      r.state == (match r.repair.value.owner
                  case Web => ReviewingWeb
                  case Reviewer(kind) => Reviewing(kind))
    case InProgress => r.state.RepairApplying?
    case Written => r.state.RepairApplied? || r.state.Verifying?
    case Verified => true
  }

  /** validateRepair, except for the operations themselves. */
  ghost predicate ValidRepair(r: Receipt) {
    && ValidHistory(r)
    && if r.repair.None? then !r.state.ReviewingWeb? && !r.state.RepairApplying? && !r.state.RepairApplied?
       else
         var repair := r.repair.value;
         && (match repair.owner
             case Web => WebRepairBound(r, repair.source)
             case Reviewer(kind) =>
               ModelSelected(r) && kind == r.selection.value && r.history == [] &&
               Answers(Selected(r), repair.source, repair.evidence))
         && 1 <= repair.count <= MAX_REPAIR_OPERATIONS
         && StageMatches(r)
         && (repair.progress.Verified? ==>
               && repair.final.Some? && r.digest == repair.final
               && r.verification.passed && r.verification.changeSet == repair.final)
  }

  predicate EvidencedReview(review: Review) {
    review.verdict.Some? ==> review.rounds >= 1 && review.changeSet.Some? && review.evidence.Some?
  }

  const UNTOUCHED := Review(0, None, None, None)

  predicate Untouched(review: Review) {
    review == UNTOUCHED
  }

  predicate VerifiedAt(r: Receipt, review: Review) {
    r.verification.passed && r.digest.Some? && r.verification.changeSet == r.digest && review.changeSet == r.digest
  }

  /** validateGateConsistency. */
  predicate ConsistentGates(r: Receipt) {
    && (r.verification.passed ==>
        r.verification.rounds >= 1 && r.verification.changeSet.Some? && r.verification.evidence.Some?)
    && EvidencedReview(r.terra) && EvidencedReview(r.sol)
    && (r.strategy == Some(ByWeb) ==>
          r.selection.None? && Untouched(r.terra) && Untouched(r.sol)
              && (r.repair.Some? ==> r.repair.value.owner == Web))
    && (r.strategy == Some(ByModel) ==> r.selection.Some?)
    && (r.terra.verdict == Some(Approve) && r.selection != Some(Terra) ==> VerifiedAt(r, r.terra))
    && (r.sol.verdict == Some(Approve) && r.selection != Some(Sol) ==>
          VerifiedAt(r, r.sol) && (r.selection.None? ==>
                                     r.terra.verdict == Some(Approve) && r.terra.changeSet == r.digest))
    && (r.selection == Some(Sol) ==> r.terra.verdict.None?)
    && (r.selection == Some(Terra) ==> r.sol.verdict.None?)
    && (r.state.ReadyForPublish? ==> StoreReady(r))
  }

  ghost predicate Valid(r: Receipt) {
    ValidRepair(r) && ConsistentGates(r)
  }

  // ----- The gates compared ----------------------------------------------------------------

  /** On stored receipts the history is an unbroken chain, so it authorises where it ends. */
  lemma HistoryIsAnchored(r: Receipt)
    requires ValidHistory(r) && r.strategy == Some(ByModel) && r.history != []
    ensures Anchored(r, r.history[|r.history| - 1].final)
  {
    assert ValidEntry(r, 0);
    forall i | 0 < i < |r.history| ensures Continues(r.history, i) {
      assert ValidEntry(r, i);
    }
  }

  /** The store's first-and-last check is the full walk, on every stored model receipt. */
  lemma StoreCheckIsFullWalk(r: Receipt, digest: Digest)
    requires ValidRepair(r) && ModelSelected(r)
    ensures StoreCovers(r, digest, r.selection.value) <==> Covers(r, digest) || FinalWebCompletes(r, digest)
  {
    if r.history != [] {
      HistoryIsAnchored(r);
    }
  }

  /** Without the chain check the two differ: a gap in the middle is invisible to the store. */
  lemma GapIsInvisibleToStore() returns (r: Receipt, digest: Digest)
    ensures ModelSelected(r) && !ValidHistory(r)
    ensures StoreCovers(r, digest, r.selection.value) && !Covers(r, digest) && !FinalWebCompletes(r, digest)
  {
    digest := "d3";
    var review := Review(1, Some(Approve), Some("d0"), Some("e"));
    var history := [Entry(1, Web, "d0", "e1", "o", 1, "d1"), Entry(2, Web, "d2", "e2", "o", 1, "d3")];
    r := Receipt(ReadyForPublish, Some(ByModel), Some(Terra), Some("d3"), None, history,
                 Verification(1, true, Some("d3"), Some("v")), review, Review(0, None, None, None));
    assert "d1"[1] != "d2"[1] && "d0"[1] != "d3"[1];
    assert !Continues(r.history, 1);
    assert !ValidEntry(r, 1);
  }

  /** A Web generation stands between the selected review and the published digest. */
  predicate WebGenerations(r: Receipt) {
    if r.strategy == Some(ByWeb) then r.repair.Some?
    else r.history != [] || (r.repair.Some? && r.repair.value.owner == Web)
  }

  /**
   On stored READY receipts the publish gate refuses exactly those whose digest rests on a Web
   generation and that the selected review does not approve at that very digest. So it never
   accepts what the store refuses, and refuses some receipts that the store accepts.
   */
  lemma PublishGateExact(r: Receipt)
    requires Valid(r) && r.state.ReadyForPublish?
    ensures PublishReady(r) <==>
            !WebGenerations(r) || (r.strategy != Some(ByWeb) && r.selection.Some?
                                   && Approves(Selected(r), r.digest.value))
  {
    if r.history != [] {
      assert ValidEntry(r, 0);
    }
  }

  /** A stored READY receipt, verified by a Web repair of an approved digest, that publication refuses. */
  lemma WebRepairIsNotPublished() returns (r: Receipt)
    ensures Valid(r) && r.state.ReadyForPublish? && ModelSelected(r) && WebRepairReaches(r, r.digest.value)
    ensures StoreReady(r) && ServiceReady(r) && !PublishReady(r)
  {
    var repair := Repair(Web, "d0", "w", "o", 1, Verified, Some("d1"));
    r := Receipt(ReadyForPublish, Some(ByModel), Some(Terra), Some("d1"), Some(repair), [],
                 Verification(2, true, Some("d1"), Some("v")), Review(1, Some(Approve), Some("d0"), Some("e")),
                     UNTOUCHED);
    assert "d0"[1] != "d1"[1];
    PublishGateExact(r);
    ServiceGateExact(r);
  }

  /** The service gate agrees with the store while every archived generation has a successor. */
  lemma ServiceGateExact(r: Receipt)
    requires Valid(r) && r.state.ReadyForPublish?
    ensures PublishReady(r) ==> ServiceReady(r)
    ensures ServiceReady(r) <==>
            r.strategy != Some(ByModel) || r.history == [] || r.repair.Some? || Approves(Selected(r), r.digest.value)
  {
    if r.history != [] {
      assert ValidEntry(r, 0);
      if r.strategy == Some(ByModel) {
        HistoryIsAnchored(r);
      }
    }
  }

  // ----- One more Web generation -----------------------------------------------------------

  predicate Archivable(r: Receipt) {
    && r.repair.Some?
    && var repair := r.repair.value;
    && repair.progress.Verified? && repair.final.Some? && r.digest == repair.final
    && r.verification.passed && r.verification.changeSet == repair.final
    && |r.history| < MAX_REPAIR_GENERATIONS - 1
    && (r.history != [] ==> r.history[|r.history| - 1].final == repair.source)
    && (repair.owner != Web ==> ModelSelected(r) && repair.owner == Reviewer(r.selection.value) && r.history == [])
  }

  /** archiveVerifiedRepair. */
  function Archive(r: Receipt): Receipt
    requires Archivable(r)
  {
    var repair := r.repair.value;
    var entry := Entry(|r.history| + 1, repair.owner, repair.source, repair.evidence, repair.operations, repair.count,
                       repair.final.value);
    r.(history := r.history + [entry], repair := None)
  }

  /** webRepairSourceAllowed. */
  predicate SourceAllowed(r: Receipt, source: Digest) {
    match r.strategy
    case Some(ByWeb) =>
      r.selection.None? && r.terra.rounds == 0 && r.sol.rounds == 0 && r.terra.verdict.None? && r.sol.verdict.None?
    case Some(ByModel) =>
      && r.selection.Some?
      && (Covers(r, source) || WebRepairReaches(r, source)
          || (r.history != [] && r.history[|r.history| - 1].final == source))
    case None => false
  }

  /** A proposed Web repair; `current` says that every target is at its proposed preimage. */
  datatype Proposal = Proposal(source: Digest, evidence: Digest, operations: Digest, count: nat, current: bool)

  datatype Outcome = Refused | Replayed | Bound(receipt: Receipt)

  /** bindWebReviewRepair up to the receipt it writes. */
  function BindWeb(r: Receipt, p: Proposal): Outcome {
    if !SourceAllowed(r, p.source) then Refused
    else if r.repair.Some? && r.repair.value.owner == Web && r.repair.value.evidence == p.evidence then
      if r.repair.value.source == p.source && r.repair.value.operations == p.operations then Replayed else Refused
    else if r.repair.Some? && !Archivable(r) then Refused
    else
      var archived := if r.repair.Some? then Archive(r) else r;
      var stale :=
        || !r.state.ReadyForPublish? || r.digest != Some(p.source)
        || !r.verification.passed || r.verification.changeSet != Some(p.source)
        || (archived.history != [] && archived.history[|archived.history| - 1].final != p.source);
      if stale || !p.current then Refused
      else
        Bound(archived.(repair := Some(Repair(Web, p.source, p.evidence, p.operations, p.count, Proposed, None)),
                        state := ReviewingWeb))
  }

  ghost predicate ReusedEvidence(r: Receipt) {
    r.repair.Some? && exists i :: 0 <= i < |r.history| && r.history[i].evidence == r.repair.value.evidence
  }

  lemma BindGates(r: Receipt, p: Proposal)
    requires Valid(r) && BindWeb(r, p).Bound?
    ensures ConsistentGates(BindWeb(r, p).receipt)
  {
    hide SourceAllowed, StoreReady, ValidEntry, StageMatches;
  }

  lemma ArchivedEntry(r: Receipt, next: Receipt)
    requires ValidRepair(r) && Archivable(r) && next.history == Archive(r).history
    requires r.strategy == next.strategy && r.selection == next.selection && r.terra == next.terra && r.sol == next.sol
    ensures ValidEntry(next, |r.history|) <==> !ReusedEvidence(r)
  {
    var n := |r.history|;
    assert forall j :: 0 <= j < n ==> next.history[j] == r.history[j];
    assert FreshEvidence(next.history, n) <==> !ReusedEvidence(r);
    hide FreshEvidence, ReusedEvidence;
  }

  lemma BindHistory(r: Receipt, p: Proposal)
    requires ValidRepair(r) && BindWeb(r, p).Bound?
    ensures var next := BindWeb(r, p).receipt;
            (forall i :: 0 <= i < |next.history| ==> ValidEntry(next, i)) <==> !ReusedEvidence(r)
  {
    hide SourceAllowed, ValidEntry, ReusedEvidence, StageMatches;
    var next := BindWeb(r, p).receipt;
    forall i | 0 <= i < |r.history| ensures ValidEntry(next, i) {
      assert ValidEntry(r, i);
      SameEntry(r, next, i);
    }
    if r.repair.Some? {
      ArchivedEntry(r, next);
    } else {
      assert !ReusedEvidence(r) by { NoReuse(r); }
    }
  }

  lemma NoReuse(r: Receipt)
    requires r.repair.None?
    ensures !ReusedEvidence(r)
  {
  }

  /**
   Binding a bounded Web repair on a stored READY receipt gives a receipt that may be stored,
   unless the repair it archives reuses the evidence of an older generation.
   */
  lemma BindKeepsValid(r: Receipt, p: Proposal)
    requires Valid(r) && BindWeb(r, p).Bound? && 1 <= p.count <= MAX_REPAIR_OPERATIONS
    ensures Valid(BindWeb(r, p).receipt) <==> !ReusedEvidence(r)
  {
    BindHistory(r, p);
    BindGates(r, p);
    if r.repair.None? {
      SourceNeedsAuthority(r, p);
    }
    hide SourceAllowed, ConsistentGates, ValidEntry, ReusedEvidence;
  }

  /** Whether an entry is valid depends on the frozen review and the entries before it alone. */
  lemma SameEntry(r: Receipt, next: Receipt, i: nat)
    requires i < |r.history| <= |next.history| && r.history == next.history[..|r.history|]
    requires r.strategy == next.strategy && r.selection == next.selection && r.terra == next.terra && r.sol == next.sol
    requires ValidEntry(r, i)
    ensures ValidEntry(next, i)
  {
    assert forall j :: 0 <= j <= i ==> r.history[j] == next.history[j];
  }

  lemma SourceNeedsAuthority(r: Receipt, p: Proposal)
    requires Valid(r) && r.repair.None? && BindWeb(r, p).Bound?
    ensures WebRepairBound(r, p.source)
  {
  }

  // ----- Any number of Web generations ------------------------------------------------------

  /** A Web repair that is bound at the current digest and goes on to be verified at `final`. */
  datatype Generation = Generation(evidence: Digest, operations: Digest, count: nat, final: Digest, proof: Digest)

  /**
   The receipts that applyReviewerRepair and completeAdaptiveRepair write, one after another, while the
   bound repair is applied, attested, verified and declared READY.
   */
  function Stages(r: Receipt, g: Generation): (stages: seq<Receipt>)
    requires r.repair.Some?
    ensures |stages| == 6
  {
    var repair := r.repair.value;
    var begun := r.(state := RepairApplying, repair := Some(repair.(progress := InProgress)));
    var written := begun.(state := RepairApplied, repair := Some(repair.(progress := Written)),
                          verification := r.verification.(passed := false, changeSet := None, evidence := None));
    var pinned := written.(state := Verifying, digest := Some(g.final),
                           repair := Some(repair.(progress := Written, final := Some(g.final))));
    var proved := pinned.(verification := Verification(r.verification.rounds + 1, true, Some(g.final), Some(g.proof)));
    var verified := proved.(repair := Some(repair.(progress := Verified, final := Some(g.final))));
    [begun, written, pinned, proved, verified, verified.(state := ReadyForPublish)]
  }

  /** The receipt once the repair is READY. */
  function Complete(r: Receipt, g: Generation): Receipt
    requires r.repair.Some?
  {
    Stages(r, g)[5]
  }

  lemma CompleteIs(r: Receipt, g: Generation)
    requires r.repair.Some?
    ensures Complete(r, g) ==
            r.(state := ReadyForPublish, digest := Some(g.final),
               repair := Some(r.repair.value.(progress := Verified, final := Some(g.final))),
               verification := Verification(r.verification.rounds + 1, true, Some(g.final), Some(g.proof)))
  {
  }

  /** One generation after another; None as soon as one of them is refused. */
  function Generations(r: Receipt, gs: seq<Generation>): Option<Receipt>
    decreases |gs|
  {
    if gs == [] then Some(r)
    else if r.digest.None? then None
    else
      match BindWeb(r, Proposal(r.digest.value, gs[0].evidence, gs[0].operations, gs[0].count, true))
      case Bound(next) => Generations(Complete(next, gs[0]), gs[1..])
      case _ => None
  }

  /** The evidence digests of every generation, archived, current and to come. */
  function AllEvidence(r: Receipt, gs: seq<Generation>): seq<Digest> {
    seq(|r.history|, i requires 0 <= i < |r.history| => r.history[i].evidence)
    + (if r.repair.Some? then [r.repair.value.evidence] else [])
    + seq(|gs|, i requires 0 <= i < |gs| => gs[i].evidence)
  }

  ghost predicate Distinct(s: seq<Digest>) {
    forall i, j :: 0 <= i < j < |s| ==> s[i] != s[j]
  }

  function GenerationCount(r: Receipt): nat {
    |r.history| + if r.repair.Some? then 1 else 0
  }

  /** What bindWebReviewRepair leaves behind: an archived generation always has a successor. */
  predicate Rotating(r: Receipt) {
    r.history != [] ==> r.repair.Some? && |r.history| < MAX_REPAIR_GENERATIONS
  }

  lemma StageGates(r: Receipt, g: Generation, k: nat)
    requires ValidRepair(r) && ConsistentGates(r) && r.repair.Some? && r.repair.value.owner == Web && k < 6
    ensures ConsistentGates(Stages(r, g)[k])
  {
    hide ValidHistory, StageMatches;
    var next := Stages(r, g)[k];
    if k == 5 {
      assert WebRepairReaches(next, g.final);
      assert StoreReady(next) by {
        hide Approves, OwnRepairReaches, Answers;
        assert r.strategy == Some(ByModel) && r.history == [] ==> Approves(Selected(next), next.repair.value.source);
      }
    }
    hide StoreReady;
  }

  /** Every receipt written while a bound Web repair is completed may be stored. */
  lemma StagesAreValid(r: Receipt, g: Generation, k: nat)
    requires Valid(r) && r.repair.Some? && r.repair.value.owner == Web && k < 6
    ensures Valid(Stages(r, g)[k])
  {
    StageGates(r, g, k);
    hide ConsistentGates, ValidEntry;
    forall i | 0 <= i < |r.history| ensures ValidEntry(Stages(r, g)[k], i) {
      SameEntry(r, Stages(r, g)[k], i);
    }
  }

  /** Completing the bound repair writes only receipts that may be stored, and ends READY at its digest. */
  lemma CompleteKeepsValid(r: Receipt, g: Generation)
    requires Valid(r) && r.repair.Some? && r.repair.value.owner == Web
    ensures forall k :: 0 <= k < 6 ==> Valid(Stages(r, g)[k])
    ensures Valid(Complete(r, g)) && Complete(r, g).state.ReadyForPublish? && WebRepairReaches(Complete(r, g), g.final)
    ensures ServiceReady(Complete(r, g))
  {
    forall k | 0 <= k < 6 ensures Valid(Stages(r, g)[k]) {
      StagesAreValid(r, g, k);
    }
    StageGates(r, g, 5);
    ServiceGateExact(Complete(r, g));
  }

  /** On a stored READY receipt a proposal with new evidence is bound until the budget is spent. */
  lemma BindSucceeds(r: Receipt, p: Proposal)
    requires Valid(r) && r.state.ReadyForPublish? && r.strategy.Some? && Rotating(r)
    requires r.digest == Some(p.source) && p.current
    requires r.repair.Some? ==> r.repair.value.evidence != p.evidence
    ensures BindWeb(r, p).Bound? <==> GenerationCount(r) < MAX_REPAIR_GENERATIONS
    ensures !BindWeb(r, p).Replayed?
  {
    assert SourceAllowed(r, p.source) by {
      if r.strategy == Some(ByModel) {
        StoreCheckIsFullWalk(r, p.source);
      }
    }
    if r.repair.Some? {
      assert Archivable(r) <==> |r.history| < MAX_REPAIR_GENERATIONS - 1;
    }
  }

  lemma SameEvidence(r: Receipt, gs: seq<Generation>, next: Receipt)
    requires gs != [] && next.repair.Some? && next.repair.value.evidence == gs[0].evidence
    requires r.repair.None? ==> next.history == r.history
    requires r.repair.Some? ==> |next.history| == |r.history| + 1 && next.history[..|r.history|] == r.history &&
                                next.history[|r.history|].evidence == r.repair.value.evidence
    ensures AllEvidence(next, gs[1..]) == AllEvidence(r, gs)
  {
    assert forall i :: 0 <= i < |r.history| ==> next.history[i] == next.history[..|r.history|][i];
    assert gs == [gs[0]] + gs[1..];
  }

  /**
   Generations of Web repair, each with new evidence, run until four generations exist in all.
   While they run every stored receipt is valid, the frozen review never changes, and the
   authority walk reaches the digest of the newest generation.
   */
  lemma {:induction false} GenerationBudget(r: Receipt, gs: seq<Generation>)
    requires Valid(r) && r.state.ReadyForPublish? && r.strategy.Some? && Rotating(r)
    requires Distinct(AllEvidence(r, gs))
    requires forall i :: 0 <= i < |gs| ==> 1 <= gs[i].count <= MAX_REPAIR_OPERATIONS
    ensures Generations(r, gs).Some? <==> gs == [] || GenerationCount(r) + |gs| <= MAX_REPAIR_GENERATIONS
    ensures Generations(r, gs).Some? ==>
              var last := Generations(r, gs).value;
              && Valid(last) && last.state.ReadyForPublish? && Rotating(last)
              && (last.strategy, last.selection, last.terra, last.sol) == (r.strategy, r.selection, r.terra, r.sol)
              && GenerationCount(last) == GenerationCount(r) + |gs|
              && last.digest == (if gs == [] then r.digest else Some(gs[|gs| - 1].final))
              && (r.strategy == Some(ByModel) ==>
                  Covers(last, last.digest.value) || FinalWebCompletes(last, last.digest.value))
    decreases |gs|
  {
    hide Valid, SourceAllowed, Covers, FinalWebCompletes, Archivable, Complete, ServiceReady, WebRepairReaches;
    Authorised(r);
    if gs != [] {
      var p := Proposal(r.digest.value, gs[0].evidence, gs[0].operations, gs[0].count, true);
      FreshGeneration(r, gs);
      BindSucceeds(r, p);
      if BindWeb(r, p).Bound? {
        BindKeepsValid(r, p);
        var next := BindWeb(r, p).receipt;
        CompleteKeepsValid(next, gs[0]);
        var done := Complete(next, gs[0]);
        CompleteIs(next, gs[0]);
        SameEvidence(r, gs, done);
        GenerationBudget(done, gs[1..]);
      }
    }
  }

  /** A READY receipt of a run that the Web alone reviews, before any repair. */
  function FirstReady(): Receipt {
    Receipt(ReadyForPublish, Some(ByWeb), None, Some("d0"), None, [], Verification(1, true, Some("d0"), Some("v")),
            UNTOUCHED, UNTOUCHED)
  }

  /** One generation, bound and completed, on a receipt that reuses no evidence. */
  lemma OneGeneration(r: Receipt, gs: seq<Generation>) returns (next: Receipt)
    requires Valid(r) && r.state.ReadyForPublish? && r.strategy.Some? && Rotating(r) && !ReusedEvidence(r) && gs != []
    requires r.repair.Some? ==> r.repair.value.evidence != gs[0].evidence
    requires 1 <= gs[0].count <= MAX_REPAIR_OPERATIONS && GenerationCount(r) < MAX_REPAIR_GENERATIONS
    ensures Valid(next) && next.state.ReadyForPublish? && next.strategy == r.strategy && Rotating(next)
    ensures next.repair.Some? && next.repair.value.evidence == gs[0].evidence
    ensures |next.history| == GenerationCount(r) && r.history <= next.history
    ensures r.repair.Some? ==> next.history[|r.history|].evidence == r.repair.value.evidence
    ensures Generations(r, gs) == Generations(next, gs[1..])
  {
    hide Valid, SourceAllowed, Covers, FinalWebCompletes, ReusedEvidence, Complete, ServiceReady, WebRepairReaches;
    Authorised(r);
    var p := Proposal(r.digest.value, gs[0].evidence, gs[0].operations, gs[0].count, true);
    BindSucceeds(r, p);
    BindKeepsValid(r, p);
    CompleteKeepsValid(BindWeb(r, p).receipt, gs[0]);
    next := Complete(BindWeb(r, p).receipt, gs[0]);
    CompleteIs(BindWeb(r, p).receipt, gs[0]);
  }

  lemma FirstReadyIsValid()
    ensures var r := FirstReady();
            Valid(r) && r.state.ReadyForPublish? && r.strategy.Some? && r.repair.None? && r.history == []
  {
  }

  const REUSING: seq<Generation> :=
    [Generation("x", "o", 1, "d1", "v"), Generation("y", "o", 1, "d2", "v"), Generation("x", "o", 1, "d3", "v")]

  /** Three generations, the third with the evidence of the first, are bound, completed and stored. */
  lemma EvidenceCanBeReused(start: Receipt, gs: seq<Generation>) returns (r: Receipt)
    requires Valid(start) && start.state.ReadyForPublish? && start.strategy.Some? && start.repair.None?
             && start.history == []
    requires |gs| == 3 && gs[0].evidence == gs[2].evidence != gs[1].evidence
    requires forall i :: 0 <= i < 3 ==> 1 <= gs[i].count <= MAX_REPAIR_OPERATIONS
    ensures Generations(start, gs) == Some(r)
    ensures Valid(r) && r.state.ReadyForPublish? && r.strategy.Some? && Rotating(r) && ReusedEvidence(r)
    ensures GenerationCount(r) < MAX_REPAIR_GENERATIONS && r.repair.Some? && r.repair.value.evidence == gs[2].evidence
  {
    hide Valid, Generations, BindWeb, SourceAllowed;
    var r1 := OneGeneration(start, gs);
    var r2 := OneGeneration(r1, gs[1..]);
    assert gs[1..][1..] == gs[2..];
    r := OneGeneration(r2, gs[2..]);
    assert gs[2..][1..] == [];
    NoMoreGenerations(r);
    assert r.history[0].evidence == r2.history[0].evidence == r1.repair.value.evidence;
  }

  /** After them a fresh proposal is still bound, but no bound proposal can be stored. */
  lemma ReusedEvidenceBlocks() returns (r: Receipt, p: Proposal)
    ensures Generations(FirstReady(), REUSING) == Some(r) && Valid(r) && ReusedEvidence(r)
    ensures BindWeb(r, p).Bound? && 1 <= p.count <= MAX_REPAIR_OPERATIONS
    ensures forall q: Proposal :: BindWeb(r, q).Bound? && 1 <= q.count <= MAX_REPAIR_OPERATIONS ==>
              !Valid(BindWeb(r, q).receipt)
  {
    hide Valid, Generations, BindWeb, SourceAllowed, FirstReady, ReusedEvidence;
    assert "z"[0] != "x"[0] && "x"[0] != "y"[0];
    FirstReadyIsValid();
    r := EvidenceCanBeReused(FirstReady(), REUSING);
    Authorised(r);
    p := Proposal(r.digest.value, "z", "o", 1, true);
    BindSucceeds(r, p);
    forall q: Proposal | BindWeb(r, q).Bound? && 1 <= q.count <= MAX_REPAIR_OPERATIONS
      ensures !Valid(BindWeb(r, q).receipt) {
      BindKeepsValid(r, q);
    }
  }

  lemma NoMoreGenerations(r: Receipt)
    ensures Generations(r, []) == Some(r)
  {
  }

  lemma FreshGeneration(r: Receipt, gs: seq<Generation>)
    requires gs != [] && Distinct(AllEvidence(r, gs))
    ensures r.repair.Some? ==> r.repair.value.evidence != gs[0].evidence
    ensures !ReusedEvidence(r)
  {
    var all, n := AllEvidence(r, gs), |r.history|;
    if r.repair.Some? {
      assert all[n] == r.repair.value.evidence && all[n + 1] == gs[0].evidence;
      assert forall i :: 0 <= i < n ==> all[i] == r.history[i].evidence;
    }
  }

  lemma Authorised(r: Receipt)
    requires Valid(r) && r.state.ReadyForPublish?
    ensures r.digest.Some?
    ensures r.strategy == Some(ByModel) ==> Covers(r, r.digest.value) || FinalWebCompletes(r, r.digest.value)
  {
    if r.strategy == Some(ByModel) {
      StoreCheckIsFullWalk(r, r.digest.value);
    }
  }

  // ----- The receipt object ----------------------------------------------------------------

  /** The receipt as the object that archiveVerifiedRepair and bindWebReviewRepair update. */
  class Record {
    var state: State
    var repair: Option<Repair>
    var history: seq<Entry>
    var digest: Option<Digest>
    var verification: Verification
    const strategy: Option<Strategy>
    const selection: Option<Kind>
    const terra: Review
    const sol: Review

    function Value(): Receipt
      reads this
    {
      Receipt(state, strategy, selection, digest, repair, history, verification, terra, sol)
    }

    constructor (r: Receipt)
      ensures Value() == r
    {
      state, repair, history, digest, verification := r.state, r.repair, r.history, r.digest, r.verification;
      strategy, selection, terra, sol := r.strategy, r.selection, r.terra, r.sol;
    }

    method ArchiveVerified() returns (ok: bool)
      modifies `repair, `history
      ensures ok == Archivable(old(Value()))
      ensures Value() == if ok then Archive(old(Value())) else old(Value())
    {
      if repair.None? || !repair.value.progress.Verified? || repair.value.final.None? || repair.value.final != digest
        || !verification.passed || verification.changeSet != repair.value.final {
        return false;
      }
      var current := repair.value;
      if |history| >= MAX_REPAIR_GENERATIONS - 1 || (history != [] && history[|history| - 1].final != current.source) {
        return false;
      }
      if current.owner != Web && (strategy != Some(ByModel) || selection.None?
                                  || current.owner != Reviewer(selection.value) || history != []) {
        return false;
      }
      history := history + [Entry(|history| + 1, current.owner, current.source, current.evidence, current.operations,
                                  current.count, current.final.value)];
      repair := None;
      ok := true;
    }

    /** A refusal may come after the archive step; the receipt is then not written. */
    method Bind(p: Proposal) returns (outcome: Outcome)
      modifies `repair, `history, `state
      ensures outcome == BindWeb(old(Value()), p)
      ensures outcome.Bound? ==> Value() == outcome.receipt
      ensures outcome.Replayed? ==> Value() == old(Value())
    {
      if !SourceAllowed(Value(), p.source) {
        return Refused;
      }
      if repair.Some? {
        if repair.value.owner == Web && repair.value.evidence == p.evidence {
          return if repair.value.source == p.source && repair.value.operations == p.operations then Replayed
                 else Refused;
        }
        var archived := ArchiveVerified();
        if !archived {
          return Refused;
        }
      }
      if !state.ReadyForPublish? || digest != Some(p.source) || !verification.passed
         || verification.changeSet != Some(p.source)
        || (history != [] && history[|history| - 1].final != p.source) || !p.current {
        return Refused;
      }
      repair, state := Some(Repair(Web, p.source, p.evidence, p.operations, p.count, Proposed, None)), ReviewingWeb;
      outcome := Bound(Value());
    }

    /** applyReviewerRepair and completeAdaptiveRepair on the receipt, with every receipt that is written on the way. */
    method CompleteRepair(g: Generation) returns (written: seq<Receipt>)
      requires repair.Some?
      modifies `state, `repair, `digest, `verification
      ensures written == Stages(old(Value()), g) && Value() == Complete(old(Value()), g)
    {
      state := RepairApplying;
      repair := Some(repair.value.(progress := InProgress));
      written := [Value()];
      repair := Some(repair.value.(progress := Written));
      state := RepairApplied;
      verification := Verification(verification.rounds, false, None, None);
      written := written + [Value()];
      digest := Some(g.final);
      repair := Some(repair.value.(final := Some(g.final)));
      state := Verifying;
      written := written + [Value()];
      verification := Verification(verification.rounds + 1, true, Some(g.final), Some(g.proof));
      written := written + [Value()];
      repair := Some(repair.value.(progress := Verified));
      written := written + [Value()];
      state := ReadyForPublish;
      written := written + [Value()];
    }
  }
}
