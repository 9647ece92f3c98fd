/**
 The Phase 4 receipt and what guards it: the transition table (src/execution/state-machine.ts), the
 budget (src/execution/budget.ts), the review gates (src/execution/review-gates.ts), the stored
 receipt's check (src/execution/execution-store.ts) and the check of a completed receipt
 (src/execution/execution-service.ts).
 */
module ExecutionGates {
  import opened Prelude

  // ----- The state machine ------------------------------------------------------------------

  datatype State =
    | ReadyForCodex | CodexPreflight | TerraAssessing | TerraImplementing | PolicyChecking | Verifying | TerraFixing
    | TerraReviewing | SolReviewing | ReadyForPublish | ReplanRequired | WebReviewRequired | HumanRequired
    | PolicyBlocked | VerificationFailed | AgentFailed | BudgetExhausted | Interrupted | Failed

  function Allowed(from: State): set<State> {
    match from
    case ReadyForCodex => {CodexPreflight, Interrupted, Failed}
    case CodexPreflight => {TerraAssessing, PolicyBlocked, HumanRequired, Failed, Interrupted}
    case TerraAssessing =>
      {TerraImplementing, ReplanRequired, HumanRequired, PolicyBlocked, AgentFailed, BudgetExhausted, Failed,
          Interrupted}
    case TerraImplementing =>
      {PolicyChecking, TerraFixing, ReplanRequired, HumanRequired, PolicyBlocked, AgentFailed, BudgetExhausted, Failed,
          Interrupted}
    case PolicyChecking => {Verifying, TerraFixing, PolicyBlocked, Failed, Interrupted}
    case Verifying => {TerraReviewing, SolReviewing, TerraFixing, VerificationFailed, BudgetExhausted, Failed,
        Interrupted}
    case TerraFixing => {TerraImplementing, BudgetExhausted, AgentFailed, Failed, Interrupted}
    case TerraReviewing =>
      {SolReviewing, ReadyForPublish, TerraFixing, WebReviewRequired, HumanRequired, AgentFailed, BudgetExhausted,
          Failed, Interrupted}
    case SolReviewing =>
      {ReadyForPublish, TerraFixing, WebReviewRequired, HumanRequired, AgentFailed, BudgetExhausted, Failed,
          Interrupted}
    case VerificationFailed => {TerraFixing, Failed}
    case AgentFailed => {TerraFixing, Failed}
    case Interrupted => {CodexPreflight, TerraFixing}
    case _ => {}
  }

  predicate CanTransition(from: State, to: State) {
    to in Allowed(from)
  }

  /** ExecutionStateMachine. */
  class StateMachine {
    var state: State

    constructor (state: State)
      ensures this.state == state
    {
      this.state := state;
    }

    method Transition(to: State) returns (ok: bool)
      modifies this
      ensures ok == CanTransition(old(state), to)
      ensures state == if ok then to else old(state)
    {
      ok := to in Allowed(state);
      if ok {
        state := to;
      }
    }
  }

  /** The states from which a state is entered: the table, read the other way round. */
  lemma EnteredFrom(from: State, to: State)
    ensures CanTransition(from, to) <==>
            match to
            case ReadyForCodex => false
            case CodexPreflight => from == ReadyForCodex || from == Interrupted
            case TerraAssessing => from == CodexPreflight
            case TerraImplementing => from == TerraAssessing || from == TerraFixing
            case PolicyChecking => from == TerraImplementing
            case Verifying => from == PolicyChecking
            case TerraFixing =>
              || from == TerraImplementing || from == PolicyChecking || from == Verifying || from == TerraReviewing
              || from == SolReviewing || from == VerificationFailed || from == AgentFailed || from == Interrupted
            case TerraReviewing => from == Verifying
            case SolReviewing => from == Verifying || from == TerraReviewing
            case ReadyForPublish => from == TerraReviewing || from == SolReviewing
            case ReplanRequired => from == TerraAssessing || from == TerraImplementing
            case WebReviewRequired => from == TerraReviewing || from == SolReviewing
            case HumanRequired =>
              || from == CodexPreflight || from == TerraAssessing || from == TerraImplementing
              || from == TerraReviewing || from == SolReviewing
            case PolicyBlocked =>
              from == CodexPreflight || from == TerraAssessing || from == TerraImplementing || from == PolicyChecking
            case VerificationFailed => from == Verifying
            case AgentFailed =>
              || from == TerraAssessing || from == TerraImplementing || from == TerraFixing
              || from == TerraReviewing || from == SolReviewing
            case BudgetExhausted =>
              || from == TerraAssessing || from == TerraImplementing || from == Verifying || from == TerraFixing
              || from == TerraReviewing || from == SolReviewing
            case Interrupted => Works(from)
            case Failed => Works(from) || from == VerificationFailed || from == AgentFailed
  {
  }

  /** A state in which a process is at work. */
  predicate Works(state: State) {
    || state == ReadyForCodex || state == CodexPreflight || state == TerraAssessing || state == TerraImplementing
    || state == PolicyChecking || state == Verifying || state == TerraFixing || state == TerraReviewing
    || state == SolReviewing
  }

  /** Every path of allowed transitions that ends READY comes from a review state. */
  lemma ReadyComesFromReview(from: State)
    ensures CanTransition(from, ReadyForPublish) <==> from.TerraReviewing? || from.SolReviewing?
    ensures !CanTransition(VerificationFailed, BudgetExhausted)
  {
  }

  ghost predicate Path(states: seq<State>) {
    forall i :: 0 <= i < |states| - 1 ==> CanTransition(states[i], states[i + 1])
  }

  /**
   A run of the state machine from its first state to READY verifies, and after its last
   verification it goes straight through the reviews: no implementation turn comes in between.
   */
  lemma {:induction false} ReadyFollowsVerification(states: seq<State>) returns (v: nat)
    requires states != [] && Path(states) && states[0].ReadyForCodex? && states[|states| - 1].ReadyForPublish?
    ensures v < |states| && states[v].Verifying?
    ensures forall i :: v < i < |states| - 1 ==> states[i].TerraReviewing? || states[i].SolReviewing?
  {
    v := |states| - 1;
    while !states[v].Verifying?
      invariant v < |states|
      invariant states[v].Verifying? || states[v].TerraReviewing? || states[v].SolReviewing?
                || states[v].ReadyForPublish?
      invariant forall i :: v < i < |states| - 1 ==> states[i].TerraReviewing? || states[i].SolReviewing?
      invariant states[v].ReadyForPublish? ==> v == |states| - 1
      decreases v
    {
      assert v > 0 && CanTransition(states[v - 1], states[v]);
      v := v - 1;
    }
  }

  // ----- The budget -------------------------------------------------------------------------

  datatype Limits = Limits(iterations: nat, internalRounds: nat, solRounds: nat, turns: nat, seconds: nat, input: nat,
                           output: nat)
  datatype Usage = Usage(iterations: nat, internalRounds: nat, solRounds: nat, turns: nat, input: nat, cached: nat,
                         output: nat)

  datatype Turn = Assessment | Repair | Implementation | InternalReview | SolReview

  const MAX_SAFE: nat := 0x1F_FFFF_FFFF_FFFF

  /** Whether a turn may start, `elapsed` seconds into the run. */
  predicate MayBegin(limits: Limits, u: Usage, turn: Turn, elapsed: int) {
    && u.turns < limits.turns && elapsed < limits.seconds
    && (turn.Implementation? ==> u.iterations < limits.iterations)
    && (turn.InternalReview? ==> u.internalRounds < limits.internalRounds)
    && (turn.SolReview? ==> u.solRounds < limits.solRounds)
  }

  function Begun(u: Usage, turn: Turn): Usage {
    var counted := u.(turns := u.turns + 1);
    match turn
    case Assessment | Repair => counted
    case Implementation => counted.(iterations := u.iterations + 1)
    case InternalReview => counted.(internalRounds := u.internalRounds + 1)
    case SolReview => counted.(solRounds := u.solRounds + 1)
  }

  /** A provider's report; an absent field is None. */
  datatype Tokens = Tokens(input: Option<nat>, output: Option<nat>, cached: nat)

  predicate Measured(tokens: Tokens) {
    tokens.input.Some? && tokens.output.Some? && tokens.input.value <= MAX_SAFE && tokens.output.value <= MAX_SAFE
        && tokens.cached <= MAX_SAFE
  }

  predicate Within(limits: Limits, u: Usage) {
    u.turns <= limits.turns && u.iterations <= limits.iterations && u.internalRounds <= limits.internalRounds
        && u.solRounds <= limits.solRounds
  }

  /** recordTokens: what the budget counts, and whether it accepts; cached input is counted and not charged. */
  function Counted(limits: Limits, u: Usage, tokens: Tokens): (Usage, bool) {
    var most := 9_007_199_254_740_991;
    if tokens.input == None || tokens.output == None then (u, false)
    else if tokens.input.value > most || tokens.output.value > most || tokens.cached > most then (u, false)
    else if u.input + tokens.input.value > most then (u, false)
    else
      var read := u.(input := u.input + tokens.input.value);
      if u.cached + tokens.cached > most then (read, false)
      else
        var kept := read.(cached := u.cached + tokens.cached);
        if u.output + tokens.output.value > most then (kept, false)
        else
          var written := kept.(output := u.output + tokens.output.value);
          (written, written.input <= limits.input && written.output <= limits.output)
  }

  class BudgetTracker {
    const limits: Limits
    var usage: Usage

    constructor (limits: Limits, usage: Usage)
      ensures this.limits == limits && this.usage == usage
    {
      this.limits, this.usage := limits, usage;
    }

    /** beginAssessment, beginRepair, beginImplementation, beginInternalReview, beginSolReview. */
    method Begin(turn: Turn, elapsed: int) returns (ok: bool)
      modifies this
      ensures ok == MayBegin(limits, old(usage), turn, elapsed)
      ensures usage == if ok then Begun(old(usage), turn) else old(usage)
      ensures old(Within(limits, usage)) ==> Within(limits, usage)
    {
      match turn {
        case Implementation => ok := usage.iterations < limits.iterations;
        case InternalReview => ok := usage.internalRounds < limits.internalRounds;
        case SolReview => ok := usage.solRounds < limits.solRounds;
        case _ => ok := true;
      }
      ok := ok && usage.turns < limits.turns && elapsed < limits.seconds;
      if ok {
        match turn {
          case Implementation => usage := usage.(iterations := usage.iterations + 1);
          case InternalReview => usage := usage.(internalRounds := usage.internalRounds + 1);
          case SolReview => usage := usage.(solRounds := usage.solRounds + 1);
          case _ =>
        }
        usage := usage.(turns := usage.turns + 1);
      }
    }

    /** recordTokens: cached input is counted apart and not charged again. */
    method Record(tokens: Tokens) returns (ok: bool)
      modifies this
      ensures ok ==> Measured(tokens)
                     && usage == old(usage).(input := old(usage).input + tokens.input.value,
                                             cached := old(usage).cached + tokens.cached,
                                             output := old(usage).output + tokens.output.value)
                     && usage.input <= limits.input && usage.output <= limits.output
      ensures !ok && Measured(tokens) ==>
                || old(usage).input + tokens.input.value > limits.input
                || old(usage).output + tokens.output.value > limits.output
                || old(usage).input + tokens.input.value > MAX_SAFE || old(usage).cached + tokens.cached > MAX_SAFE
                || old(usage).output + tokens.output.value > MAX_SAFE
      ensures usage.turns == old(usage).turns
      ensures (usage, ok) == Counted(limits, old(usage), tokens)
    {
      if !Measured(tokens) {
        return false;
      }
      if usage.input + tokens.input.value > MAX_SAFE {
        return false;
      }
      usage := usage.(input := usage.input + tokens.input.value);
      if usage.cached + tokens.cached > MAX_SAFE {
        return false;
      }
      usage := usage.(cached := usage.cached + tokens.cached);
      if usage.output + tokens.output.value > MAX_SAFE {
        return false;
      }
      usage := usage.(output := usage.output + tokens.output.value);
      ok := usage.input <= limits.input && usage.output <= limits.output;
    }
  }

  // ----- The receipt and the review gates ------------------------------------------------------

  type Thread = string

  datatype Kind = Terra | Sol
  datatype Verdict = Approve | Revise | Replan | Escalate

  /** The token totals of usage. */
  datatype Spent = Spent(input: nat, cached: nat, output: nat)

  /** internal_reviewer or final_reviewer. */
  datatype Slot = Slot(rounds: nat, latest: Option<Thread>, threads: seq<Thread>, verdict: Option<Verdict>,
                       reviewed: Option<Digest>)

  datatype Receipt = Receipt(state: State, selection: Option<Kind>, implementer: Thread, iterations: nat,
                             internal: Slot, final: Slot,
                             rounds: nat, passed: bool, verified: Option<Digest>, digest: Option<Digest>, turns: nat,
                             spent: Spent)

  datatype Result = Result(verdict: Verdict, reviewed: Digest, blocking: nat, scope: nat, unverified: nat,
                           results: seq<(string, bool)>)

  function SlotOf(r: Receipt, kind: Kind): Slot {
    if kind.Terra? then r.internal else r.final
  }

  function WithSlot(r: Receipt, kind: Kind, slot: Slot): Receipt {
    if kind.Terra? then r.(internal := slot) else r.(final := slot)
  }

  /** The status of an acceptance criterion; a later entry replaces an earlier one. */
  function StatusOf(results: seq<(string, bool)>, id: string): Option<bool> {
    if results == [] then None
    else if results[|results| - 1].0 == id then Some(results[|results| - 1].1)
    else StatusOf(results[..|results| - 1], id)
  }

  predicate ApprovalValid(review: Result, digest: Digest, required: seq<string>) {
    && review.verdict.Approve? && review.reviewed == digest
    && review.blocking == 0 && review.scope == 0 && review.unverified == 0
    && forall i :: 0 <= i < |required| ==> StatusOf(review.results, required[i]) == Some(true)
  }

  predicate VerifiedNow(r: Receipt) {
    r.passed && r.verified == r.digest
  }

  /** The latest thread exists and is not the implementer's. */
  predicate Independent(r: Receipt, slot: Slot) {
    slot.latest.Some? && slot.latest.value != "" && slot.latest.value != r.implementer
  }

  predicate Disjoint(a: seq<Thread>, b: seq<Thread>) {
    forall i :: 0 <= i < |a| ==> a[i] !in b
  }

  predicate SingleCanStart(r: Receipt, kind: Kind) {
    var latest := SlotOf(r, kind).latest;
    VerifiedNow(r) && !(latest.Some? && latest.value != "" && latest.value == r.implementer)
  }

  predicate SingleReady(r: Receipt, review: Result, kind: Kind, required: seq<string>) {
    r.digest.Some? && VerifiedNow(r) && ApprovalValid(review, r.digest.value, required)
        && Independent(r, SlotOf(r, kind))
  }

  predicate TerraCanStart(r: Receipt, review: Result, required: seq<string>) {
    && SingleCanStart(r, Terra)
    && ApprovalValid(review, if r.digest.Some? then r.digest.value else "", required)
  }

  predicate SolCanStart(r: Receipt, review: Result, required: seq<string>) {
    && VerifiedNow(r)
    && ApprovalValid(review, if r.digest.Some? then r.digest.value else "", required)
    && Independent(r, r.internal)
    && !(r.final.latest.Some? && r.final.latest.value != "" &&
         (r.final.latest.value == r.implementer || r.final.latest.value in r.internal.threads))
  }

  predicate BothReady(r: Receipt, terra: Result, sol: Result, required: seq<string>) {
    && r.digest.Some? && VerifiedNow(r)
    && ApprovalValid(terra, r.digest.value, required) && ApprovalValid(sol, r.digest.value, required)
    && Independent(r, r.internal) && Independent(r, r.final)
    && Disjoint(r.final.threads, r.internal.threads)
  }

  /** A reviewer whose approval of this digest is in the receipt. */
  predicate Approved(r: Receipt, slot: Slot) {
    slot.verdict == Some(Approve) && slot.rounds >= 1 && slot.reviewed == r.digest
  }

  /** validateCompletedReceipt. */
  predicate Completed(r: Receipt) {
    && r.digest.Some? && VerifiedNow(r)
    && match r.selection
       case Some(kind) => Approved(r, SlotOf(r, kind)) && Independent(r, SlotOf(r, kind))
       case None =>
         && Approved(r, r.internal) && Approved(r, r.final)
         && Independent(r, r.internal) && Independent(r, r.final)
         && Disjoint(r.final.threads, r.internal.threads)
  }

  predicate Unused(slot: Slot) {
    slot.rounds == 0 && slot.verdict.None? && slot.reviewed.None?
  }

  /** The READY and selected-reviewer clauses of validateExecutionReceipt. */
  predicate Storable(r: Receipt) {
    && (r.selection == Some(Sol) ==> Unused(r.internal))
    && (r.selection == Some(Terra) ==> Unused(r.final))
    && (r.state.ReadyForPublish? ==>
          && r.digest.Some? && VerifiedNow(r)
          && match r.selection
             case Some(kind) =>
               var slot := SlotOf(r, kind);
               Approved(r, slot) && slot.latest.Some? && slot.latest.value != ""
             case None =>
               && r.internal.verdict == Some(Approve) && r.final.verdict == Some(Approve)
               && r.internal.reviewed == r.digest && r.final.reviewed == r.digest)
  }

  /** A completed receipt may be stored READY when the other reviewer was never used. */
  lemma CompletedIsStorable(r: Receipt)
    requires Completed(r)
    ensures Storable(r) <==>
            (r.selection == Some(Sol) ==> Unused(r.internal)) && (r.selection == Some(Terra) ==> Unused(r.final))
  {
  }

  /** The converse fails: the store does not compare the threads. */
  lemma StoredNeedNotBeCompleted() returns (r: Receipt)
    ensures r.state.ReadyForPublish? && Storable(r) && !Completed(r)
  {
    var slot := Slot(1, Some("t"), ["t"], Some(Approve), Some("d"));
    r := Receipt(ReadyForPublish, None, "t", 1, slot, slot, 1, true, Some("d"), Some("d"), 3, Spent(0, 0, 0));
  }

  /** What the completed-receipt check asks beyond the store: rounds, and threads that are the reviewers' own. */
  predicate OwnThreads(r: Receipt) {
    match r.selection
    case Some(kind) => SlotOf(r, kind).latest != Some(r.implementer)
    case None =>
      && r.internal.rounds >= 1 && r.final.rounds >= 1
      && Independent(r, r.internal) && Independent(r, r.final)
      && Disjoint(r.final.threads, r.internal.threads)
  }

  /** On stored READY receipts the completed-receipt check is exactly that. */
  lemma StoredIsCompleted(r: Receipt)
    requires r.state.ReadyForPublish? && Storable(r)
    ensures Completed(r) <==> OwnThreads(r)
  {
    hide Disjoint;
  }

  /** invalidateReviews. */
  function Invalidated(r: Receipt): Receipt {
    r.(internal := r.internal.(verdict := None, reviewed := None), final := r.final.(verdict := None, reviewed := None),
       passed := false, verified := None)
  }

  /** After invalidation no gate passes, whatever the digest and whatever the reviewers said. */
  lemma InvalidatedIsClosed(r: Receipt, digest: Digest, terra: Result, sol: Result, required: seq<string>, kind: Kind)
    ensures var closed := Invalidated(r).(digest := Some(digest));
            && !Completed(closed) && !SingleCanStart(closed, kind) && !SingleReady(closed, terra, kind, required)
            && !SolCanStart(closed, terra, required) && !BothReady(closed, terra, sol, required)
  {
  }
}
