/**
 The Phase 4 loop of src/execution/execution-service.ts: resume, assessment, implementation,
 verification and review, with every agent answer, digest, write and abort decided by the
 environment, and the catch block that ends a failed run.
 */
module ExecutionLoop {
  import opened Prelude
  import opened ExecutionGates

  /** Error codes by what the catch block makes of them. */
  datatype Code = OutOfBudget | Aborted | Policy | Agent | Verifier | VerifierTimeout | Other

  datatype Status = Running | Raised(code: Code) | Returned | Crashed

  datatype Fault = Fine | FailBefore | FailAfter | CrashBefore | CrashAfter

  /** An agent's answer to one prompt. BadOutput is the invalid output that earns one repair turn. */
  datatype Answer<T> = Good(value: T) | BadOutput | Fails(code: Code) | Dies

  datatype Progress = Done | NeedsReplan | NeedsHuman | IsBlocked
  datatype Work = Work(thread: Thread, progress: Progress, tokens: Tokens)

  /** A review and the digests of the worktree before and after it. */
  datatype Review = Review(thread: Thread, result: Result, tokens: Tokens, before: Digest, after: Digest,
                           wellFormed: bool)

  datatype Check = Checked(passed: bool, digest: Digest) | CheckFails(code: Code)

  /**
   What one iteration of the loop, or the assessment, meets. `report` is the outcome of writing the
   implementation report, which comes between adding its tokens to the receipt and to the budget.
   */
  datatype Env = Env(aborted: bool, elapsed: int, work: Answer<Work>, workAgain: Answer<Work>, report: Fault,
                     policy: Option<Code>, changed: Digest, check: Check, abortedReview: bool,
                     first: Answer<Review>, firstAgain: Answer<Review>,
                     second: Answer<Review>, secondAgain: Answer<Review>, bundleChanged: bool)

  /** A code that no deterministic verification is needed to raise. */
  type EarlyCode = code: Code | !code.VerifierTimeout? witness Other

  /**
   How a process starts. `early` is an error of the checks before the receipt's state is looked at (abort,
   bundle, worktree, references), `late` one of the checks of the agent and the sandbox after it.
   */
  datatype Start = Start(selection: Option<Kind>, early: Option<EarlyCode>, late: Option<EarlyCode>, digest: Digest,
                         clean: bool, assess: Env)

  predicate Breaks(fault: Fault) {
    fault.FailBefore? || fault.FailAfter?
  }

  /** States the catch block leaves as they are. */
  predicate Settled(state: State) {
    || state.ReadyForPublish? || state.ReplanRequired? || state.HumanRequired? || state.WebReviewRequired?
    || state.PolicyBlocked? || state.BudgetExhausted? || state.Interrupted? || state.VerificationFailed?
    || state.AgentFailed?
  }

  /** States in which a new process returns the receipt as it is. */
  predicate Over(state: State) {
    || state.ReplanRequired? || state.WebReviewRequired? || state.HumanRequired? || state.PolicyBlocked?
    || state.BudgetExhausted? || state.Failed?
  }

  /** States that a changed worktree puts in doubt. */
  predicate Doubtful(state: State) {
    state.TerraReviewing? || state.SolReviewing? || state.Verifying? || state.VerificationFailed?
  }

  function TerminalFor(code: Code): State {
    match code
    case OutOfBudget => BudgetExhausted
    case Aborted => Interrupted
    case Policy => PolicyBlocked
    case Agent => AgentFailed
    case Verifier | VerifierTimeout => VerificationFailed
    case Other => State.Failed
  }

  /** The receipt after a review was recorded in its slot. */
  function Recorded(r: Receipt, kind: Kind, review: Review): Receipt {
    var slot := SlotOf(r, kind);
    WithSlot(r, kind, Slot(slot.rounds + 1, Some(review.thread), slot.threads + [review.thread],
                           Some(review.result.verdict), Some(review.result.reviewed)))
  }

  /** A fresh thread: not the implementer's, not one any earlier review of this slot used. */
  predicate Fresh(r: Receipt, kind: Kind, thread: Thread) {
    && thread != "" && thread != r.implementer && thread !in SlotOf(r, kind).threads
    && (r.selection.None? || kind.Terra? ==> thread !in SlotOf(r, if kind.Terra? then Sol else Terra).threads)
  }

  /** A READY receipt is completed, and its single reviewer is the only one that was used. */
  predicate Sound(r: Receipt) {
    && (r.state.ReadyForPublish? ==> Completed(r))
    && (r.internal.rounds == 0 ==> Unused(r.internal)) && (r.final.rounds == 0 ==> Unused(r.final))
    && (r.selection == Some(Sol) ==> Unused(r.internal))
    && (r.selection == Some(Terra) ==> Unused(r.final))
  }

  function ReviewTurn(kind: Kind): Turn {
    if kind.Terra? then InternalReview else SolReview
  }

  predicate InLoop(state: State) {
    state.TerraImplementing? || state.TerraFixing?
  }

  /** The most turns a budget can come to. */
  function Ceiling(limits: Limits, u: Usage): nat {
    Most(limits, u.turns)
  }

  function Most(limits: Limits, turns: nat): nat {
    if turns > limits.turns then turns else limits.turns
  }

  lemma SoundIsStorable(r: Receipt)
    requires Sound(r)
    ensures Storable(r)
  {
    if r.state.ReadyForPublish? {
      CompletedIsStorable(r);
    }
  }

  function Built(r: Receipt, thread: Thread): Receipt {
    r.(implementer := thread)
  }

  function Changed(r: Receipt, digest: Digest): Receipt {
    r.(digest := Some(digest))
  }

  function CheckedAs(r: Receipt, passed: bool, digest: Digest): Receipt {
    r.(rounds := r.rounds + 1, passed := passed, verified := Some(digest), digest := Some(digest))
  }

  /** Fields that soundness does not read. */
  lemma PlainIsSound(r: Receipt, next: Receipt)
    requires Sound(r) && !next.state.ReadyForPublish?
    requires next.selection == r.selection && next.internal == r.internal && next.final == r.final
    ensures Sound(next)
  {
  }

  lemma InvalidatedIsSound(r: Receipt)
    requires Sound(r) && !r.state.ReadyForPublish?
    ensures Sound(Invalidated(r))
  {
  }

  lemma RecordedIsSound(r: Receipt, kind: Kind, review: Review)
    requires Sound(r) && !r.state.ReadyForPublish? && (r.selection.Some? ==> r.selection == Some(kind))
    ensures Sound(Recorded(r, kind, review))
  {
  }

  /** A verification that timed out, as the catch block records it. */
  function TimedOut(r: Receipt): Receipt {
    r.(rounds := r.rounds + 1, passed := false, verified := None)
  }

  lemma EndIsSound(r: Receipt, state: State)
    requires Sound(r) && !state.ReadyForPublish?
    ensures Sound(r.(state := state))
  {
  }

  /** The usage a new process restores from the receipt. */
  function Restored(r: Receipt): Usage {
    Usage(r.iterations, r.internal.rounds, r.final.rounds, r.turns, r.spent.input, r.spent.cached, r.spent.output)
  }

  /** The totals with one more report; what is not reported counts as nothing. */
  function Plus(spent: Spent, tokens: Tokens): Spent {
    Spent(spent.input + (if tokens.input.Some? then tokens.input.value else 0), spent.cached + tokens.cached,
          spent.output + (if tokens.output.Some? then tokens.output.value else 0))
  }

  function Spends(r: Receipt, tokens: Tokens): Receipt {
    r.(spent := Plus(r.spent, tokens))
  }

  lemma SpendingIsSound(r: Receipt, tokens: Tokens)
    requires Sound(r)
    ensures Sound(Spends(r, tokens))
  {
  }

  predicate Overspent(limits: Limits, spent: Spent) {
    spent.input > limits.input || spent.output > limits.output
  }

  /** The budget and the receipt count the same tokens. */
  predicate SameTokens(r: Receipt, u: Usage) {
    r.spent == Spent(u.input, u.cached, u.output)
  }

  lemma SelectionIsSound(r: Receipt, kind: Kind)
    requires Sound(r) && !r.state.ReadyForPublish? && r.internal.rounds == 0 && r.final.rounds == 0
    ensures Sound(r.(selection := Some(kind)))
  {
  }

  lemma ReadyIsCompleted(r: Receipt)
    requires Sound(r) && r.state.ReadyForPublish?
    ensures Completed(r)
  {
  }

  // ----- A run in which nothing goes wrong ----------------------------------------------------

  const FREE := Tokens(Some(0), Some(0), 0)

  predicate Solvent(limits: Limits, u: Usage) {
    u.input <= limits.input && u.output <= limits.output && u.input <= MAX_SAFE && u.cached <= MAX_SAFE
        && u.output <= MAX_SAFE
  }

  /** The reviewers' slots and the selection are as they were. */
  predicate Kept(before: Receipt, r: Receipt) {
    r.selection == before.selection && r.internal == before.internal && r.final == before.final
  }

  predicate Builds(env: Env) {
    !env.aborted && env.work.Good? && env.work.value.progress.Done? && env.work.value.tokens == FREE && env.report.Fine?
  }

  /** A review that nothing speaks against: exact, fresh, well formed, and an approval. */
  predicate Clear(r: Receipt, kind: Kind, review: Review) {
    && review.before == review.after && Some(review.after) == r.digest && Fresh(r, kind, review.thread)
    && review.tokens == FREE && review.wellFormed && Some(review.result.reviewed) == r.digest
    && review.result.verdict.Approve?
  }

  predicate SinglePasses(env: Env, r: Receipt, kind: Kind, required: seq<string>) {
    && !env.abortedReview && !env.bundleChanged && r.digest.Some?
    && env.first.Good? && Clear(r, kind, env.first.value)
    && ApprovalValid(env.first.value.result, r.digest.value, required)
    && SingleCanStart(r, kind)
  }

  predicate BothPass(env: Env, r: Receipt, required: seq<string>) {
    && !env.abortedReview && !env.bundleChanged && r.digest.Some? && VerifiedNow(r)
    && env.first.Good? && Clear(r, Terra, env.first.value)
    && ApprovalValid(env.first.value.result, r.digest.value, required)
    && env.second.Good? && Clear(r, Sol, env.second.value)
    && ApprovalValid(env.second.value.result, r.digest.value, required)
    && env.second.value.thread != env.first.value.thread
    && Disjoint(r.final.threads, r.internal.threads)
    && (r.final.latest.Some? ==> r.final.latest.value != r.implementer && r.final.latest.value in r.final.threads)
  }

  /** The receipt once this iteration's work is built and verified. */
  function AfterCheck(r: Receipt, env: Env): Receipt
    requires env.work.Good? && env.check.Checked?
  {
    CheckedAs(Built(r, env.work.value.thread), env.check.passed, env.check.digest)
  }

  /** An iteration in which everything succeeds, for the reviewers that this run selects. */
  predicate Succeeds(env: Env, r: Receipt, required: seq<string>) {
    && Builds(env) && env.policy.None? && env.check.Checked? && env.check.passed
    && match r.selection
       case Some(kind) => SinglePasses(env, AfterCheck(r, env), kind, required)
       case None => BothPass(env, AfterCheck(r, env), required)
  }

  /** Budget for one iteration with its reviews. */
  predicate Affordable(limits: Limits, u: Usage, elapsed: int) {
    && Solvent(limits, u) && u.turns + 3 <= limits.turns && elapsed < limits.seconds
    && u.iterations < limits.iterations && u.internalRounds < limits.internalRounds && u.solRounds < limits.solRounds
  }

  /** The smallest limits under which one iteration with its reviews is affordable. */
  const TIGHT := Limits(1, 1, 1, 3, 1, 0, 0)

  /** Such an iteration exists for each way of reviewing, even under the smallest limits. */
  lemma FlawlessIteration(selection: Option<Kind>) returns (r: Receipt, env: Env)
    ensures r.selection == selection && Sound(r) && InLoop(r.state)
    ensures Succeeds(env, r, ["a"]) && Affordable(TIGHT, Restored(r), env.elapsed)
  {
    var slot := Slot(0, None, [], None, None);
    r := Receipt(TerraImplementing, selection, "", 0, slot, slot, 0, false, None, None, 0, Spent(0, 0, 0));
    var result := Result(Approve, "d", 0, 0, 0, [("a", true)]);
    assert result.results[..0] == [] && StatusOf(result.results, "a") == Some(true);
    var first := Review("r", result, FREE, "d", "d", true);
    var second := Review("q", result, FREE, "d", "d", true);
    env := Env(false, 0, Good(Work("i", Done, FREE)), BadOutput, Fine, None, "c", Checked(true, "d"), false,
               Good(first), BadOutput, Good(second), BadOutput, false);
    assert "r"[0] != "i"[0] && "q"[0] != "i"[0] && "r"[0] != "q"[0];
  }

  lemma SucceedsAfterCheck(env: Env, r: Receipt, required: seq<string>, next: Receipt)
    requires Succeeds(env, r, required) && Kept(r, next)
    requires next.implementer == env.work.value.thread && next.digest == Some(env.check.digest) && VerifiedNow(next)
    ensures match r.selection
            case Some(kind) => SinglePasses(env, next, kind, required)
            case None => BothPass(env, next, required)
  {
    hide ApprovalValid, Disjoint;
  }

  /** The same receipt up to its state, its turns and its tokens. */
  predicate SameReview(before: Receipt, r: Receipt) {
    r == before.(state := r.state, turns := r.turns, spent := r.spent)
  }

  lemma ClearStays(before: Receipt, r: Receipt, kind: Kind, review: Review)
    requires SameReview(before, r)
    ensures Clear(r, kind, review) == Clear(before, kind, review)
  {
  }

  lemma SingleBecomesReady(env: Env, r: Receipt, kind: Kind, required: seq<string>, next: Receipt)
    requires SinglePasses(env, r, kind, required) && SameReview(Recorded(r, kind, env.first.value), next)
    ensures SingleReady(next, env.first.value.result, kind, required) && SingleCanStart(next, kind)
  {
    hide ApprovalValid;
  }

  lemma SolMayFollow(env: Env, r: Receipt, required: seq<string>, next: Receipt)
    requires BothPass(env, r, required) && SameReview(Recorded(r, Terra, env.first.value), next) && r.selection.None?
    ensures TerraCanStart(next, env.first.value.result, required) && SolCanStart(next, env.first.value.result, required)
    ensures Clear(next, Sol, env.second.value)
  {
    hide ApprovalValid;
    assert next.internal.threads == r.internal.threads + [env.first.value.thread];
    if r.final.latest.Some? {
      var i :| 0 <= i < |r.final.threads| && r.final.threads[i] == r.final.latest.value;
    }
  }

  lemma BothBecomeReady(env: Env, r: Receipt, required: seq<string>, middle: Receipt, next: Receipt)
    requires BothPass(env, r, required) && SameReview(Recorded(r, Terra, env.first.value), middle) && r.selection.None?
    requires SameReview(Recorded(middle, Sol, env.second.value), next)
    ensures BothReady(next, env.first.value.result, env.second.value.result, required)
  {
    hide ApprovalValid;
    var xs, ys := next.final.threads, next.internal.threads;
    forall i | 0 <= i < |xs| ensures xs[i] !in ys {
      if i < |r.final.threads| {
        assert xs[i] == r.final.threads[i];
      }
    }
  }

  /** Two approvals of one digest, in two slots of one receipt. */
  lemma BothAreCompleted(r: Receipt, terra: Review, middle: Receipt, sol: Review, next: Receipt, required: seq<string>)
    requires r.selection.None? && SameReview(Recorded(r, Terra, terra), middle)
             && SameReview(Recorded(middle, Sol, sol), next)
    requires terra.result.verdict.Approve? && Some(terra.result.reviewed) == r.digest
    requires sol.result.verdict.Approve? && Some(sol.result.reviewed) == middle.digest
    requires BothReady(next, terra.result, sol.result, required)
    ensures Completed(next)
  {
    hide ApprovalValid, Disjoint;
  }

  lemma SameTwice(a: Receipt, b: Receipt, c: Receipt, kind: Kind, review: Review)
    requires SameReview(a, b) && SameReview(Recorded(b, kind, review), c)
    ensures SameReview(Recorded(a, kind, review), c)
  {
  }

  /** The receipt and the worktree of a resumed run fit the caller's selection. */
  predicate Matches(r: Receipt, start: Start) {
    r.digest == Some(start.digest) && r.selection == start.selection
  }

  predicate Plain(start: Start) {
    start.early.None? && start.late.None?
  }

  ghost predicate SomeReportBreaks(envs: seq<Env>) {
    exists i :: 0 <= i < |envs| && Breaks(envs[i].report)
  }

  /** An implementation whose report passes the token limits and cannot be written. */
  predicate Slips(limits: Limits, r: Receipt, u: Usage, env: Env) {
    && !env.aborted && MayBegin(limits, u, Implementation, env.elapsed)
    && env.work.Good? && Breaks(env.report) && Overspent(limits, Plus(r.spent, env.work.value.tokens))
  }

  lemma SlippingWorks(limits: Limits, r: Receipt, u: Usage, env: Env)
    ensures Slips(limits, r, u, env) ==> env.work.Good?
  {
  }

  /** A process that resumes in the loop and slips in its first iteration. */
  predicate SlipsFirst(limits: Limits, r: Receipt, start: Start, envs: seq<Env>) {
    InLoop(r.state) && Plain(start) && Matches(r, start) && envs != [] && Slips(limits, r, Restored(r), envs[0])
  }

  lemma MostIsCeiling(limits: Limits, u: Usage)
    ensures u.turns <= Ceiling(limits, u)
  {
  }

  lemma SlippingFirstWorks(limits: Limits, r: Receipt, start: Start, envs: seq<Env>)
    ensures SlipsFirst(limits, r, start, envs) ==> envs != [] && envs[0].work.Good?
    ensures SlipsFirst(limits, r, start, envs) ==> Overspent(limits, Plus(r.spent, envs[0].work.value.tokens))
  {
  }

  /** There is one, whatever the limits, as long as they leave room for one more implementation. */
  lemma ReportCanSlip(limits: Limits) returns (r: Receipt, start: Start, env: Env)
    requires limits.turns > 0 && limits.iterations > 0 && limits.seconds > 0
    ensures Sound(r) && !Overspent(limits, r.spent) && SlipsFirst(limits, r, start, [env])
  {
    var slot := Slot(0, None, [], None, None);
    r := Receipt(TerraFixing, None, "t", 0, slot, slot, 0, false, None, Some("d"), 0, Spent(0, 0, 0));
    env := Env(false, 0, Good(Work("t", Done, Tokens(Some(limits.input + 1), Some(0), 0))), BadOutput, FailBefore,
               None, "d",
               CheckFails(Other), false, BadOutput, BadOutput, BadOutput, BadOutput, false);
    start := Start(None, None, None, "d", false, env);
  }

  ghost predicate Lawful(journal: seq<(State, State)>) {
    forall i :: 0 <= i < |journal| ==> CanTransition(journal[i].0, journal[i].1)
  }

  lemma LawfulStep(journal: seq<(State, State)>, from: State, to: State)
    requires Lawful(journal) && CanTransition(from, to)
    ensures Lawful(journal + [(from, to)])
  {
  }

  // ----- The course of a process whose writes all succeed --------------------------------------

  /** The durable receipt, the one in memory, the budget, the standing of the process, and what the world has seen. */
  datatype Point = Point(durable: Receipt, memory: Receipt, usage: Usage, status: Status, calls: nat,
                         journal: seq<(State, State)>)

  function Saves(p: Point): Point {
    p.(durable := p.memory)
  }

  /** A transition of the table, journalled and written, or an error. */
  function Moves(p: Point, to: State): Point {
    var r := p.memory.(state := to);
    if CanTransition(p.memory.state, to) then
      p.(memory := r, durable := r, journal := p.journal + [(p.memory.state, to)])
    else p.(status := Raised(Other))
  }

  /** A transition that ends the process. */
  function Leaves(p: Point, to: State): Point {
    var moved := Moves(p, to);
    if moved.status == Running then moved.(status := Returned) else moved
  }

  /** A turn of the budget, within the turns, the time and its own limit. */
  function Begins(limits: Limits, p: Point, turn: Turn, elapsed: int): Point {
    var u := p.usage;
    var spent := match turn
                 case Assessment => false
                 case Repair => false
                 case Implementation => u.iterations >= limits.iterations
                 case InternalReview => u.internalRounds >= limits.internalRounds
                 case SolReview => u.solRounds >= limits.solRounds;
    if spent || u.turns >= limits.turns || elapsed >= limits.seconds then p.(status := Raised(OutOfBudget))
    else
      match turn
      case Assessment => p.(usage := u.(turns := u.turns + 1))
      case Repair => p.(usage := u.(turns := u.turns + 1))
      case Implementation => p.(usage := u.(turns := u.turns + 1, iterations := u.iterations + 1))
      case InternalReview => p.(usage := u.(turns := u.turns + 1, internalRounds := u.internalRounds + 1))
      case SolReview => p.(usage := u.(turns := u.turns + 1, solRounds := u.solRounds + 1))
  }

  /** The turns of the budget, in the receipt. */
  function Syncs(p: Point): Point {
    var r := p.memory.(turns := p.usage.turns);
    p.(memory := r, durable := r)
  }

  function Pays(limits: Limits, p: Point, turn: Turn, elapsed: int): Point {
    var begun := Begins(limits, p, turn, elapsed);
    if begun.status == Running then Syncs(begun) else begun
  }

  function Amount(x: Option<nat>): nat {
    match x
    case None => 0
    case Some(n) => n
  }

  lemma PlusIs(t: Spent, tokens: Tokens)
    ensures Plus(t, tokens) == Spent(t.input + Amount(tokens.input), t.cached + tokens.cached,
                                     t.output + Amount(tokens.output))
  {
  }

  /** Tokens go to the receipt, then, once the report is written, to the budget. */
  function Charges(limits: Limits, p: Point, tokens: Tokens, report: Fault): Point {
    var t := p.memory.spent;
    var r := p.memory.(spent := Spent(t.input + Amount(tokens.input), t.cached + tokens.cached,
                                      t.output + Amount(tokens.output)));
    match report
    case FailBefore => p.(memory := r, status := Raised(Other))
    case FailAfter => p.(memory := r, status := Raised(Other))
    case CrashBefore => p.(memory := r, status := Crashed)
    case CrashAfter => p.(memory := r, status := Crashed)
    case Fine =>
      var (usage, accepted) := Counted(limits, p.usage, tokens);
      var charged := p.(memory := r, usage := usage);
      if accepted then Syncs(charged) else charged.(status := Raised(OutOfBudget))
  }

  /** A prompt that is paid for, and one more after an invalid answer. */
  function Prompts<T>(limits: Limits, p: Point, first: Answer<T>, again: Answer<T>, elapsed: int): (Point, Option<T>) {
    var called := p.(calls := p.calls + 1);
    match first
    case Good(value) => (called, Some(value))
    case Fails(code) => (called.(status := Raised(code)), None)
    case Dies => (called.(status := Crashed), None)
    case BadOutput =>
      var paid := Pays(limits, called, Repair, elapsed);
      var twice := paid.(calls := paid.calls + 1);
      if paid.status != Running then (paid, None)
      else
        match again
        case Good(value) => (twice, Some(value))
        case Fails(code) => (twice.(status := Raised(code)), None)
        case Dies => (twice.(status := Crashed), None)
        case BadOutput => (twice.(status := Raised(Agent)), None)
  }

  // The implementation turn.

  function Constructs(limits: Limits, p: Point, env: Env): (Point, Option<Work>) {
    if env.aborted then (p.(status := Raised(Aborted)), None)
    else
      var begun := Begins(limits, p, Implementation, env.elapsed);
      if begun.status != Running then (begun, None)
      else
        var entered := Enters(begun);
        if entered.status != Running then (entered, None)
        else Prompts(limits, entered, env.work, env.workAgain, env.elapsed)
  }

  /** One more iteration, in TERRA_IMPLEMENTING. */
  function Enters(p: Point): Point {
    var counted := p.(memory := p.memory.(iterations := p.memory.iterations + 1));
    var entered := if counted.memory.state == TerraFixing then Moves(counted, TerraImplementing) else counted;
    if entered.status == Running then Syncs(entered) else entered
  }

  function Reports(limits: Limits, p: Point, work: Work, report: Fault): Point {
    Charges(limits, p.(memory := p.memory.(implementer := work.thread)), work.tokens, report)
  }

  function Implements(limits: Limits, p: Point, env: Env): Point {
    var (asked, work) := Constructs(limits, p, env);
    if work == None then asked
    else
      var reported := Reports(limits, asked, work.value, env.report);
      if reported.status != Running then reported
      else if work.value.progress == Done then Saves(reported) else Hands(reported, work.value.progress)
  }

  /** The implementer hands the run over. */
  function Hands(p: Point, progress: Progress): Point {
    match progress
    case Done => p // not asked
    case NeedsReplan => Leaves(p, ReplanRequired)
    case NeedsHuman => Leaves(p, HumanRequired)
    case IsBlocked => Leaves(p, PolicyBlocked)
  }

  // Policy and verification.

  /** No review and no verification stands any more. */
  function Closed(r: Receipt): Receipt {
    r.(internal := Slot(r.internal.rounds, r.internal.latest, r.internal.threads, None, None),
       final := Slot(r.final.rounds, r.final.latest, r.final.threads, None, None), passed := false, verified := None)
  }

  /** A failed verification is fixed, unless the configured iterations are spent. */
  function Rejects(configured: nat, p: Point): Point {
    var failed := Moves(Saves(p), VerificationFailed);
    if failed.status == Running then Retries(configured, failed) else failed
  }

  /** From VERIFICATION_FAILED back to fixing, or out of iterations. */
  function Retries(configured: nat, p: Point): Point {
    var closed := p.(memory := Closed(p.memory));
    if closed.memory.iterations >= closed.usage.iterations && closed.usage.iterations >= configured then
      Leaves(closed, BudgetExhausted)
    else Moves(closed, TerraFixing)
  }

  function Checks(configured: nat, p: Point, env: Env): Point {
    if env.policy != None then p.(status := Raised(env.policy.value))
    else
      var begun := Examines(p, env.changed);
      if begun.status != Running then begun
      else
        match env.check
        case CheckFails(code) => begun.(status := Raised(code))
        case Checked(passed, digest) =>
          var r := begun.memory.(rounds := begun.memory.rounds + 1, passed := passed, verified := Some(digest),
                                 digest := Some(digest));
          if passed then begun.(memory := r) else Rejects(configured, begun.(memory := r))
  }

  /** The digest of the work, on the way through POLICY_CHECKING to VERIFYING. */
  function Examines(p: Point, digest: Digest): Point {
    var checking := Moves(p.(memory := p.memory.(digest := Some(digest))), PolicyChecking);
    if checking.status == Running then Moves(checking, Verifying) else checking
  }

  // Reviews.

  /** What a verdict other than approval leads to. */
  function Follows(p: Point, verdict: Verdict): Point {
    match verdict
    case Approve => p // not asked
    case Revise => Moves(Saves(p.(memory := Closed(p.memory))), TerraFixing)
    case Replan => Leaves(p, WebReviewRequired)
    case Escalate => Leaves(p, HumanRequired)
  }

  /** A thread that neither the implementer nor a review that counts has used. */
  predicate NewThread(r: Receipt, kind: Kind, thread: Thread) {
    && thread != "" && thread != r.implementer
    && match kind
       case Terra => thread !in r.internal.threads && thread !in r.final.threads
       case Sol => thread !in r.final.threads && (r.selection == None ==> thread !in r.internal.threads)
  }

  /** The slot of the reviewer after one more review. */
  function Entered(r: Receipt, kind: Kind, review: Review): Receipt {
    match kind
    case Terra =>
      r.(internal := Slot(r.internal.rounds + 1, Some(review.thread), r.internal.threads + [review.thread],
                          Some(review.result.verdict), Some(review.result.reviewed)))
    case Sol =>
      r.(final := Slot(r.final.rounds + 1, Some(review.thread), r.final.threads + [review.thread],
                       Some(review.result.verdict), Some(review.result.reviewed)))
  }

  lemma FreshIsNew(r: Receipt, kind: Kind, thread: Thread)
    ensures Fresh(r, kind, thread) <==> NewThread(r, kind, thread)
  {
  }

  lemma EnteredIsRecorded(r: Receipt, kind: Kind, review: Review)
    ensures Entered(r, kind, review) == Recorded(r, kind, review)
  {
  }

  lemma SingleIsClear(env: Env, r: Receipt, kind: Kind, required: seq<string>)
    requires SinglePasses(env, r, kind, required)
    ensures env.first.Good? && Clear(r, kind, env.first.value) && !env.bundleChanged
  {
  }

  lemma RecordedIsApproved(r: Receipt, kind: Kind, review: Review, next: Receipt)
    requires next == Recorded(r, kind, review).(turns := next.turns, spent := next.spent)
    requires review.result.verdict.Approve? && Some(review.result.reviewed) == next.digest
    ensures Approved(next, SlotOf(next, kind))
  {
  }

  /** The way into a review. */
  lemma ReviewIsEntered(from: State, kind: Kind)
    requires from.Verifying? || (kind.Sol? && from.TerraReviewing?)
    ensures CanTransition(from, if kind.Terra? then TerraReviewing else SolReviewing)
  {
  }

  function Judges(limits: Limits, p: Point, kind: Kind, review: Review): (Point, bool) {
    if review.before != review.after then (p.(status := Raised(Agent)), false)
    else if Some(review.after) != p.memory.digest then (p.(status := Raised(Other)), false)
    else if !NewThread(p.memory, kind, review.thread) then
      (p.(status := Raised(if kind == Terra then Agent else Other)), false)
    else Weighs(limits, p.(memory := Entered(p.memory, kind, review)), review)
  }

  /** A review that is recorded: its tokens, its form, its digest, its verdict. */
  function Weighs(limits: Limits, p: Point, review: Review): (Point, bool) {
    var charged := Charges(limits, p, review.tokens, Fine);
    if charged.status != Running then (charged, false)
    else if !review.wellFormed then (charged.(status := Raised(Agent)), false)
    else if Some(review.result.reviewed) != charged.memory.digest then (charged.(status := Raised(Other)), false)
    else if review.result.verdict == Approve then (charged, true)
    else (Follows(charged, review.result.verdict), false)
  }

  /** READY_FOR_PUBLISH, unless the bundle has changed meanwhile. */
  function Publishes(p: Point, env: Env): Point {
    var ready := Moves(p, ReadyForPublish);
    if ready.status != Running then ready
    else if env.bundleChanged then ready.(status := Raised(Agent)) else ready.(status := Returned)
  }

  function Asks(limits: Limits, p: Point, kind: Kind, env: Env, allowed: bool, first: Answer<Review>,
                again: Answer<Review>): (Point, Option<Review>)
  {
    var admitted := Admits(limits, p, kind, env, allowed);
    if admitted.status == Running then Prompts(limits, admitted, first, again, env.elapsed) else (admitted, None)
  }

  /** The review state is entered and its turn paid for; then the gate is looked at. */
  function Admits(limits: Limits, p: Point, kind: Kind, env: Env, allowed: bool): Point {
    var entered := match kind
                   case Terra => Moves(p, TerraReviewing)
                   case Sol => Moves(p, SolReviewing);
    if entered.status != Running then entered
    else if env.abortedReview then entered.(status := Raised(Aborted))
    else
      var paid := Pays(limits, entered, if kind == Terra then InternalReview else SolReview, env.elapsed);
      if paid.status == Running && !allowed then paid.(status := Raised(Other)) else paid
  }

  /** The one selected reviewer. */
  function Singles(limits: Limits, required: seq<string>, p: Point, kind: Kind, env: Env): Point {
    var (asked, review) := Asks(limits, p, kind, env, kind == Terra || SingleCanStart(p.memory, Sol), env.first,
                                env.firstAgain);
    if review == None then asked else Settles(limits, required, asked, kind, env, review.value)
  }

  /** The selected reviewer's review is judged, and an approval that passes its gates is published. */
  function Settles(limits: Limits, required: seq<string>, p: Point, kind: Kind, env: Env, review: Review): Point {
    var (judged, approved) := Judges(limits, p, kind, review);
    if approved then Certifies(required, judged, kind, env, review) else judged
  }

  /** The gates of a single approval. */
  function Certifies(required: seq<string>, p: Point, kind: Kind, env: Env, review: Review): Point {
    if (kind == Terra && !SingleCanStart(p.memory, Terra)) || !SingleReady(p.memory, review.result, kind, required)
    then p.(status := Raised(Other))
    else Publishes(p, env)
  }

  /** Terra, and Sol behind Terra's approval. */
  function Boths(limits: Limits, required: seq<string>, p: Point, env: Env): Point {
    var (asked, terra) := Asks(limits, p, Terra, env, true, env.first, env.firstAgain);
    if terra == None then asked
    else
      var (judged, approved) := Judges(limits, asked, Terra, terra.value);
      if approved then Seconds(limits, required, judged, env, terra.value) else judged
  }

  function Seconds(limits: Limits, required: seq<string>, p: Point, env: Env, terra: Review): Point {
    if !TerraCanStart(p.memory, terra.result, required) then p.(status := Raised(Other))
    else
      var (asked, sol) := Asks(limits, p, Sol, env, SolCanStart(p.memory, terra.result, required), env.second,
                               env.secondAgain);
      if sol == None then asked else Agrees(limits, required, asked, env, terra, sol.value)
  }

  /** Sol's review is judged, and two approvals that pass the final gate are published. */
  function Agrees(limits: Limits, required: seq<string>, p: Point, env: Env, terra: Review, sol: Review): Point {
    var (judged, approved) := Judges(limits, p, Sol, sol);
    if !approved then judged
    else if !BothReady(judged.memory, terra.result, sol.result, required) then judged.(status := Raised(Other))
    else Publishes(judged, env)
  }

  /** One iteration of the loop. */
  function Iterates(limits: Limits, required: seq<string>, configured: nat, p: Point, env: Env): Point {
    var built := Implements(limits, p, env);
    var checked := if built.status == Running then Checks(configured, built, env) else built;
    if checked.status != Running || checked.memory.state != Verifying then checked
    else
      match checked.memory.selection
      case Some(kind) => Singles(limits, required, checked, kind, env)
      case None => Boths(limits, required, checked, env)
  }

  predicate Working(state: State) {
    state == TerraImplementing || state == TerraFixing
  }

  function Loops(limits: Limits, required: seq<string>, configured: nat, p: Point, envs: seq<Env>): Point
    decreases |envs|
  {
    if envs == [] || p.status != Running || !Working(p.memory.state) then p
    else Loops(limits, required, configured, Iterates(limits, required, configured, p, envs[0]), envs[1..])
  }

  // Start and end.

  /** The selected reviewer is bound before any review, and never changes; then the early checks. */
  function Selects(p: Point, start: Start): Point {
    var r := p.memory;
    var binds := start.selection != None && r.selection == None;
    if binds && (r.internal.rounds > 0 || r.final.rounds > 0 || r.state == ReadyForPublish) then
      p.(status := Raised(Other))
    else if !binds && r.selection != start.selection then p.(status := Raised(Other))
    else
      var bound := p.(memory := r.(selection := start.selection));
      match start.early
      case None => bound
      case Some(code) => bound.(status := Raised(code))
  }

  /** A check or a review was under way, or has failed verification. */
  predicate InDoubt(state: State) {
    state == TerraReviewing || state == SolReviewing || state == Verifying || state == VerificationFailed
  }

  /** The worktree is not the one of the receipt: nothing that was checked stands. */
  function Restarts(p: Point, digest: Digest): Point {
    if p.memory.state == ReadyForPublish then p.(status := Raised(Other))
    else
      var restarted := p.(memory := Closed(p.memory).(digest := Some(digest)));
      if InDoubt(p.memory.state) then Moves(restarted, TerraFixing) else restarted
  }

  function GoesOn(p: Point, start: Start): Point {
    var saved := Saves(p);
    var entered := if saved.memory.state == ReadyForCodex then Moves(saved, CodexPreflight) else saved;
    if entered.status == Running && start.late != None then entered.(status := Raised(start.late.value)) else entered
  }

  function Resumes(p: Point, start: Start): Point {
    var selected := Selects(p, start);
    if selected.status != Running then selected
    else if selected.memory.digest == None && !start.clean then selected.(status := Raised(Other))
    else
      var same := selected.memory.digest == None || selected.memory.digest == Some(start.digest);
      var fitted := if same then selected else Restarts(selected, start.digest);
      var state := fitted.memory.state;
      if fitted.status != Running then fitted
      else if state == ReadyForPublish || state == ReplanRequired || state == WebReviewRequired
              || state == HumanRequired || state == PolicyBlocked || state == BudgetExhausted || state == State.Failed
      then fitted.(status := Returned)
      else GoesOn(fitted, start)
  }

  /** An unfinished check or review starts over from fixing, an interrupted run from where it was clean. */
  function Reenters(p: Point, start: Start): Point {
    var r := p.memory.(digest := Some(start.digest));
    if InDoubt(r.state) || r.state == PolicyChecking || r.state == AgentFailed then
      Moves(p.(memory := Closed(r)), TerraFixing)
    else if r.state == Interrupted then Moves(p.(memory := r), if start.clean then CodexPreflight else TerraFixing)
    else p.(memory := r)
  }

  function Consults(limits: Limits, p: Point, env: Env): (Point, Option<Work>) {
    if env.aborted then (p.(status := Raised(Aborted)), None)
    else
      var entered := if p.memory.state == CodexPreflight then Moves(p, TerraAssessing) else p;
      if entered.status != Running then (entered, None)
      else
        var paid := Pays(limits, Syncs(entered), Assessment, env.elapsed);
        if paid.status != Running then (paid, None)
        else Prompts(limits, paid, env.work, env.workAgain, env.elapsed)
  }

  function Assesses(limits: Limits, p: Point, env: Env): Point {
    var (asked, work) := Consults(limits, p, env);
    if work == None then asked
    else if env.policy != None then asked.(status := Raised(env.policy.value))
    else Accepts(limits, asked, work.value)
  }

  /** The thread of the implementer is written, then its tokens. */
  function Notes(limits: Limits, p: Point, work: Work): Point {
    Charges(limits, Saves(p.(memory := p.memory.(implementer := work.thread))), work.tokens, Fine)
  }

  /** An assessment that policy accepts. */
  function Accepts(limits: Limits, p: Point, work: Work): Point {
    var charged := Notes(limits, p, work);
    if charged.status != Running then charged
    else if work.progress == Done then Moves(charged, TerraImplementing) else Hands(charged, work.progress)
  }

  function WorksOn(limits: Limits, required: seq<string>, configured: nat, p: Point, start: Start,
                    envs: seq<Env>): Point
  {
    var entered := Reenters(p, start);
    var assessing := entered.memory.state == CodexPreflight || entered.memory.state == TerraAssessing;
    var ready := if entered.status == Running && assessing then Assesses(limits, entered, start.assess) else entered;
    Loops(limits, required, configured, ready, envs)
  }

  /** The state an error ends a run in. */
  function EndOf(code: Code): State {
    match code
    case OutOfBudget => BudgetExhausted
    case Aborted => Interrupted
    case Policy => PolicyBlocked
    case Agent => AgentFailed
    case Verifier => VerificationFailed
    case VerifierTimeout => VerificationFailed
    case Other => State.Failed
  }

  /** A state that an error leaves alone. */
  predicate AtEnd(state: State) {
    || state == ReadyForPublish || state == ReplanRequired || state == HumanRequired || state == WebReviewRequired
    || state == PolicyBlocked || state == BudgetExhausted || state == Interrupted || state == VerificationFailed
    || state == AgentFailed
  }

  lemma EndsAlike(state: State, code: Code)
    ensures EndOf(code) == TerminalFor(code) && AtEnd(state) == Settled(state) && !Settled(State.Failed)
  {
  }

  /** The catch block. */
  function Catches(p: Point, code: Code): Point {
    var noted := if code == VerifierTimeout
                 then p.memory.(rounds := p.memory.rounds + 1, passed := false, verified := None) else p.memory;
    var end := EndOf(code);
    if AtEnd(noted.state) then p.(durable := noted, memory := noted, status := Raised(code))
    else
      var ended := noted.(state := end);
      p.(durable := ended, memory := ended, status := Raised(code),
         journal := if CanTransition(noted.state, end) then p.journal + [(noted.state, end)] else p.journal)
  }

  lemma CaughtIs(p: Point, q: Point, code: Code)
    requires q.usage == p.usage && q.calls == p.calls && q.status == Raised(code) && q.durable == q.memory
    requires var noted := if code.VerifierTimeout? then TimedOut(p.memory) else p.memory;
             && q.memory == (if Settled(noted.state) then noted else noted.(state := TerminalFor(code)))
             && q.journal == (if !Settled(noted.state) && CanTransition(noted.state, TerminalFor(code))
                              then p.journal + [(noted.state, TerminalFor(code))] else p.journal)
    ensures q == Catches(p, code)
  {
    EndsAlike(p.memory.state, code);
    hide CanTransition;
  }

  function Finishes(p: Point): Point {
    match p.status
    case Raised(code) => Catches(p, code)
    case Running => if Working(p.memory.state) then p.(status := Crashed) else p.(status := Returned)
    case _ => p
  }

  /** One whole process, from the stored receipt. */
  function Executes(limits: Limits, required: seq<string>, configured: nat, durable: Receipt, calls: nat,
                    journal: seq<(State, State)>, start: Start, envs: seq<Env>): Point
  {
    var usage := Usage(durable.iterations, durable.internal.rounds, durable.final.rounds, durable.turns,
                       durable.spent.input, durable.spent.cached, durable.spent.output);
    Finishes(Advances(limits, required, configured, Point(durable, durable, usage, Running, calls, journal), start,
                      envs))
  }

  lemma ExecutesIs(limits: Limits, required: seq<string>, configured: nat, durable: Receipt, calls: nat,
                   journal: seq<(State, State)>, start: Start, envs: seq<Env>)
    ensures Executes(limits, required, configured, durable, calls, journal, start, envs) ==
            Finishes(Advances(limits, required, configured,
                              Point(durable, durable, Restored(durable), Running, calls, journal), start, envs))
  {
  }

  function Advances(limits: Limits, required: seq<string>, configured: nat, p: Point, start: Start,
                    envs: seq<Env>): Point
  {
    var resumed := Resumes(p, start);
    if resumed.status == Running then WorksOn(limits, required, configured, resumed, start, envs) else resumed
  }

  class Service {
    const required: seq<string>
    const limits: Limits
    /** The configured iteration limit; the budget uses the smaller of this one and the contract's. */
    const configured: nat
    var durable: Receipt
    var memory: Receipt
    var budget: BudgetTracker
    var faults: seq<Fault>
    var status: Status
    /** Agent calls the outside world has seen. */
    var calls: nat
    /** The event journal: every transition taken through the table. */
    var journal: seq<(State, State)>
    /** A report was added to the receipt, passed the token limits, and could not be written. */
    ghost var slipped: bool
    /** The catch block has given a FAILED receipt another state. */
    ghost var revived: bool

    /** A run whose receipt is stored, in whatever state, within the token limits. */
    constructor (required: seq<string>, limits: Limits, configured: nat, stored: Receipt)
      requires Sound(stored) && !Overspent(limits, stored.spent) && limits.iterations <= configured
      ensures Valid() && this.limits == limits && this.required == required && this.configured == configured
      ensures durable == stored && calls == 0 && journal == [] && !slipped && !revived
    {
      this.required, this.limits, this.configured := required, limits, configured;
      durable, memory := stored, stored;
      budget := new BudgetTracker(limits, Restored(stored));
      faults, status, calls, journal := [], Returned, 0, [];
      slipped, revived := false, false;
    }

    /** Where the process stands. */
    ghost function Now(): Point
      reads this, budget
    {
      Point(durable, memory, budget.usage, status, calls, journal)
    }

    /** Above the token limits only when the run ended for its budget, or after a report that slipped. */
    ghost predicate Excused(r: Receipt)
      reads this
    {
      Overspent(limits, r.spent) ==> r.state.BudgetExhausted? || (slipped && (r.state.Failed? || revived))
    }

    ghost predicate Storing(r: Receipt)
      reads this
    {
      Excused(r) && (r.state.ReadyForPublish? ==> !Overspent(limits, r.spent))
    }

    /** What holds at every moment, durable state and journal included. */
    ghost predicate Valid()
      reads this
    {
      Sound(durable) && calls <= durable.turns && Storing(durable) && Lawful(journal)
    }

    /** The receipt in memory and the budget are ahead of the durable receipt by reserved turns only. */
    ghost predicate Ahead()
      reads this, budget
    {
      Valid() && Sound(memory) && durable.turns <= memory.turns <= budget.usage.turns && budget.limits == limits
    }

    /** And they count the same tokens, and a receipt above the limits is about to be given a final state. */
    ghost predicate Busy()
      reads this, budget
    {
      && Ahead()
      && (status.Running? ==> SameTokens(memory, budget.usage))
      && (memory.state.ReadyForPublish? ==> !Overspent(limits, memory.spent))
      && (status.Crashed? || Loose() || Ending())
    }

    /** A working run is above the limits only after a slip and a revival. */
    ghost predicate Loose()
      reads this
    {
      Overspent(limits, memory.spent) ==> slipped && revived
    }

    /** A process that has stopped working, or has not started to. */
    ghost predicate Idle()
      reads this, budget
    {
      && Ahead()
      && (memory.state.ReadyForPublish? ==> !Overspent(limits, memory.spent))
      && (status.Crashed? || Excused(memory) || Ending())
    }

    ghost predicate Ending()
      reads this
    {
      !Settled(memory.state) && (status == Raised(OutOfBudget) || (status == Raised(Other) && slipped))
    }

    lemma SoundNow()
      requires Busy()
      ensures Sound(memory)
    {
    }

    lemma BusyIsIdle()
      requires Busy()
      ensures Idle()
    {
    }

    /** Stop working. */
    method Halt(next: Status)
      requires Busy() && status.Running? && !next.Running?
      modifies `status
      ensures Busy() && status == next
    {
      status := next;
    }

    /** Change the receipt in memory, but neither its turns nor its tokens. */
    method Put(next: Receipt)
      requires Busy() && status.Running? && Sound(next) && !next.state.ReadyForPublish?
      requires next.turns == memory.turns && next.spent == memory.spent
      modifies `memory
      ensures Busy() && memory == next
    {
      memory := next;
    }

    /** writeExecutionReceipt. */
    method Save()
      requires Ahead() && status.Running? && Storing(memory)
      modifies `durable, `faults, `status
      ensures Ahead() && (durable == old(durable) || durable == memory)
      ensures status.Running? ==> durable == memory
      ensures status.Running? || status.Crashed? || status == Raised(Other)
      ensures old(faults) == [] ==> faults == [] && status.Running?
      ensures old(faults) == [] ==> Now() == Saves(old(Now())) && faults == []
      ensures faults == if old(faults) == [] then [] else old(faults)[1..]
      ensures match if old(faults) == [] then Fine else old(faults)[0]
              case Fine => durable == memory && status == Running
              case FailBefore => durable == old(durable) && status == Raised(Other)
              case FailAfter => durable == memory && status == Raised(Other)
              case CrashBefore => durable == old(durable) && status == Crashed
              case CrashAfter => durable == memory && status == Crashed
    {
      hide Sound, Lawful, Overspent;
      SoundIsStorable(memory);
      var fault := if faults == [] then Fine else faults[0];
      faults := if faults == [] then [] else faults[1..];
      if !fault.FailBefore? && !fault.CrashBefore? {
        durable := memory;
      }
      if fault.CrashBefore? || fault.CrashAfter? {
        status := Crashed;
      } else if fault.FailBefore? || fault.FailAfter? {
        status := Raised(Other);
      }
    }

    /** The same, in a working run. */
    method Keep()
      requires Busy() && status.Running?
      modifies `durable, `faults, `status
      ensures Busy() && (durable == old(durable) || durable == memory)
      ensures status.Running? ==> durable == memory
      ensures status.Running? || status.Crashed? || status == Raised(Other)
      ensures old(faults) == [] ==> faults == [] && status.Running?
      ensures old(faults) == [] ==> Now() == Saves(old(Now())) && faults == []
    {
      hide Sound, Lawful, Overspent;
      Save();
    }

    /** A file beside the receipt: an artifact, a log, an event of an agent. */
    method Artifact()
      requires Busy() && status.Running?
      modifies `faults, `status
      ensures Busy() && (status.Running? || status.Crashed? || status == Raised(Other))
      ensures old(faults) == [] ==> status.Running? && faults == []
      ensures old(faults) == [] ==> Now() == old(Now()) && faults == []
      ensures faults == if old(faults) == [] then [] else old(faults)[1..]
      ensures match if old(faults) == [] then Fine else old(faults)[0]
              case Fine => status == Running
              case FailBefore => status == Raised(Other)
              case FailAfter => status == Raised(Other)
              case CrashBefore => status == Crashed
              case CrashAfter => status == Crashed
    {
      hide Sound, Lawful, Overspent;
      var fault := if faults == [] then Fine else faults[0];
      faults := if faults == [] then [] else faults[1..];
      if fault.CrashBefore? || fault.CrashAfter? {
        status := Crashed;
      } else if Breaks(fault) {
        status := Raised(Other);
      }
    }

    /** transition: the table, the journal, the receipt. */
    method Transition(to: State)
      requires Ahead() && status.Running?
               && (to.ReadyForPublish? ==> Completed(memory) && !Overspent(limits, memory.spent))
      requires Excused(memory) || Excused(memory.(state := to))
      modifies `durable, `memory, `faults, `status, `journal
      ensures Ahead() && memory == old(memory).(state := memory.state)
      ensures memory.state == if CanTransition(old(memory).state, to) then to else old(memory).state
      ensures !CanTransition(old(memory).state, to) ==>
                status == Raised(Other) && faults == old(faults) && durable == old(durable)
      ensures status.Running? ==> durable == memory
      ensures durable == old(durable) || durable == memory
      ensures status.Running? || status.Crashed? || status == Raised(Other)
      ensures old(faults) == [] && CanTransition(old(memory).state, to) ==> faults == [] && status.Running?
      ensures old(faults) == [] ==> Now() == Moves(old(Now()), to) && faults == []
      ensures CanTransition(old(memory).state, to) && old(faults) != []
              && (old(faults)[0].CrashBefore? || old(faults)[0].CrashAfter?) ==>
                status == Crashed
    {
      hide Overspent, Lawful;
      if !CanTransition(memory.state, to) {
        status := Raised(Other);
        return;
      }
      LawfulStep(journal, memory.state, to);
      journal := journal + [(memory.state, to)];
      memory := memory.(state := to);
      Save();
    }

    /** The same, in a working run. */
    method Go(to: State)
      requires Busy() && status.Running?
               && (to.ReadyForPublish? ==> Completed(memory) && !Overspent(limits, memory.spent))
      modifies `durable, `memory, `faults, `status, `journal
      ensures Busy() && memory == old(memory).(state := memory.state)
      ensures memory.state == if CanTransition(old(memory).state, to) then to else old(memory).state
      ensures !CanTransition(old(memory).state, to) ==> status == Raised(Other) && faults == old(faults)
      ensures status.Running? ==> durable == memory
      ensures durable == old(durable) || durable == memory
      ensures status.Running? || status.Crashed? || status == Raised(Other)
      ensures old(faults) == [] && CanTransition(old(memory).state, to) ==> faults == [] && status.Running?
      ensures old(faults) == [] ==> Now() == Moves(old(Now()), to) && faults == []
    {
      hide Sound, Overspent, Lawful, CanTransition, Completed;
      Transition(to);
    }

    /** Reserve a turn in the budget; a refused turn ends the run. */
    method Begin(turn: Turn, elapsed: int)
      requires Busy() && status.Running?
      modifies budget, `status
      ensures Busy()
      ensures status == (if MayBegin(limits, old(budget.usage), turn, elapsed) then Running else Raised(OutOfBudget))
      ensures budget.usage == (if status.Running? then Begun(old(budget.usage), turn) else old(budget.usage))
      ensures status.Running? ==> calls < budget.usage.turns
      ensures Ceiling(limits, budget.usage) == Ceiling(limits, old(budget.usage))
      ensures Now() == Begins(limits, old(Now()), turn, elapsed)
    {
      hide Sound, Lawful, Overspent;
      var ok := budget.Begin(turn, elapsed);
      if !ok {
        status := Raised(OutOfBudget);
      }
    }

    /** syncBudget. */
    method Sync()
      requires Busy() && status.Running?
      modifies `durable, `memory, `faults, `status
      ensures Busy() && memory == old(memory).(turns := budget.usage.turns)
      ensures status.Running? ==> durable == memory
      ensures status.Running? || status.Crashed? || status == Raised(Other)
      ensures durable == old(durable) || durable == memory
      ensures old(faults) == [] ==> status.Running? && faults == []
      ensures old(faults) == [] ==> Now() == Syncs(old(Now())) && faults == []
    {
      hide Lawful, Overspent;
      memory := memory.(turns := budget.usage.turns);
      Save();
    }

    /** A reserved and written turn: the agent may now be called once. */
    method Pay(turn: Turn, elapsed: int)
      requires Busy() && status.Running?
      modifies `durable, `memory, budget, `faults, `status
      ensures Busy() && Ceiling(limits, budget.usage) == Ceiling(limits, old(budget.usage))
      ensures memory == old(memory).(turns := memory.turns)
      ensures status.Running? ==> durable == memory && calls < durable.turns
      ensures status.Running? || status.Crashed? || status == Raised(Other) || status == Raised(OutOfBudget)
      ensures old(faults) == [] && MayBegin(limits, old(budget.usage), turn, elapsed) ==>
                status.Running? && faults == [] && budget.usage == Begun(old(budget.usage), turn)
      ensures old(faults) == [] ==> Now() == Pays(limits, old(Now()), turn, elapsed) && faults == []
    {
      hide Begins, Syncs, Sound, Lawful, Overspent, Busy;
      Begin(turn, elapsed);
      if status.Running? {
        Sync();
      }
    }

    /**
     Add the reported tokens to the receipt and to the budget, then syncBudget. An implementation report is
     written in between: when that fails, the receipt has the tokens and the budget never sees them.
     */
    method Charge(tokens: Tokens, report: Fault)
      requires Busy() && status.Running? && !Settled(memory.state) && !memory.state.ReadyForPublish?
      modifies `durable, `memory, budget, `faults, `status, `slipped
      ensures Busy() && Ceiling(limits, budget.usage) == Ceiling(limits, old(budget.usage))
      ensures memory == old(memory).(turns := memory.turns, spent := Plus(old(memory).spent, tokens))
      ensures slipped <==> old(slipped) || (Breaks(report) && Overspent(limits, memory.spent))
      ensures Breaks(report) ==> status == Raised(Other) && faults == old(faults)
      ensures status.Running? ==> durable == memory && !Overspent(limits, memory.spent)
      ensures status.Running? || status.Crashed? || status == Raised(Other) || status == Raised(OutOfBudget)
      ensures old(faults) == [] && report.Fine? && tokens == FREE && Solvent(limits, old(budget.usage)) ==>
                status.Running? && faults == [] && budget.usage == old(budget.usage)
      ensures old(faults) == [] ==> Now() == Charges(limits, old(Now()), tokens, report) && faults == []
    {
      PlusIs(memory.spent, tokens);
      hide Counted, Syncs, Amount, Sound, Lawful, Settled;
      if !report.Fine? {
        Slip(tokens, report);
        return;
      }
      memory := Spends(memory, tokens);
      SpendingIsSound(old(memory), tokens);
      var ok := budget.Record(tokens);
      if !ok {
        status := Raised(OutOfBudget);
        return;
      }
      Sync();
    }

    /** The report could not be written: its tokens are in the receipt, and the budget never sees them. */
    method Slip(tokens: Tokens, report: Fault)
      requires Busy() && status.Running? && !Settled(memory.state) && !memory.state.ReadyForPublish? && !report.Fine?
      modifies `memory, `status, `slipped
      ensures Busy() && memory == old(memory).(spent := Plus(old(memory).spent, tokens))
      ensures slipped <==> old(slipped) || (Breaks(report) && Overspent(limits, memory.spent))
      ensures status == if Breaks(report) then Raised(Other) else Crashed
      ensures Now() == Charges(limits, old(Now()), tokens, report)
    {
      PlusIs(memory.spent, tokens);
      hide Amount, Sound, Lawful, Settled;
      memory := Spends(memory, tokens);
      SpendingIsSound(old(memory), tokens);
      status := if Breaks(report) then Raised(Other) else Crashed;
      slipped := slipped || (Breaks(report) && Overspent(limits, memory.spent));
    }

    /**
     One prompt, already paid for, and at most one repair turn after an invalid answer. Every call
     is counted against a turn that is durable before it starts.
     */
    method Prompt<T>(first: Answer<T>, again: Answer<T>, elapsed: int) returns (answer: Option<T>)
      requires Busy() && status.Running? && calls < durable.turns && durable == memory
      modifies `durable, `memory, budget, `faults, `status, `calls
      ensures Busy() && Ceiling(limits, budget.usage) == Ceiling(limits, old(budget.usage))
      ensures memory == old(memory).(turns := memory.turns)
      ensures status.Running? <==> answer.Some?
      ensures !status.Returned?
      ensures answer.Some? ==>
                durable == memory && ((first.Good? && answer.value == first.value)
                                      || (first.BadOutput? && again.Good? && answer.value == again.value))
      ensures first.Good? ==>
                answer == Some(first.value) && faults == old(faults) && budget.usage == old(budget.usage)
                    && calls == old(calls) + 1
      ensures old(faults) == [] ==>
                (Now(), answer) == Prompts(limits, old(Now()), first, again, elapsed) && faults == []
    {
      hide Pays, Sound, Lawful, Overspent;
      answer := None;
      calls := calls + 1;
      match first {
        case Good(value) => answer := Some(value);
        case Fails(code) => status := Raised(code);
        case Dies => status := Crashed;
        case BadOutput =>
          Pay(Repair, elapsed);
          if status.Running? {
            calls := calls + 1;
            match again {
              case Good(value) => answer := Some(value);
              case Fails(code) => status := Raised(code);
              case Dies => status := Crashed;
              case BadOutput => status := Raised(Agent);
            }
          }
      }
    }

    /** End in a state that the table allows here. */
    method Leave(to: State)
      requires Busy() && status.Running? && !to.ReadyForPublish?
      modifies `durable, `memory, `faults, `status, `journal
      ensures Busy() && memory == old(memory).(state := memory.state)
      ensures !status.Running? && (status.Raised? ==> status.code.Other?)
      ensures !CanTransition(old(memory).state, to) ==> status == Raised(Other)
      ensures memory.state == if CanTransition(old(memory).state, to) then to else old(memory).state
      ensures old(faults) == [] ==> Now() == Leaves(old(Now()), to) && faults == []
    {
      hide Moves, Busy;
      Go(to);
      if status.Running? {
        Halt(Returned);
      }
    }

    /** Replanning, a human decision, or a policy block ends the process. */
    method HandOver(progress: Progress)
      requires Busy() && status.Running? && !progress.Done? && !memory.state.ReadyForPublish?
      modifies `durable, `memory, `faults, `status, `journal
      ensures Busy() && memory == old(memory).(state := memory.state)
      ensures !status.Running? && !memory.state.ReadyForPublish? && (status.Raised? ==> status.code.Other?)
      ensures old(faults) == [] ==> Now() == Hands(old(Now()), progress) && faults == []
    {
      hide Leaves, Busy, CanTransition;
      match progress {
        case Done =>
        case NeedsReplan => Leave(ReplanRequired);
        case NeedsHuman => Leave(HumanRequired);
        case IsBlocked => Leave(PolicyBlocked);
      }
    }

    /** The run is about to end FAILED, above the token limits, because of this report. */
    ghost predicate SlippedBy(env: Env, spent: Spent)
      reads this
      requires env.work.Good?
    {
      && status == Raised(Other) && faults == [] && slipped && !Settled(memory.state)
      && memory.spent == Plus(spent, env.work.value.tokens)
    }

    /** What the implementer did, beside the receipt and in it. */
    method Report(work: Work, report: Fault)
      requires Busy() && status.Running? && memory.state.TerraImplementing?
      modifies `durable, `memory, budget, `faults, `status, `slipped
      ensures Busy() && Ceiling(limits, budget.usage) == Ceiling(limits, old(budget.usage))
      ensures memory.state.TerraImplementing? && Kept(old(memory), memory) && memory.implementer == work.thread
      ensures status.Running? ==> durable == memory
      ensures slipped && !old(slipped) ==> Breaks(report)
      ensures old(faults) == [] && report.Fine? && work.tokens == FREE && Solvent(limits, old(budget.usage)) ==>
                status.Running? && faults == [] && budget.usage == old(budget.usage)
      ensures old(faults) == [] && Breaks(report) && Overspent(limits, Plus(old(memory).spent, work.tokens)) ==>
                status == Raised(Other) && faults == [] && slipped
                    && memory.spent == Plus(old(memory).spent, work.tokens)
      ensures old(faults) == [] ==> Now() == Reports(limits, old(Now()), work, report) && faults == []
    {
      hide Charges, Busy, Sound, Overspent, Solvent;
      SoundNow();
      PlainIsSound(memory, Built(memory, work.thread));
      Put(Built(memory, work.thread));
      Artifact();
      if status.Running? {
        Charge(work.tokens, report);
      }
    }

    /** The implementation turn; Running when the loop goes on to the policy check. */
    method Implement(env: Env)
      requires Busy() && status.Running? && InLoop(memory.state)
      modifies `durable, `memory, budget, `faults, `status, `calls, `journal, `slipped
      ensures Busy() && Ceiling(limits, budget.usage) == Ceiling(limits, old(budget.usage))
      ensures status.Running? ==> memory.state.TerraImplementing? && durable == memory
      ensures !memory.state.ReadyForPublish? && memory.selection == old(memory).selection
      ensures old(faults) == [] && Builds(env) && MayBegin(limits, old(budget.usage), Implementation, env.elapsed)
              && Solvent(limits, old(budget.usage)) ==>
                && status.Running? && faults == [] && budget.usage == Begun(old(budget.usage), Implementation)
                && calls == old(calls) + 1
                && Kept(old(memory), memory) && memory.implementer == env.work.value.thread
      ensures slipped && !old(slipped) ==> Breaks(env.report)
      ensures old(faults) == [] && Slips(limits, old(memory), old(budget.usage), env) ==>
                SlippedBy(env, old(memory).spent)
      ensures old(faults) == [] ==> Now() == Implements(limits, old(Now()), env) && faults == []
    {
      hide Constructs, Reports, Saves, Hands, Busy, Sound, Overspent, MayBegin, CanTransition;
      var work := Build(env);
      if work.None? {
        return;
      }
      Report(work.value, env.report);
      if !status.Running? {
        return;
      }
      if work.value.progress.Done? {
        Keep();
      } else {
        HandOver(work.value.progress);
      }
    }

    /** Reserve the iteration and its turn, enter TERRA_IMPLEMENTING, and call the implementer. */
    method Build(env: Env) returns (work: Option<Work>)
      requires Busy() && status.Running? && InLoop(memory.state)
      modifies `durable, `memory, budget, `faults, `status, `calls, `journal
      ensures Busy() && Ceiling(limits, budget.usage) == Ceiling(limits, old(budget.usage))
      ensures status.Running? <==> work.Some?
      ensures work.Some? ==> memory.state.TerraImplementing? && durable == memory
      ensures InLoop(memory.state) && memory.selection == old(memory).selection && memory.spent == old(memory).spent
      ensures old(faults) == [] && !env.aborted && MayBegin(limits, old(budget.usage), Implementation, env.elapsed)
              && env.work.Good? ==>
                && work == Some(env.work.value) && faults == []
                && budget.usage == Begun(old(budget.usage), Implementation)
                && calls == old(calls) + 1 && Kept(old(memory), memory)
      ensures old(faults) == [] ==> (Now(), work) == Constructs(limits, old(Now()), env) && faults == []
    {
      hide Begins, Enters, Prompts, MayBegin, CanTransition, Busy;
      work := None;
      if env.aborted {
        Halt(Raised(Aborted));
        return;
      }
      Begin(Implementation, env.elapsed);
      if !status.Running? {
        return;
      }
      Enter();
      if status.Running? {
        work := Prompt(env.work, env.workAgain, env.elapsed);
      }
    }

    /** Count the iteration and enter TERRA_IMPLEMENTING; the turn is then durable. */
    method Enter()
      requires Busy() && status.Running? && InLoop(memory.state) && calls < budget.usage.turns
      modifies `durable, `memory, `faults, `status, `journal
      ensures Busy() && InLoop(memory.state) && Kept(old(memory), memory) && memory.spent == old(memory).spent
      ensures status.Running? ==> durable == memory && memory.state.TerraImplementing? && calls < durable.turns
      ensures !status.Returned?
      ensures old(faults) == [] ==> status.Running?
      ensures old(faults) == [] ==> Now() == Enters(old(Now())) && faults == []
    {
      hide Moves, Syncs, Busy;
      SoundNow();
      PlainIsSound(memory, memory.(iterations := memory.iterations + 1));
      Put(memory.(iterations := memory.iterations + 1));
      if memory.state.TerraFixing? {
        Go(TerraImplementing);
      }
      if status.Running? {
        Sync();
      }
    }

    /** Policy check and deterministic verification; Running with `passed` when reviews may start. */
    method Check(env: Env)
      requires Busy() && status.Running? && memory.state.TerraImplementing?
      modifies `durable, `memory, `faults, `status, `journal
      ensures Busy() && memory.selection == old(memory).selection && !memory.state.ReadyForPublish?
      ensures status.Running? ==> durable == memory || memory.state.Verifying?
      ensures status.Running? ==>
                (memory.state.Verifying? && VerifiedNow(memory) && memory.digest.Some?) || memory.state.TerraFixing?
      ensures memory.turns == old(memory).turns
      ensures old(faults) == [] && env.policy.None? && env.check.Checked? && env.check.passed ==>
                && status.Running? && faults == [] && memory.state.Verifying? && memory.digest == Some(env.check.digest)
                && Kept(old(memory), memory) && memory.implementer == old(memory).implementer
      ensures old(faults) == [] ==> Now() == Checks(configured, old(Now()), env) && faults == []
    {
      hide Examines, Rejects, Busy, Sound, Overspent;
      if env.policy.Some? {
        Halt(Raised(env.policy.value));
        return;
      }
      Examine(env.changed);
      if !status.Running? {
        return;
      }
      if env.check.CheckFails? {
        Halt(Raised(env.check.code));
        return;
      }
      SoundNow();
      PlainIsSound(memory, CheckedAs(memory, env.check.passed, env.check.digest));
      Put(CheckedAs(memory, env.check.passed, env.check.digest));
      Artifact();
      if status.Running? && !env.check.passed {
        Reject();
      }
    }

    /** The digest of the work, and the way to its verification. */
    method Examine(digest: Digest)
      requires Busy() && status.Running? && memory.state.TerraImplementing?
      modifies `durable, `memory, `faults, `status, `journal
      ensures Busy() && !memory.state.ReadyForPublish? && !status.Returned?
      ensures memory == old(memory).(digest := Some(digest), state := memory.state)
      ensures status.Running? ==> durable == memory && memory.state.Verifying?
      ensures old(faults) == [] ==> status.Running?
      ensures old(faults) == [] ==> Now() == Examines(old(Now()), digest) && faults == []
    {
      hide Moves, Busy, Sound, Overspent;
      SoundNow();
      PlainIsSound(memory, Changed(memory, digest));
      Put(Changed(memory, digest));
      Go(PolicyChecking);
      if status.Running? {
        Go(Verifying);
      }
    }

    /** The implementation budget, as the loop sees it after a failed verification, is spent. */
    ghost predicate IterationsSpent()
      reads this, budget
    {
      memory.iterations >= budget.usage.iterations >= configured
    }

    /** A failed verification: fix it, or fail because the table has no way to BUDGET_EXHAUSTED here. */
    method Reject()
      requires Busy() && status.Running? && memory.state.Verifying?
      modifies `durable, `memory, `faults, `status, `journal
      ensures Busy() && memory.selection == old(memory).selection && memory.turns == old(memory).turns
      ensures !memory.state.ReadyForPublish? && !memory.state.BudgetExhausted?
      ensures status.Running? ==> durable == memory && memory.state.TerraFixing? && !old(IterationsSpent())
      ensures old(faults) == [] ==>
                if old(IterationsSpent()) then status == Raised(Other) && memory.state.VerificationFailed?
                else status.Running?
      ensures old(faults) == [] ==> Now() == Rejects(configured, old(Now())) && faults == []
    {
      hide Saves, Moves, Retries, Busy;
      Artifact();
      if !status.Running? {
        return;
      }
      Keep();
      if !status.Running? {
        return;
      }
      Go(VerificationFailed);
      if !status.Running? {
        return;
      }
      Retry();
    }

    /** Nothing that was checked stands; fix it, or ask in vain for BUDGET_EXHAUSTED. */
    method Retry()
      requires Busy() && status.Running? && memory.state.VerificationFailed?
      modifies `durable, `memory, `faults, `status, `journal
      ensures Busy() && memory.selection == old(memory).selection && memory.turns == old(memory).turns
      ensures !memory.state.ReadyForPublish? && !memory.state.BudgetExhausted?
      ensures status.Running? ==> durable == memory && memory.state.TerraFixing? && !old(IterationsSpent())
      ensures old(faults) == [] ==>
                if old(IterationsSpent()) then status == Raised(Other) && memory.state.VerificationFailed?
                else status.Running?
      ensures old(faults) == [] ==> Now() == Retries(configured, old(Now())) && faults == []
    {
      hide Moves, Leaves, Busy;
      SoundNow();
      InvalidatedIsSound(memory);
      Put(Invalidated(memory));
      if memory.iterations >= budget.usage.iterations && budget.usage.iterations >= configured {
        Leave(BudgetExhausted);
      } else {
        Go(TerraFixing);
      }
    }

    /**
     Judge a review that was paid for: refuse a mutated worktree, a stale digest and a reused
     thread, record the verdict, and act on it. True when the reviewer approved.
     */
    method Judge(kind: Kind, review: Review) returns (approved: bool)
      requires Busy() && status.Running? && !memory.state.ReadyForPublish?
               && (memory.selection.Some? ==> memory.selection == Some(kind))
      requires memory.state == if kind.Terra? then TerraReviewing else SolReviewing
      modifies `durable, `memory, budget, `faults, `status, `journal, `slipped
      ensures Busy() && Ceiling(limits, budget.usage) == Ceiling(limits, old(budget.usage))
      ensures !memory.state.ReadyForPublish? && memory.selection == old(memory).selection
      ensures approved ==> status.Running? && Fresh(old(memory), kind, review.thread)
                           && review.result.verdict.Approve? && Some(review.result.reviewed) == memory.digest
                           && memory == Recorded(old(memory), kind, review).(turns := memory.turns,
                                   spent := memory.spent)
      ensures approved ==> memory.state == old(memory).state && memory.digest == old(memory).digest
      ensures approved ==> !Overspent(limits, memory.spent)
      ensures slipped == old(slipped)
      ensures !approved && status.Running? ==> durable == memory && memory.state.TerraFixing?
      ensures old(faults) == [] && Clear(old(memory), kind, review) && Solvent(limits, old(budget.usage)) ==>
                approved && faults == [] && budget.usage == old(budget.usage)
      ensures old(faults) == [] ==> (Now(), approved) == Judges(limits, old(Now()), kind, review) && faults == []
    {
      hide Weighs, NewThread, Entered, Busy, Sound, Overspent, Fresh, CanTransition;
      FreshIsNew(memory, kind, review.thread);
      EnteredIsRecorded(memory, kind, review);
      approved := false;
      if review.before != review.after {
        Halt(Raised(Agent));
        return;
      }
      if Some(review.after) != memory.digest || !Fresh(memory, kind, review.thread) {
        Halt(Raised(if Some(review.after) == memory.digest && kind.Terra? then Agent else Other));
        return;
      }
      SoundNow();
      RecordedIsSound(memory, kind, review);
      Put(Recorded(memory, kind, review));
      approved := Weigh(review);
    }

    /** Charge a recorded review, and act on its verdict. */
    method Weigh(review: Review) returns (approved: bool)
      requires Busy() && status.Running? && (memory.state.TerraReviewing? || memory.state.SolReviewing?)
      modifies `durable, `memory, budget, `faults, `status, `journal, `slipped
      ensures Busy() && Ceiling(limits, budget.usage) == Ceiling(limits, old(budget.usage))
      ensures !memory.state.ReadyForPublish? && memory.selection == old(memory).selection
      ensures approved ==> status.Running? && review.result.verdict.Approve?
                           && Some(review.result.reviewed) == memory.digest
                           && memory == old(memory).(turns := memory.turns, spent := memory.spent)
      ensures approved ==> !Overspent(limits, memory.spent)
      ensures slipped == old(slipped)
      ensures !approved && status.Running? ==> durable == memory && memory.state.TerraFixing?
      ensures old(faults) == [] && review.tokens == FREE && review.wellFormed && review.result.verdict.Approve?
              && Some(review.result.reviewed) == old(memory).digest && Solvent(limits, old(budget.usage)) ==>
                approved && faults == [] && budget.usage == old(budget.usage)
      ensures old(faults) == [] ==> (Now(), approved) == Weighs(limits, old(Now()), review) && faults == []
    {
      hide Charges, Follows, Busy, Sound, Overspent, CanTransition;
      approved := false;
      Charge(review.tokens, Fine);
      if !status.Running? {
        return;
      }
      if !review.wellFormed {
        Halt(Raised(Agent));
        return;
      }
      Artifact();
      if !status.Running? {
        return;
      }
      if Some(review.result.reviewed) != memory.digest {
        Halt(Raised(Other));
        return;
      }
      if review.result.verdict.Approve? {
        approved := true;
      } else {
        Follow(review.result.verdict);
      }
    }

    /** A verdict other than approval: fix what was found, or hand the run over. */
    method Follow(verdict: Verdict)
      requires Busy() && status.Running? && !verdict.Approve? && !memory.state.ReadyForPublish?
      modifies `durable, `memory, `faults, `status, `journal
      ensures Busy() && !memory.state.ReadyForPublish? && memory.selection == old(memory).selection
      ensures status.Running? ==> durable == memory && memory.state.TerraFixing? && verdict.Revise?
      ensures verdict.Revise? ==> !memory.passed && memory.internal.verdict.None? && memory.final.verdict.None?
      ensures old(faults) == [] ==> Now() == Follows(old(Now()), verdict) && faults == []
    {
      hide Moves, Saves, Leaves, Busy, Sound, Overspent, CanTransition;
      match verdict {
        case Revise =>
          SoundNow();
          InvalidatedIsSound(memory);
          Put(Invalidated(memory));
          Keep();
          if status.Running? {
            Go(TerraFixing);
          }
        case Replan => Leave(WebReviewRequired);
        case Escalate => Leave(HumanRequired);
      }
    }

    /** READY, then one last look at the accepted bundle. */
    method Publish(env: Env)
      requires Busy() && status.Running? && Completed(memory) && !Overspent(limits, memory.spent)
               && (memory.state.TerraReviewing? || memory.state.SolReviewing?)
      modifies `durable, `memory, `faults, `status, `journal
      ensures Busy() && memory == old(memory).(state := ReadyForPublish)
      ensures !status.Running? && (status.Raised? ==> status.code.Other? || status.code.Agent?)
      ensures old(faults) == [] && !env.bundleChanged ==> status == Returned && durable == memory
      ensures old(faults) == [] ==> Now() == Publishes(old(Now()), env) && faults == []
    {
      hide Moves, Busy, Sound, Overspent, Completed;
      Go(ReadyForPublish);
      if status.Running? {
        Halt(if env.bundleChanged then Raised(Agent) else Returned);
      }
    }

    /** Enter a review state, reserve its turn, and ask the reviewer if its gate is open. */
    method Ask(kind: Kind, env: Env, allowed: bool, first: Answer<Review>, again: Answer<Review>)
      returns (review: Option<Review>)
      requires Busy() && status.Running? && (memory.state.Verifying? || (kind.Sol? && memory.state.TerraReviewing?))
      modifies `durable, `memory, budget, `faults, `status, `calls, `journal
      ensures Busy() && Ceiling(limits, budget.usage) == Ceiling(limits, old(budget.usage))
              && !memory.state.ReadyForPublish?
      ensures memory == old(memory).(state := memory.state, turns := memory.turns)
      ensures status.Running? <==> review.Some?
      ensures review.Some? ==> memory.state == if kind.Terra? then TerraReviewing else SolReviewing
      ensures old(faults) == [] && !env.abortedReview && allowed && first.Good?
                && MayBegin(limits, old(budget.usage), ReviewTurn(kind), env.elapsed) ==>
                && review == Some(first.value) && faults == [] && calls == old(calls) + 1
                && budget.usage == Begun(old(budget.usage), ReviewTurn(kind))
      ensures old(faults) == [] ==>
                (Now(), review) == Asks(limits, old(Now()), kind, env, allowed, first, again) && faults == []
    {
      hide Admits, Prompts, MayBegin, Busy, Sound, Overspent;
      review := None;
      Admit(kind, env, allowed);
      if status.Running? {
        review := Prompt(first, again, env.elapsed);
      }
    }

    /** Enter a review state and reserve its turn; Running when the reviewer may be asked. */
    method Admit(kind: Kind, env: Env, allowed: bool)
      requires Busy() && status.Running? && (memory.state.Verifying? || (kind.Sol? && memory.state.TerraReviewing?))
      modifies `durable, `memory, budget, `faults, `status, `journal
      ensures Busy() && Ceiling(limits, budget.usage) == Ceiling(limits, old(budget.usage))
              && !memory.state.ReadyForPublish? && !status.Returned?
      ensures memory == old(memory).(state := memory.state, turns := memory.turns)
      ensures status.Running? ==> durable == memory && calls < durable.turns
      ensures status.Running? ==> memory.state == if kind.Terra? then TerraReviewing else SolReviewing
      ensures old(faults) == [] && !env.abortedReview && allowed
                && MayBegin(limits, old(budget.usage), ReviewTurn(kind), env.elapsed) ==>
                status.Running? && faults == [] && budget.usage == Begun(old(budget.usage), ReviewTurn(kind))
      ensures old(faults) == [] ==> Now() == Admits(limits, old(Now()), kind, env, allowed) && faults == []
    {
      hide Moves, Pays, Busy, Sound, Overspent;
      Go(if kind.Terra? then TerraReviewing else SolReviewing);
      if !status.Running? {
        return;
      }
      if env.abortedReview {
        Halt(Raised(Aborted));
        return;
      }
      Pay(ReviewTurn(kind), env.elapsed);
      if !status.Running? {
        return;
      }
      if !allowed {
        Halt(Raised(Other));
      }
    }

    /** The run's one selected reviewer. */
    method ReviewSingle(kind: Kind, env: Env)
      requires Busy() && status.Running? && memory.state.Verifying? && VerifiedNow(memory)
               && memory.selection == Some(kind)
      modifies `durable, `memory, budget, `faults, `status, `calls, `journal, `slipped
      ensures Busy() && Ceiling(limits, budget.usage) == Ceiling(limits, old(budget.usage))
      ensures status.Running? ==> durable == memory && memory.state.TerraFixing?
      ensures Harmless()
      ensures slipped == old(slipped)
      ensures old(faults) == [] && SinglePasses(env, old(memory), kind, required) && Solvent(limits, old(budget.usage))
                && MayBegin(limits, old(budget.usage), ReviewTurn(kind), env.elapsed) ==>
                status == Returned && durable.state.ReadyForPublish? && calls == old(calls) + 1
      ensures old(faults) == [] ==> Now() == Singles(limits, required, old(Now()), kind, env) && faults == []
    {
      hide Asks, Settles, Busy, Sound, Overspent, MayBegin, CanTransition, Fresh;
      ghost var start := memory;
      var review := Ask(kind, env, kind.Terra? || SingleCanStart(memory, Sol), env.first, env.firstAgain);
      if review.None? {
        return;
      }
      Settle(kind, env, review.value, start);
    }

    /** Judge the selected reviewer's review; publish an approval that passes its gates. */
    method Settle(kind: Kind, env: Env, review: Review, ghost start: Receipt)
      requires Busy() && status.Running? && memory.selection == Some(kind)
      requires memory.state == if kind.Terra? then TerraReviewing else SolReviewing
      requires SameReview(start, memory)
      modifies `durable, `memory, budget, `faults, `status, `journal, `slipped
      ensures Busy() && Ceiling(limits, budget.usage) == Ceiling(limits, old(budget.usage))
      ensures status.Running? ==> durable == memory && memory.state.TerraFixing?
      ensures Harmless()
      ensures slipped == old(slipped)
      ensures old(faults) == [] && SinglePasses(env, start, kind, required) && review == env.first.value
                && Solvent(limits, old(budget.usage)) ==>
                status == Returned && durable.state.ReadyForPublish?
      ensures old(faults) == [] ==> Now() == Settles(limits, required, old(Now()), kind, env, review) && faults == []
    {
      if SinglePasses(env, start, kind, required) {
        SingleIsClear(env, start, kind, required);
      }
      hide Judges, Certifies, Busy, Sound, Overspent, CanTransition, Fresh, SinglePasses, Clear, ApprovalValid,
           SameReview, SingleReady, SingleCanStart, Recorded, Approved;
      ghost var asked := memory;
      ClearStays(start, memory, kind, review);
      var approved := Judge(kind, review);
      if !approved {
        return;
      }
      SameTwice(start, asked, memory, kind, review);
      if SinglePasses(env, start, kind, required) && review == env.first.value {
        SingleBecomesReady(env, start, kind, required, memory);
      }
      RecordedIsApproved(asked, kind, review, memory);
      Certify(kind, env, review);
    }

    /** Publish an approval that passes its gates. */
    method Certify(kind: Kind, env: Env, review: Review)
      requires Busy() && status.Running? && memory.selection == Some(kind) && !Overspent(limits, memory.spent)
      requires memory.state.TerraReviewing? || memory.state.SolReviewing?
      requires Approved(memory, SlotOf(memory, kind))
      modifies `durable, `memory, `faults, `status, `journal
      ensures Busy() && !status.Running? && Harmless()
      ensures old(faults) == [] && SingleReady(old(memory), review.result, kind, required)
              && SingleCanStart(old(memory), kind) && !env.bundleChanged ==>
                status == Returned && durable.state.ReadyForPublish?
      ensures old(faults) == [] ==> Now() == Certifies(required, old(Now()), kind, env, review) && faults == []
    {
      hide Publishes, Busy, Sound, Overspent, CanTransition, ApprovalValid;
      if (kind.Terra? && !SingleCanStart(memory, Terra)) || !SingleReady(memory, review.result, kind, required) {
        Halt(Raised(Other));
        return;
      }
      Publish(env);
    }

    /** A legacy run: Terra, then Sol on Terra's approval. */
    method ReviewBoth(env: Env)
      requires Busy() && status.Running? && memory.state.Verifying? && VerifiedNow(memory) && memory.selection.None?
      modifies `durable, `memory, budget, `faults, `status, `calls, `journal, `slipped
      ensures Busy() && Ceiling(limits, budget.usage) == Ceiling(limits, old(budget.usage))
      ensures status.Running? ==> durable == memory && memory.state.TerraFixing?
      ensures Harmless()
      ensures slipped == old(slipped)
      ensures old(faults) == [] && BothPass(env, old(memory), required) && Solvent(limits, old(budget.usage))
                && MayBegin(limits, old(budget.usage), InternalReview, env.elapsed)
                && MayBegin(limits, Begun(old(budget.usage), InternalReview), SolReview, env.elapsed) ==>
                status == Returned && durable.state.ReadyForPublish? && calls == old(calls) + 2
      ensures old(faults) == [] ==> Now() == Boths(limits, required, old(Now()), env) && faults == []
    {
      hide Asks, Judges, Seconds, Busy, Sound, Overspent, MayBegin, CanTransition, Fresh, ApprovalValid, Disjoint,
           BothReady, TerraCanStart,
           SolCanStart,
           Clear, Recorded, Completed;
      ghost var start := memory;
      var terra := Ask(Terra, env, true, env.first, env.firstAgain);
      if terra.None? {
        return;
      }
      ghost var asked := memory;
      ClearStays(start, memory, Terra, terra.value);
      var approved := Judge(Terra, terra.value);
      if !approved {
        return;
      }
      SameTwice(start, asked, memory, Terra, terra.value);
      FollowWithSol(env, terra.value, start);
    }

    /** Sol's review after Terra's approval. */
    method FollowWithSol(env: Env, terra: Review, ghost start: Receipt)
      requires Busy() && status.Running? && memory.state.TerraReviewing? && memory.selection.None?
      requires start.selection.None? && SameReview(Recorded(start, Terra, terra), memory)
      requires terra.result.verdict.Approve? && Some(terra.result.reviewed) == start.digest
      modifies `durable, `memory, budget, `faults, `status, `calls, `journal, `slipped
      ensures Busy() && Ceiling(limits, budget.usage) == Ceiling(limits, old(budget.usage))
      ensures status.Running? ==> durable == memory && memory.state.TerraFixing?
      ensures Harmless()
      ensures slipped == old(slipped)
      ensures old(faults) == [] && BothPass(env, start, required) && terra == env.first.value
              && Solvent(limits, old(budget.usage))
                && MayBegin(limits, old(budget.usage), SolReview, env.elapsed) ==>
                status == Returned && durable.state.ReadyForPublish? && calls == old(calls) + 1
      ensures old(faults) == [] ==> Now() == Seconds(limits, required, old(Now()), env, terra) && faults == []
    {
      hide Asks, Agrees, Busy, Sound, Overspent, MayBegin, CanTransition, Fresh, ApprovalValid, Disjoint, BothReady,
           TerraCanStart, SolCanStart, Clear, Recorded, Completed;
      ghost var middle := memory;
      if BothPass(env, start, required) && terra == env.first.value {
        SolMayFollow(env, start, required, middle);
      }
      if !TerraCanStart(memory, terra.result, required) {
        Halt(Raised(Other));
        return;
      }
      var sol := Ask(Sol, env, SolCanStart(memory, terra.result, required), env.second, env.secondAgain);
      if sol.None? {
        return;
      }
      Agree(env, terra, sol.value, start, middle);
    }

    /** Judge Sol's review; publish two approvals that pass the final gate. */
    method Agree(env: Env, terra: Review, sol: Review, ghost start: Receipt, ghost middle: Receipt)
      requires Busy() && status.Running? && memory.state.SolReviewing? && memory.selection.None?
      requires start.selection.None? && SameReview(Recorded(start, Terra, terra), middle)
      requires terra.result.verdict.Approve? && Some(terra.result.reviewed) == start.digest
      requires SameReview(middle, memory)
      modifies `durable, `memory, budget, `faults, `status, `journal, `slipped
      ensures Busy() && Ceiling(limits, budget.usage) == Ceiling(limits, old(budget.usage))
      ensures status.Running? ==> durable == memory && memory.state.TerraFixing?
      ensures Harmless()
      ensures slipped == old(slipped)
      ensures old(faults) == [] && BothPass(env, start, required) && terra == env.first.value
                && sol == env.second.value && Clear(middle, Sol, sol) && Solvent(limits, old(budget.usage)) ==>
                status == Returned && durable.state.ReadyForPublish?
      ensures old(faults) == [] ==> Now() == Agrees(limits, required, old(Now()), env, terra, sol) && faults == []
    {
      hide Judges, Publishes, Busy, Sound, Overspent, CanTransition, Fresh, ApprovalValid, Disjoint, BothReady, Clear,
           Recorded, Completed;
      ghost var asked := memory;
      ClearStays(middle, memory, Sol, sol);
      var approved := Judge(Sol, sol);
      if !approved {
        return;
      }
      SameTwice(middle, asked, memory, Sol, sol);
      if BothPass(env, start, required) && terra == env.first.value && sol == env.second.value {
        BothBecomeReady(env, start, required, middle, memory);
      }
      if !BothReady(memory, terra.result, sol.result, required) {
        Halt(Raised(Other));
        return;
      }
      BothAreCompleted(start, terra, middle, sol, memory, required);
      Publish(env);
    }

    /** An error raised with a READY receipt does not make the catch block change it. */
    ghost predicate Harmless()
      reads this
    {
      memory.state.ReadyForPublish? && status.Raised? ==> !status.code.VerifierTimeout?
    }

    /** One iteration of the loop. */
    method Iterate(env: Env)
      requires Busy() && status.Running? && InLoop(memory.state)
      modifies `durable, `memory, budget, `faults, `status, `calls, `journal, `slipped
      ensures Busy() && Ceiling(limits, budget.usage) == Ceiling(limits, old(budget.usage))
      ensures status.Running? ==> InLoop(memory.state)
      ensures Harmless()
      ensures slipped && !old(slipped) ==> Breaks(env.report)
      ensures old(faults) == [] && Slips(limits, old(memory), old(budget.usage), env) ==>
                SlippedBy(env, old(memory).spent)
      ensures old(faults) == [] && Succeeds(env, old(memory), required)
              && Affordable(limits, old(budget.usage), env.elapsed) ==>
                && status == Returned && durable.state.ReadyForPublish?
                && calls == old(calls) + if old(memory).selection.Some? then 2 else 3
      ensures old(faults) == [] ==> Now() == Iterates(limits, required, configured, old(Now()), env) && faults == []
    {
      hide Implements, Checks, Singles, Boths, Busy, Sound, Overspent, SinglePasses, BothPass;
      Implement(env);
      if status.Running? {
        Check(env);
      }
      if status.Running? && memory.state.Verifying? && old(faults) == [] && Succeeds(env, old(memory), required)
        && Affordable(limits, old(budget.usage), env.elapsed) {
        SucceedsAfterCheck(env, old(memory), required, memory);
      }
      if status.Running? && memory.state.Verifying? {
        if memory.selection.Some? {
          ReviewSingle(memory.selection.value, env);
        } else {
          ReviewBoth(env);
        }
      }
    }

    /** Enter a terminal state, through the table or, when it refuses or the write fails, by force. */
    method End(state: State)
      requires Ahead() && status.Running? && !state.ReadyForPublish? && Excused(memory.(state := state))
      modifies `durable, `memory, `faults, `status, `journal
      ensures Ahead() && (status.Running? || status.Crashed?)
      ensures old(faults) == [] ==> status.Running? && faults == []
      ensures durable == old(durable) || durable == memory
      ensures memory == old(memory).(state := state)
      ensures old(faults) == [] ==>
                && status == Running && calls == old(calls)
                && durable == (if CanTransition(old(memory).state, state) then memory else old(durable))
                && journal == (if CanTransition(old(memory).state, state)
                               then old(journal) + [(old(memory).state, state)]
                               else old(journal))
      ensures CanTransition(old(memory).state, state) && old(faults) != []
              && (old(faults)[0].CrashBefore? || old(faults)[0].CrashAfter?) ==>
                status == Crashed
    {
      hide Sound, Lawful, Overspent, CanTransition;
      EndIsSound(memory, state);
      Transition(state);
      if !status.Crashed? {
        memory, status := memory.(state := state), Running;
      }
    }

    /** End in the state of this error; a FAILED receipt may be given another state. */
    method Close(code: Code)
      requires Ahead() && status.Running? && !Settled(memory.state)
      requires Excused(memory) || code.OutOfBudget? || (code.Other? && slipped)
      modifies `durable, `memory, `faults, `status, `journal, `revived
      ensures Ahead() && (status.Running? || status.Crashed?)
      ensures old(faults) == [] ==> status.Running? && faults == []
      ensures durable == old(durable) || durable == memory
      ensures memory == old(memory).(state := TerminalFor(code)) && Excused(memory) && !memory.state.ReadyForPublish?
      ensures revived <==> old(revived) || (old(memory).state.Failed? && !code.Other?)
      ensures old(faults) == [] ==>
                && status == Running && calls == old(calls)
                && journal == (if CanTransition(old(memory).state, TerminalFor(code))
                               then old(journal) + [(old(memory).state, TerminalFor(code))] else old(journal))
    {
      hide Sound, Lawful, Overspent;
      revived := revived || (memory.state.Failed? && !code.Other?);
      End(TerminalFor(code));
    }

    /** The catch block: note a timed-out verification, end the run, write what is left. */
    method Catch(code: Code)
      requires Idle() && status == Raised(code) && Harmless()
      modifies `durable, `memory, `faults, `status, `journal, `revived
      ensures Ahead() && memory.turns == old(memory).turns && !status.Running?
      ensures memory.state == if old(Settled(memory.state)) then old(memory).state else TerminalFor(code)
      ensures old(Settled(memory.state)) && !code.VerifierTimeout? ==>
                memory == old(memory) && (durable == old(durable) || durable == memory)
      ensures old(Settled(memory.state)) ==> memory.state == old(memory).state && journal == old(journal)
      ensures !code.VerifierTimeout? ==> memory == old(memory).(state := memory.state)
      ensures durable == old(durable) || durable == memory
      ensures memory.spent == old(memory).spent && (old(faults) == [] ==> durable == memory)
      ensures revived <==> old(revived) || (old(memory).state.Failed? && !code.Other?)
      ensures old(faults) == [] ==> Now() == Catches(old(Now()), code)
    {
      hide Catches, Settled, Sound, Lawful, Overspent, CanTransition, TerminalFor;
      ghost var start := Now();
      EndsAlike(memory.state, code);
      status := Running;
      if code.VerifierTimeout? {
        PlainIsSound(memory, TimedOut(memory));
        memory := TimedOut(memory);
      }
      Seal(code);
      if old(faults) == [] {
        CaughtIs(start, Now(), code);
      }
    }

    /** End an unsettled run, and write what is left. */
    method Seal(code: Code)
      requires Ahead() && status.Running?
      requires if Settled(memory.state) then Storing(memory)
               else Excused(memory) || code.OutOfBudget? || (code.Other? && slipped)
      modifies `durable, `memory, `faults, `status, `journal, `revived
      ensures Ahead() && (status == Crashed || status == Raised(code))
      ensures memory == old(memory).(state := memory.state)
      ensures memory.state == if old(Settled(memory.state)) then old(memory).state else TerminalFor(code)
      ensures old(Settled(memory.state)) ==> journal == old(journal)
      ensures durable == old(durable) || durable == memory
      ensures revived <==> old(revived) || (!old(Settled(memory.state)) && old(memory).state.Failed? && !code.Other?)
      ensures old(faults) == [] ==>
                && durable == memory && status == Raised(code) && calls == old(calls)
                && journal == (if !old(Settled(memory.state)) && CanTransition(old(memory).state, TerminalFor(code))
                               then old(journal) + [(old(memory).state, TerminalFor(code))] else old(journal))
    {
      hide Settled, Sound, Lawful, Overspent, CanTransition, TerminalFor;
      if !Settled(memory.state) {
        Close(code);
        if status.Crashed? {
          return;
        }
      }
      Save();
      if !status.Crashed? {
        status := Raised(code);
      }
    }

    /** Bind the selected reviewer, or refuse another one; then the checks before the receipt's state is looked at. */
    method Select(start: Start)
      requires Idle() && status.Running?
      modifies `memory, `status
      ensures Idle() && memory == old(memory).(selection := memory.selection)
      ensures old(memory).state.ReadyForPublish? ==> memory == old(memory)
      ensures status.Running? ==> start.early.None? && memory.selection == start.selection
      ensures status.Running? || (status.Raised? && !status.code.VerifierTimeout?)
      ensures old(memory).selection == start.selection ==>
                memory == old(memory) && status == if start.early.Some? then Raised(start.early.value) else Running
      ensures Now() == Selects(old(Now()), start) && faults == old(faults)
    {
      hide Sound, Lawful, Overspent;
      if start.selection.Some? && memory.selection.None? {
        if memory.internal.rounds > 0 || memory.final.rounds > 0 || memory.state.ReadyForPublish? {
          status := Raised(Other);
          return;
        }
        SelectionIsSound(memory, start.selection.value);
        memory := memory.(selection := start.selection);
      } else if memory.selection != start.selection {
        status := Raised(Other);
        return;
      }
      if start.early.Some? {
        status := Raised(start.early.value);
      }
    }

    /** The digest of the worktree at the start, and what it invalidates; Running when the run may go on. */
    method Resume(start: Start)
      requires Valid() && durable == memory && status.Running? && budget.usage == Restored(memory)
               && budget.limits == limits
      modifies `durable, `memory, `faults, `status, `journal
      ensures Idle() && (status.Running? ==> Busy())
      ensures memory.turns == old(memory).turns && Harmless()
      ensures old(durable).state.ReadyForPublish? ==>
                !status.Running? && memory == old(memory) && durable == old(durable) && journal == old(journal)
      ensures old(durable).state.ReadyForPublish? && Matches(old(durable), start) && start.early.None? ==>
                status == Returned
      ensures status.Running? ==> !memory.state.ReadyForPublish?
      ensures start.early.Some? && old(memory).selection == start.selection ==>
                status == Raised(start.early.value) && memory == old(memory) && faults == old(faults)
      ensures old(faults) == [] && Plain(start) && Matches(old(memory), start) && InLoop(old(memory).state) ==>
                status.Running? && faults == [] && memory == old(memory)
      ensures old(faults) == [] ==> Now() == Resumes(old(Now()), start) && faults == []
    {
      hide Selects, Restarts, GoesOn, Sound, Lawful, Overspent, Completed;
      Select(start);
      if !status.Running? {
        return;
      }
      if memory.digest.None? && !start.clean {
        status := Raised(Other);
        return;
      }
      if memory.digest.Some? && memory.digest != Some(start.digest) {
        Restart(start.digest);
        if !status.Running? {
          return;
        }
      }
      if memory.state.ReadyForPublish? {
        ReadyIsCompleted(memory);
        status := Returned;
        return;
      }
      if Over(memory.state) {
        status := Returned;
        return;
      }
      GoOn(start);
    }

    /** Write the receipt, leave READY_FOR_CODEX, and check the agent and the sandbox. */
    method GoOn(start: Start)
      requires Busy() && status.Running? && !memory.state.ReadyForPublish?
      modifies `durable, `memory, `faults, `status, `journal
      ensures Busy() && memory == old(memory).(state := memory.state) && !memory.state.ReadyForPublish?
      ensures status.Raised? ==> !status.code.VerifierTimeout?
      ensures old(faults) == [] && start.late.None? && InLoop(old(memory).state) ==>
                status.Running? && faults == [] && memory == old(memory)
      ensures old(faults) == [] ==> Now() == GoesOn(old(Now()), start) && faults == []
    {
      hide Saves, Moves, Busy, Sound, Overspent;
      Keep();
      if status.Running? && memory.state.ReadyForCodex? {
        Go(CodexPreflight);
      }
      if status.Running? && start.late.Some? {
        Halt(Raised(start.late.value));
      }
    }

    /** The worktree is not the one the receipt describes. */
    method Restart(digest: Digest)
      requires Idle() && status.Running?
      modifies `durable, `memory, `faults, `status, `journal
      ensures Idle() && memory.spent == old(memory).spent && memory.turns == old(memory).turns
      ensures old(memory).state.ReadyForPublish? ==>
                memory == old(memory) && durable == old(durable) && journal == old(journal) && status == Raised(Other)
      ensures !old(memory).state.ReadyForPublish? ==> !memory.state.ReadyForPublish?
      ensures old(faults) == [] ==> Now() == Restarts(old(Now()), digest) && faults == []
    {
      hide Moves, Sound, Lawful, Overspent, Completed;
      if memory.state.ReadyForPublish? {
        status := Raised(Other);
        return;
      }
      InvalidatedIsSound(memory);
      PlainIsSound(Invalidated(memory), Invalidated(memory).(digest := Some(digest)));
      memory := Invalidated(memory).(digest := Some(digest));
      if Doubtful(memory.state) {
        Transition(TerraFixing);
      }
    }

    /** Where a resumed run goes on: an unfinished check or review starts over from fixing. */
    method Reenter(start: Start)
      requires Busy() && status.Running? && !memory.state.ReadyForPublish?
      modifies `durable, `memory, `faults, `status, `journal
      ensures Busy() && memory.turns == old(memory).turns && !memory.state.ReadyForPublish?
      ensures InLoop(old(memory).state) && Matches(old(memory), start) ==>
                status.Running? && faults == old(faults) && memory == old(memory)
      ensures old(faults) == [] ==> Now() == Reenters(old(Now()), start) && faults == []
    {
      hide Moves, Busy, Sound, Overspent, CanTransition;
      SoundNow();
      PlainIsSound(memory, Changed(memory, start.digest));
      Put(Changed(memory, start.digest));
      if Doubtful(memory.state) || memory.state.PolicyChecking? || memory.state.AgentFailed? {
        SoundNow();
        InvalidatedIsSound(memory);
        Put(Invalidated(memory));
        Go(TerraFixing);
      } else if memory.state.Interrupted? {
        Go(if start.clean then CodexPreflight else TerraFixing);
      }
    }

    /** The assessment turn. */
    method Assess(env: Env)
      requires Busy() && status.Running? && (memory.state.CodexPreflight? || memory.state.TerraAssessing?)
      modifies `durable, `memory, budget, `faults, `status, `calls, `journal, `slipped
      ensures Busy() && Ceiling(limits, budget.usage) == Ceiling(limits, old(budget.usage))
              && !memory.state.ReadyForPublish?
      ensures slipped == old(slipped)
      ensures status.Running? ==> memory.state.TerraImplementing?
      ensures old(faults) == [] ==> Now() == Assesses(limits, old(Now()), env) && faults == []
    {
      hide Consults, Accepts, Busy, Sound, Overspent, MayBegin, CanTransition;
      var work := Consult(env);
      if work.None? {
        return;
      }
      if env.policy.Some? {
        Halt(Raised(env.policy.value));
        return;
      }
      Accept(work.value);
    }

    /** The assessment goes into the receipt, and the run where it leads. */
    method Accept(work: Work)
      requires Busy() && status.Running? && memory.state.TerraAssessing?
      modifies `durable, `memory, budget, `faults, `status, `journal, `slipped
      ensures Busy() && Ceiling(limits, budget.usage) == Ceiling(limits, old(budget.usage))
              && !memory.state.ReadyForPublish?
      ensures slipped == old(slipped)
      ensures status.Running? ==> memory.state.TerraImplementing?
      ensures old(faults) == [] ==> Now() == Accepts(limits, old(Now()), work) && faults == []
    {
      hide Notes, Moves, Hands, Busy, Sound, Overspent, CanTransition;
      Note(work);
      if !status.Running? {
        return;
      }
      if work.progress.Done? {
        Go(TerraImplementing);
      } else {
        HandOver(work.progress);
      }
    }

    /** Write the thread of the assessment, then charge its tokens. */
    method Note(work: Work)
      requires Busy() && status.Running? && memory.state.TerraAssessing?
      modifies `durable, `memory, budget, `faults, `status, `slipped
      ensures Busy() && Ceiling(limits, budget.usage) == Ceiling(limits, old(budget.usage))
      ensures memory.state.TerraAssessing? && slipped == old(slipped)
      ensures status.Running? ==> durable == memory
      ensures !status.Returned?
      ensures old(faults) == [] ==> Now() == Notes(limits, old(Now()), work) && faults == []
    {
      hide Charges, Saves, Busy, Sound, Overspent, CanTransition;
      SoundNow();
      PlainIsSound(memory, Built(memory, work.thread));
      Put(Built(memory, work.thread));
      Keep();
      if status.Running? {
        Artifact();
      }
      if status.Running? {
        Charge(work.tokens, Fine);
      }
    }

    /** Enter TERRA_ASSESSING, reserve the turn, and ask the implementer. */
    method Consult(env: Env) returns (work: Option<Work>)
      requires Busy() && status.Running? && (memory.state.CodexPreflight? || memory.state.TerraAssessing?)
      modifies `durable, `memory, budget, `faults, `status, `calls, `journal
      ensures Busy() && Ceiling(limits, budget.usage) == Ceiling(limits, old(budget.usage))
              && !memory.state.ReadyForPublish?
      ensures status.Running? <==> work.Some?
      ensures work.Some? ==> memory.state.TerraAssessing?
      ensures old(faults) == [] ==> (Now(), work) == Consults(limits, old(Now()), env) && faults == []
    {
      hide Moves, Syncs, Pays, Prompts, Busy, Sound, Overspent, MayBegin;
      work := None;
      if env.aborted {
        Halt(Raised(Aborted));
        return;
      }
      if memory.state.CodexPreflight? {
        Go(TerraAssessing);
      }
      if status.Running? {
        Sync();
      }
      if status.Running? {
        Pay(Assessment, env.elapsed);
      }
      if status.Running? {
        work := Prompt(env.work, env.workAgain, env.elapsed);
      }
    }

    /** The loop, for as many iterations as the environment lets it run. */
    method Loop(envs: seq<Env>)
      requires Busy() && status.Running? && InLoop(memory.state)
      modifies `durable, `memory, budget, `faults, `status, `calls, `journal, `slipped
      ensures Busy() && Harmless() && Ceiling(limits, budget.usage) == Ceiling(limits, old(budget.usage))
      ensures slipped && !old(slipped) ==> SomeReportBreaks(envs)
      ensures old(faults) == [] && |envs| > 0 && Slips(limits, old(memory), old(budget.usage), envs[0]) ==>
                SlippedBy(envs[0], old(memory).spent)
      ensures old(faults) == [] ==> Now() == Loops(limits, required, configured, old(Now()), envs) && faults == []
    {
      hide Iterates, Busy, Sound, Overspent, MayBegin, Slips, Settled;
      var i := 0;
      while status.Running? && InLoop(memory.state) && i < |envs|
        invariant Busy() && i <= |envs| && Harmless()
        invariant Ceiling(limits, budget.usage) == Ceiling(limits, old(budget.usage))
        invariant slipped && !old(slipped) ==> SomeReportBreaks(envs)
        invariant i == 0 ==>
                    status.Running? && memory == old(memory) && budget.usage == old(budget.usage)
                        && faults == old(faults)
        invariant old(faults) == [] ==>
                    && faults == []
                    && Loops(limits, required, configured, Now(), envs[i..]) ==
                       Loops(limits, required, configured, old(Now()), envs)
        invariant i > 0 && old(faults) == [] && Slips(limits, old(memory), old(budget.usage), envs[0]) ==>
                    envs[0].work.Good? && SlippedBy(envs[0], old(memory).spent)
      {
        SlippingWorks(limits, memory, budget.usage, envs[i]);
        Iterate(envs[i]);
        i := i + 1;
      }
    }

    /** A resumed run that goes on: reenter, assess, and loop. */
    method Work(start: Start, envs: seq<Env>)
      requires Busy() && status.Running? && !memory.state.ReadyForPublish?
      modifies `durable, `memory, budget, `faults, `status, `calls, `journal, `slipped
      ensures Busy() && Harmless() && Ceiling(limits, budget.usage) == Ceiling(limits, old(budget.usage))
      ensures slipped && !old(slipped) ==> SomeReportBreaks(envs)
      ensures old(faults) == [] && Matches(old(memory), start) && InLoop(old(memory).state) && envs != []
              && Slips(limits, old(memory), old(budget.usage), envs[0]) ==>
                SlippedBy(envs[0], old(memory).spent)
      ensures old(faults) == [] ==>
                Now() == WorksOn(limits, required, configured, old(Now()), start, envs) && faults == []
    {
      hide Reenters, Assesses, Iterates, Busy, Sound, Overspent, MayBegin, Slips, Settled;
      Reenter(start);
      if status.Running? && (memory.state.CodexPreflight? || memory.state.TerraAssessing?) {
        Assess(start.assess);
      }
      if status.Running? && InLoop(memory.state) {
        Loop(envs);
      }
      if envs != [] {
        SlippingWorks(limits, old(memory), old(budget.usage), envs[0]);
      }
    }

    /** The end of a process: an error is caught, and a loop that is cut off has crashed. */
    method Finish()
      requires Idle() && Harmless()
      modifies `durable, `memory, `faults, `status, `journal, `revived
      ensures Valid() && !status.Running? && durable.turns <= budget.usage.turns
      ensures old(memory).state.ReadyForPublish? ==> memory == old(memory) && journal == old(journal)
      ensures durable == old(durable) || durable == memory
      ensures !old(status).Raised? ==> durable == old(durable) && (!old(status).Running? ==> status == old(status))
      ensures old(status).Raised? && old(faults) == [] ==>
                && durable.state == (if Settled(old(memory).state) then old(memory).state
                                     else TerminalFor(old(status).code))
                && durable.spent == old(memory).spent
                && (!old(status).code.VerifierTimeout? ==> durable == old(memory).(state := durable.state))
      ensures old(faults) == [] ==> Now() == Finishes(old(Now()))
    {
      hide Catches, Sound, Lawful, Overspent, Completed;
      if status.Raised? {
        Catch(status.code);
      } else if status.Running? {
        status := if InLoop(memory.state) then Crashed else Returned;
      }
    }

    /** A new process: the stored receipt, and a budget restored from it. */
    method Boot(schedule: seq<Fault>)
      requires Valid()
      modifies `memory, `budget, `faults, `status
      ensures Valid() && Idle() && fresh(budget) && budget.limits == limits && budget.usage == Restored(durable)
      ensures memory == durable && faults == schedule && status.Running?
      ensures Ceiling(limits, budget.usage) == Most(limits, durable.turns)
    {
      hide Sound, Lawful, Overspent;
      memory, faults, status := durable, schedule, Running;
      budget := new BudgetTracker(limits, Restored(durable));
    }

    /** Resume the stored run, and work on it. */
    method Advance(start: Start, envs: seq<Env>)
      requires Valid() && durable == memory && status.Running? && budget.usage == Restored(memory)
               && budget.limits == limits
      modifies `durable, `memory, budget, `faults, `status, `calls, `journal, `slipped
      ensures Idle() && Harmless() && Ceiling(limits, budget.usage) == Ceiling(limits, old(budget.usage))
      ensures old(durable).state.ReadyForPublish? ==>
                && !status.Running? && memory == old(memory) && durable == old(durable) && journal == old(journal)
                && calls == old(calls)
                && (Matches(old(durable), start) && start.early.None? ==> status == Returned)
      ensures slipped && !old(slipped) ==> SomeReportBreaks(envs)
      ensures start.early.Some? && old(memory).selection == start.selection ==>
                status == Raised(start.early.value) && memory == old(memory) && faults == old(faults)
      ensures old(faults) == [] && SlipsFirst(limits, old(durable), start, envs) ==>
                SlippedBy(envs[0], old(memory).spent)
      ensures old(faults) == [] ==>
                Now() == Advances(limits, required, configured, old(Now()), start, envs) && faults == []
    {
      hide Resumes, WorksOn, Valid, Busy, Idle, Sound, Lawful, Overspent, Completed, Slips, Restored, Ceiling, Plus;
      SlippingFirstWorks(limits, durable, start, envs);
      Resume(start);
      if status.Running? {
        Work(start, envs);
        BusyIsIdle();
      }
    }

    /** Advance the stored run, and end the process. */
    method Proceed(start: Start, envs: seq<Env>)
      requires Valid() && durable == memory && status.Running? && budget.usage == Restored(memory)
               && budget.limits == limits
      modifies `durable, `memory, budget, `faults, `status, `calls, `journal, `slipped, `revived
      ensures Valid() && !status.Running? && durable.turns <= Ceiling(limits, old(budget.usage))
      ensures old(durable).state.ReadyForPublish? ==>
                && durable == old(durable) && calls == old(calls) && journal == old(journal)
                && (Matches(old(durable), start) && start.early.None? ==> status == Returned)
      ensures slipped && !old(slipped) ==> SomeReportBreaks(envs)
      ensures old(faults) == [] && old(durable).state.Failed? && start.early.Some?
              && old(durable).selection == start.selection ==>
                durable == old(durable).(state := TerminalFor(start.early.value))
      ensures old(faults) == [] && SlipsFirst(limits, old(durable), start, envs) ==>
                slipped && durable.state.Failed? && Overspent(limits, durable.spent)
      ensures old(faults) == [] ==>
                Now() == Finishes(Advances(limits, required, configured, old(Now()), start, envs))
    {
      hide Advances, Finishes, Valid, Busy, Idle, Sound, Lawful, Overspent, Completed, Slips, Restored, Ceiling, Plus;
      SlippingFirstWorks(limits, durable, start, envs);
      Advance(start, envs);
      Finish();
      MostIsCeiling(limits, budget.usage);
    }

    /** One process, for as many iterations as the environment lets it run. */
    method Execute(start: Start, envs: seq<Env>, schedule: seq<Fault>)
      requires Valid()
      modifies `durable, `memory, `budget, `faults, `status, `calls, `journal, `slipped, `revived
      ensures Valid() && !status.Running?
      ensures durable.turns <= Most(limits, old(durable).turns)
      ensures old(durable).state.ReadyForPublish? ==>
                durable == old(durable) && calls == old(calls) && journal == old(journal)
      ensures old(durable).state.ReadyForPublish? && Matches(old(durable), start) && start.early.None? ==>
                status == Returned
      ensures slipped && !old(slipped) ==> SomeReportBreaks(envs)
      ensures schedule == [] && old(durable).state.Failed? && start.early.Some?
              && old(durable).selection == start.selection ==>
                durable == old(durable).(state := TerminalFor(start.early.value))
      ensures schedule == [] && SlipsFirst(limits, old(durable), start, envs) ==>
                slipped && durable.state.Failed? && Overspent(limits, durable.spent)
      ensures schedule == [] ==>
                Now() == Executes(limits, required, configured, old(durable), old(calls), old(journal), start, envs)
    {
      hide Executes, Advances, Finishes, Valid, Busy, Idle, Sound, Lawful, Overspent, Completed, Restored, Ceiling,
           SlipsFirst;
      ExecutesIs(limits, required, configured, durable, calls, journal, start, envs);
      Boot(schedule);
      Proceed(start, envs);
    }

    /**
     Any number of processes, one after another, over any number of REVISE rounds: agent turns
     never exceed the turns written, nor those the limit; a READY receipt is always a completed
     one within the token limits; and the journal holds only transitions of the table. Above the token limits
     the run has ended for its budget, unless the file of a report that passed them could not be written:
     then it has FAILED, and stays so until a failing start gives it another state.
     */
    method Run(starts: seq<Start>, envs: seq<seq<Env>>, schedules: seq<seq<Fault>>)
      requires Valid() && |starts| == |envs| == |schedules| && durable.turns <= limits.turns
      modifies `durable, `memory, `budget, `faults, `status, `calls, `journal, `slipped, `revived
      ensures calls <= durable.turns <= limits.turns
      ensures durable.state.ReadyForPublish? ==> Completed(durable) && !Overspent(limits, durable.spent)
      ensures Overspent(limits, durable.spent) ==>
                durable.state.BudgetExhausted? || (slipped && (durable.state.Failed? || revived))
      ensures slipped && !old(slipped) ==> exists k :: 0 <= k < |envs| && SomeReportBreaks(envs[k])
      ensures Lawful(journal)
    {
      hide Completed;
      for k := 0 to |starts|
        invariant Valid() && durable.turns <= limits.turns
        invariant slipped && !old(slipped) ==> exists j :: 0 <= j < |envs| && SomeReportBreaks(envs[j])
      {
        Execute(starts[k], envs[k], schedules[k]);
      }
    }
  }
}
