/**
 driveAutopilotJob of src/orchestration/autopilot-job.ts: the stages, the bounded retries and the
 durable receipt, with every service call, the clock, the abort signal and every write decided
 by the environment. Other drivers may advance the stored receipt at any write.
 */
module AutopilotDriver {
  import opened Prelude
  import opened AutopilotJob

  datatype Failure = Failure(code: string, message: string, retryable: bool)

  const OPERATIONAL := "AUTOPILOT_OPERATIONAL_ERROR"

  /**
   One write of the receipt: it may fail, with or without having taken effect, or be cut off by
   a crash. `Raced` is another driver storing its own sound receipt first.
   */
  datatype Fault = Fails(error: Failure, took: bool) | Crashes(took: bool) | Raced(other: Receipt,
          events: seq<Milestone>) | Fine

  /** Where a Harness execution stopped, unless it became ready. */
  datatype Boundary = Interrupted | Stopped(reason: string)

  datatype Verdict = Unavailable(error: Failure) | Pending | Approves(exact: bool) | RequestsRevision | Closes

  /**
   What one iteration, or the start, meets. `service` is the failure of the stage's service (at the
   start: of the revalidation) or of the exact check on its answer; None is an answer that passed.
   */
  datatype Env = Env(now: Time, abortedFirst: bool, abortedLater: bool, abortedInSleep: bool, delay: nat,
                     faults: seq<Fault>,
                     service: Option<Failure>, boundary: Option<Boundary>,
                     review: Option<Failure>, jobId: string, verdict: Verdict)

  datatype Flow = Continue | Return | Threw(error: Failure) | Crashed

  const INTERRUPTED := "AUTOPILOT was interrupted and can resume from durable service checkpoints."
  const EXHAUSTED := "AUTOPILOT_CYCLE_BUDGET_EXHAUSTED: exceeded the completed orchestration stages."
  const WAITING :=
      "Waiting for the original ChatGPT Web authority to final-review the exact Result Bundle and Draft PR head."
  const READY :=
      "The exact Draft PR head passed deterministic verification, the selected model review " +
      "and the original Web final review."
  const INVALID := Failure("AUTOPILOT_OPERATIONAL_ERROR",
                           "AUTOPILOT_RECEIPT_INVALID: refusing to persist an inconsistent durable state.", false)
  const CONCURRENT := Failure("AUTOPILOT_CONCURRENT_DRIVER",
                              "AUTOPILOT_CONCURRENT_DRIVER: durable state advanced in another process.", false)
  const INEXACT := Failure("AUTOPILOT_WEB_APPROVAL_INCOMPLETE",
                           "Web approval is not bound to the exact freshly attested head.", false)

  function Cut(message: string): string {
    if |message| > MAX_REASON then message[..MAX_REASON] else message
  }

  function Describe(error: Failure): string {
    error.code + ": " + Cut(error.message)
  }

  /** What may be written, as far as the receipt alone does not show it. */
  predicate Honest(r: Receipt, trace: seq<Milestone>) {
    && (!r.status.NeedsYou? ==> AttemptsAtMost(r, MAX_RETRIES))
    && (r.stage.Revise? ==> r.revisions < r.rounds)
    && Needed(r.stage) <= Reached(trace)
  }

  /** Honest whatever the status becomes. */
  predicate Calm(r: Receipt, trace: seq<Milestone>) {
    AttemptsAtMost(r, MAX_RETRIES) && Honest(r, trace)
  }

  function Stamped(r: Receipt, now: Time): Receipt {
    r.(generation := r.generation + 1, updated := now)
  }

  predicate Writable(r: Receipt, now: Time) {
    r.generation < MAX_GENERATION && Valid(Stamped(r, now))
  }

  /** The receipt of a driver that goes on: nothing scheduled, nothing decided. */
  predicate Live(r: Receipt) {
    !r.status.NeedsYou? && !r.stage.Done? && r.retryAt.None? && r.generation >= 1
  }

  /** Work left: completed stages are bounded by the cycle budget, attempts by the retry budget. */
  function Work(maxCycles: nat, cycles: nat, r: Receipt): int {
    (MAX_RETRIES + 2) * (maxCycles - cycles) + (MAX_RETRIES + 1) - Tries(r, r.stage)
  }

  /** Work, and the final review that may still have to be created before the Web can be polled. */
  function Left(maxCycles: nat, cycles: nat, r: Receipt): int {
    2 * Work(maxCycles, cycles, r) + if r.pending.None? then 1 else 0
  }

  /** A poll of a pending final review that has no verdict yet. */
  predicate EmptyPoll(r: Receipt, env: Env) {
    r.stage.WaitWeb? && r.pending.Some? && env.verdict.Pending?
  }

  predicate ReasonFits(error: Failure) {
    |Describe(error)| <= MAX_REASON
  }

  /** A failure whose message fills the whole reason leaves no room for its own code. */
  lemma FullMessageNeverFits(error: Failure)
    requires |error.message| >= MAX_REASON
    ensures !ReasonFits(error)
  {
    assert |Cut(error.message)| == MAX_REASON;
  }

  /** A failure is recorded with its code exactly when code, separator and message fit the reason together. */
  lemma ReasonFitsExactly(error: Failure)
    ensures ReasonFits(error) <==> |error.code| + 2 + |error.message| <= MAX_REASON
  {
    assert |Cut(error.message)| == if |error.message| > MAX_REASON then MAX_REASON else |error.message|;
  }

  predicate FailureFits(error: Failure, env: Env) {
    env.abortedLater || ReasonFits(error)
  }

  /** Whether everything this iteration has to record can be recorded. */
  predicate Recordable(r: Receipt, env: Env) {
    match r.stage
    case Done => true
    case Execute =>
      if env.service.Some? then FailureFits(env.service.value, env)
      else env.boundary.Some? && env.boundary.value.Stopped? ==> |env.boundary.value.reason| <= MAX_REASON
    case Publish | DraftPr | PackageResult => env.service.Some? ==> FailureFits(env.service.value, env)
    case Revise => if env.service.Some? then FailureFits(env.service.value, env) else r.revisions < MAX_REVISIONS
    case WaitWeb =>
      if r.pending.None? && env.review.Some? then FailureFits(env.review.value, env)
      else
        && (r.pending.None? ==> 1 <= |env.jobId| <= MAX_JOB_ID)
        && match env.verdict
           case Unavailable(error) => FailureFits(error, env)
           case Pending => true
           case Approves(_) => r.rounds < MAX_ROUNDS
           case RequestsRevision => r.rounds < MAX_ROUNDS
           case Closes => r.rounds < MAX_ROUNDS
  }

  lemma TraceGrows(r: Receipt, trace: seq<Milestone>, longer: seq<Milestone>)
    requires trace <= longer
    ensures Honest(r, trace) ==> Honest(r, longer)
    ensures Sound(r, trace) ==> Sound(r, longer)
  {
    ReachedGrows(trace, longer[|trace|..]);
    assert longer == trace + longer[|trace|..];
  }

  lemma NextMilestone(trace: seq<Milestone>, m: Milestone)
    requires Reached(trace) >= Rank(m)
    ensures Reached(trace + [m]) >= Rank(m) + 1
  {
    assert (trace + [m])[..|trace|] == trace;
  }

  // ----- The receipts that a failure leads to ----------------------------------------------

  function Pausing(r: Receipt): Receipt {
    r.(status := Paused, reason := Some(INTERRUPTED))
  }

  function Backoff(r: Receipt, stage: Stage, error: Failure, at: Time): Receipt {
    WithTries(r, stage, Tries(r, stage) + 1).(status := WaitingRetry, retryAt := Some(at),
                                              reason := Some(Describe(error)))
  }

  function Resumed(r: Receipt): Receipt {
    r.(retryAt := None, status := Running, reason := None)
  }

  function GiveUp(r: Receipt, stage: Stage, error: Failure): Receipt {
    WithTries(r, stage, Tries(r, stage) + 1).(status := NeedsYou, action := Some(AskUserToIntervene),
                                              reason := Some(Describe(error)))
  }

  /** A receipt that can be stored under any status a failure leads to. */
  predicate Open(r: Receipt, now: Time) {
    && Valid(r.(status := Running)) && r.action.None? && r.retryAt.None? && !r.stage.Done?
    && r.created <= now && AttemptsAtMost(r, MAX_RETRIES)
  }

  lemma PausingIsHonest(r: Receipt, trace: seq<Milestone>)
    requires Calm(r, trace)
    ensures Calm(Pausing(r), trace)
  {
  }

  lemma RetryIsHonest(r: Receipt, trace: seq<Milestone>, stage: Stage, error: Failure, at: Time)
    requires Calm(r, trace)
    ensures Tries(r, stage) < MAX_RETRIES ==> Calm(Backoff(r, stage, error, at), trace)
    ensures Honest(GiveUp(r, stage, error), trace)
  {
  }

  lemma ResumedIsHonest(r: Receipt, trace: seq<Milestone>)
    requires Calm(r, trace)
    ensures Calm(Resumed(r), trace)
  {
  }

  lemma PausingIsWritable(r: Receipt, now: Time)
    requires Open(r, now) && r.generation < MAX_GENERATION
    ensures Writable(Pausing(r), now)
  {
  }

  lemma RetryIsWritable(r: Receipt, stage: Stage, error: Failure, at: Time, now: Time)
    requires Open(r, now) && r.generation < MAX_GENERATION
    ensures Writable(Backoff(r, stage, error, at), now) <==> ReasonFits(error)
    ensures Writable(GiveUp(r, stage, error), now) <==> ReasonFits(error)
  {
    hide Describe;
  }

  lemma StoppableStage(r: Receipt, trace: seq<Milestone>)
    requires Sound(r, trace) && r.status.WaitingRetry?
    ensures !r.stage.Done?
  {
  }

  /** What may follow the stored backoff receipt. */
  lemma BackoffEnds(r: Receipt, stage: Stage, error: Failure, at: Time, now: Time)
    requires Open(r, now) && r.generation + 2 <= MAX_GENERATION && ReasonFits(error) && Tries(r, stage) < MAX_RETRIES
    ensures var b := Stamped(Backoff(r, stage, error, at), now);
            Writable(Pausing(b), now) && Writable(Resumed(b), now)
  {
    hide Describe;
  }

  // ----- The receipts that a success leads to ----------------------------------------------

  predicate Serviced(stage: Stage) {
    stage.Execute? || stage.Publish? || stage.DraftPr? || stage.PackageResult?
  }

  function MilestoneOf(stage: Stage): Milestone
    requires Serviced(stage)
  {
    match stage
    case Execute => Executed
    case Publish => Published
    case DraftPr => Drafted
    case PackageResult => Packaged
  }

  /** The receipt after the service of a stage passed its exact check. */
  function Next(r: Receipt): Receipt
    requires Serviced(r.stage)
  {
    var cleared := WithTries(r, r.stage, 0).(retryAt := None);
    match r.stage
    case Execute => cleared.(stage := Publish, reason := None)
    case Publish => cleared.(stage := DraftPr)
    case DraftPr => cleared.(stage := PackageResult)
    case PackageResult => cleared.(stage := WaitWeb, status := Running, reason := None)
  }

  function Revised(r: Receipt): Receipt {
    WithTries(r, Stage.Revise, 0).(revisions := r.revisions + 1, retryAt := None, stage := WaitWeb, status := Running,
                                   reason := None)
  }

  function Asked(r: Receipt, jobId: string): Receipt {
    r.(pending := Some(jobId), status := WaitingWeb, reason := Some(WAITING))
  }

  function Adopted(r: Receipt): Receipt {
    WithTries(r, WaitWeb, 0).(retryAt := None, pending := None, rounds := r.rounds + 1)
  }

  /** The receipt a verdict leads to, after it was adopted. */
  function Decided(r: Receipt, verdict: Verdict): Receipt
    requires !verdict.Unavailable? && !verdict.Pending?
  {
    match verdict
    case Approves(_) =>
      r.(stage := Done, status := ReadyForYou, action := Some(AskUserToMerge), reason := Some(READY))
    case RequestsRevision => r.(stage := Stage.Revise, status := Running, reason := None)
    case Closes => r.(status := NeedsYou, action := Some(AskUserToIntervene), reason := Some(CLOSED))
  }

  /** executionBoundary. */
  function AtBoundary(r: Receipt, boundary: Boundary): Receipt {
    match boundary
    case Interrupted => r.(retryAt := None, status := Paused, action := None, reason := Some(RESUMABLE))
    case Stopped(reason) => r.(retryAt := None, status := NeedsYou, action := Some(AskUserToIntervene),
                               reason := Some(reason))
  }

  lemma BoundaryIsWritable(r: Receipt, trace: seq<Milestone>, boundary: Boundary, now: Time)
    requires Sound(r, trace) && Live(r) && r.stage.Execute?
    ensures Honest(AtBoundary(r, boundary), trace)
    ensures r.created <= now && r.generation < MAX_GENERATION ==>
              (Writable(AtBoundary(r, boundary), now) <==> (boundary.Stopped? ==> |boundary.reason| <= MAX_REASON))
  {
  }

  const RESUMABLE := "Execution was interrupted and is resumable from the durable Harness receipt."
  const CLOSED := "The original Web final review escalated a consequential decision."

  lemma LiveIsOpen(r: Receipt, trace: seq<Milestone>, now: Time)
    requires Sound(r, trace) && Live(r) && r.created <= now
    ensures Open(r, now) && Calm(r, trace)
  {
  }

  lemma InexactFits()
    ensures ReasonFits(INEXACT)
  {
  }

  lemma LiveFacts(r: Receipt)
    requires Live(r)
    ensures r.retryAt.None? && r.generation >= 1
  {
  }

  function Exhausted(r: Receipt): Receipt {
    r.(retryAt := None, status := NeedsYou, action := Some(AskUserToIntervene), reason := Some(EXHAUSTED))
  }

  lemma StopsAreWritable(r: Receipt, trace: seq<Milestone>, now: Time)
    requires Sound(r, trace) && Live(r)
    ensures Honest(Pausing(r), trace) && Honest(Exhausted(r), trace)
    ensures r.created <= now && r.generation < MAX_GENERATION ==>
              Writable(Pausing(r), now) && Writable(Exhausted(r), now)
  {
  }

  lemma DeadlineIsCalm(r: Receipt, trace: seq<Milestone>)
    requires Sound(r, trace) && !r.status.ReadyForYou? && !r.status.NeedsYou?
    ensures Calm(r, trace) && Calm(r.(status := WaitingRetry), trace) && Honest(r.(status := WaitingRetry), trace)
            && !r.stage.Done?
  {
  }

  lemma CalmIsHonest(r: Receipt, trace: seq<Milestone>)
    requires Calm(r, trace)
    ensures Honest(r, trace)
  {
  }

  lemma WorkIsPositive(maxCycles: nat, cycles: nat, r: Receipt, trace: seq<Milestone>)
    requires Sound(r, trace) && Live(r) && cycles <= maxCycles
    ensures Work(maxCycles, cycles, r) >= 1
  {
    TriesBounded(r, trace, r.stage);
  }

  lemma LiveIsCalm(r: Receipt, trace: seq<Milestone>)
    requires Sound(r, trace) && Live(r)
    ensures Calm(r, trace)
  {
  }

  lemma TriesBounded(r: Receipt, trace: seq<Milestone>, stage: Stage)
    requires Sound(r, trace) && Live(r)
    ensures Tries(r, stage) <= MAX_RETRIES
  {
  }

  lemma NextIsHonest(r: Receipt, trace: seq<Milestone>)
    requires Calm(r, trace) && Serviced(r.stage)
    ensures Honest(Next(r), trace + [MilestoneOf(r.stage)])
  {
    NextMilestone(trace, MilestoneOf(r.stage));
  }

  lemma NextIsWritable(r: Receipt, trace: seq<Milestone>, now: Time)
    requires Sound(r, trace) && Live(r) && r.created <= now && r.generation < MAX_GENERATION && Serviced(r.stage)
    ensures Writable(Next(r), now)
  {
  }

  lemma RevisedIsHonest(r: Receipt, trace: seq<Milestone>, now: Time)
    requires Sound(r, trace) && Live(r) && r.stage.Revise?
    ensures Honest(Revised(r), trace)
    ensures r.created <= now && r.generation < MAX_GENERATION ==>
              (Writable(Revised(r), now) <==> r.revisions < MAX_REVISIONS)
  {
  }

  lemma AskedIsCalm(r: Receipt, trace: seq<Milestone>, jobId: string, now: Time)
    requires Sound(r, trace) && Live(r) && r.stage.WaitWeb?
    ensures Calm(Asked(r, jobId), trace)
    ensures r.created <= now && r.generation < MAX_GENERATION ==>
              (Writable(Asked(r, jobId), now) <==> 1 <= |jobId| <= MAX_JOB_ID)
    ensures r.created <= now && !(1 <= |jobId| <= MAX_JOB_ID) ==> Unstorable(Asked(r, jobId))
  {
  }

  /** A receipt that no status makes storable. */
  predicate Unstorable(r: Receipt) {
    || (r.pending.Some? && !(1 <= |r.pending.value| <= MAX_JOB_ID))
    || r.rounds > MAX_ROUNDS
  }

  lemma UnstorableStays(r: Receipt, stage: Stage, error: Failure, at: Time, now: Time)
    requires Unstorable(r)
    ensures !Writable(r, now)
    ensures !Writable(Pausing(r), now) && !Writable(Backoff(r, stage, error, at), now)
            && !Writable(GiveUp(r, stage, error), now)
  {
  }

  lemma AdoptedIsCalm(r: Receipt, trace: seq<Milestone>, now: Time)
    requires Sound(r, trace) && Live(r) && r.stage.WaitWeb?
    ensures Calm(Adopted(r), trace)
    ensures r.created <= now ==> if r.rounds < MAX_ROUNDS then Open(Adopted(r), now) else Unstorable(Adopted(r))
  {
  }

  lemma DecidedIsCalm(r: Receipt, trace: seq<Milestone>, verdict: Verdict, now: Time)
    requires Sound(r, trace) && Live(r) && r.stage.WaitWeb? && !verdict.Unavailable? && !verdict.Pending?
    ensures Calm(Decided(Adopted(r), verdict), if verdict.Approves? then trace + [Approved] else trace)
    ensures r.created <= now && r.generation < MAX_GENERATION ==>
              if r.rounds < MAX_ROUNDS then Writable(Decided(Adopted(r), verdict), now)
                 else Unstorable(Decided(Adopted(r), verdict))
  {
    NextMilestone(trace, Approved);
  }

  // ----- What one iteration stores, field by field -------------------------------------------------

  /** The receipt after this many writes at this time. */
  function After(r: Receipt, writes: nat, now: Time): Receipt {
    r.(generation := r.generation + writes, updated := now)
  }

  /**
   A failure of a stage: an interrupted run pauses, a retryable failure counts one attempt and waits for its
   deadline, interrupted or not, and any other failure needs the user. A reason that does not fit is not stored.
   */
  ghost predicate Retried(before: Receipt, env: Env, stage: Stage, error: Failure, flow: Flow, after: Receipt) {
    var counted := before.(attempts := before.attempts[stage := Tries(before, stage) + 1]);
    if env.abortedLater then
      flow == Return && after == After(before.(status := Paused, reason := Some(INTERRUPTED)), 1, env.now)
    else if |error.code| + 2 + |error.message| > 8192 then flow == Threw(INVALID)
    else if error.retryable && Tries(before, stage) < 5 then
      if env.abortedInSleep then
        && flow == Return
        && after == After(counted.(status := Paused, retryAt := Some(env.now + env.delay), reason := Some(INTERRUPTED)),
                          2, env.now)
      else
        && flow == Continue
        && after == After(counted.(status := Running, retryAt := None, reason := None), 2, env.now)
    else
      && flow == Return
      && after == After(counted.(status := NeedsYou, action := Some(AskUserToIntervene),
                                 reason := Some(error.code + ": " + error.message)), 1, env.now)
  }

  /** An execution that stopped pauses when it was interrupted, and needs the user otherwise. */
  ghost predicate Stood(before: Receipt, boundary: Boundary, now: Time, flow: Flow, after: Receipt) {
    match boundary
    case Interrupted =>
      flow == Return && after == After(before.(status := Paused, reason := Some(RESUMABLE)), 1, now)
    case Stopped(reason) =>
      if |reason| > 8192 then flow == Threw(INVALID)
      else
        && flow == Return
        && after == After(before.(status := NeedsYou, action := Some(AskUserToIntervene), reason := Some(reason)), 1,
                          now)
  }

  /**
   A verdict on the pending review: an exact approval ends the run READY_FOR_YOU at DONE, for the user to merge; an
   inexact one is a failure of the stage; a requested revision goes on at REVISE; a closed review needs the user.
   */
  ghost predicate Judged(asked: Receipt, env: Env, flow: Flow, after: Receipt) {
    var adopted := asked.(pending := None, rounds := asked.rounds + 1, attempts := asked.attempts[WaitWeb := 0]);
    match env.verdict
    case Unavailable(error) => Retried(asked, env, WaitWeb, error, flow, after)
    case Pending => flow == Continue && after == asked
    case Approves(exact) =>
      if asked.rounds >= 4 then flow == Threw(INVALID)
      else if exact then
        && flow == Return
        && after == After(adopted.(stage := Done, status := ReadyForYou, action := Some(AskUserToMerge),
                                   reason := Some(READY)), 1, env.now)
      else if env.abortedLater then
        flow == Return && after == After(adopted.(status := Paused, reason := Some(INTERRUPTED)), 1, env.now)
      else
        && flow == Return
        && after == After(adopted.(attempts := adopted.attempts[WaitWeb := 1], status := NeedsYou,
                                   action := Some(AskUserToIntervene),
                                   reason := Some(INEXACT.code + ": " + INEXACT.message)), 1, env.now)
    case RequestsRevision =>
      if asked.rounds >= 4 then flow == Threw(INVALID)
      else
        && flow == Continue
        && after == After(adopted.(stage := Stage.Revise, status := Running, reason := None), 1, env.now)
    case Closes =>
      if asked.rounds >= 4 then flow == Threw(INVALID)
      else
        && flow == Return
        && after == After(adopted.(status := NeedsYou, action := Some(AskUserToIntervene), reason := Some(CLOSED)), 1,
                          env.now)
  }

  /** The receipt that waits for the final review, created by this iteration unless it was pending. */
  function Waiting(before: Receipt, env: Env): Receipt {
    if before.pending.Some? then before
    else After(before.(pending := Some(env.jobId), status := WaitingWeb, reason := Some(WAITING)), 1, env.now)
  }

  /** What one iteration of a driver that nobody disturbs stores, by the stage it starts in. */
  ghost predicate Told(before: Receipt, env: Env, flow: Flow, after: Receipt) {
    var cleared := before.(attempts := before.attempts[before.stage := 0]);
    match before.stage
    case Execute =>
      if env.service.Some? then Retried(before, env, Execute, env.service.value, flow, after)
      else if env.boundary.Some? then Stood(before, env.boundary.value, env.now, flow, after)
      else flow == Continue && after == After(cleared.(stage := Publish, reason := None), 1, env.now)
    case Publish =>
      if env.service.Some? then Retried(before, env, Publish, env.service.value, flow, after)
      else flow == Continue && after == After(cleared.(stage := DraftPr), 1, env.now)
    case DraftPr =>
      if env.service.Some? then Retried(before, env, DraftPr, env.service.value, flow, after)
      else flow == Continue && after == After(cleared.(stage := PackageResult), 1, env.now)
    case PackageResult =>
      if env.service.Some? then Retried(before, env, PackageResult, env.service.value, flow, after)
      else flow == Continue && after == After(cleared.(stage := WaitWeb, status := Running, reason := None), 1, env.now)
    case WaitWeb =>
      if before.pending.None? && env.review.Some? then Retried(before, env, WaitWeb, env.review.value, flow, after)
      else if before.pending.None? && !(1 <= |env.jobId| <= 4096) then flow == Threw(INVALID)
      else Judged(Waiting(before, env), env, flow, after)
    case Revise =>
      if env.service.Some? then Retried(before, env, Stage.Revise, env.service.value, flow, after)
      else if before.revisions >= 3 then flow == Threw(INVALID)
      else
        && flow == Continue
        && after == After(cleared.(stage := WaitWeb, status := Running, reason := None,
                                   revisions := before.revisions + 1), 1, env.now)
    case Done => true
  }

  /** How many iterations find no verdict to adopt. */
  function Polls(envs: seq<Env>): nat {
    if envs == [] then 0 else Polls(envs[..|envs| - 1]) + if envs[|envs| - 1].verdict.Pending? then 1 else 0
  }

  lemma PollsStep(envs: seq<Env>, i: nat)
    requires i < |envs|
    ensures Polls(envs[..i + 1]) == Polls(envs[..i]) + if envs[i].verdict.Pending? then 1 else 0
  {
    assert envs[..i + 1][..i] == envs[..i];
  }

  /** How many stages an iteration completes: a service that passed, a verdict that was adopted, a revision. */
  function Completed(before: Receipt, env: Env): nat {
    match before.stage
    case Execute => if env.service.None? && env.boundary.None? then 1 else 0
    case Publish | DraftPr | PackageResult | Revise => if env.service.None? then 1 else 0
    case WaitWeb =>
      if before.pending.None? && env.review.Some? then 0
      else if env.verdict.Unavailable? || env.verdict.Pending? then 0 else 1
    case Done => 0
  }

  /** A persisted deadline is waited for, if it has not passed, and then cleared, or kept by an interruption. */
  ghost predicate Honored(before: Receipt, env: Env, flow: Flow, after: Receipt) {
    if before.retryAt == None then flow == Continue && after == before
    else
      var held := if before.retryAt.value > env.now then After(before.(status := WaitingRetry), 1, env.now) else before;
      if env.abortedInSleep then
        flow == Return && after == After(held.(status := Paused, reason := Some(INTERRUPTED)), 1, env.now)
      else
        flow == Continue && after == After(held.(status := Running, retryAt := None, reason := None), 1, env.now)
  }

  lemma DeadlineIsWritable(r: Receipt, trace: seq<Milestone>, now: Time)
    requires Sound(r, trace) && !r.status.ReadyForYou? && !r.status.NeedsYou? && r.retryAt.Some?
    requires r.created <= now && r.generation + 2 <= MAX_GENERATION
    ensures Writable(r.(status := WaitingRetry), now) && Writable(Pausing(r), now) && Writable(Resumed(r), now)
    ensures var held := Stamped(r.(status := WaitingRetry), now);
            Writable(Pausing(held), now) && Writable(Resumed(held), now)
  {
  }

  lemma UndecidedIsJudged(asked: Receipt, env: Env, flow: Flow, after: Receipt)
    requires env.verdict.Pending? || env.verdict.Unavailable?
    requires if env.verdict.Pending? then flow == Continue && after == asked
             else Retried(asked, env, WaitWeb, env.verdict.error, flow, after)
    ensures Judged(asked, env, flow, after)
  {
  }

  lemma DescribeFits(error: Failure)
    ensures ReasonFits(error) ==> Describe(error) == error.code + ": " + error.message
    ensures ReasonFits(error) <==> |error.code| + 2 + |error.message| <= 8192
  {
    ReasonFitsExactly(error);
    assert ReasonFits(error) ==> Cut(error.message) == error.message;
  }

  /** The receipt that is stored when its backoff was slept through, or interrupted. */
  function Slept(before: Receipt, env: Env, stage: Stage, error: Failure): Receipt {
    var slept := Stamped(Backoff(before, stage, error, env.now + env.delay), env.now);
    if env.abortedInSleep then Pausing(slept) else Resumed(slept)
  }

  lemma SleptIsRetried(before: Receipt, env: Env, stage: Stage, error: Failure, flow: Flow)
    requires !env.abortedLater && error.retryable && Tries(before, stage) < MAX_RETRIES && ReasonFits(error)
    requires flow == if env.abortedInSleep then Return else Continue
    ensures Retried(before, env, stage, error, flow, After(Slept(before, env, stage, error), 1, env.now))
  {
    DescribeFits(error);
  }

  lemma CalmAgain(r: Receipt, now: Time, trace: seq<Milestone>, longer: seq<Milestone>)
    requires Calm(r, trace) && trace <= longer
    ensures Calm(Stamped(r, now), longer)
  {
    TraceGrows(r, trace, longer);
  }

  lemma SameTries(r: Receipt, other: Receipt, stage: Stage)
    ensures r.attempts == other.attempts ==> Tries(r, stage) == Tries(other, stage)
  {
  }

  lemma UnfitIsRetried(before: Receipt, env: Env, stage: Stage, error: Failure, after: Receipt)
    requires !env.abortedLater && !ReasonFits(error)
    ensures Retried(before, env, stage, error, Threw(INVALID), after)
  {
    DescribeFits(error);
  }

  lemma BackoffKeeps(r: Receipt, stage: Stage, error: Failure, at: Time)
    ensures var b := Backoff(r, stage, error, at);
            && b.stage == r.stage && b.generation == r.generation && Tries(b, stage) == Tries(r, stage) + 1
            && b.status == WaitingRetry
  {
  }

  // ----- A run without trouble -----------------------------------------------------------------

  /** Every service passes, and the final reviews ask for this many revisions before they approve the exact head. */
  ghost predicate Smooth(start: Env, envs: seq<Env>, revisions: nat) {
    && revisions <= 3 && 5 + 2 * revisions <= |envs| && start.faults == []
    && forall i :: 0 <= i < 5 + 2 * revisions ==>
         var env := envs[i];
         && env.faults == [] && !env.abortedFirst && env.service == None && env.boundary == None && env.review == None
         && 1 <= |env.jobId| <= 4096 && start.now <= env.now
         && env.verdict == if i < 4 + 2 * revisions then RequestsRevision else Approves(true)
  }

  /** The stage of such a run before its i-th iteration. */
  function StageAt(i: nat): Stage {
    if i == 0 then Execute else if i == 1 then Publish else if i == 2 then DraftPr else if i == 3 then PackageResult
    else if i % 2 == 0 then WaitWeb else Stage.Revise
  }

  ghost predicate OnCourse(r: Receipt, created: Time, i: nat) {
    && r.stage == StageAt(i) && r.pending == None && r.created == created
    && r.generation <= 1 + 2 * i
    && r.rounds == (if i < 4 then 0 else (i - 3) / 2) && r.revisions == if i < 4 then 0 else (i - 4) / 2
  }

  ghost predicate Arrived(r: Receipt, revisions: nat) {
    && r.stage == Done && r.status == ReadyForYou && r.action == Some(AskUserToMerge) && r.pending == None
    && r.rounds == revisions + 1 && r.revisions == revisions
  }

  lemma ReadyReached(r: Receipt, trace: seq<Milestone>)
    requires Sound(r, trace) && r.status.ReadyForYou?
    ensures Reached(trace) == 5
  {
  }

  lemma SmoothStart(start: Env, envs: seq<Env>, revisions: nat)
    requires Smooth(start, envs, revisions)
    ensures start.faults == [] && 5 + 2 * revisions <= |envs|
    ensures OnCourse(Stamped(Initial(start.now), start.now), start.now, 0)
  {
  }

  lemma SmoothEnv(start: Env, envs: seq<Env>, revisions: nat, i: nat, r: Receipt)
    requires Smooth(start, envs, revisions) && i < 5 + 2 * revisions && OnCourse(r, start.now, i)
    ensures i < |envs| && envs[i].faults == [] && !envs[i].abortedFirst
    ensures r.created <= envs[i].now && r.generation + 4 <= MAX_GENERATION
  {
  }

  lemma StaysOnCourse(start: Env, envs: seq<Env>, revisions: nat, i: nat, r: Receipt, flow: Flow, after: Receipt)
    requires Smooth(start, envs, revisions) && i < 5 + 2 * revisions && OnCourse(r, start.now, i)
    requires Told(r, envs[i], flow, after)
    ensures if i + 1 < 5 + 2 * revisions then flow == Continue && OnCourse(after, start.now, i + 1)
            else flow == Return && Arrived(after, revisions)
    ensures Completed(r, envs[i]) == 1
  {
  }

  class Driver {
    const maxCycles: nat
    var store: Option<Receipt>
    var receipt: Receipt
    var cycles: nat
    var faults: seq<Fault>
    /** The exact checks that have passed in this run, by any driver. */
    var trace: seq<Milestone>

    constructor (store: Option<Receipt>, trace: seq<Milestone>, maxCycles: int)
      requires store.Some? ==> store.value.generation >= 1 && Sound(store.value, trace)
      ensures Durable() && this.store == store && this.trace == trace
      ensures 1 <= maxCycles <= 128 ==> this.maxCycles == maxCycles
      ensures maxCycles < 1 ==> this.maxCycles == 1
      ensures maxCycles > 128 ==> this.maxCycles == 128
    {
      this.store, this.trace := store, trace;
      this.maxCycles := if maxCycles < 1 then 1 else if maxCycles > 128 then 128 else maxCycles;
      this.receipt, this.cycles, this.faults := Initial(0), 0, [];
    }

    /** The stored receipt is sound, whoever wrote it. */
    ghost predicate Durable()
      reads this
    {
      store.Some? ==> store.value.generation >= 1 && Sound(store.value, trace)
    }

    /** This driver holds the stored receipt, or one that another driver has replaced. */
    ghost predicate Current()
      reads this
    {
      store.Some? && receipt.generation <= store.value.generation
    }

    /** Between iterations. */
    ghost predicate Steady()
      reads this
    {
      Durable() && Current() && Sound(receipt, trace) && Live(receipt) && cycles <= maxCycles
    }

    /** No other driver has stored a newer receipt, and nothing fails from here on. */
    ghost predicate Holds()
      reads this
    {
      store.Some? && store.value.generation == receipt.generation && faults == []
    }

    /** Without faults an iteration ends as expected: stored, or refused as unrecordable. */
    ghost predicate Expected(flow: Flow, recordable: bool)
      reads this
    {
      if recordable then (flow.Continue? || flow.Return?) && (flow.Continue? ==> Holds()) else flow == Threw(INVALID)
    }

    /** An exact check has passed. */
    method Advance(m: Milestone)
      requires Durable()
      modifies `trace, `cycles
      ensures Durable() && trace == old(trace) + [m] && cycles == old(cycles) + 1
    {
      if store.Some? {
        TraceGrows(store.value, trace, trace + [m]);
      }
      trace, cycles := trace + [m], cycles + 1;
    }

    /** The next scheduled fault. */
    method Take() returns (fault: Fault)
      modifies `faults
      ensures old(faults) == [] ==> fault.Fine? && faults == []
      ensures fault == if old(faults) == [] then Fine else old(faults)[0]
      ensures faults == if old(faults) == [] then [] else old(faults)[1..]
    {
      fault := if faults == [] then Fine else faults[0];
      faults := if faults == [] then [] else faults[1..];
    }

    /** persist: Continue when the receipt is stored. */
    method Persist(now: Time) returns (flow: Flow)
      requires Durable() && Honest(receipt, trace)
      requires store.Some? ==> receipt.generation <= store.value.generation
      requires store.None? ==> receipt.generation == 0
      modifies `store, `receipt, `faults, `trace
      ensures Durable() && old(trace) <= trace && Honest(receipt, trace) && !flow.Return?
      ensures store.Some? ==> receipt.generation <= store.value.generation
      ensures flow.Continue? ==>
                receipt == Stamped(old(receipt), now) && store == Some(receipt) && Writable(old(receipt), now)
                    && Sound(receipt, trace)
      ensures !flow.Continue? ==> receipt == old(receipt)
      ensures !flow.Continue? && store.None? ==> receipt.generation == 0
      ensures old(faults) == [] && (old(store).Some? ==> old(store).value.generation == old(receipt).generation) ==>
                faults == [] && trace == old(trace)
                    && flow == (if Writable(old(receipt), now) then Continue else Threw(INVALID))
      ensures old(faults) == [] && !flow.Continue? ==> store == old(store)
      ensures old(store).Some? ==> store.Some?
      ensures old(faults) != [] && old(store).Some? && old(store).value.generation == old(receipt).generation
              && Writable(old(receipt), now) ==>
                var next := Stamped(old(receipt), now);
                match old(faults)[0]
                case Fine => flow == Continue && store == Some(next) && faults == old(faults)[1..]
                case Fails(error, took) => flow == Threw(error) && store == if took then Some(next) else old(store)
                case Crashes(took) => flow == Crashed && store == if took then Some(next) else old(store)
                case Raced(other, events) =>
                  old(store).value.generation < other.generation && Sound(other, old(trace) + events) ==>
                    flow == Threw(CONCURRENT) && store == Some(other)
    {
      var fault := Take();
      if fault.Raced? && store.Some? && fault.other.generation > store.value.generation
         && Sound(fault.other, trace + fault.events) {
        TraceGrows(receipt, trace, trace + fault.events);
        store, trace := Some(fault.other), trace + fault.events;
      }
      if store.Some? && store.value.generation != receipt.generation {
        return Threw(CONCURRENT);
      }
      var next := Stamped(receipt, now);
      if receipt.generation >= MAX_GENERATION || !Valid(next) {
        return Threw(INVALID);
      }
      assert Sound(next, trace);
      if fault.Crashes? || fault.Fails? {
        if fault.took {
          store := Some(next);
        }
        return if fault.Crashes? then Crashed else Threw(fault.error);
      }
      store := Some(next);
      receipt := next;
      flow := Continue;
    }

    /** What a step that ends an iteration guarantees. */
    ghost predicate Ended(flow: Flow, before: seq<Milestone>)
      reads this
    {
      && Durable() && before <= trace
      && (flow.Continue? ==> Steady())
      && (flow.Return? ==> store.Some?)
    }

    /** Store a receipt that stops the driver. */
    method Stop(next: Receipt, now: Time) returns (flow: Flow)
      requires Durable() && Current() && Honest(next, trace) && next.generation == receipt.generation
      modifies `store, `receipt, `faults, `trace
      ensures Ended(flow, old(trace)) && !flow.Continue?
      ensures flow.Return? ==> store == Some(After(next, 1, now))
      ensures store.Some?
      ensures old(Holds()) ==> flow == (if Writable(next, now) then Return else Threw(INVALID))
      ensures old(faults) == [Crashes(false)] && old(store).Some?
              && old(store).value.generation == old(receipt).generation && Writable(next, now) ==>
                flow == Crashed && store == old(store)
    {
      hide Honest, Valid, Sound, Writable;
      receipt := next;
      flow := Persist(now);
      if flow.Continue? {
        flow := Return;
      }
    }

    /** Store a receipt to go on with. */
    method GoOn(next: Receipt, now: Time) returns (flow: Flow)
      requires Durable() && Current() && Honest(next, trace) && next.generation == receipt.generation
      requires !next.status.NeedsYou? && !next.stage.Done? && next.retryAt.None? && cycles <= maxCycles
      modifies `store, `receipt, `faults, `trace
      ensures Ended(flow, old(trace)) && !flow.Return?
      ensures flow.Continue? ==> receipt == Stamped(next, now) && store == Some(receipt)
      ensures store.Some?
      ensures old(Holds()) ==>
                flow == (if Writable(next, now) then Continue else Threw(INVALID)) && (flow.Continue? ==> Holds())
      ensures old(faults) == [Crashes(false)] && old(store).Some?
              && old(store).value.generation == old(receipt).generation && Writable(next, now) ==>
                flow == Crashed && store == old(store)
    {
      hide Honest, Valid, Sound, Writable;
      receipt := next;
      flow := Persist(now);
    }

    /** retryOrStop: Continue when the stage may be tried again. */
    method RetryOrStop(env: Env, stage: Stage, error: Failure) returns (flow: Flow)
      requires Durable() && Current() && Calm(receipt, trace) && cycles <= maxCycles
      requires receipt.retryAt.None? && receipt.generation >= 1
      modifies `store, `receipt, `faults, `trace
      ensures store.Some?
      ensures Ended(flow, old(trace))
      ensures flow.Continue? ==>
                receipt.stage == old(receipt).stage && Tries(receipt, stage) == Tries(old(receipt), stage) + 1
      ensures old(Holds()) && Open(old(receipt), env.now) && old(receipt).generation + 2 <= MAX_GENERATION ==>
                && store.Some? && Retried(old(receipt), env, stage, error, flow, store.value)
                && (flow.Continue? ==> store == Some(receipt) && faults == [])
      ensures old(Holds()) && Open(old(receipt), env.now) && old(receipt).generation + 2 <= MAX_GENERATION ==>
                if FailureFits(error, env) then (flow.Continue? || flow.Return?) && (flow.Continue? ==> Holds())
                else flow == Threw(INVALID)
      ensures old(Holds()) && Unstorable(old(receipt)) ==> flow == Threw(INVALID)
    {
      hide Valid, Sound, AttemptsAtMost, Describe, Writable, Open, ReasonFits;
      DescribeFits(error);
      if Unstorable(receipt) {
        UnstorableStays(receipt, stage, error, env.now + env.delay, env.now);
      }
      if env.abortedLater {
        PausingIsHonest(receipt, trace);
        if Open(receipt, env.now) && receipt.generation < MAX_GENERATION {
          PausingIsWritable(receipt, env.now);
        }
        flow := Stop(Pausing(receipt), env.now);
        return;
      }
      var at := env.now + env.delay;
      RetryIsHonest(receipt, trace, stage, error, at);
      if Open(receipt, env.now) && receipt.generation < MAX_GENERATION {
        RetryIsWritable(receipt, stage, error, at, env.now);
      }
      if error.retryable && Tries(receipt, stage) + 1 <= MAX_RETRIES {
        flow := Sleep(env, stage, error, at);
      } else {
        flow := Stop(GiveUp(receipt, stage, error), env.now);
      }
    }

    /** Store the deadline, sleep, and go on unless interrupted. */
    method Sleep(env: Env, stage: Stage, error: Failure, at: Time) returns (flow: Flow)
      requires Durable() && Current() && Calm(receipt, trace) && cycles <= maxCycles
      requires receipt.retryAt.None? && receipt.generation >= 1 && Tries(receipt, stage) < MAX_RETRIES
      requires Calm(Backoff(receipt, stage, error, at), trace)
      requires at == env.now + env.delay && !env.abortedLater && error.retryable
      modifies `store, `receipt, `faults, `trace
      ensures store.Some?
      ensures Ended(flow, old(trace))
      ensures flow.Continue? ==>
                receipt.stage == old(receipt).stage && Tries(receipt, stage) == Tries(old(receipt), stage) + 1
      ensures old(Holds()) && Open(old(receipt), env.now) && old(receipt).generation + 2 <= MAX_GENERATION ==>
                if ReasonFits(error) then flow.Continue? || flow.Return? else flow == Threw(INVALID)
      ensures old(Holds()) && Open(old(receipt), env.now) && old(receipt).generation + 2 <= MAX_GENERATION ==>
                && store.Some? && Retried(old(receipt), env, stage, error, flow, store.value)
                && (flow.Continue? ==> store == Some(receipt) && Holds())
      ensures old(Holds()) && Unstorable(old(receipt)) ==> flow == Threw(INVALID)
    {
      hide Valid, Sound, AttemptsAtMost, Describe, Writable, Open, ReasonFits, Retried, Unstorable, Honest, Calm,
           Backoff, Resumed, Pausing, Tries, Stamped, Live;
      ghost var before := receipt;
      BackoffKeeps(receipt, stage, error, at);
      if Open(receipt, env.now) && receipt.generation + 2 <= MAX_GENERATION && ReasonFits(error) {
        BackoffEnds(receipt, stage, error, at, env.now);
      }
      flow := Schedule(env, stage, error, at);
      if flow.Continue? {
        flow := Wake(env);
        SameTries(receipt, Backoff(before, stage, error, at), stage);
        if flow == (if env.abortedInSleep then Return else Continue) && ReasonFits(error) {
          SleptIsRetried(before, env, stage, error, flow);
        }
      } else if !ReasonFits(error) && store.Some? {
        UnfitIsRetried(before, env, stage, error, store.value);
      }
    }

    /** Store the deadline of a retry. */
    method Schedule(env: Env, stage: Stage, error: Failure, at: Time) returns (flow: Flow)
      requires Durable() && Current() && Calm(Backoff(receipt, stage, error, at), trace)
      modifies `store, `receipt, `faults, `trace
      ensures store.Some?
      ensures Durable() && Current() && old(trace) <= trace && !flow.Return?
      ensures flow.Continue? ==>
                && receipt == Stamped(Backoff(old(receipt), stage, error, at), env.now) && Calm(receipt, trace)
                && receipt.stage == old(receipt).stage && !receipt.stage.Done? && !receipt.status.NeedsYou?
                && receipt.attempts == Backoff(old(receipt), stage, error, at).attempts
      ensures old(Holds()) ==> (flow == Continue && Holds()) || flow == Threw(INVALID)
      ensures old(Holds()) && Open(old(receipt), env.now) && old(receipt).generation < MAX_GENERATION ==>
                (flow.Continue? <==> ReasonFits(error))
      ensures old(Holds()) && Unstorable(old(receipt)) ==> flow == Threw(INVALID)
    {
      if Open(receipt, env.now) && receipt.generation < MAX_GENERATION {
        RetryIsWritable(receipt, stage, error, at, env.now);
      }
      if Unstorable(receipt) {
        UnstorableStays(receipt, stage, error, at, env.now);
      }
      ghost var next, began := Backoff(receipt, stage, error, at), trace;
      CalmIsHonest(next, trace);
      BackoffKeeps(receipt, stage, error, at);
      hide Valid, Sound, AttemptsAtMost, Describe, Writable, Open, ReasonFits, Unstorable, Honest, Calm, Backoff, Tries;
      receipt := Backoff(receipt, stage, error, at);
      flow := Persist(env.now);
      if flow.Continue? {
        CalmAgain(next, env.now, began, trace);
        StoppableStage(receipt, trace);
      }
    }

    /** After the deadline, or the interruption of its sleep. */
    method Wake(env: Env) returns (flow: Flow)
      requires Durable() && Current() && Calm(receipt, trace) && cycles <= maxCycles
      requires !receipt.status.NeedsYou? && !receipt.stage.Done?
      modifies `store, `receipt, `faults, `trace
      ensures Ended(flow, old(trace)) && store.Some?
      ensures flow.Continue? ==> receipt.stage == old(receipt).stage && receipt.attempts == old(receipt).attempts
      ensures old(Holds()) ==>
                var next := if env.abortedInSleep then Pausing(old(receipt)) else Resumed(old(receipt));
                && flow == (if !Writable(next, env.now) then Threw(INVALID)
                            else if env.abortedInSleep then Return else Continue)
                && (flow.Continue? ==> Holds() && store == Some(receipt))
                && (!flow.Threw? ==> store == Some(After(next, 1, env.now)))
      ensures old(faults) == [Crashes(false)] && old(store).Some?
              && old(store).value.generation == old(receipt).generation
              && Writable(if env.abortedInSleep then Pausing(old(receipt)) else Resumed(old(receipt)), env.now) ==>
                flow == Crashed && store == old(store)
    {
      hide Valid, Sound, AttemptsAtMost, Writable;
      PausingIsHonest(receipt, trace);
      ResumedIsHonest(receipt, trace);
      CalmIsHonest(Pausing(receipt), trace);
      CalmIsHonest(Resumed(receipt), trace);
      hide Calm, Honest;
      if env.abortedInSleep {
        flow := Stop(Pausing(receipt), env.now);
      } else {
        flow := GoOn(Resumed(receipt), env.now);
      }
    }

    /** A service stage: retry, stop at the boundary of an execution, or pass to the next stage. */
    method Serve(env: Env) returns (flow: Flow)
      requires Steady() && cycles < maxCycles && Serviced(receipt.stage)
      modifies `store, `receipt, `faults, `trace, `cycles
      ensures cycles == old(cycles) + Completed(old(receipt), env)
      ensures store.Some?
      ensures Ended(flow, old(trace))
      ensures flow.Continue? ==> Work(maxCycles, cycles, receipt) < Work(maxCycles, old(cycles), old(receipt))
      ensures old(Holds()) && old(receipt).generation + 3 <= MAX_GENERATION && old(receipt).created <= env.now ==>
                Expected(flow, Recordable(old(receipt), env))
      ensures old(Holds()) && old(receipt).generation + 3 <= MAX_GENERATION && old(receipt).created <= env.now ==>
                && store.Some? && Told(old(receipt), env, flow, store.value)
                && (flow.Continue? ==> store == Some(receipt) && faults == [])
    {
      hide Valid, Sound, Honest, AttemptsAtMost, Writable, Open, Describe;
      TriesBounded(receipt, trace, receipt.stage);
      if receipt.created <= env.now {
        LiveIsOpen(receipt, trace, env.now);
      }
      LiveIsCalm(receipt, trace);
      if env.service.Some? {
        flow := RetryOrStop(env, receipt.stage, env.service.value);
      } else if receipt.stage.Execute? && env.boundary.Some? {
        BoundaryIsWritable(receipt, trace, env.boundary.value, env.now);
        flow := Stop(AtBoundary(receipt, env.boundary.value), env.now);
      } else {
        var next := Next(receipt);
        NextIsHonest(receipt, trace);
        if receipt.created <= env.now && receipt.generation < MAX_GENERATION {
          NextIsWritable(receipt, trace, env.now);
        }
        Advance(MilestoneOf(receipt.stage));
        flow := GoOn(next, env.now);
      }
    }

    /** The REVISE stage. */
    method ReviseOnce(env: Env) returns (flow: Flow)
      requires Steady() && cycles < maxCycles && receipt.stage.Revise?
      modifies `store, `receipt, `faults, `trace, `cycles
      ensures cycles == old(cycles) + Completed(old(receipt), env)
      ensures store.Some?
      ensures Ended(flow, old(trace))
      ensures flow.Continue? ==> Work(maxCycles, cycles, receipt) < Work(maxCycles, old(cycles), old(receipt))
      ensures old(Holds()) && old(receipt).generation + 3 <= MAX_GENERATION && old(receipt).created <= env.now ==>
                Expected(flow, Recordable(old(receipt), env))
      ensures old(Holds()) && old(receipt).generation + 3 <= MAX_GENERATION && old(receipt).created <= env.now ==>
                && store.Some? && Told(old(receipt), env, flow, store.value)
                && (flow.Continue? ==> store == Some(receipt) && faults == [])
    {
      hide Valid, Sound, Honest, AttemptsAtMost, Writable, Open, Describe;
      TriesBounded(receipt, trace, receipt.stage);
      LiveIsCalm(receipt, trace);
      if receipt.created <= env.now {
        LiveIsOpen(receipt, trace, env.now);
      }
      if env.service.Some? {
        flow := RetryOrStop(env, receipt.stage, env.service.value);
      } else {
        RevisedIsHonest(receipt, trace, env.now);
        cycles := cycles + 1;
        flow := GoOn(Revised(receipt), env.now);
      }
    }

    /** A write inside the try block of the WAIT_WEB stage: a failure is retried or stops the run. */
    method PersistOrRetry(env: Env, next: Receipt) returns (flow: Flow, stored: bool)
      requires Durable() && Current() && Calm(next, trace) && next.generation == receipt.generation >= 1
      requires next.retryAt.None? && cycles <= maxCycles
      modifies `store, `receipt, `faults, `trace
      ensures store.Some?
      ensures Durable() && old(trace) <= trace
      ensures stored ==> flow.Continue? && receipt == Stamped(next, env.now) && Current() && Sound(receipt, trace)
      ensures stored ==> store == Some(receipt)
      ensures flow.Continue? && !stored ==>
                Steady() && receipt.stage == next.stage && Tries(receipt, WaitWeb) == Tries(next, WaitWeb) + 1
      ensures flow.Return? ==> store.Some?
      ensures old(Holds()) && Writable(next, env.now) ==> stored && Holds()
      ensures old(Holds()) && Unstorable(next) ==> flow == Threw(INVALID)
    {
      hide Valid, Sound, AttemptsAtMost, Open, Describe;
      if Unstorable(next) {
        UnstorableStays(next, WaitWeb, INVALID, env.now, env.now);
      }
      receipt := next;
      flow := Persist(env.now);
      stored := flow.Continue?;
      if flow.Threw? {
        flow := RetryOrStop(env, WaitWeb, flow.error);
      }
    }

    /** The WAIT_WEB stage. */
    method AwaitVerdict(env: Env) returns (flow: Flow)
      requires Steady() && cycles < maxCycles && receipt.stage.WaitWeb?
      modifies `store, `receipt, `faults, `trace, `cycles
      ensures old(Holds()) && old(receipt).generation + 4 <= MAX_GENERATION && old(receipt).created <= env.now ==>
                flow.Threw? || cycles == old(cycles) + Completed(old(receipt), env)
      ensures store.Some?
      ensures Ended(flow, old(trace))
      ensures flow.Continue? && !EmptyPoll(old(receipt), env) ==>
                Left(maxCycles, cycles, receipt) < Left(maxCycles, old(cycles), old(receipt))
      ensures flow.Continue? && EmptyPoll(old(receipt), env) ==> receipt == old(receipt) && cycles == old(cycles)
      ensures old(Holds()) && old(receipt).generation + 4 <= MAX_GENERATION && old(receipt).created <= env.now ==>
                Expected(flow, Recordable(old(receipt), env))
      ensures old(Holds()) && old(store) == Some(old(receipt)) && old(receipt).generation + 4 <= MAX_GENERATION
                && old(receipt).created <= env.now ==>
                && store.Some? && Told(old(receipt), env, flow, store.value)
                && (flow.Continue? ==> store == Some(receipt) && faults == [])
    {
      hide Valid, Sound, Honest, AttemptsAtMost, Writable, Open, Describe, Live, Calm, Retried, Judged, Stood;
      var asked;
      flow, asked := Ask(env);
      if !asked {
        return;
      }
      flow := Answer(env);
    }

    /** Poll the pending final review once. */
    method Answer(env: Env) returns (flow: Flow)
      requires Steady() && cycles < maxCycles && receipt.stage.WaitWeb? && receipt.pending.Some?
      modifies `store, `receipt, `faults, `trace, `cycles
      ensures Ended(flow, old(trace)) && store.Some?
      ensures env.verdict.Pending? ==>
                flow == Continue && receipt == old(receipt) && cycles == old(cycles) && store == old(store)
                && faults == old(faults)
      ensures flow.Continue? && !env.verdict.Pending? ==>
                Work(maxCycles, cycles, receipt) < Work(maxCycles, old(cycles), old(receipt))
      ensures old(Holds()) && old(receipt).generation + 3 <= MAX_GENERATION && old(receipt).created <= env.now ==>
                && Expected(flow, Recordable(old(receipt), env))
                && (flow.Threw? || cycles == old(cycles) + Completed(old(receipt), env))
      ensures old(Holds()) && old(store) == Some(old(receipt)) && old(receipt).generation + 3 <= MAX_GENERATION
                && old(receipt).created <= env.now ==>
                && Judged(old(receipt), env, flow, store.value)
                && (flow.Continue? ==> store == Some(receipt) && faults == [])
    {
      hide Valid, Sound, Honest, AttemptsAtMost, Writable, Open, Describe, Calm, Retried, Judged;
      match env.verdict {
        case Pending =>
          flow := Continue;
          if store == Some(receipt) {
            UndecidedIsJudged(receipt, env, flow, receipt);
          }
        case Unavailable(error) =>
          ghost var waiting := receipt;
          LiveIsCalm(receipt, trace);
          LiveFacts(receipt);
          if receipt.created <= env.now {
            LiveIsOpen(receipt, trace, env.now);
          }
          flow := RetryOrStop(env, WaitWeb, error);
          if Retried(waiting, env, WaitWeb, error, flow, store.value) {
            UndecidedIsJudged(waiting, env, flow, store.value);
          }
        case _ => flow := Adopt(env);
      }
    }

    /** Create the final review once; `asked` says that a review is pending. */
    method Ask(env: Env) returns (flow: Flow, asked: bool)
      requires Steady() && cycles < maxCycles && receipt.stage.WaitWeb?
      modifies `store, `receipt, `faults, `trace
      ensures store.Some?
      ensures Ended(flow, old(trace))
      ensures asked ==>
                flow.Continue? && receipt.stage.WaitWeb? && Tries(receipt, WaitWeb) == Tries(old(receipt), WaitWeb)
      ensures asked ==> receipt.pending.Some?
      ensures old(receipt).pending.Some? ==> asked && receipt == old(receipt)
      ensures asked ==> receipt.rounds == old(receipt).rounds && receipt.created == old(receipt).created
                        && receipt.generation <= old(receipt).generation + 1
      ensures flow.Continue? && !asked ==> Work(maxCycles, cycles, receipt) < Work(maxCycles, cycles, old(receipt))
      ensures old(Holds()) && old(receipt).generation + 4 <= MAX_GENERATION && old(receipt).created <= env.now ==>
                if old(receipt).pending.Some? then asked && Holds()
                else if env.review.Some? then Expected(flow, FailureFits(env.review.value, env)) && !asked
                else if 1 <= |env.jobId| <= MAX_JOB_ID then asked && Holds()
                else flow == Threw(INVALID)
      ensures old(Holds()) && old(receipt).generation + 4 <= MAX_GENERATION && old(receipt).created <= env.now ==>
                if old(receipt).pending.None? && env.review.Some? then
                  && store.Some? && Retried(old(receipt), env, WaitWeb, env.review.value, flow, store.value)
                  && (flow.Continue? ==> store == Some(receipt) && faults == [])
                else asked ==> receipt == Waiting(old(receipt), env)
                               && (old(receipt).pending.None? ==> store == Some(receipt))
      ensures old(receipt).pending.Some? ==> store == old(store) && faults == old(faults)
    {
      hide Valid, Sound, Honest, AttemptsAtMost, Writable, Open, Describe, Retried;
      flow, asked := Continue, true;
      if receipt.pending.None? {
        if env.review.Some? {
          LiveIsCalm(receipt, trace);
          if receipt.created <= env.now {
            LiveIsOpen(receipt, trace, env.now);
          }
          asked := false;
          flow := RetryOrStop(env, WaitWeb, env.review.value);
        } else {
          AskedIsCalm(receipt, trace, env.jobId, env.now);
          flow, asked := PersistOrRetry(env, Asked(receipt, env.jobId));
        }
      }
    }

    /** Adopt a verdict: approve the exact head, send the run to revision, or stop it. */
    method Adopt(env: Env) returns (flow: Flow)
      requires Steady() && cycles < maxCycles && receipt.stage.WaitWeb? && !env.verdict.Unavailable?
               && !env.verdict.Pending?
      modifies `store, `receipt, `faults, `trace, `cycles
      ensures cycles == old(cycles) + 1
      ensures store.Some?
      ensures Ended(flow, old(trace))
      ensures flow.Continue? ==> Work(maxCycles, cycles, receipt) <= Work(maxCycles, old(cycles), old(receipt)) - 2
      ensures old(Holds()) && old(receipt).generation + 3 <= MAX_GENERATION && old(receipt).created <= env.now ==>
                Expected(flow, old(receipt).rounds < MAX_ROUNDS)
      ensures old(Holds()) && old(receipt).generation + 3 <= MAX_GENERATION && old(receipt).created <= env.now ==>
                && store.Some? && Judged(old(receipt), env, flow, store.value)
                && (flow.Continue? ==> store == Some(receipt) && faults == [])
    {
      hide Valid, Sound, Honest, AttemptsAtMost, Writable, Open, Describe;
      TriesBounded(receipt, trace, WaitWeb);
      InexactFits();
      AdoptedIsCalm(receipt, trace, env.now);
      DecidedIsCalm(receipt, trace, env.verdict, env.now);
      var decided := Decided(Adopted(receipt), env.verdict);
      receipt := Adopted(receipt);
      cycles := cycles + 1;
      if env.verdict.Approves? {
        if !env.verdict.exact {
          flow := RetryOrStop(env, WaitWeb, INEXACT);
          return;
        }
        cycles := cycles - 1;
        Advance(Approved);
      }
      var stored;
      flow, stored := PersistOrRetry(env, decided);
      if stored && !env.verdict.RequestsRevision? {
        flow := Return;
      }
    }

    /** One iteration of the driver loop. */
    method Iterate(env: Env) returns (flow: Flow)
      requires Steady()
      modifies `store, `receipt, `faults, `trace, `cycles
      ensures Ended(flow, old(trace))
      ensures flow.Continue? ==>
                if EmptyPoll(old(receipt), env) then receipt == old(receipt) && cycles == old(cycles)
                else Left(maxCycles, cycles, receipt) < Left(maxCycles, old(cycles), old(receipt))
      ensures env.faults == [] && old(store) == Some(old(receipt)) && old(receipt).generation + 4 <= MAX_GENERATION
                && old(receipt).created <= env.now ==>
              Expected(flow, env.abortedFirst || old(cycles) >= maxCycles || Recordable(old(receipt), env))
      ensures env.faults == [] && old(store) == Some(old(receipt)) && old(receipt).generation + 4 <= MAX_GENERATION
                && old(receipt).created <= env.now ==>
                && store.Some? && (flow.Continue? ==> store == Some(receipt) && faults == [])
                && if env.abortedFirst then
                  && flow == Return
                  && store.value == After(old(receipt).(status := Paused, reason := Some(INTERRUPTED)), 1, env.now)
                else if old(cycles) >= maxCycles then
                  && flow == Return
                  && store.value == After(old(receipt).(status := NeedsYou, action := Some(AskUserToIntervene),
                                                        reason := Some(EXHAUSTED)), 1, env.now)
                else
                  && Told(old(receipt), env, flow, store.value)
                  && (!flow.Threw? ==> cycles == old(cycles) + Completed(old(receipt), env))
    {
      hide Valid, Sound, Honest, AttemptsAtMost, Writable, Open, Describe, Recordable, Told;
      faults := env.faults;
      if env.abortedFirst || cycles >= maxCycles {
        StopsAreWritable(receipt, trace, env.now);
        flow := Stop(if env.abortedFirst then Pausing(receipt) else Exhausted(receipt), env.now);
        return;
      }
      match receipt.stage {
        case Execute | Publish | DraftPr | PackageResult => flow := Serve(env);
        case WaitWeb => flow := AwaitVerdict(env);
        case Revise => flow := ReviseOnce(env);
      }
    }

    /**
     Start of a drive: read or create the receipt, and honour a persisted retry deadline. Continue
     means that the loop may run. A receipt that needs the user stops at once; one that is ready is
     returned only when its approval passes the exact check again, and is never changed.
     */
    method Start(env: Env) returns (flow: Flow)
      requires Durable()
      modifies `store, `receipt, `faults, `trace, `cycles
      ensures Ended(flow, old(trace)) && cycles == 0
      ensures old(store).Some? && old(store).value.status.ReadyForYou? ==>
                store == old(store) && flow == if env.service.Some? then Threw(env.service.value) else Return
      ensures old(store).Some? && old(store).value.status.NeedsYou? ==> store == old(store) && flow == Return
      ensures old(store).Some? && !old(store).value.status.ReadyForYou? && !old(store).value.status.NeedsYou?
                && env.faults == [] && old(store).value.created <= env.now
                && old(store).value.generation + 2 <= MAX_GENERATION ==>
                && store.Some? && Honored(old(store).value, env, flow, store.value)
                && (flow.Continue? ==> store == Some(receipt))
      ensures old(store).None? && env.faults == [] ==>
                flow.Continue? && store == Some(receipt) && receipt == Stamped(Initial(env.now), env.now)
    {
      cycles, faults := 0, env.faults;
      if store.None? {
        receipt := Initial(env.now);
        assert Writable(receipt, env.now);
        flow := Persist(env.now);
        return;
      }
      receipt := store.value;
      if receipt.status.ReadyForYou? {
        return if env.service.Some? then Threw(env.service.value) else Return;
      }
      if receipt.status.NeedsYou? {
        return Return;
      }
      flow := HonorDeadline(env);
    }

    /** honorPersistedRetryDeadline. */
    method HonorDeadline(env: Env) returns (flow: Flow)
      requires Durable() && store == Some(receipt) && !receipt.status.ReadyForYou? && !receipt.status.NeedsYou?
               && cycles == 0
      modifies `store, `receipt, `faults, `trace
      ensures old(faults) == [] && old(receipt).created <= env.now && old(receipt).generation + 2 <= MAX_GENERATION ==>
                && store.Some? && Honored(old(receipt), env, flow, store.value)
                && (flow.Continue? ==> store == Some(receipt))
      ensures Ended(flow, old(trace))
      ensures old(faults) == [Fine, Crashes(false)] && old(receipt).created <= env.now
              && old(receipt).generation + 2 <= MAX_GENERATION
              && old(receipt).retryAt.Some? && old(receipt).retryAt.value > env.now ==>
                flow == Crashed && store == Some(After(old(receipt).(status := WaitingRetry), 1, env.now))
    {
      DeadlineIsCalm(receipt, trace);
      hide Valid, Sound, Honest, AttemptsAtMost, Writable, Calm;
      if receipt.retryAt.None? {
        return Continue;
      }
      if receipt.created <= env.now && receipt.generation + 2 <= MAX_GENERATION {
        DeadlineIsWritable(receipt, trace, env.now);
      }
      if receipt.retryAt.value > env.now {
        receipt := receipt.(status := WaitingRetry);
        flow := Persist(env.now);
        if !flow.Continue? {
          return;
        }
        DeadlineIsCalm(receipt, trace);
      }
      flow := Wake(env);
    }

    /**
     A whole drive, for as long as the environment lets it run. Stored receipts are sound at every
     moment, and the iterations that are not empty polls of a pending review, creating one included,
     are bounded by the two budgets, so that a drive goes on for good only on empty polls. A new run
     whose services pass and whose final reviews ask for at most three revisions before they approve
     ends READY_FOR_YOU.
     */
    method Drive(start: Env, envs: seq<Env>, ghost revisions: nat) returns (flow: Flow, busy: nat)
      requires Durable()
      modifies `store, `receipt, `faults, `trace, `cycles
      ensures Durable() && old(trace) <= trace
      ensures busy <= 2 * ((MAX_RETRIES + 2) * maxCycles + MAX_RETRIES + 1) + 2
      ensures flow.Continue? ==> |envs| <= busy + Polls(envs)
      ensures store.Some? && store.value.status.ReadyForYou? ==> Reached(trace) == 5
      ensures old(store).None? && Smooth(start, envs, revisions) && 5 + 2 * revisions <= maxCycles ==>
                && flow == Return && store.Some? && store.value.stage == Done && store.value.status == ReadyForYou
                && store.value.action == Some(AskUserToMerge) && store.value.pending == None
                && store.value.rounds == revisions + 1 && store.value.revisions == revisions
    {
      hide Polls, Told, Honored, Smooth, OnCourse, Valid, AttemptsAtMost, Reached, Completed;
      busy := 0;
      assert Polls(envs[..0]) >= 0;
      flow := Start(start);
      if Smooth(start, envs, revisions) {
        SmoothStart(start, envs, revisions);
      }
      if flow.Continue? {
        WorkIsPositive(maxCycles, 0, receipt, trace);
      }
      ghost var total := if flow.Continue? then Left(maxCycles, 0, receipt) else 0;
      assert total <= 2 * ((MAX_RETRIES + 2) * maxCycles + MAX_RETRIES + 1) + 1;
      ghost var smooth := old(store).None? && Smooth(start, envs, revisions) && 5 + 2 * revisions <= maxCycles;
      var i := 0;
      while i < |envs| && flow.Continue?
        invariant i <= |envs| && Durable() && old(trace) <= trace
        invariant flow.Continue? ==> Steady() && busy + Left(maxCycles, cycles, receipt) <= total
        invariant busy <= total + 1 && i <= busy + Polls(envs[..i])
        invariant smooth && i < 5 + 2 * revisions ==>
                    && flow == Continue && store == Some(receipt) && cycles == i
                    && OnCourse(receipt, start.now, i)
        invariant smooth && i >= 5 + 2 * revisions ==>
                    flow == Return && store.Some? && Arrived(store.value, revisions)
      {
        var counts := !EmptyPoll(receipt, envs[i]);
        if counts {
          busy := busy + 1;
        }
        PollsStep(envs, i);
        WorkIsPositive(maxCycles, cycles, receipt, trace);
        ghost var before := receipt;
        if smooth {
          SmoothEnv(start, envs, revisions, i, receipt);
        }
        flow := Iterate(envs[i]);
        if smooth {
          StaysOnCourse(start, envs, revisions, i, before, flow, store.value);
        }
        i := i + 1;
      }
      assert envs[..|envs|] == envs;
      if store.Some? && store.value.status.ReadyForYou? {
        ReadyReached(store.value, trace);
      }
    }
  }
}
