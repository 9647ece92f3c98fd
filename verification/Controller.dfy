/**
 The run ledger: its validation (src/orchestration/ledger.ts) and the operations of the
 controller (src/orchestration/controller.ts). Times are integers; the retry decision, the
 sealed request and the digests of results are the caller's.
 */
module Controller {
  import opened Prelude
  import EventChain

  type Time = int

  const MAX_SAFE: nat := 0x1F_FFFF_FFFF_FFFF
  const MAX_DIAGNOSTICS: nat := 64
  const MAX_TEXT: nat := 4096

  datatype Transition = RegisterWebPack | ExecuteRegisteredPack | Publish | OpenDraftPr | PackageResult
                      | WaitWebVerdict | Revise | WaitHuman | Done
  datatype Status = Active | Waiting | Paused | Blocked | Failed | Complete
  datatype Circuit = Closed | Open | HalfOpen

  const TRANSITIONS: seq<Transition> :=
    [RegisterWebPack, ExecuteRegisteredPack, Publish, OpenDraftPr, PackageResult, WaitWebVerdict, Revise, WaitHuman,
     Done]

  /** current_attempt, which is STARTED whenever it is present. */
  datatype Attempt = Attempt(transition: Transition, request: Digest, number: nat)

  datatype Budget = Budget(maxPerTransition: nat, maxTotal: nat, maxElapsed: nat, maxTurns: nat, maxInput: nat,
                           maxOutput: nat,
                           total: nat, turns: nat, input: nat, output: nat, started: Time)
  datatype Retry = Retry(failures: nat, next: Option<Time>, circuit: Circuit, openedAt: Option<Time>,
                         code: Option<string>)
  datatype Diagnostic = Diagnostic(code: string, message: string, count: nat, first: Time, last: Time)

  datatype Ledger = Ledger(status: Status, reason: Option<string>, next: Transition, attempt: Option<Attempt>,
                           last: Option<Transition>, counters: map<Transition, nat>, budget: Budget, retry: Retry,
                           diagnostics: seq<Diagnostic>, chain: EventChain.Chain, created: Time, updated: Time)

  const CLEAR := Retry(0, None, Closed, None, None)

  function Counter(l: Ledger, t: Transition): nat {
    if t in l.counters then l.counters[t] else 0
  }

  function Sum(counters: map<Transition, nat>, ts: seq<Transition>): nat {
    if ts == [] then 0 else (if ts[0] in counters then counters[ts[0]] else 0) + Sum(counters, ts[1..])
  }

  predicate Terminal(status: Status) {
    status.Blocked? || status.Failed? || status.Complete?
  }

  predicate Waits(t: Transition) {
    t.WaitHuman? || t.WaitWebVerdict?
  }

  predicate Exceeded(b: Budget) {
    b.turns > b.maxTurns || b.input > b.maxInput || b.output > b.maxOutput
  }

  predicate Unavailable(b: Budget) {
    b.turns >= b.maxTurns || b.input >= b.maxInput || b.output >= b.maxOutput
  }

  // ----- validateLedger ----------------------------------------------------------------------

  predicate ValidText(l: Ledger) {
    && (l.reason.Some? ==> l.status.Paused? && |l.reason.value| <= MAX_TEXT)
    && l.updated >= l.created
  }

  predicate ValidDiagnostics(ds: seq<Diagnostic>) {
    && |ds| <= MAX_DIAGNOSTICS
    && forall i :: 0 <= i < |ds| ==>
         var d := ds[i];
         1 <= |d.code| <= 128 && |d.message| <= MAX_TEXT && d.count >= 1 && d.last >= d.first
  }

  predicate ValidBudget(l: Ledger) {
    && l.budget.total == Sum(l.counters, TRANSITIONS)
    && l.budget.total <= l.budget.maxTotal
    && l.budget.turns <= MAX_SAFE && l.budget.input <= MAX_SAFE && l.budget.output <= MAX_SAFE
  }

  predicate ValidRetry(r: Retry) {
    && (r.code.Some? ==> 1 <= |r.code.value| <= 256)
    && (r.circuit.Closed? ==> r.openedAt.None?)
    && (r.circuit.Open? ==> r.openedAt.Some? && r.next.Some?)
    && (r.failures == 0 ==> r.code.None? && r.next.None? && r.circuit.Closed?)
  }

  predicate ValidAttempt(l: Ledger) {
    l.attempt.Some? ==>
      && l.attempt.value.number >= 1
      && Counter(l, l.attempt.value.transition) == l.attempt.value.number
      && (l.status.Paused? || l.status.Active?)
  }

  /** What the status must be when nothing is running and the run is not paused. */
  predicate ValidRest(l: Ledger) {
    !l.status.Paused? && l.attempt.None? ==>
      && (l.retry.next.Some? ==> l.status.Waiting?)
      && (l.retry.code.Some? && l.retry.next.None? ==> l.status.Blocked? || l.status.Failed?)
      && (l.next.Done? ==> l.status.Complete? || l.status.Failed?)
      && (Waits(l.next) && l.retry.next.None? ==> l.status.Waiting? || l.status.Blocked? || l.status.Failed?)
      && (Exceeded(l.budget) && !l.next.Done? ==> l.status.Blocked? || l.status.Failed?)
  }

  ghost predicate ValidChain(hash: EventChain.Body -> Digest, chain: EventChain.Chain) {
    EventChain.Linked(hash, chain) && |chain.events| <= EventChain.MAX_EVENTS
  }

  ghost predicate Valid(hash: EventChain.Body -> Digest, l: Ledger) {
    && ValidText(l) && ValidDiagnostics(l.diagnostics) && ValidBudget(l) && ValidRetry(l.retry)
    && ValidAttempt(l) && ValidRest(l) && ValidChain(hash, l.chain)
  }

  // ----- Operations --------------------------------------------------------------------------

  datatype Refusal = IsPaused | IsTerminal | NotDue | BudgetExhausted | AttemptConflict | AttemptMissing

  /** Same: nothing is written. Write: this ledger goes to writeRunLedger, which validates it. */
  datatype Outcome = Refused(why: Refusal) | Same | Write(ledger: Ledger)

  datatype Usage = Usage(turns: nat, input: nat, output: nat)

  /** decideRetry, arbitrary; `Circuit` is the decision with the reason "circuit open". */
  datatype Decision = RetryAfter(delay: nat) | CircuitOpens(delay: nat) | Stop

  datatype Step =
    | Checkpoint(transition: Transition, request: Digest)
    | CompleteAttempt(id: Attempt, next: Transition, usage: Usage)
    | FailAttempt(id: Attempt, code: string, message: string, decision: Decision)
    | Pause(reason: string)
    | Resume

  datatype Call = Call(step: Step, now: Time, data: Digest)

  const BUDGET := Budget(4, 24, 86_400_000, 32, 1_000_000, 250_000, 0, 0, 0, 0, 0)

  function CreateAt(now: Time): Ledger {
    Ledger(Active, None, RegisterWebPack, None, None, map t | t in TRANSITIONS :: 0, BUDGET.(started := now), CLEAR, [],
           EventChain.EMPTY, now, now)
  }

  function Log(hash: EventChain.Body -> Digest, l: Ledger, kind: string, c: Call): Ledger {
    l.(chain := EventChain.Append(hash, l.chain, EventChain.Entry(kind, c.now, c.data)), updated := c.now)
  }

  /** loadOrCreateUnlocked on a run without a ledger. */
  function Create(hash: EventChain.Body -> Digest, now: Time, data: Digest): Ledger {
    Log(hash, CreateAt(now), "ledger:created", Call(Resume, now, data))
  }

  function Cut(text: string, limit: nat): string {
    if |text| > limit then text[..limit] else text
  }

  function FindDiagnostic(ds: seq<Diagnostic>, code: string, message: string): Option<nat> {
    if ds == [] then None
    else if ds[0].code == code && ds[0].message == message then Some(0)
    else
      match FindDiagnostic(ds[1..], code, message)
      case None => None
      case Some(i) => Some(i + 1)
  }

  lemma {:induction false} FoundDiagnostic(ds: seq<Diagnostic>, code: string, message: string)
    ensures var i := FindDiagnostic(ds, code, message);
            i.Some? ==> i.value < |ds| && ds[i.value].code == code && ds[i.value].message == message
  {
    if ds != [] && !(ds[0].code == code && ds[0].message == message) {
      FoundDiagnostic(ds[1..], code, message);
    }
  }

  /** recordDiagnostic on the list. */
  function Noted(ds: seq<Diagnostic>, code: string, message: string, now: Time): seq<Diagnostic> {
    FoundDiagnostic(ds, Cut(code, 128), Cut(message, MAX_TEXT));
    match FindDiagnostic(ds, Cut(code, 128), Cut(message, MAX_TEXT))
    case Some(i) => ds[i := ds[i].(count := ds[i].count + 1, last := now)]
    case None =>
      var longer := ds + [Diagnostic(Cut(code, 128), Cut(message, MAX_TEXT), 1, now, now)];
      if |longer| > MAX_DIAGNOSTICS then longer[|longer| - MAX_DIAGNOSTICS..] else longer
  }

  /** The diagnostic of a success that overran the model budget. */
  function BudgetNoted(ds: seq<Diagnostic>, now: Time): seq<Diagnostic> {
    Noted(ds, "ORCHESTRATION_BUDGET_EXHAUSTED", EXHAUSTED, now)
  }

  function AttemptKind(t: Transition): string {
    match t
    case RegisterWebPack => "attempt:REGISTER_WEB_PACK"
    case ExecuteRegisteredPack => "attempt:EXECUTE_REGISTERED_PACK"
    case Publish => "attempt:PUBLISH"
    case OpenDraftPr => "attempt:OPEN_DRAFT_PR"
    case PackageResult => "attempt:PACKAGE_RESULT"
    case WaitWebVerdict => "attempt:WAIT_WEB_VERDICT"
    case Revise => "attempt:REVISE"
    case WaitHuman => "attempt:WAIT_HUMAN"
    case Done => "attempt:DONE"
  }

  function CheckpointAttempt(hash: EventChain.Body -> Digest, l: Ledger, c: Call): Outcome
    requires c.step.Checkpoint?
  {
    var t := c.step.transition;
    if l.status.Paused? then Refused(IsPaused)
    else if Terminal(l.status) then Refused(IsTerminal)
    else if l.retry.next.Some? && l.retry.next.value > c.now then Refused(NotDue)
    else if c.now - l.budget.started > l.budget.maxElapsed then Refused(BudgetExhausted)
    else if t.ExecuteRegisteredPack? && Unavailable(l.budget) then Refused(BudgetExhausted)
    else if l.attempt.Some? then
      if l.attempt.value.transition == t && l.attempt.value.request == c.step.request then Same
         else Refused(AttemptConflict)
    else if l.budget.total >= l.budget.maxTotal then Refused(BudgetExhausted)
    else if Counter(l, t) + 1 > l.budget.maxPerTransition then Refused(BudgetExhausted)
    else
      var number := Counter(l, t) + 1;
      var begun :=
        l.(counters := l.counters[t := number], attempt := Some(Attempt(t, c.step.request, number)),
           budget := l.budget.(total := l.budget.total + 1), status := Active,
           retry := l.retry.(next := None, circuit := if l.retry.circuit.Open? then HalfOpen else l.retry.circuit));
      Write(Log(hash, begun, AttemptKind(t), c))
  }

  function Finish(hash: EventChain.Body -> Digest, l: Ledger, c: Call): Outcome
    requires c.step.CompleteAttempt?
  {
    if l.attempt.None? then Refused(AttemptMissing)
    else if l.attempt.value != c.step.id then Refused(AttemptConflict)
    else Write(Log(hash, Succeeded(l, c), "attempt:succeeded", c))
  }

  function Spent(b: Budget, usage: Usage): Budget {
    b.(turns := b.turns + usage.turns, input := b.input + usage.input, output := b.output + usage.output)
  }

  /** What a success makes of the ledger, before it is logged. */
  function Succeeded(l: Ledger, c: Call): Ledger
    requires c.step.CompleteAttempt? && l.attempt.Some?
  {
    var budget := Spent(l.budget, c.step.usage);
    var blocks := !l.status.Paused? && Exceeded(budget) && !c.step.next.Done?;
    var status :=
      if l.status.Paused? then Paused
      else if blocks then Blocked
      else if c.step.next.Done? then Status.Complete
      else if Waits(c.step.next) then Waiting
      else Active;
    l.(last := Some(l.attempt.value.transition), next := c.step.next, retry := CLEAR, budget := budget,
       status := status,
       diagnostics := if blocks then BudgetNoted(l.diagnostics, c.now) else l.diagnostics, attempt := None)
  }

  const EXHAUSTED :=
      "Model/token budget was exceeded by the completed transition; no later transition may start automatically."

  function Fail(hash: EventChain.Body -> Digest, l: Ledger, c: Call): Outcome
    requires c.step.FailAttempt?
  {
    if l.attempt.None? then Refused(AttemptMissing)
    else if l.attempt.value != c.step.id then Refused(AttemptConflict)
    else Write(Log(hash, FailedLedger(l, c), "attempt:failed", c))
  }

  /** What a failure makes of the ledger, before it is logged. */
  function FailedLedger(l: Ledger, c: Call): Ledger
    requires c.step.FailAttempt?
  {
    var counted := l.retry.(failures := l.retry.failures + 1, code := Some(c.step.code));
    var (retry, status) :=
      match c.step.decision
      case RetryAfter(delay) => (counted.(next := Some(c.now + delay)), Waiting)
      case CircuitOpens(delay) => (counted.(circuit := Open, openedAt := Some(c.now), next := Some(c.now + delay)),
                                   Waiting)
      case Stop => (counted.(next := None), Blocked);
    l.(retry := retry, status := if l.status.Paused? then Paused else status,
       diagnostics := Noted(l.diagnostics, c.step.code, c.step.message, c.now), attempt := None)
  }

  function PauseRun(hash: EventChain.Body -> Digest, l: Ledger, c: Call): Outcome
    requires c.step.Pause?
  {
    if Terminal(l.status) then Refused(IsTerminal)
    else Write(Log(hash, l.(status := Paused, reason := Some(Cut(c.step.reason, MAX_TEXT))), "run:paused", c))
  }

  /** restoredStatusAfterResume. */
  function Restored(l: Ledger, now: Time): Status {
    if l.attempt.Some? then Active
    else if l.next.Done? then Status.Complete
    else if Exceeded(l.budget) then Blocked
    else if l.retry.code.Some? && l.retry.next.None? then Blocked
    else if l.retry.next.Some? && l.retry.next.value > now then Waiting
    else if Waits(l.next) then Waiting
    else Active
  }

  function ResumeRun(hash: EventChain.Body -> Digest, l: Ledger, c: Call): Outcome
    requires c.step.Resume?
  {
    if !l.status.Paused? then Same
    else Write(Log(hash, l.(status := Restored(l, c.now), reason := None), "run:resumed", c))
  }

  function Apply(hash: EventChain.Body -> Digest, l: Ledger, c: Call): Outcome {
    match c.step
    case Checkpoint(_, _) => CheckpointAttempt(hash, l, c)
    case CompleteAttempt(_, _, _) => Finish(hash, l, c)
    case FailAttempt(_, _, _, _) => Fail(hash, l, c)
    case Pause(_) => PauseRun(hash, l, c)
    case Resume => ResumeRun(hash, l, c)
  }

  // ----- The inductive invariant -------------------------------------------------------------

  /**
   What validation leaves out and every operation needs: while an attempt runs nothing is
   scheduled, the circuit is not open and the budget is not exceeded; a finished or exceeded
   run has no retry scheduled; and no counter passes its cap.
   */
  predicate Steady(l: Ledger) {
    && (l.attempt.Some? ==> l.retry.next.None? && !l.retry.circuit.Open? && !l.next.Done? && !Exceeded(l.budget))
    && (l.attempt.None? && (l.next.Done? || Exceeded(l.budget)) ==> l.retry == CLEAR)
    && Capped(l.counters, l.budget.maxPerTransition)
  }

  predicate Capped(counters: map<Transition, nat>, cap: nat) {
    forall t :: t in counters ==> counters[t] <= cap
  }

  ghost predicate Noticed(ds: seq<Diagnostic>, now: Time) {
    forall i :: 0 <= i < |ds| ==> ds[i].first <= now
  }

  ghost predicate Good(hash: EventChain.Body -> Digest, l: Ledger, now: Time) {
    Valid(hash, l) && Steady(l) && l.updated <= now && Noticed(l.diagnostics, now)
  }

  /** A failure code that the ledger can hold, and a usage whose totals stay safe integers. */
  predicate Representable(l: Ledger, step: Step) {
    && (step.FailAttempt? ==> 1 <= |step.code| <= 256)
    && (step.CompleteAttempt? ==>
          && l.budget.turns + step.usage.turns <= MAX_SAFE
          && l.budget.input + step.usage.input <= MAX_SAFE
          && l.budget.output + step.usage.output <= MAX_SAFE)
  }

  /** Paused past a retry deadline, with work as the next transition. */
  predicate Overdue(l: Ledger, now: Time) {
    && l.status.Paused? && l.attempt.None?
    && l.retry.next.Some? && l.retry.next.value <= now
    && !Waits(l.next)
  }

  lemma {:induction false} SumZero(ts: seq<Transition>)
    ensures Sum(map t | t in TRANSITIONS :: 0, ts) == 0
  {
    if ts != [] {
      SumZero(ts[1..]);
    }
  }

  lemma {:induction false} SumUpdate(counters: map<Transition, nat>, t: Transition, n: nat, ts: seq<Transition>)
    requires forall i, j :: 0 <= i < j < |ts| ==> ts[i] != ts[j]
    ensures Sum(counters[t := n], ts) ==
            Sum(counters, ts) + if t in ts then n - (if t in counters then counters[t] else 0) else 0
  {
    if ts != [] {
      SumUpdate(counters, t, n, ts[1..]);
      assert ts == [ts[0]] + ts[1..];
    }
  }

  /** A new run is good from the start. */
  lemma CreateIsGood(hash: EventChain.Body -> Digest, now: Time, data: Digest)
    ensures Good(hash, Create(hash, now, data), now)
  {
    SumZero(TRANSITIONS);
    EventChain.AppendKeepsLinks(hash, EventChain.EMPTY, EventChain.Entry("ledger:created", now, data));
  }

  // ----- Each operation ------------------------------------------------------------------------

  lemma NotedIsValid(ds: seq<Diagnostic>, code: string, message: string, now: Time)
    requires ValidDiagnostics(ds) && Noticed(ds, now) && code != []
    ensures ValidDiagnostics(Noted(ds, code, message, now)) && Noticed(Noted(ds, code, message, now), now)
  {
    var short, text := Cut(code, 128), Cut(message, MAX_TEXT);
    assert 1 <= |short| <= 128 && |text| <= MAX_TEXT;
    hide Cut;
    FoundDiagnostic(ds, short, text);
    var found := FindDiagnostic(ds, short, text);
    hide FindDiagnostic;
    if found.None? {
      AppendedIsValid(ds, Diagnostic(short, text, 1, now, now), now);
    } else {
      RepeatedIsValid(ds, found.value, now);
    }
  }

  lemma AppendedIsValid(ds: seq<Diagnostic>, d: Diagnostic, now: Time)
    requires ValidDiagnostics(ds) && Noticed(ds, now)
    requires 1 <= |d.code| <= 128 && |d.message| <= MAX_TEXT && d.count >= 1 && d.first == d.last == now
    ensures var longer := ds + [d];
            var kept := if |longer| > MAX_DIAGNOSTICS then longer[|longer| - MAX_DIAGNOSTICS..] else longer;
            ValidDiagnostics(kept) && Noticed(kept, now)
  {
    var longer := ds + [d];
    assert forall i :: 0 <= i < |longer| ==> longer[i] == if i < |ds| then ds[i] else d;
  }

  lemma RepeatedIsValid(ds: seq<Diagnostic>, i: nat, now: Time)
    requires ValidDiagnostics(ds) && Noticed(ds, now) && i < |ds|
    ensures var again := ds[i := ds[i].(count := ds[i].count + 1, last := now)];
            ValidDiagnostics(again) && Noticed(again, now)
  {
  }

  lemma BudgetNotedIsValid(ds: seq<Diagnostic>, now: Time)
    requires ValidDiagnostics(ds) && Noticed(ds, now)
    ensures ValidDiagnostics(BudgetNoted(ds, now)) && Noticed(BudgetNoted(ds, now), now)
  {
    NotedIsValid(ds, "ORCHESTRATION_BUDGET_EXHAUSTED", EXHAUSTED, now);
  }

  lemma LogKeepsChain(hash: EventChain.Body -> Digest, l: Ledger, kind: string, c: Call)
    requires ValidChain(hash, l.chain) && kind != []
    ensures ValidChain(hash, Log(hash, l, kind, c).chain)
  {
    EventChain.AppendKeepsLinks(hash, l.chain, EventChain.Entry(kind, c.now, c.data));
  }

  lemma AttemptKindIsText(t: Transition)
    ensures AttemptKind(t) != []
  {
  }

  lemma Listed(t: Transition)
    ensures t in TRANSITIONS && forall i, j :: 0 <= i < j < |TRANSITIONS| ==> TRANSITIONS[i] != TRANSITIONS[j]
  {
    assert TRANSITIONS[0] == RegisterWebPack && TRANSITIONS[1] == ExecuteRegisteredPack && TRANSITIONS[2] == Publish;
    assert TRANSITIONS[3] == OpenDraftPr && TRANSITIONS[4] == PackageResult && TRANSITIONS[5] == WaitWebVerdict;
    assert TRANSITIONS[6] == Revise && TRANSITIONS[7] == WaitHuman && TRANSITIONS[8] == Done;
  }

  lemma CheckpointCounts(l: Ledger, t: Transition)
    requires ValidBudget(l) && Capped(l.counters, l.budget.maxPerTransition)
    requires l.budget.total < l.budget.maxTotal && Counter(l, t) < l.budget.maxPerTransition
    ensures var next := l.(counters := l.counters[t := Counter(l, t) + 1],
                           budget := l.budget.(total := l.budget.total + 1));
            ValidBudget(next) && Capped(next.counters, l.budget.maxPerTransition)
  {
    hide Sum, TRANSITIONS;
    Listed(t);
    SumUpdate(l.counters, t, Counter(l, t) + 1, TRANSITIONS);
  }

  lemma CheckpointKeeps(hash: EventChain.Body -> Digest, l: Ledger, c: Call)
    requires Good(hash, l, c.now) && c.step.Checkpoint? && CheckpointAttempt(hash, l, c).Write?
    ensures Good(hash, CheckpointAttempt(hash, l, c).ledger, c.now)
  {
    hide Sum, ValidChain, ValidDiagnostics, Noticed, Capped, AttemptKind, EventChain.Append;
    AttemptKindIsText(c.step.transition);
    CheckpointCounts(l, c.step.transition);
    LogKeepsChain(hash, l, AttemptKind(c.step.transition), c);
  }

  lemma CompleteKeeps(hash: EventChain.Body -> Digest, l: Ledger, c: Call)
    requires Good(hash, l, c.now) && c.step.CompleteAttempt? && Finish(hash, l, c).Write?
    ensures var next := Finish(hash, l, c).ledger;
            (Valid(hash, next) <==> Representable(l, c.step)) && (Valid(hash, next) ==> Good(hash, next, c.now))
  {
    LogKeepsChain(hash, l, "attempt:succeeded", c);
    var next := Finish(hash, l, c).ledger;
    BudgetNotedIsValid(l.diagnostics, c.now);
    hide ValidChain, ValidDiagnostics, Noticed, Capped, BudgetNoted, EventChain.Append, Sum;
  }

  lemma FailKeeps(hash: EventChain.Body -> Digest, l: Ledger, c: Call)
    requires Good(hash, l, c.now) && c.step.FailAttempt? && Fail(hash, l, c).Write?
    ensures var next := Fail(hash, l, c).ledger;
            (Valid(hash, next) <==> Representable(l, c.step)) && (Valid(hash, next) ==> Good(hash, next, c.now))
  {
    LogKeepsChain(hash, l, "attempt:failed", c);
    var next := Fail(hash, l, c).ledger;
    if c.step.code != [] {
      NotedIsValid(l.diagnostics, c.step.code, c.step.message, c.now);
    }
    hide ValidChain, ValidDiagnostics, Noticed, Capped;
  }

  lemma PauseKeeps(hash: EventChain.Body -> Digest, l: Ledger, c: Call)
    requires Good(hash, l, c.now) && c.step.Pause? && PauseRun(hash, l, c).Write?
    ensures Good(hash, PauseRun(hash, l, c).ledger, c.now)
  {
    LogKeepsChain(hash, l, "run:paused", c);
  }

  lemma ResumeKeeps(hash: EventChain.Body -> Digest, l: Ledger, c: Call)
    requires Good(hash, l, c.now) && c.step.Resume? && ResumeRun(hash, l, c).Write?
    ensures var next := ResumeRun(hash, l, c).ledger;
            (Valid(hash, next) <==> !Overdue(l, c.now)) && (Valid(hash, next) ==> Good(hash, next, c.now))
  {
    LogKeepsChain(hash, l, "run:resumed", c);
    hide ValidChain, ValidDiagnostics, Noticed, Capped;
  }

  /**
   An operation on a good ledger writes a ledger that validation accepts, except in two cases:
   the caller's values cannot be stored, or a run is resumed past its retry deadline.
   */
  lemma StepExact(hash: EventChain.Body -> Digest, l: Ledger, c: Call)
    requires Good(hash, l, c.now) && Apply(hash, l, c).Write?
    ensures var next := Apply(hash, l, c).ledger;
            && (Valid(hash, next) <==> Representable(l, c.step) && !(c.step.Resume? && Overdue(l, c.now)))
            && (Valid(hash, next) ==> Good(hash, next, c.now))
  {
    hide Good, Valid, CheckpointAttempt, Finish, Fail, PauseRun, ResumeRun, Overdue;
    match c.step
    case Checkpoint(_, _) =>
      CheckpointKeeps(hash, l, c);
      GoodIsValid(hash, CheckpointAttempt(hash, l, c).ledger, c.now);
    case CompleteAttempt(_, _, _) => CompleteKeeps(hash, l, c);
    case FailAttempt(_, _, _, _) => FailKeeps(hash, l, c);
    case Pause(_) =>
      PauseKeeps(hash, l, c);
      GoodIsValid(hash, PauseRun(hash, l, c).ledger, c.now);
    case Resume => ResumeKeeps(hash, l, c);
  }

  lemma GoodIsValid(hash: EventChain.Body -> Digest, l: Ledger, now: Time)
    requires Good(hash, l, now)
    ensures Valid(hash, l)
  {
  }

  // ----- What one operation means for the next -----------------------------------------------

  /** The limits that a checkpoint still meets, whatever the state of the attempt. */
  predicate InBudget(l: Ledger, c: Call)
    requires c.step.Checkpoint?
  {
    c.now - l.budget.started <= l.budget.maxElapsed
        && !(c.step.transition.ExecuteRegisteredPack? && Unavailable(l.budget))
  }

  /** A checkpoint repeated by a restarted process finds its own attempt; any other is refused. */
  lemma CheckpointIsIdempotent(hash: EventChain.Body -> Digest, l: Ledger, c: Call, again: Call)
    requires Good(hash, l, c.now) && c.step.Checkpoint? && CheckpointAttempt(hash, l, c).Write?
    requires again.step.Checkpoint? && InBudget(CheckpointAttempt(hash, l, c).ledger, again)
    ensures CheckpointAttempt(hash, CheckpointAttempt(hash, l, c).ledger, again) ==
            if again.step == c.step then Same else Refused(AttemptConflict)
  {
    hide EventChain.Append, Valid, Good;
  }

  /** A finished attempt is finished: its result cannot be reported twice, by success or failure. */
  lemma ResultIsReportedOnce(hash: EventChain.Body -> Digest, l: Ledger, c: Call, late: Call)
    requires Good(hash, l, c.now) && (c.step.CompleteAttempt? || c.step.FailAttempt?) && Apply(hash, l, c).Write?
    requires late.step.CompleteAttempt? || late.step.FailAttempt?
    ensures Apply(hash, Apply(hash, l, c).ledger, late) == Refused(AttemptMissing)
  {
    hide EventChain.Append, Noted, BudgetNoted, AttemptKind, Valid, Good;
  }

  /** An open circuit admits nothing before its deadline, and one trial attempt from then on. */
  lemma CircuitHoldsUntilDeadline(hash: EventChain.Body -> Digest, l: Ledger, c: Call, next: Call)
    requires Good(hash, l, c.now) && l.status.Active? && c.step.FailAttempt? && c.step.decision.CircuitOpens?
    requires Fail(hash, l, c).Write? && next.step.Checkpoint? && InBudget(Fail(hash, l, c).ledger, next)
    requires Counter(l, next.step.transition) < l.budget.maxPerTransition && l.budget.total < l.budget.maxTotal
    ensures var failed := Fail(hash, l, c).ledger;
            var outcome := CheckpointAttempt(hash, failed, next);
            if next.now < c.now + c.step.decision.delay then outcome == Refused(NotDue)
            else outcome.Write? && outcome.ledger.retry.circuit.HalfOpen? && outcome.ledger.retry.next.None?
                 && outcome.ledger.retry.failures == l.retry.failures + 1
  {
    hide EventChain.Append, Noted, BudgetNoted, AttemptKind, Valid, Good;
  }

  // ----- Runs --------------------------------------------------------------------------------

  /** The durable ledger after one call: writeRunLedger refuses an invalid one. */
  ghost function Persist(hash: EventChain.Body -> Digest, l: Ledger, c: Call): Ledger {
    var outcome := Apply(hash, l, c);
    if outcome.Write? && Valid(hash, outcome.ledger) then outcome.ledger else l
  }

  ghost function Run(hash: EventChain.Body -> Digest, l: Ledger, calls: seq<Call>): Ledger
    decreases |calls|
  {
    if calls == [] then l else Run(hash, Persist(hash, l, calls[0]), calls[1..])
  }

  ghost predicate Ticking(now: Time, calls: seq<Call>) {
    && (forall i :: 0 <= i < |calls| ==> now <= calls[i].now)
    && (forall i, j :: 0 <= i < j < |calls| ==> calls[i].now <= calls[j].now)
  }

  function EndTime(now: Time, calls: seq<Call>): Time {
    if calls == [] then now else calls[|calls| - 1].now
  }

  lemma Later(hash: EventChain.Body -> Digest, l: Ledger, now: Time, later: Time)
    requires Good(hash, l, now) && now <= later
    ensures Good(hash, l, later)
  {
  }

  lemma PersistKeeps(hash: EventChain.Body -> Digest, l: Ledger, c: Call, now: Time)
    requires Good(hash, l, now) && now <= c.now
    ensures Good(hash, Persist(hash, l, c), c.now)
  {
    Later(hash, l, now, c.now);
    hide Good, Valid, Apply;
    if Apply(hash, l, c).Write? {
      StepExact(hash, l, c);
    }
  }

  /** How many attempts of `t` a run starts. */
  ghost function Starts(hash: EventChain.Body -> Digest, l: Ledger, calls: seq<Call>, t: Transition): nat
    decreases |calls|
  {
    if calls == [] then 0
    else
      (if calls[0].step.Checkpoint? && calls[0].step.transition == t && Persist(hash, l, calls[0]) != l &&
          Apply(hash, l, calls[0]).Write? then 1 else 0)
      + Starts(hash, Persist(hash, l, calls[0]), calls[1..], t)
  }

  lemma PersistCounts(hash: EventChain.Body -> Digest, l: Ledger, c: Call, now: Time, t: Transition)
    requires Good(hash, l, now) && now <= c.now
    ensures var next := Persist(hash, l, c);
            && next.budget.maxPerTransition == l.budget.maxPerTransition
            && next.budget.maxTotal == l.budget.maxTotal
            && Counter(next, t) == Counter(l, t) +
                 (if c.step.Checkpoint? && c.step.transition == t && next != l && Apply(hash, l, c).Write? then 1
                  else 0)
  {
    hide Good, Valid, EventChain.Append, Noted, BudgetNoted, AttemptKind, Cut, Terminal, Exceeded, Unavailable, Waits,
         Restored;
  }

  /**
   Every run of the controller from a good ledger, with a clock that does not go back, keeps the
   stored ledger good; each transition is started at most as often as its counter allows, and the
   total is the sum of the counters, within its cap.
   */
  lemma {:induction false} RunKeepsGood(hash: EventChain.Body -> Digest, l: Ledger, calls: seq<Call>, now: Time,
                                        t: Transition)
    requires Good(hash, l, now) && Ticking(now, calls)
    ensures var end := Run(hash, l, calls);
            && Good(hash, end, EndTime(now, calls))
            && end.budget.total == Sum(end.counters, TRANSITIONS) <= l.budget.maxTotal
            && Counter(end, t) == Counter(l, t) + Starts(hash, l, calls, t) <= l.budget.maxPerTransition
    decreases |calls|
  {
    hide Persist;
    if calls != [] {
      PersistKeeps(hash, l, calls[0], now);
      PersistCounts(hash, l, calls[0], now, t);
      hide Good;
      RunKeepsGood(hash, Persist(hash, l, calls[0]), calls[1..], calls[0].now, t);
    }
  }

  /** From a new run: at most 4 attempts of each transition, and at most 24 in all. */
  lemma NewRunIsBounded(hash: EventChain.Body -> Digest, start: Time, data: Digest, calls: seq<Call>, t: Transition)
    requires Ticking(start, calls)
    ensures var l := Create(hash, start, data);
            && Valid(hash, Run(hash, l, calls))
            && Starts(hash, l, calls, t) <= 4
            && Run(hash, l, calls).budget.total <= 24
  {
    CreateIsGood(hash, start, data);
    RunKeepsGood(hash, Create(hash, start, data), calls, start, t);
  }

  // ----- The run that cannot be resumed -------------------------------------------------------

  lemma OverdueStep(hash: EventChain.Body -> Digest, l: Ledger, c: Call, now: Time)
    requires Good(hash, l, now) && Overdue(l, now) && now <= c.now
    ensures Overdue(Persist(hash, l, c), c.now)
    ensures !c.step.Pause? ==> Persist(hash, l, c) == l
  {
    Later(hash, l, now, c.now);
    if c.step.Resume? {
      ResumeKeeps(hash, l, c);
    }
    hide Good, Valid;
  }

  /**
   A run that is paused past its retry deadline stays paused for good: no later call of any kind
   resumes it or starts, completes or fails an attempt.
   */
  lemma {:induction false} OverdueForever(hash: EventChain.Body -> Digest, l: Ledger, calls: seq<Call>, now: Time)
    requires Good(hash, l, now) && Overdue(l, now) && Ticking(now, calls)
    ensures Overdue(Run(hash, l, calls), EndTime(now, calls))
    decreases |calls|
  {
    if calls != [] {
      OverdueStep(hash, l, calls[0], now);
      PersistKeeps(hash, l, calls[0], now);
      hide Good, Overdue, Persist;
      OverdueForever(hash, Persist(hash, l, calls[0]), calls[1..], calls[0].now);
    }
  }

  /** A retryable failure leaves the run waiting for its deadline. */
  lemma FailWaits(hash: EventChain.Body -> Digest, l: Ledger, c: Call)
    requires Good(hash, l, c.now) && l.attempt.Some? && l.status.Active?
    requires c.step.FailAttempt? && c.step.id == l.attempt.value && c.step.decision.RetryAfter?
             && 1 <= |c.step.code| <= 256
    ensures var next := Persist(hash, l, c);
            && Good(hash, next, c.now) && next.attempt.None? && next.status.Waiting? && next.next == l.next
            && next.retry.next == Some(c.now + c.step.decision.delay)
  {
    FailKeeps(hash, l, c);
    hide Good, Valid, EventChain.Append, Noted;
  }

  lemma PausePauses(hash: EventChain.Body -> Digest, l: Ledger, c: Call)
    requires Good(hash, l, c.now) && c.step.Pause? && !Terminal(l.status)
    ensures var next := Persist(hash, l, c);
            Good(hash, next, c.now) && next.status.Paused? && next.attempt == l.attempt && next.next == l.next
                && next.retry == l.retry
  {
    PauseKeeps(hash, l, c);
    GoodIsValid(hash, PauseRun(hash, l, c).ledger, c.now);
    hide Good, Valid, EventChain.Append;
  }

  lemma CheckpointStarts(hash: EventChain.Body -> Digest, l: Ledger, c: Call)
    requires Good(hash, l, c.now) && c.step.Checkpoint? && CheckpointAttempt(hash, l, c).Write?
    ensures var next := Persist(hash, l, c);
            && Good(hash, next, c.now) && next.status.Active? && next.next == l.next
            && next.attempt == Some(Attempt(c.step.transition, c.step.request, Counter(l, c.step.transition) + 1))
  {
    CheckpointKeeps(hash, l, c);
    GoodIsValid(hash, CheckpointAttempt(hash, l, c).ledger, c.now);
    hide Good, Valid, EventChain.Append;
  }

  lemma FirstCheckpoint(hash: EventChain.Body -> Digest, start: Time, data: Digest, c: Call)
    requires c.step.Checkpoint? && c.now == start
    ensures CheckpointAttempt(hash, Create(hash, start, data), c).Write?
    ensures Counter(Create(hash, start, data), c.step.transition) == 0
    ensures Create(hash, start, data).next.RegisterWebPack?
  {
    hide EventChain.Append, AttemptKind;
    Listed(c.step.transition);
  }

  lemma RunOfFour(hash: EventChain.Body -> Digest, l: Ledger, a: Call, b: Call, c: Call, d: Call)
    ensures Run(hash, l, [a, b, c, d]) ==
            Persist(hash, Persist(hash, Persist(hash, Persist(hash, l, a), b), c), d)
  {
    hide Persist;
    var calls := [a, b, c, d];
    var l1 := Persist(hash, l, a);
    var l2 := Persist(hash, l1, b);
    assert Run(hash, l, calls) == Run(hash, l1, [b, c, d]) by {
      assert calls[1..] == [b, c, d];
    }
    assert Run(hash, l1, [b, c, d]) == Run(hash, l2, [c, d]) by {
      assert [b, c, d][1..] == [c, d];
    }
    assert Run(hash, l2, [c, d]) == Run(hash, Persist(hash, l2, c), [d]) by {
      assert [c, d][1..] == [d];
    }
    assert Run(hash, Persist(hash, l2, c), [d]) == Run(hash, Persist(hash, Persist(hash, l2, c), d), []) by {
      assert [d][1..] == [];
    }
  }

  /** And such a run is within reach: one retryable failure, a pause, and enough time. */
  lemma OverdueIsReachable(hash: EventChain.Body -> Digest) returns (calls: seq<Call>)
    ensures Ticking(0, calls)
    ensures Overdue(Run(hash, Create(hash, 0, "d"), calls), EndTime(0, calls))
  {
    hide Good, Valid, Persist, Run, CheckpointAttempt, Create;
    var start := Call(Checkpoint(RegisterWebPack, "r"), 0, "d");
    var fail := Call(FailAttempt(Attempt(RegisterWebPack, "r", 1), "TIMEOUT", "m", RetryAfter(1000)), 1, "d");
    var pause, resume := Call(Pause("p"), 2, "d"), Call(Resume, 2000, "d");
    calls := [start, fail, pause, resume];
    var l0 := Create(hash, 0, "d");
    CreateIsGood(hash, 0, "d");
    FirstCheckpoint(hash, 0, "d", start);
    CheckpointStarts(hash, l0, start);
    var l1 := Persist(hash, l0, start);
    Later(hash, l1, 0, 1);
    FailWaits(hash, l1, fail);
    var l2 := Persist(hash, l1, fail);
    Later(hash, l2, 1, 2);
    PausePauses(hash, l2, pause);
    var l3 := Persist(hash, l2, pause);
    Later(hash, l3, 2, 2000);
    OverdueStep(hash, l3, resume, 2000);
    RunOfFour(hash, l0, start, fail, pause, resume);
  }
}
