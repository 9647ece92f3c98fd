/**
 The run ledger as the object the controller updates in place. Each operation does what its
 function in Controller.dfy says; writeRunLedger validates before it persists.
 */
module RunLedger {
  import opened Prelude
  import opened Controller
  import EventChain

  /** validateLedger. */
  method Validate(hash: EventChain.Body -> Digest, l: Ledger) returns (ok: bool)
    ensures ok <==> Valid(hash, l)
  {
    var paused := l.status == Paused;
    if l.reason.Some? && (!paused || |l.reason.value| > 4096) {
      return false;
    }
    if |l.chain.events| > 128 || |l.diagnostics| > 64 || l.updated < l.created {
      return false;
    }
    var sum, k := 0, 0;
    while k < |TRANSITIONS|
      invariant k <= |TRANSITIONS|
      invariant sum + Sum(l.counters, TRANSITIONS[k..]) == Sum(l.counters, TRANSITIONS)
    {
      sum := sum + Counter(l, TRANSITIONS[k]);
      k := k + 1;
    }
    var i := 0;
    while i < |l.diagnostics|
      invariant i <= |l.diagnostics|
      invariant ValidDiagnostics(l.diagnostics[..i])
    {
      var d := l.diagnostics[i];
      if |d.code| < 1 || |d.code| > 128 || |d.message| > 4096 || d.count < 1 || d.last < d.first {
        return false;
      }
      i := i + 1;
    }
    assert l.diagnostics[..i] == l.diagnostics;
    if l.budget.turns > 9_007_199_254_740_991 || l.budget.input > 9_007_199_254_740_991
       || l.budget.output > 9_007_199_254_740_991 || l.budget.total != sum || l.budget.total > l.budget.maxTotal {
      return false;
    }
    if l.retry.code.Some? && (|l.retry.code.value| < 1 || |l.retry.code.value| > 256) {
      return false;
    }
    if l.retry.circuit == Closed && l.retry.openedAt != None {
      return false;
    }
    if l.retry.circuit == Open && (l.retry.openedAt == None || l.retry.next == None) {
      return false;
    }
    if l.retry.failures == 0 && (l.retry.code != None || l.retry.next != None || l.retry.circuit != Closed) {
      return false;
    }
    if l.attempt.Some? {
      var attempt := l.attempt.value;
      if attempt.number < 1 || Counter(l, attempt.transition) != attempt.number || (!paused && l.status != Active) {
        return false;
      }
    } else if !paused && MisplacedRest(l) {
      return false;
    }
    ok := EventChain.Validate(hash, l.chain);
  }

  /** The checks on a run that is neither paused nor in an attempt. */
  predicate MisplacedRest(l: Ledger) {
    var ended := l.status == Blocked || l.status == Failed;
    var over := l.budget.turns > l.budget.maxTurns || l.budget.input > l.budget.maxInput
                || l.budget.output > l.budget.maxOutput;
    || (l.retry.next != None && l.status != Waiting)
    || (l.retry.code != None && l.retry.next == None && !ended)
    || (l.next == Done && l.status != Status.Complete && l.status != Failed)
    || ((l.next == WaitHuman || l.next == WaitWebVerdict) && l.retry.next == None && l.status != Waiting && !ended)
    || (over && l.next != Done && !ended)
  }

  class Book {
    var status: Status
    var reason: Option<string>
    var next: Transition
    var attempt: Option<Attempt>
    var last: Option<Transition>
    var counters: map<Transition, nat>
    var budget: Budget
    var retry: Retry
    var diagnostics: seq<Diagnostic>
    var chain: EventChain.Chain
    var created: Time
    var updated: Time

    function Value(): Ledger
      reads this
    {
      Ledger(status, reason, next, attempt, last, counters, budget, retry, diagnostics, chain, created, updated)
    }

    /** loadOrCreateUnlocked: the stored ledger, or a new one. */
    constructor (hash: EventChain.Body -> Digest, stored: Option<Ledger>, now: Time, data: Digest)
      ensures Value() == if stored.Some? then stored.value else Create(hash, now, data)
    {
      var l := if stored.Some? then stored.value else Create(hash, now, data);
      status, reason, next, attempt, last, counters := l.status, l.reason, l.next, l.attempt, l.last, l.counters;
      budget, retry, diagnostics, chain, created, updated := l.budget, l.retry, l.diagnostics, l.chain, l.created,
          l.updated;
    }

    /** appendLedgerEvent. */
    method Append(hash: EventChain.Body -> Digest, kind: string, c: Call)
      modifies `chain, `updated
      ensures Value() == Log(hash, old(Value()), kind, c)
    {
      chain := EventChain.Push(hash, chain, EventChain.Entry(kind, c.now, c.data));
      updated := c.now;
    }

    /** recordDiagnostic. */
    method Note(code: string, message: string, now: Time)
      modifies `diagnostics, `updated
      ensures diagnostics == Noted(old(diagnostics), code, message, now) && updated == now
    {
      var short, text := Cut(code, 128), Cut(message, MAX_TEXT);
      FoundDiagnostic(diagnostics, short, text);
      var existing := FindDiagnostic(diagnostics, short, text);
      if existing.Some? {
        var d := diagnostics[existing.value];
        diagnostics := diagnostics[existing.value := d.(count := d.count + 1, last := now)];
      } else {
        diagnostics := diagnostics + [Diagnostic(short, text, 1, now, now)];
        if |diagnostics| > MAX_DIAGNOSTICS {
          diagnostics := diagnostics[|diagnostics| - MAX_DIAGNOSTICS..];
        }
      }
      updated := now;
    }

    method Checkpoint(hash: EventChain.Body -> Digest, c: Call) returns (outcome: Outcome)
      requires c.step.Checkpoint?
      modifies this
      ensures outcome == CheckpointAttempt(hash, old(Value()), c)
      ensures Value() == if outcome.Write? then outcome.ledger else old(Value())
    {
      hide EventChain.Append, AttemptKind;
      outcome := Refuse(hash, c);
      if !outcome.Write? {
        return;
      }
      var transition := c.step.transition;
      var number := Counter(Value(), transition) + 1;
      counters := counters[transition := number];
      attempt := Some(Attempt(transition, c.step.request, number));
      budget := budget.(total := budget.total + 1);
      status := Active;
      retry := retry.(next := None, circuit := if retry.circuit.Open? then HalfOpen else retry.circuit);
      Append(hash, AttemptKind(transition), c);
      outcome := Write(Value());
    }

    /** The checks of checkpointAttempt, in order; Write means that the attempt may start. */
    method Refuse(hash: EventChain.Body -> Digest, c: Call) returns (answer: Outcome)
      requires c.step.Checkpoint?
      ensures answer.Write? <==> CheckpointAttempt(hash, Value(), c).Write?
      ensures !answer.Write? ==> answer == CheckpointAttempt(hash, Value(), c)
    {
      hide EventChain.Append, AttemptKind;
      var transition := c.step.transition;
      if status.Paused? {
        return Refused(IsPaused);
      }
      if Terminal(status) {
        return Refused(IsTerminal);
      }
      if retry.next.Some? && retry.next.value > c.now {
        return Refused(NotDue);
      }
      if c.now - budget.started > budget.maxElapsed || (transition.ExecuteRegisteredPack? && Unavailable(budget)) {
        return Refused(BudgetExhausted);
      }
      if attempt.Some? {
        return if attempt.value.transition != transition || attempt.value.request != c.step.request
          then Refused(AttemptConflict) else Same;
      }
      if budget.total >= budget.maxTotal || Counter(Value(), transition) + 1 > budget.maxPerTransition {
        return Refused(BudgetExhausted);
      }
      answer := Write(Value());
    }

    method Succeed(hash: EventChain.Body -> Digest, c: Call) returns (outcome: Outcome)
      requires c.step.CompleteAttempt?
      modifies this
      ensures outcome == Finish(hash, old(Value()), c)
      ensures Value() == if outcome.Write? then outcome.ledger else old(Value())
    {
      hide Succeeded, EventChain.Append;
      if attempt.None? {
        return Refused(AttemptMissing);
      }
      if attempt.value != c.step.id {
        return Refused(AttemptConflict);
      }
      Account(c);
      Append(hash, "attempt:succeeded", c);
      attempt := None;
      outcome := Write(Value());
    }

    /** The success itself; the attempt is cleared once it is logged. */
    method Account(c: Call)
      requires c.step.CompleteAttempt? && attempt.Some?
      modifies this
      ensures Value().(attempt := None) == Succeeded(old(Value()), c).(updated := updated)
    {
      hide BudgetNoted, Exceeded, Waits, Spent;
      last, next, retry := Some(attempt.value.transition), c.step.next, CLEAR;
      budget := Spent(budget, c.step.usage);
      Settle(c.now);
    }

    /** The status after a success. */
    method Settle(now: Time)
      modifies `status, `diagnostics, `updated
      ensures var blocks := !old(status).Paused? && Exceeded(budget) && !next.Done?;
              && status == (if old(status).Paused? then Paused
                            else if blocks then Blocked
                            else if next.Done? then Status.Complete
                            else if Waits(next) then Waiting
                            else Active)
              && diagnostics == (if blocks then BudgetNoted(old(diagnostics), now) else old(diagnostics))
    {
      if !status.Paused? {
        if Exceeded(budget) && !next.Done? {
          NoteBudget(now);
          status := Blocked;
        } else if next.Done? {
          status := Status.Complete;
        } else {
          status := if Waits(next) then Waiting else Active;
        }
      }
    }

    method NoteBudget(now: Time)
      modifies `diagnostics, `updated
      ensures diagnostics == BudgetNoted(old(diagnostics), now) && updated == now
    {
      hide Noted;
      Note("ORCHESTRATION_BUDGET_EXHAUSTED", EXHAUSTED, now);
    }

    method FailWith(hash: EventChain.Body -> Digest, c: Call) returns (outcome: Outcome)
      requires c.step.FailAttempt?
      modifies this
      ensures outcome == Fail(hash, old(Value()), c)
      ensures Value() == if outcome.Write? then outcome.ledger else old(Value())
    {
      hide FailedLedger, EventChain.Append;
      if attempt.None? {
        return Refused(AttemptMissing);
      }
      if attempt.value != c.step.id {
        return Refused(AttemptConflict);
      }
      Charge(c);
      Append(hash, "attempt:failed", c);
      attempt := None;
      outcome := Write(Value());
    }

    /** The failure itself; the attempt is cleared once it is logged. */
    method Charge(c: Call)
      requires c.step.FailAttempt?
      modifies this
      ensures Value().(attempt := None) == FailedLedger(old(Value()), c).(updated := updated)
    {
      hide Noted;
      var paused := status.Paused?;
      retry := retry.(failures := retry.failures + 1, code := Some(c.step.code));
      Note(c.step.code, c.step.message, c.now);
      match c.step.decision {
        case RetryAfter(delay) =>
          retry, status := retry.(next := Some(c.now + delay)), Waiting;
        case CircuitOpens(delay) =>
          retry := retry.(circuit := Open, openedAt := Some(c.now), next := Some(c.now + delay));
          status := Waiting;
        case Stop =>
          retry, status := retry.(next := None), Blocked;
      }
      if paused {
        status := Paused;
      }
    }

    method Suspend(hash: EventChain.Body -> Digest, c: Call) returns (outcome: Outcome)
      requires c.step.Pause?
      modifies this
      ensures outcome == PauseRun(hash, old(Value()), c)
      ensures Value() == if outcome.Write? then outcome.ledger else old(Value())
    {
      if Terminal(status) {
        return Refused(IsTerminal);
      }
      status, reason := Paused, Some(Cut(c.step.reason, MAX_TEXT));
      Append(hash, "run:paused", c);
      outcome := Write(Value());
    }

    method Continue(hash: EventChain.Body -> Digest, c: Call) returns (outcome: Outcome)
      requires c.step.Resume?
      modifies this
      ensures outcome == ResumeRun(hash, old(Value()), c)
      ensures Value() == if outcome.Write? then outcome.ledger else old(Value())
    {
      if !status.Paused? {
        return Same;
      }
      reason := None;
      status := Restored(Value(), c.now);
      Append(hash, "run:resumed", c);
      outcome := Write(Value());
    }
  }
}
