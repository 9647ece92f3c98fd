/**
 Where the operations of the controller move a run (src/orchestration/controller.ts): what each stored
 ledger holds, field by field, and how far a run gets.
 */
module RunProgress {
  import opened Prelude
  import opened Controller
  import EventChain

  // ----- Reporting an attempt ------------------------------------------------------------------

  /** The attempt has succeeded under its own identity, with totals that can be stored. */
  predicate Reports(l: Ledger, c: Call) {
    && c.step.CompleteAttempt? && l.attempt == Some(c.step.id)
    && l.budget.turns + c.step.usage.turns <= 9_007_199_254_740_991
    && l.budget.input + c.step.usage.input <= 9_007_199_254_740_991
    && l.budget.output + c.step.usage.output <= 9_007_199_254_740_991
  }

  /** Over one of the three model limits. */
  predicate Over(b: Budget) {
    !(b.turns <= b.maxTurns && b.input <= b.maxInput && b.output <= b.maxOutput)
  }

  /** The next transition is not the run's to start. */
  predicate Pends(t: Transition) {
    t == WaitHuman || t == WaitWebVerdict
  }

  /** The parts of a ledger that no report of an attempt changes. */
  predicate SameRun(l: Ledger, next: Ledger) {
    && next.counters == l.counters && next.reason == l.reason && next.created == l.created
    && next.budget.total == l.budget.total && next.budget.started == l.budget.started
    && next.budget.maxPerTransition == l.budget.maxPerTransition && next.budget.maxTotal == l.budget.maxTotal
    && next.budget.maxElapsed == l.budget.maxElapsed && next.budget.maxTurns == l.budget.maxTurns
    && next.budget.maxInput == l.budget.maxInput && next.budget.maxOutput == l.budget.maxOutput
  }

  /** One more event of this kind, at this time, with this data. */
  predicate Logged(l: Ledger, next: Ledger, kind: string, c: Call) {
    && next.chain.compacted + |next.chain.events| == l.chain.compacted + |l.chain.events| + 1
    && next.updated == c.now && next.chain.events != []
    && var body := next.chain.events[|next.chain.events| - 1].body;
    && body.sequence == l.chain.compacted + |l.chain.events| + 1
    && body.kind == kind && body.at == c.now && body.data == c.data
  }

  lemma LogLogs(hash: EventChain.Body -> Digest, l: Ledger, kind: string, c: Call)
    requires |l.chain.events| <= EventChain.MAX_EVENTS && |kind| <= 128
    ensures Logged(l, Log(hash, l, kind, c), kind, c)
  {
    var entry := EventChain.Entry(kind, c.now, c.data);
    var event := EventChain.Seal(hash, l.chain.compacted + |l.chain.events| + 1, entry, EventChain.Tip(l.chain));
    EventChain.CompactAtMostOne(l.chain.(events := l.chain.events + [event]));
    hide EventChain.Compact;
  }

  /** Some diagnostic of this code and message was last seen now. */
  ghost predicate SeenNow(ds: seq<Diagnostic>, code: string, message: string, now: Time) {
    exists i :: 0 <= i < |ds| && ds[i].last == now
      && ds[i].code == code[..Least(|code|, 128)] && ds[i].message == message[..Least(|message|, 4096)]
  }

  function Least(a: nat, b: nat): (r: nat)
    ensures r <= a && r <= b && (r == a || r == b)
  {
    if a <= b then a else b
  }

  lemma NotedIsSeen(ds: seq<Diagnostic>, code: string, message: string, now: Time)
    ensures SeenNow(Noted(ds, code, message, now), code, message, now)
    ensures |Noted(ds, code, message, now)| <= |ds| + 1 && (|ds| <= 64 ==> |Noted(ds, code, message, now)| <= 64)
  {
    var short, text := Cut(code, 128), Cut(message, MAX_TEXT);
    assert short == code[..Least(|code|, 128)] && text == message[..Least(|message|, 4096)];
    FoundDiagnostic(ds, short, text);
    var found, noted := FindDiagnostic(ds, short, text), Noted(ds, code, message, now);
    hide FindDiagnostic, Cut;
    var i := if found.Some? then found.value else |noted| - 1;
    assert noted[i].code == short && noted[i].message == text && noted[i].last == now;
  }

  lemma {:induction false} FirstFound(ds: seq<Diagnostic>, code: string, message: string, i: nat)
    requires i < |ds| && ds[i].code == code && ds[i].message == message
    requires forall j :: 0 <= j < i ==> ds[j].code != code || ds[j].message != message
    ensures FindDiagnostic(ds, code, message) == Some(i)
  {
    if i > 0 {
      FirstFound(ds[1..], code, message, i - 1);
    }
  }

  lemma {:induction false} NotFound(ds: seq<Diagnostic>, code: string, message: string)
    requires forall j :: 0 <= j < |ds| ==> ds[j].code != code || ds[j].message != message
    ensures FindDiagnostic(ds, code, message) == None
  {
    if ds != [] {
      NotFound(ds[1..], code, message);
    }
  }

  /** A repeated diagnostic is counted where it stands; a new one goes to the end, and the oldest makes room for it. */
  lemma NotedCounts(ds: seq<Diagnostic>, code: string, message: string, now: Time, i: nat)
    requires i <= |ds| <= 64
    requires var (short, text) := (code[..Least(|code|, 128)], message[..Least(|message|, 4096)]);
             && (i < |ds| ==> ds[i].code == short && ds[i].message == text)
             && forall j :: 0 <= j < i ==> ds[j].code != short || ds[j].message != text
    ensures i < |ds| ==> Noted(ds, code, message, now) == ds[i := ds[i].(count := ds[i].count + 1, last := now)]
    ensures i == |ds| ==>
              var added := Diagnostic(code[..Least(|code|, 128)], message[..Least(|message|, 4096)], 1, now, now);
              Noted(ds, code, message, now) == (if |ds| == 64 then ds[1..] else ds) + [added]
  {
    var short, text := Cut(code, 128), Cut(message, MAX_TEXT);
    assert short == code[..Least(|code|, 128)] && text == message[..Least(|message|, 4096)];
    if i < |ds| {
      FirstFound(ds, short, text, i);
    } else {
      NotFound(ds, short, text);
    }
    hide FindDiagnostic;
  }

  /**
   A stored success moves the run to the transition its caller names: the finished transition becomes the last
   one, nothing is retried, each model total grows by its own part of the usage, and the status is COMPLETE,
   BLOCKED, WAITING or ACTIVE by the new totals and that transition, unless the run is paused.
   */
  lemma SuccessMoves(hash: EventChain.Body -> Digest, l: Ledger, c: Call)
    requires Good(hash, l, c.now) && Reports(l, c)
    ensures var next := Persist(hash, l, c);
            && SameRun(l, next) && Logged(l, next, "attempt:succeeded", c)
            && next.next == c.step.next && next.last == Some(c.step.id.transition) && next.attempt == None
            && next.retry == Retry(0, None, Closed, None, None)
            && next.budget.turns == l.budget.turns + c.step.usage.turns
            && next.budget.input == l.budget.input + c.step.usage.input
            && next.budget.output == l.budget.output + c.step.usage.output
            && (l.status.Paused? ==> next.status == Paused)
            && (!l.status.Paused? && c.step.next == Done ==> next.status == Status.Complete)
            && (!l.status.Paused? && c.step.next != Done && Over(next.budget) ==> next.status == Blocked)
            && (!l.status.Paused? && !Over(next.budget) && Pends(c.step.next) ==> next.status == Waiting)
            && (!l.status.Paused? && !Over(next.budget) && c.step.next != Done && !Pends(c.step.next) ==>
                  next.status == Active)
            && (next.status == Blocked ==>
                  SeenNow(next.diagnostics, "ORCHESTRATION_BUDGET_EXHAUSTED", EXHAUSTED, c.now))
            && (next.status != Blocked ==> next.diagnostics == l.diagnostics)
  {
    CompleteKeeps(hash, l, c);
    LogLogs(hash, Succeeded(l, c), "attempt:succeeded", c);
    NotedIsSeen(l.diagnostics, "ORCHESTRATION_BUDGET_EXHAUSTED", EXHAUSTED, c.now);
    hide Good, Valid, Noted, SeenNow, EventChain.Append;
  }

  /** The attempt has failed under its own identity, with a code that can be stored. */
  predicate Fails(l: Ledger, c: Call) {
    c.step.FailAttempt? && l.attempt == Some(c.step.id) && 1 <= |c.step.code| <= 256
  }

  /**
   A stored failure leaves the run where it is and counts it: a retry waits for its delay, an opened circuit too
   and says so, and a failure that is not retried blocks the run; a paused run stays paused.
   */
  lemma FailureSchedules(hash: EventChain.Body -> Digest, l: Ledger, c: Call)
    requires Good(hash, l, c.now) && Fails(l, c)
    ensures var next := Persist(hash, l, c);
            && SameRun(l, next) && next.budget == l.budget && Logged(l, next, "attempt:failed", c)
            && next.next == l.next && next.last == l.last && next.attempt == None
            && next.retry.failures == l.retry.failures + 1 && next.retry.code == Some(c.step.code)
            && SeenNow(next.diagnostics, c.step.code, c.step.message, c.now)
            && (match c.step.decision
                case RetryAfter(delay) =>
                  && next.retry.next == Some(c.now + delay)
                  && next.retry.circuit == l.retry.circuit && next.retry.openedAt == l.retry.openedAt
                  && next.status == if l.status.Paused? then Paused else Waiting
                case CircuitOpens(delay) =>
                  && next.retry.next == Some(c.now + delay)
                  && next.retry.circuit == Open && next.retry.openedAt == Some(c.now)
                  && next.status == if l.status.Paused? then Paused else Waiting
                case Stop =>
                  && next.retry.next == None
                  && next.retry.circuit == l.retry.circuit && next.retry.openedAt == l.retry.openedAt
                  && next.status == if l.status.Paused? then Paused else Blocked)
  {
    FailKeeps(hash, l, c);
    LogLogs(hash, FailedLedger(l, c), "attempt:failed", c);
    NotedIsSeen(l.diagnostics, c.step.code, c.step.message, c.now);
    hide Good, Valid, Noted, SeenNow, EventChain.Append;
  }

  /** A report of an attempt that is not the running one changes nothing, and says why. */
  lemma StrayReportIsRefused(hash: EventChain.Body -> Digest, l: Ledger, c: Call)
    requires (c.step.CompleteAttempt? || c.step.FailAttempt?) && l.attempt != Some(c.step.id)
    ensures Persist(hash, l, c) == l
    ensures Apply(hash, l, c) == Refused(if l.attempt == None then AttemptMissing else AttemptConflict)
  {
  }

  // ----- A new run ------------------------------------------------------------------------------

  /** A new run is ACTIVE at its first transition, with nothing counted and the limits of the product. */
  lemma NewRunIs(hash: EventChain.Body -> Digest, now: Time, data: Digest)
    ensures var l := Create(hash, now, data);
            && l.status == Active && l.reason == None && l.next == RegisterWebPack && l.attempt == None
            && l.last == None
            && (forall t :: Counter(l, t) == 0) && l.diagnostics == [] && l.created == now && l.updated == now
            && l.retry == Retry(0, None, Closed, None, None)
            && l.budget == Budget(4, 24, 24 * 60 * 60 * 1000, 32, 1_000_000, 250_000, 0, 0, 0, 0, now)
            && |l.chain.events| == 1 && l.chain.compacted == 0 && l.chain.events[0].body.kind == "ledger:created"
            && l.chain.events[0].body.at == now && l.chain.events[0].body.data == data
  {
    LogLogs(hash, CreateAt(now), "ledger:created", Call(Step.Resume, now, data));
    forall t ensures Counter(Create(hash, now, data), t) == 0 {
      Listed(t);
    }
  }

  // ----- Starting an attempt --------------------------------------------------------------------

  /** When an attempt of this transition may start. */
  predicate MayStart(l: Ledger, t: Transition, now: Time) {
    && (l.status == Active || l.status == Waiting) && l.attempt == None
    && (l.retry.next.Some? ==> l.retry.next.value <= now)
    && now <= l.budget.started + l.budget.maxElapsed
    && (t == ExecuteRegisteredPack ==>
          && l.budget.turns < l.budget.maxTurns && l.budget.input < l.budget.maxInput
          && l.budget.output < l.budget.maxOutput)
    && l.budget.total < l.budget.maxTotal && Counter(l, t) < l.budget.maxPerTransition
  }

  /** An attempt starts exactly when it may; it counts once, and nothing else moves but a due retry. */
  lemma CheckpointStartsExactly(hash: EventChain.Body -> Digest, l: Ledger, c: Call)
    requires Good(hash, l, c.now) && c.step.Checkpoint?
    ensures Apply(hash, l, c).Write? <==> MayStart(l, c.step.transition, c.now)
    ensures !MayStart(l, c.step.transition, c.now) ==> Persist(hash, l, c) == l
    ensures MayStart(l, c.step.transition, c.now) ==>
              var next, t := Persist(hash, l, c), c.step.transition;
              && Logged(l, next, AttemptKind(t), c)
              && next.status == Active && next.attempt == Some(Attempt(t, c.step.request, Counter(l, t) + 1))
              && Counter(next, t) == Counter(l, t) + 1
              && (forall u :: u != t ==> Counter(next, u) == Counter(l, u))
              && next.budget == l.budget.(total := l.budget.total + 1)
              && next.next == l.next && next.last == l.last && next.reason == l.reason
              && next.diagnostics == l.diagnostics && next.created == l.created
              && next.retry.next == None && next.retry.failures == l.retry.failures && next.retry.code == l.retry.code
              && next.retry.openedAt == l.retry.openedAt
              && next.retry.circuit == if l.retry.circuit == Open then HalfOpen else l.retry.circuit
  {
    if CheckpointAttempt(hash, l, c).Write? {
      CheckpointKeeps(hash, l, c);
      GoodIsValid(hash, CheckpointAttempt(hash, l, c).ledger, c.now);
      Starts(hash, l, c);
    }
    hide Good, EventChain.Append, AttemptKind, Log, Valid;
  }

  /** The event of a started attempt names its transition. */
  lemma KindNamesTransition(t: Transition, u: Transition)
    ensures AttemptKind(t) == AttemptKind(u) <==> t == u
    ensures |AttemptKind(t)| >= 8 && AttemptKind(t)[..8] == "attempt:"
    ensures AttemptKind(t) != "attempt:succeeded" && AttemptKind(t) != "attempt:failed"
  {
  }

  lemma Starts(hash: EventChain.Body -> Digest, l: Ledger, c: Call)
    requires Good(hash, l, c.now) && c.step.Checkpoint? && CheckpointAttempt(hash, l, c).Write?
    ensures Logged(l, CheckpointAttempt(hash, l, c).ledger, AttemptKind(c.step.transition), c)
  {
    var t := c.step.transition;
    var number := Counter(l, t) + 1;
    var begun :=
      l.(counters := l.counters[t := number], attempt := Some(Attempt(t, c.step.request, number)),
         budget := l.budget.(total := l.budget.total + 1), status := Active,
         retry := l.retry.(next := None, circuit := if l.retry.circuit.Open? then HalfOpen else l.retry.circuit));
    LogLogs(hash, begun, AttemptKind(t), c);
    hide AttemptKind, EventChain.Append, Good, Logged;
  }

  // ----- Pausing and resuming -----------------------------------------------------------------

  /** A pause is refused exactly for a BLOCKED, FAILED or COMPLETE run, and changes the status and the reason only. */
  lemma PauseOnlyPauses(hash: EventChain.Body -> Digest, l: Ledger, c: Call)
    requires Good(hash, l, c.now) && c.step.Pause?
    ensures var ended := l.status == Blocked || l.status == Failed || l.status == Status.Complete;
            var next := Persist(hash, l, c);
            && (ended ==> next == l && Apply(hash, l, c) == Refused(IsTerminal))
            && (!ended ==>
                  && Logged(l, next, "run:paused", c)
                  && next == l.(status := Paused, reason := Some(c.step.reason[..Least(|c.step.reason|, 4096)]),
                                chain := next.chain, updated := c.now))
  {
    assert Cut(c.step.reason, MAX_TEXT) == c.step.reason[..Least(|c.step.reason|, 4096)];
    if PauseRun(hash, l, c).Write? {
      PauseKeeps(hash, l, c);
      GoodIsValid(hash, PauseRun(hash, l, c).ledger, c.now);
      LogLogs(hash, l.(status := Paused, reason := Some(Cut(c.step.reason, MAX_TEXT))), "run:paused", c);
    }
    hide Good, Valid, EventChain.Append, Logged;
  }

  /**
   A resume leaves the pause, whatever the run was doing: with an attempt under way it is ACTIVE again, a finished
   run is COMPLETE, a run over its model limits or with a failure that is not retried is BLOCKED, one that waits
   for a human, a verdict or a retry is WAITING, and any other is ACTIVE. A run past its retry deadline stays
   as it was.
   */
  lemma ResumeRestores(hash: EventChain.Body -> Digest, l: Ledger, c: Call)
    requires Good(hash, l, c.now) && c.step.Resume? && l.status == Paused
    ensures var next := Persist(hash, l, c);
            var late := l.attempt == None && l.retry.next.Some? && l.retry.next.value <= c.now
                        && !Pends(l.next);
            && (late ==> next == l)
            && (!late ==>
                  && Logged(l, next, "run:resumed", c)
                  && next == l.(status := next.status, reason := None, chain := next.chain, updated := c.now)
                  && (l.attempt != None ==> next.status == Active)
                  && (l.attempt == None && l.next == Done ==> next.status == Status.Complete)
                  && (l.attempt == None && l.next != Done && Over(l.budget) ==> next.status == Blocked)
                  && (l.attempt == None && l.retry.code != None && l.retry.next == None ==> next.status == Blocked)
                  && (l.attempt == None && l.retry.next != None ==> next.status == Waiting)
                  && (l.attempt == None && !Over(l.budget) && l.retry.code == None && Pends(l.next) ==>
                        next.status == Waiting)
                  && (l.attempt == None && !Over(l.budget) && l.retry == CLEAR && l.next != Done && !Pends(l.next) ==>
                        next.status == Active))
  {
    ResumeKeeps(hash, l, c);
    LogLogs(hash, l.(status := Restored(l, c.now), reason := None), "run:resumed", c);
    assert l.retry.next.Some? ==> l.attempt.Some? || (!Over(l.budget) && l.next != Done);
    hide Valid, EventChain.Append, Logged;
  }

  // ----- Runs --------------------------------------------------------------------------------

  /** The successes that a run stores, in order. */
  ghost function Successes(hash: EventChain.Body -> Digest, l: Ledger, calls: seq<Call>): (reports: seq<Call>)
    ensures forall i :: 0 <= i < |reports| ==> reports[i].step.CompleteAttempt?
    decreases |calls|
  {
    if calls == [] then []
    else (if Reports(l, calls[0]) then [calls[0]] else []) + Successes(hash, Persist(hash, l, calls[0]), calls[1..])
  }

  function TurnsOf(reports: seq<Call>): nat
    requires forall i :: 0 <= i < |reports| ==> reports[i].step.CompleteAttempt?
  {
    if reports == [] then 0 else reports[0].step.usage.turns + TurnsOf(reports[1..])
  }

  function InputOf(reports: seq<Call>): nat
    requires forall i :: 0 <= i < |reports| ==> reports[i].step.CompleteAttempt?
  {
    if reports == [] then 0 else reports[0].step.usage.input + InputOf(reports[1..])
  }

  function OutputOf(reports: seq<Call>): nat
    requires forall i :: 0 <= i < |reports| ==> reports[i].step.CompleteAttempt?
  {
    if reports == [] then 0 else reports[0].step.usage.output + OutputOf(reports[1..])
  }

  /** Only a stored success moves a run on or adds to its model totals. */
  lemma OnlySuccessMoves(hash: EventChain.Body -> Digest, l: Ledger, c: Call, now: Time)
    requires Good(hash, l, now) && now <= c.now && !Reports(l, c)
    ensures var next := Persist(hash, l, c);
            && next.next == l.next && next.last == l.last && next.budget.turns == l.budget.turns
            && next.budget.input == l.budget.input && next.budget.output == l.budget.output
  {
    Later(hash, l, now, c.now);
    if c.step.CompleteAttempt? {
      if l.attempt == Some(c.step.id) {
        CompleteKeeps(hash, l, c);
      }
      hide Good, Valid, Succeeded, Log;
    } else {
      if Apply(hash, l, c).Write? {
        OthersStay(hash, l, c);
      }
      hide Good, Valid, Apply;
    }
  }

  lemma OthersStay(hash: EventChain.Body -> Digest, l: Ledger, c: Call)
    requires !c.step.CompleteAttempt? && Apply(hash, l, c).Write?
    ensures var next := Apply(hash, l, c).ledger;
            && next.next == l.next && next.last == l.last && next.budget.turns == l.budget.turns
            && next.budget.input == l.budget.input && next.budget.output == l.budget.output
  {
    hide EventChain.Append, Noted, AttemptKind, Restored;
  }

  /**
   Over any run the stored next transition is the one named by the last stored success, the last completed
   transition is that of its attempt, and each model total has grown by exactly what the successes reported.
   */
  lemma {:induction false} RunFollowsSuccesses(hash: EventChain.Body -> Digest, l: Ledger, calls: seq<Call>, now: Time)
    requires Good(hash, l, now) && Ticking(now, calls)
    ensures var end, reports := Run(hash, l, calls), Successes(hash, l, calls);
            && end.next == (if reports == [] then l.next else reports[|reports| - 1].step.next)
            && end.last == (if reports == [] then l.last else Some(reports[|reports| - 1].step.id.transition))
            && end.budget.turns == l.budget.turns + TurnsOf(reports)
            && end.budget.input == l.budget.input + InputOf(reports)
            && end.budget.output == l.budget.output + OutputOf(reports)
    decreases |calls|
  {
    if calls != [] {
      var c := calls[0];
      var stored := Persist(hash, l, c);
      PersistKeeps(hash, l, c, now);
      if Reports(l, c) {
        Later(hash, l, now, c.now);
        SuccessMoves(hash, l, c);
      } else {
        OnlySuccessMoves(hash, l, c, now);
      }
      hide Persist, Good, Reports;
      RunFollowsSuccesses(hash, stored, calls[1..], c.now);
      var later := Successes(hash, stored, calls[1..]);
      assert Successes(hash, l, calls) == (if Reports(l, c) then [c] + later else later);
      assert Reports(l, c) ==> ([c] + later)[1..] == later;
    }
  }

  // ----- A run that goes as planned --------------------------------------------------------------

  /** One attempt and its success: the transition that is started and the one it leads to. */
  datatype Leg = Leg(transition: Transition, next: Transition)

  /** How often a plan starts a transition. */
  function Uses(plan: seq<Leg>, t: Transition): nat {
    if plan == [] then 0 else (if plan[0].transition == t then 1 else 0) + Uses(plan[1..], t)
  }

  /** Room for the plan in the counters, and only its last leg may end the run. */
  ghost predicate Fits(l: Ledger, plan: seq<Leg>) {
    && l.budget.total + |plan| <= l.budget.maxTotal
    && (forall t :: Counter(l, t) + Uses(plan, t) <= l.budget.maxPerTransition)
    && (forall i :: 0 <= i < |plan| - 1 ==> plan[i].next != Done)
  }

  /** At rest with nothing to retry and no model limit reached. */
  predicate AtRest(l: Ledger, now: Time) {
    && (l.status == Active || l.status == Waiting) && l.attempt == None && l.retry == Retry(0, None, Closed, None, None)
    && now <= l.budget.started + l.budget.maxElapsed
    && l.budget.turns < l.budget.maxTurns && l.budget.input < l.budget.maxInput && l.budget.output < l.budget.maxOutput
  }

  /** Each leg is a checkpoint and the report of its success, without model use. */
  predicate Follows(calls: seq<Call>, plan: seq<Leg>) {
    && |calls| == 2 * |plan|
    && forall i :: 0 <= i < |plan| ==>
         && calls[2 * i].step == Checkpoint(plan[i].transition, "r")
         && calls[2 * i + 1].step.CompleteAttempt? && calls[2 * i + 1].step.next == plan[i].next
         && calls[2 * i + 1].step.id.transition == plan[i].transition
  }

  /** One leg from rest ends at rest again, or COMPLETE. */
  lemma LegMoves(hash: EventChain.Body -> Digest, l: Ledger, leg: Leg, now: Time) returns (start: Call, report: Call)
    requires Good(hash, l, now) && AtRest(l, now)
    requires l.budget.total < l.budget.maxTotal && Counter(l, leg.transition) < l.budget.maxPerTransition
    ensures start.now == now && report.now == now && start.step == Checkpoint(leg.transition, "r")
    ensures report.step.CompleteAttempt? && report.step.next == leg.next && report.step.id.transition == leg.transition
    ensures var next := Persist(hash, Persist(hash, l, start), report);
            && Good(hash, next, now) && next.next == leg.next && next.last == Some(leg.transition)
            && (forall t :: Counter(next, t) == Counter(l, t) + if t == leg.transition then 1 else 0)
            && next.budget == l.budget.(total := l.budget.total + 1)
            && (if leg.next == Done then next.status == Status.Complete else AtRest(next, now))
  {
    start := Call(Checkpoint(leg.transition, "r"), now, "d");
    PersistKeeps(hash, l, start, now);
    CheckpointStartsExactly(hash, l, start);
    var begun := Persist(hash, l, start);
    report := Call(CompleteAttempt(begun.attempt.value, leg.next, Usage(0, 0, 0)), now, "d");
    assert Reports(begun, report) by { Safe(hash, begun, now); }
    PersistKeeps(hash, begun, report, now);
    SuccessMoves(hash, begun, report);
    hide Good, Persist, SeenNow, Logged;
  }

  lemma Safe(hash: EventChain.Body -> Digest, l: Ledger, now: Time)
    requires Good(hash, l, now)
    ensures l.budget.turns <= MAX_SAFE && l.budget.input <= MAX_SAFE && l.budget.output <= MAX_SAFE
  {
  }

  /** Any plan within the attempt budget is carried out: the run ends at the transition its last leg leads to. */
  lemma {:induction false} PlanIsCarriedOut(hash: EventChain.Body -> Digest, l: Ledger, plan: seq<Leg>, now: Time)
    returns (calls: seq<Call>)
    requires Good(hash, l, now) && AtRest(l, now) && Fits(l, plan) && plan != []
    ensures Follows(calls, plan) && forall i :: 0 <= i < |calls| ==> calls[i].now == now
    ensures var end := Run(hash, l, calls);
            && end.next == plan[|plan| - 1].next && end.last == Some(plan[|plan| - 1].transition)
            && (end.next == Done ==> end.status == Status.Complete) && (end.next != Done ==> AtRest(end, now))
            && end.budget.total == l.budget.total + |plan|
    decreases |plan|
  {
    hide Good, Persist, AtRest, Run, Follows, Uses, Counter;
    FitsFirst(l, plan);
    var start, report := LegMoves(hash, l, plan[0], now);
    var next := Persist(hash, Persist(hash, l, start), report);
    TwoCalls(hash, l, start, report, []);
    calls := [start, report];
    FollowsOne(start, report, plan[0]);
    if |plan| == 1 {
      assert plan == [plan[0]];
    } else {
      FitsRest(l, next, plan);
      hide Fits;
      var later := PlanIsCarriedOut(hash, next, plan[1..], now);
      TwoCalls(hash, l, start, report, later);
      calls := [start, report] + later;
      FollowsRest(start, report, later, plan);
    }
  }

  lemma FitsFirst(l: Ledger, plan: seq<Leg>)
    requires Fits(l, plan) && plan != []
    ensures l.budget.total < l.budget.maxTotal && Counter(l, plan[0].transition) < l.budget.maxPerTransition
    ensures |plan| > 1 ==> plan[0].next != Done
  {
    assert Counter(l, plan[0].transition) + Uses(plan, plan[0].transition) <= l.budget.maxPerTransition;
  }

  lemma FollowsOne(start: Call, report: Call, leg: Leg)
    requires start.step == Checkpoint(leg.transition, "r")
    requires report.step.CompleteAttempt? && report.step.next == leg.next && report.step.id.transition == leg.transition
    ensures Follows([start, report], [leg])
  {
  }

  lemma FitsRest(l: Ledger, next: Ledger, plan: seq<Leg>)
    requires |plan| > 1 && Fits(l, plan) && next.budget == l.budget.(total := l.budget.total + 1)
    requires forall t :: Counter(next, t) == Counter(l, t) + if t == plan[0].transition then 1 else 0
    ensures Fits(next, plan[1..])
  {
    forall t ensures Counter(next, t) + Uses(plan[1..], t) <= next.budget.maxPerTransition {
      assert Counter(next, t) + Uses(plan[1..], t) == Counter(l, t) + Uses(plan, t);
    }
    assert forall i :: 0 <= i < |plan| - 1 ==> plan[1..][i] == plan[i + 1];
  }

  lemma FollowsRest(start: Call, report: Call, later: seq<Call>, plan: seq<Leg>)
    requires |plan| > 1 && Follows([start, report], [plan[0]]) && Follows(later, plan[1..])
    ensures Follows([start, report] + later, plan)
  {
    var calls := [start, report] + later;
    assert calls[0] == [start, report][2 * 0] && calls[1] == [start, report][2 * 0 + 1];
    forall i | 0 <= i < |plan| ensures Follows([calls[2 * i], calls[2 * i + 1]], [plan[i]]) {
      if i > 0 {
        assert calls[2 * i] == later[2 * (i - 1)] && calls[2 * i + 1] == later[2 * (i - 1) + 1];
        assert plan[1..][i - 1] == plan[i];
      }
    }
    forall i | 0 <= i < |plan|
      ensures calls[2 * i].step == Checkpoint(plan[i].transition, "r")
      ensures calls[2 * i + 1].step.CompleteAttempt? && calls[2 * i + 1].step.next == plan[i].next
      ensures calls[2 * i + 1].step.id.transition == plan[i].transition
    {
      var pair := [calls[2 * i], calls[2 * i + 1]];
      assert Follows(pair, [plan[i]]) && pair[2 * 0] == calls[2 * i] && pair[2 * 0 + 1] == calls[2 * i + 1];
    }
  }

  lemma TwoCalls(hash: EventChain.Body -> Digest, l: Ledger, a: Call, b: Call, later: seq<Call>)
    ensures Run(hash, l, [a, b] + later) == Run(hash, Persist(hash, Persist(hash, l, a), b), later)
    ensures Run(hash, l, [a, b]) == Persist(hash, Persist(hash, l, a), b)
  {
    hide Persist;
    var calls := [a, b] + later;
    assert calls[1..] == [b] + later && ([b] + later)[1..] == later;
    var both := [a, b];
    assert both[1..] == [b] && [b][1..] == [];
    assert Run(hash, l, both) == Run(hash, Persist(hash, l, a), [b]);
  }

  lemma {:induction false} UsedOnce(plan: seq<Leg>, t: Transition)
    requires forall i, j :: 0 <= i < j < |plan| ==> plan[i].transition != plan[j].transition
    ensures Uses(plan, t) <= 1 && (Uses(plan, t) == 1 ==> exists i :: 0 <= i < |plan| && plan[i].transition == t)
  {
    if plan != [] {
      UsedOnce(plan[1..], t);
    }
  }

  /** From a new run: the path of the product, each transition once, ends COMPLETE. */
  lemma NewRunCanComplete(hash: EventChain.Body -> Digest, now: Time, data: Digest) returns (calls: seq<Call>)
    ensures var end := Run(hash, Create(hash, now, data), calls);
            end.next == Done && end.status == Status.Complete && end.last == Some(WaitWebVerdict)
  {
    var plan := [Leg(RegisterWebPack, ExecuteRegisteredPack), Leg(ExecuteRegisteredPack, Publish),
                 Leg(Publish, OpenDraftPr), Leg(OpenDraftPr, PackageResult), Leg(PackageResult, WaitWebVerdict),
                 Leg(WaitWebVerdict, Done)];
    var l := Create(hash, now, data);
    CreateIsGood(hash, now, data);
    forall t ensures Counter(l, t) == 0 {
      Listed(t);
    }
    forall t ensures Uses(plan, t) <= 1 {
      UsedOnce(plan, t);
    }
    assert Fits(l, plan);
    hide Create, Good, Run, Uses;
    calls := PlanIsCarriedOut(hash, l, plan, now);
  }
}
