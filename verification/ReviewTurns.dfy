/**
 The review loop of src/executor/service.ts with a budget policy: a turn is reserved and written
 before the reviewer is called, so no crash or failure can make a process call it again.
 The reviewer, the verifier, the clock and the outcome of every write are the environment's.
 */
module ReviewTurns {
  import opened Prelude
  import Effects

  datatype Kind = Terra | Sol
  datatype Verdict = Approve | Revise | Escalate
  datatype Phase = Working | Verifying | Reviewing(kind: Kind) | Repairing | Ready | EscalatedToWeb | Failed

  datatype Review = Review(verdict: Option<Verdict>, changeSet: Option<Digest>)
  datatype Usage = Usage(turns: nat, input: nat, output: nat)

  /** What a reviewer reports of its own use; it need not be a sensible number. */
  datatype Report = Report(turns: int, input: int, output: int)

  const NOTHING := Report(0, 0, 0)

  const MAX_SAFE: nat := 0x1F_FFFF_FFFF_FFFF
  const MAX_MODEL_TURNS: nat := 128
  const MAX_INPUT_TOKENS: nat := 20_000_000
  const MAX_OUTPUT_TOKENS: nat := 4_000_000

  /** The ceilings of validateReceipt: usage above them cannot be stored. */
  predicate Bounded(usage: Usage) {
    usage.turns <= MAX_MODEL_TURNS && usage.input <= MAX_INPUT_TOKENS && usage.output <= MAX_OUTPUT_TOKENS
  }

  /** A report of safe, non-negative numbers whose totals stay safe; recordUsage throws on any other. */
  predicate Countable(usage: Usage, used: Report) {
    && 0 <= used.turns <= MAX_SAFE && 0 <= used.input <= MAX_SAFE && 0 <= used.output <= MAX_SAFE
    && usage.turns + used.turns <= MAX_SAFE && usage.input + used.input <= MAX_SAFE
    && usage.output + used.output <= MAX_SAFE
  }

  function Added(usage: Usage, used: Report): Usage
    requires Countable(usage, used)
  {
    Usage(usage.turns + used.turns, usage.input + used.input, usage.output + used.output)
  }

  datatype Receipt = Receipt(phase: Phase, selection: Option<Kind>, digest: Option<Digest>, verified: bool,
                             terra: Review, sol: Review, repair: bool, usage: Usage)

  datatype Error = AmbiguousRecovery | BudgetExhausted | Refusal | Foreign
  datatype Outcome = Running | Raised(error: Error) | Crashed | Returned

  datatype Policy = Policy(turns: nat, input: nat, output: nat)

  /** What a reviewer call comes back with; Dies is a crash while the call is out. */
  datatype Answer = Result(verdict: Verdict, usage: Report, repairable: bool) | Throws(typed: bool) | Dies

  datatype RepairEnd = RepairVerified | RepairRejected | RepairThrows(typed: bool)

  /**
   One process: who it reviews with, and everything the environment decides for it. `early` is an error
   of the resume checks that come before the reviewers are looked at, `profile` a reviewer profile that
   differs from the stored one, and `apply` an error of the transaction.
   */
  datatype Config = Config(early: Option<Error>, profile: bool, apply: Option<Error>, kind: Option<Kind>,
                           policy: Policy, digest: Digest, drifts: bool, passes: bool, typed: bool,
                           late: Kind -> bool, answer: Kind -> Answer, repair: RepairEnd, faults: seq<Effects.Fault>)

  function Other(kind: Kind): Kind {
    if kind.Terra? then Sol else Terra
  }

  function ReviewOf(r: Receipt, kind: Kind): Review {
    if kind.Terra? then r.terra else r.sol
  }

  function WithReview(r: Receipt, kind: Kind, review: Review): Receipt {
    if kind.Terra? then r.(terra := review) else r.(sol := review)
  }

  predicate Terminal(phase: Phase) {
    phase.Ready? || phase.EscalatedToWeb? || phase.Failed?
  }

  predicate Approved(r: Receipt, kind: Kind) {
    ReviewOf(r, kind).verdict == Some(Approve) && r.digest.Some? && ReviewOf(r, kind).changeSet == r.digest
  }

  /** A verdict in a receipt that is not terminal is an approval of its digest, or led to a repair. */
  predicate Sensible(r: Receipt) {
    || r.phase.EscalatedToWeb? || r.phase.Failed?
    || r.repair
    || ((r.terra.verdict.Some? ==> Approved(r, Terra)) && (r.sol.verdict.Some? ==> Approved(r, Sol)))
  }

  /** assertReadyEvidence: every selected reviewer approved the digest, or its repair was verified. */
  predicate Earned(r: Receipt) {
    r.repair || ((Runs(r, Terra) ==> Approved(r, Terra)) && (Runs(r, Sol) ==> Approved(r, Sol)))
  }

  /** No later process will call this reviewer, whatever happens. */
  predicate Closed(r: Receipt, kind: Kind) {
    || Terminal(r.phase)
    || ReviewOf(r, kind).verdict.Some?
    || r.phase == Reviewing(kind)
    || r.selection == Some(Other(kind))
  }

  /** The reviewer this process answers for, and the one it will call. */
  predicate Runs(r: Receipt, kind: Kind) {
    r.selection.None? || r.selection == Some(kind)
  }

  /** A started review without a durable verdict, seen by a process that may answer for it. */
  predicate Interrupted(r: Receipt, config: Config) {
    && r.phase.Reviewing?
    && ReviewOf(r, r.phase.kind).verdict.None?
    && var kind := if r.selection.Some? then r.selection else config.kind;
       kind.None? || kind == Some(r.phase.kind)
  }

  /** A process may open this reviewer's gate: every call it has had is already settled. */
  predicate Settled(r: Receipt, kind: Kind) {
    ReviewOf(r, kind).verdict.Some? || r.selection == Some(Other(kind))
  }

  predicate ReportsNoTurns(config: Config) {
    forall kind :: config.answer(kind).Result? ==> config.answer(kind).usage.turns == 0
  }

  /** An environment in which nothing fails and every reviewer approves at no measured cost. */
  predicate Smooth(config: Config) {
    && config.early.None? && !config.profile && config.apply.None? && config.passes && !config.drifts
    && forall kind :: !config.late(kind) && config.answer(kind) == Result(Approve, NOTHING, false)
  }

  /** Budget for n more turns. */
  predicate Room(r: Receipt, config: Config, n: nat) {
    && r.usage.turns + n <= config.policy.turns && r.usage.input < config.policy.input
    && r.usage.output < config.policy.output
    && Bounded(r.usage.(turns := r.usage.turns + n))
  }

  function Max(a: nat, b: nat): nat {
    if a < b then b else a
  }

  function Count(calls: map<Kind, nat>, kind: Kind): nat {
    if kind in calls then calls[kind] else 0
  }

  /** A closed reviewer that this process does not answer for is not the one it selects. */
  lemma Unambiguous(r: Receipt, config: Config, kind: Kind)
    requires Closed(r, kind) && !Terminal(r.phase) && !Interrupted(r, config)
    requires r.selection.None? || r.selection == config.kind
    ensures Settled(r.(selection := config.kind), kind)
  {
    if config.kind.Some? {
      assert config.kind.value == kind || config.kind.value == Other(kind) by {
        match (config.kind.value, kind) {
          case (Terra, Terra) =>
          case (Sol, Sol) =>
          case _ =>
        }
      }
    }
  }

  /**
   A started review without a verdict is passed over exactly when the process answers for the other
   reviewer: it may then go on, and the one it passed over stays closed to every later process.
   */
  lemma PassedOver(r: Receipt, config: Config)
    requires r.phase.Reviewing? && ReviewOf(r, r.phase.kind).verdict.None?
    ensures var other := Some(Other(r.phase.kind));
            !Interrupted(r, config) <==> (if r.selection.Some? then r.selection else config.kind) == other
    ensures !Interrupted(r, config) && (r.selection.None? || r.selection == config.kind) ==>
              Closed(r.(selection := config.kind, phase := Working), r.phase.kind)
  {
    var chosen := if r.selection.Some? then r.selection else config.kind;
    if chosen.Some? {
      match (chosen.value, r.phase.kind) {
        case (Terra, Terra) =>
        case (Sol, Sol) =>
        case _ =>
      }
    }
  }

  /** And there is such a process, on a legacy receipt without a selection. */
  lemma CanBePassedOver(config: Config) returns (r: Receipt)
    requires config.kind == Some(Sol)
    ensures r.phase == Reviewing(Terra) && r.terra.verdict.None? && r.selection.None? && Closed(r, Terra)
            && !Interrupted(r, config)
  {
    r := Receipt(Reviewing(Terra), None, Some("d"), true, Review(None, None), Review(None, None), false,
                 Usage(1, 0, 0));
  }

  /** Every call made so far is paid for in this receipt. */
  ghost predicate Counts(calls: map<Kind, nat>, r: Receipt) {
    Count(calls, Terra) + Count(calls, Sol) <= r.usage.turns
  }

  /** The receipt accounts for every call: each called reviewer is closed to later processes. */
  ghost predicate Accounts(model: bool, calls: map<Kind, nat>, r: Receipt) {
    && Counts(calls, r) && Sensible(r) && (r.repair ==> model)
    && (r.phase.Ready? ==> Earned(r))
    && (Count(calls, Terra) > 0 ==> Closed(r, Terra))
    && (Count(calls, Sol) > 0 ==> Closed(r, Sol))
  }

  ghost predicate AtMostOnce(calls: map<Kind, nat>) {
    Count(calls, Terra) <= 1 && Count(calls, Sol) <= 1
  }

  /** Each called reviewer has its verdict, or is not the selected one. */
  ghost predicate AllSettled(calls: map<Kind, nat>, r: Receipt) {
    && (Count(calls, Terra) > 0 ==> Settled(r, Terra))
    && (Count(calls, Sol) > 0 ==> Settled(r, Sol))
  }

  /** At most the first call of `kind` was made. */
  ghost predicate Called(before: map<Kind, nat>, calls: map<Kind, nat>, kind: Kind) {
    calls == before || (Count(before, kind) == 0 && calls == before[kind := 1])
  }

  ghost predicate Grew(before: map<Kind, nat>, calls: map<Kind, nat>) {
    Count(calls, Terra) >= Count(before, Terra) && Count(calls, Sol) >= Count(before, Sol)
  }

  ghost predicate SameElse(before: Receipt, r: Receipt, kind: Kind) {
    && r.selection == before.selection && r.digest == before.digest && r.repair == before.repair
    && ReviewOf(r, Other(kind)) == ReviewOf(before, Other(kind))
  }

  /** A receipt before any gate. */
  predicate Fresh(r: Receipt) {
    r == Receipt(Working, None, None, false, Review(None, None), Review(None, None), false, r.usage)
  }

  /** One more turn, and no more tokens. */
  predicate Spent(before: Receipt, r: Receipt) {
    r.usage == before.usage.(turns := before.usage.turns + 1)
  }

  // ----- What each change of the receipt keeps ----------------------------------------------

  lemma PhaseAccounts(model: bool, calls: map<Kind, nat>, r: Receipt, phase: Phase)
    requires Accounts(model, calls, r) && AllSettled(calls, r) && !Terminal(r.phase) && (phase.Ready? ==> Earned(r))
    ensures Accounts(model, calls, r.(phase := phase)) && AllSettled(calls, r.(phase := phase))
  {
  }

  lemma EndAccounts(model: bool, calls: map<Kind, nat>, r: Receipt, phase: Phase)
    requires Accounts(model, calls, r.(phase := Failed)) && (phase.Failed? || phase.EscalatedToWeb?)
    ensures Accounts(model, calls, r.(phase := phase))
  {
  }

  lemma FailAccounts(model: bool, calls: map<Kind, nat>, r: Receipt)
    requires Accounts(model, calls, r)
    ensures Accounts(model, calls, r.(phase := Failed))
  {
  }

  lemma UsageAccounts(model: bool, calls: map<Kind, nat>, r: Receipt, usage: Usage)
    requires Accounts(model, calls, r) && r.usage.turns <= usage.turns
    ensures Accounts(model, calls, r.(usage := usage))
  {
  }

  lemma SelectAccounts(model: bool, calls: map<Kind, nat>, r: Receipt, config: Config)
    requires Accounts(model, calls, r) && !Terminal(r.phase) && !Interrupted(r, config)
    requires r.selection.None? || r.selection == config.kind
    ensures Accounts(model, calls, r.(selection := config.kind)) && AllSettled(calls, r.(selection := config.kind))
  {
    if Count(calls, Terra) > 0 {
      Unambiguous(r, config, Terra);
    }
    if Count(calls, Sol) > 0 {
      Unambiguous(r, config, Sol);
    }
  }

  lemma DigestAccounts(model: bool, calls: map<Kind, nat>, r: Receipt, digest: Digest)
    requires Accounts(model, calls, r) && AllSettled(calls, r) && !Terminal(r.phase)
             && (r.digest.None? || r.digest == Some(digest))
    ensures Accounts(model, calls, r.(digest := Some(digest))) && AllSettled(calls, r.(digest := Some(digest)))
    ensures Accounts(model, calls, r.(digest := Some(digest), verified := true))
            && AllSettled(calls, r.(digest := Some(digest), verified := true))
  {
  }

  lemma CalledSame(calls: map<Kind, nat>)
    ensures Grew(calls, calls) && Called(calls, calls, Terra)
  {
  }

  lemma GrewStep(first: map<Kind, nat>, before: map<Kind, nat>, after: map<Kind, nat>, kind: Kind)
    requires (first == before || Grew(first, before)) && Called(before, after, kind)
    ensures Grew(first, after)
  {
  }

  /** With the reserved turn, a first call is paid for and leaves the other gate settled. */
  lemma OneMore(model: bool, calls: map<Kind, nat>, before: Receipt, r: Receipt, kind: Kind)
    requires Accounts(model, calls, before) && AllSettled(calls, r) && Count(calls, kind) == 0
    requires r.usage.turns == before.usage.turns + 1
    ensures Counts(calls[kind := 1], r)
    ensures Count(calls[kind := 1], Other(kind)) > 0 ==> Settled(r, Other(kind))
  {
  }

  lemma SettledUsage(calls: map<Kind, nat>, before: Receipt, r: Receipt)
    requires AllSettled(calls, before) && r == before.(usage := r.usage)
    ensures AllSettled(calls, r)
  {
  }

  lemma SameApproval(before: Receipt, r: Receipt, kind: Kind)
    requires SameElse(before, r, kind)
    ensures Approved(r, Other(kind)) == Approved(before, Other(kind))
  {
  }

  /** An unapproved reviewer that this process runs has never been called. */
  lemma Uncalled(model: bool, calls: map<Kind, nat>, r: Receipt, kind: Kind)
    requires Accounts(model, calls, r) && AllSettled(calls, r) && !Terminal(r.phase) && !r.repair
    requires Runs(r, kind) && !Approved(r, kind)
    ensures Count(calls, kind) == 0
  {
  }

  lemma CallAccounts(model: bool, calls: map<Kind, nat>, r: Receipt, kind: Kind)
    requires Accounts(model, calls, r) && r.phase == Reviewing(kind) && Count(calls, kind) == 0 && AtMostOnce(calls)
    requires Counts(calls[kind := 1], r)
    ensures Accounts(model, calls[kind := 1], r) && AtMostOnce(calls[kind := 1])
  {
  }

  lemma VerdictAccounts(model: bool, calls: map<Kind, nat>, r: Receipt, kind: Kind, verdict: Verdict, repair: bool)
    requires Accounts(model, calls, r) && r.phase == Reviewing(kind) && !r.repair && r.digest.Some?
             && (repair ==> model)
    requires Count(calls, Other(kind)) > 0 ==> Settled(r, Other(kind))
    ensures var next := WithReview(r, kind, Review(Some(verdict), r.digest)).(repair := repair);
            && AllSettled(calls, next)
            && Accounts(model, calls, next.(phase := Failed))
            && (repair || verdict.Approve? ==> Accounts(model, calls, next))
  {
  }

  // ----- The course of a process whose writes all succeed ------------------------------------------

  /** The durable receipt, the one in memory, and how the process stands. */
  datatype Point = Point(durable: Receipt, memory: Receipt, status: Outcome)

  /** A receipt is written, unless its usage is above 128 turns, 20 million input or 4 million output tokens. */
  function Writes(durable: Receipt, r: Receipt): Point {
    if r.usage.turns > 128 || r.usage.input > 20_000_000 || r.usage.output > 4_000_000
    then Point(durable, r, Raised(Refusal))
    else Point(r, r, Running)
  }

  /** The process returns with a terminal receipt. */
  function Ends(p: Point, phase: Phase): Point {
    var written := Writes(p.durable, p.memory.(phase := phase));
    if written.status == Running then written.(status := Returned) else written
  }

  /** A turn is paid for in advance, unless the time, the turns or the tokens are used up. */
  function Reserves(p: Point, config: Config, kind: Kind): Point {
    var u := p.memory.usage;
    if config.late(kind) || u.turns >= config.policy.turns || u.input >= config.policy.input
       || u.output >= config.policy.output
    then p.(status := Raised(BudgetExhausted))
    else Writes(p.durable, p.memory.(usage := Usage(u.turns + 1, u.input, u.output)))
  }

  /** Reported usage is added if every number and total is a safe integer, and checked against the policy. */
  function Records(p: Point, config: Config, used: Report): Point {
    var u := p.memory.usage;
    var (turns, input, output) := (u.turns + used.turns, u.input + used.input, u.output + used.output);
    if used.turns < 0 || used.input < 0 || used.output < 0 || turns > 9_007_199_254_740_991
       || input > 9_007_199_254_740_991 || output > 9_007_199_254_740_991
    then p.(status := Raised(Refusal))
    else
      var r := p.memory.(usage := Usage(turns, input, output));
      if input > config.policy.input || output > config.policy.output
      then p.(memory := r, status := Raised(BudgetExhausted)) else Writes(p.durable, r)
  }

  /** A bound repair is completed: READY once it is verified, escalated when it is rejected. */
  function Repairs(p: Point, config: Config): Point {
    var begun := Writes(p.durable, p.memory.(phase := Repairing));
    if begun.status != Running then begun
    else
      match config.repair
      case RepairVerified => Ends(begun, Phase.Ready)
      case RepairRejected => Ends(begun, EscalatedToWeb)
      case RepairThrows(true) => begun.(status := Raised(Refusal))
      case RepairThrows(false) => begun.(status := Raised(Foreign))
  }

  /** An answer: an approval opens the gate, a revision of a model run may bind a repair, anything else escalates. */
  function Concludes(model: bool, p: Point, config: Config, kind: Kind, answer: Answer): Point
    requires answer.Result?
  {
    var recorded := Records(p, config, answer.usage);
    if config.drifts then p.(status := Raised(Refusal))
    else if recorded.status != Running then recorded
    else Decides(model, recorded, config, kind, answer.verdict, answer.repairable)
  }

  /** A verdict, once the usage is recorded. */
  function Decides(model: bool, p: Point, config: Config, kind: Kind, verdict: Verdict, repairable: bool): Point {
    var review := Review(Some(verdict), Some(config.digest));
    var bound := model && verdict == Revise && repairable;
    var r := match kind
             case Terra => p.memory.(terra := review, repair := bound)
             case Sol => p.memory.(sol := review, repair := bound);
    if verdict == Approve then Writes(p.durable, r)
    else if bound then
      var written := Writes(p.durable, r);
      if written.status == Running then Repairs(written, config) else written
    else Ends(p.(memory := r), EscalatedToWeb)
  }

  /** The reviewer is called: its review is open and its turn is durable. */
  function Asks(p: Point, config: Config, kind: Kind): Point {
    var begun := Writes(p.durable, p.memory.(phase := Reviewing(kind)));
    if begun.status == Running then Reserves(begun, config, kind) else begun
  }

  predicate HasApproved(r: Receipt, kind: Kind) {
    r.digest != None && match kind
                        case Terra => r.terra == Review(Some(Approve), r.digest)
                        case Sol => r.sol == Review(Some(Approve), r.digest)
  }

  lemma ApprovalStands(r: Receipt, kind: Kind)
    ensures Approved(r, kind) <==> HasApproved(r, kind)
  {
  }

  /** READY without a repair rests on the approval of every reviewer that the run answers for. */
  lemma ReadyIsApproved(model: bool, calls: map<Kind, nat>, r: Receipt)
    requires Accounts(model, calls, r)
    ensures r.phase == Phase.Ready && !r.repair ==>
              && (r.selection == Some(Sol) || HasApproved(r, Terra))
              && (r.selection == Some(Terra) || HasApproved(r, Sol))
  {
    if r.selection.Some? {
      match r.selection.value {
        case Terra =>
        case Sol =>
      }
    }
  }

  /** A process that meets no failure exists even under the smallest budget for two reviews. */
  lemma SmoothProcess(kind: Option<Kind>, digest: Digest) returns (config: Config)
    ensures config.kind == kind && config.policy == Policy(2, 1, 1) && config.faults == []
    ensures Smooth(config)
    ensures Room(Receipt(Working, None, None, false, Review(None, None), Review(None, None), false, Usage(0, 0, 0)),
                 config, 2)
  {
    config := Config(None, false, None, kind, Policy(2, 1, 1), digest, false, true, false, k => false,
                     k => Result(Approve, NOTHING, false), RepairVerified, []);
  }

  /** A review that is open under this process, or that nobody else answers for. */
  lemma OpenReview(r: Receipt, config: Config)
    ensures var mine := if r.selection != None then r.selection else config.kind;
            Interrupted(r, config) <==>
            (r.phase == Reviewing(Terra) && r.terra.verdict == None && mine != Some(Sol))
            || (r.phase == Reviewing(Sol) && r.sol.verdict == None && mine != Some(Terra))
  {
    var mine := if r.selection != None then r.selection else config.kind;
    if mine.Some? {
      match mine.value {
        case Terra =>
        case Sol =>
      }
    }
    if r.phase.Reviewing? {
      match r.phase.kind {
        case Terra =>
        case Sol =>
      }
    }
  }

  /** One review, unless the approval is already there. */
  function Reviews(model: bool, p: Point, config: Config, kind: Kind): Point {
    if HasApproved(p.memory, kind) then p
    else
      var asked := Asks(p, config, kind);
      if asked.status != Running then asked
      else
        match config.answer(kind)
        case Dies => asked.(status := Crashed)
        case Throws(true) => asked.(status := Raised(Refusal))
        case Throws(false) => asked.(status := Raised(Foreign))
        case Result(_, _, _) => Concludes(model, asked, config, kind, config.answer(kind))
  }

  /** The reviewer of this process is bound, unless an open review, or another reviewer, stands against it. */
  function Selects(model: bool, p: Point, config: Config): Point {
    var r := p.memory;
    var mine := if r.selection != None then r.selection else config.kind;
    if (r.phase == Reviewing(Terra) && r.terra.verdict == None && mine != Some(Sol))
       || (r.phase == Reviewing(Sol) && r.sol.verdict == None && mine != Some(Terra))
    then p.(status := Raised(AmbiguousRecovery))
    else if model && config.kind == None then p.(status := Raised(Refusal))
    else if r.selection != None && (r.selection != config.kind || config.profile) then p.(status := Raised(Refusal))
    else if r.selection == config.kind then p
    else Writes(p.durable, r.(selection := config.kind))
  }

  /** The transaction is finished, the digest pinned, and the result verified once. */
  function Verifies(p: Point, config: Config): Point {
    if p.memory.phase == Working && config.apply != None then p.(status := Raised(config.apply.value))
    else if p.memory.phase == Repairing || (p.memory.digest != None && p.memory.digest != Some(config.digest))
    then p.(status := Raised(Refusal))
    else
      var pinned := Writes(p.durable, p.memory.(digest := Some(config.digest)));
      if pinned.status != Running || p.memory.verified then pinned else Proves(pinned, config)
  }

  /** The deterministic verification of the pinned digest. */
  function Proves(p: Point, config: Config): Point {
    var begun := Writes(p.durable, p.memory.(phase := Verifying));
    if begun.status != Running then begun
    else if config.passes then Writes(begun.durable, begun.memory.(verified := true))
    else Ends(begun, EscalatedToWeb)
  }

  /** Terra, then Sol, each only if this process answers for it, then READY. */
  function Passes(model: bool, p: Point, config: Config): Point {
    var first := if p.memory.selection != Some(Sol) then Reviews(model, p, config, Terra) else p;
    if first.status != Running then first
    else
      var second := if p.memory.selection != Some(Terra) then Reviews(model, first, config, Sol) else first;
      if second.status == Running then Ends(second, Phase.Ready) else second
  }

  function Attempts(model: bool, p: Point, config: Config): Point {
    if config.early != None then p.(status := Raised(config.early.value))
    else
      var selected := Selects(model, p, config);
      if selected.status != Running then selected
      else if selected.memory.repair then Repairs(selected, config)
      else
        var verified := Verifies(selected, config);
        if verified.status == Running then Passes(model, verified, config) else verified
  }

  predicate Over(phase: Phase) {
    phase == Phase.Ready || phase == EscalatedToWeb || phase == Failed
  }

  /**
   The whole process: a terminal receipt is returned; a spent budget or an ambiguous recovery fails the run, any
   other refusal escalates it, and an error that is not the program's own leaves the receipt as it is.
   */
  function Executes(model: bool, durable: Receipt, config: Config): Point {
    var start := Point(durable, durable, Running);
    if Over(durable.phase) then start.(status := Returned)
    else
      var tried := Attempts(model, start, config);
      match tried.status
      case Raised(AmbiguousRecovery) => if tried.memory.phase == Phase.Ready then tried else Ends(tried, Failed)
      case Raised(BudgetExhausted) => if tried.memory.phase == Phase.Ready then tried else Ends(tried, Failed)
      case Raised(Refusal) => if Over(tried.memory.phase) then tried else Ends(tried, EscalatedToWeb)
      case _ => tried
  }

  class Service {
    const model: bool
    var durable: Receipt
    var memory: Receipt
    var faults: seq<Effects.Fault>
    var status: Outcome
    var typed: bool
    /** How often the outside world has seen each reviewer called. */
    var calls: map<Kind, nat>

    constructor (model: bool)
      ensures Valid() && this.model == model
      ensures durable == Receipt(Working, None, None, false, Review(None, None), Review(None, None), false,
                                 Usage(0, 0, 0))
      ensures calls == map[Terra := 0, Sol := 0]
    {
      this.model := model;
      durable := Receipt(Working, None, None, false, Review(None, None), Review(None, None), false, Usage(0, 0, 0));
      memory := Receipt(Working, None, None, false, Review(None, None), Review(None, None), false, Usage(0, 0, 0));
      faults, status, typed := [], Returned, false;
      calls := map[Terra := 0, Sol := 0];
    }

    /** Each reviewer was called at most once, and the durable receipt accounts for every call. */
    ghost predicate Valid()
      reads this
    {
      Accounts(model, calls, durable) && AtMostOnce(calls) && Bounded(durable.usage)
    }

    /** Where the process stands. */
    ghost function Now(): Point
      reads this
    {
      Point(durable, memory, status)
    }

    /** The memory receipt may be written at any time. */
    ghost predicate Ready()
      reads this
    {
      Valid() && Accounts(model, calls, memory) && durable.usage.turns <= memory.usage.turns
    }

    /** What holds however a step ends: only the phase may still have to become terminal. */
    ghost predicate Kept()
      reads this
    {
      Valid() && Accounts(model, calls, memory.(phase := Failed)) && durable.usage.turns <= memory.usage.turns
    }

    /** No gate is open, and the receipt in memory is the durable one. */
    ghost predicate Quiet()
      reads this
    {
      Ready() && durable == memory && !Terminal(memory.phase) && AllSettled(calls, memory) && status.Running?
    }

    /** A process that meets no failure and has budget for both reviews. */
    predicate Clean(config: Config, r: Receipt) {
      Smooth(config) && Room(r, config, 2) && (model ==> config.kind.Some?)
    }

    /** READY, after exactly one call of each selected reviewer. */
    ghost predicate Reviewed(before: map<Kind, nat>, kind: Option<Kind>)
      reads this
    {
      && status.Returned? && durable.phase.Ready? && durable == memory
      && calls == (match kind
                   case Some(k) => before[k := 1]
                   case None => before[Terra := 1][Sol := 1])
    }

    /** writeExecutorReceipt: usage above the ceilings is refused before anything is written. */
    method Save()
      requires Ready() && status.Running?
      modifies `durable, `faults, `status
      ensures Ready()
      ensures durable == old(durable) || durable == memory
      ensures status.Running? ==> durable == memory
      ensures status.Running? || status.Crashed? || status == Raised(Refusal) || status == Raised(Foreign)
      ensures old(faults) == [] && Bounded(memory.usage) ==> status.Running? && faults == []
      ensures old(faults) == [] ==> Now() == Writes(old(durable), old(memory)) && faults == []
      ensures Bounded(memory.usage) ==>
                && faults == (if old(faults) == [] then [] else old(faults)[1..])
                && match if old(faults) == [] then Effects.Ok else old(faults)[0]
                   case Ok => durable == memory && status == Running
                   case FailBefore => durable == old(durable) && status == Raised(if typed then Refusal else Foreign)
                   case FailAfter => durable == memory && status == Raised(if typed then Refusal else Foreign)
                   case CrashBefore => durable == old(durable) && status == Crashed
                   case CrashAfter => durable == memory && status == Crashed
    {
      if !Bounded(memory.usage) {
        status := Raised(Refusal);
        return;
      }
      var fault := if faults == [] then Effects.Ok else faults[0];
      faults := if faults == [] then [] else faults[1..];
      if !fault.FailBefore? && !fault.CrashBefore? {
        durable := memory;
      }
      match fault {
        case Ok =>
        case FailBefore | FailAfter => status := Raised(if typed then Refusal else Foreign);
        case CrashBefore | CrashAfter => status := Crashed;
      }
    }

    /** persistExecutorEvidence: a file beside the receipt, which may fail or be cut off. */
    method Install()
      requires status.Running?
      modifies `faults, `status
      ensures status.Running? || status.Crashed? || status == Raised(Refusal) || status == Raised(Foreign)
      ensures old(faults) == [] ==> status.Running? && faults == []
      ensures faults == if old(faults) == [] then [] else old(faults)[1..]
      ensures match if old(faults) == [] then Effects.Ok else old(faults)[0]
              case Ok => status == Running
              case FailBefore => status == Raised(if typed then Refusal else Foreign)
              case FailAfter => status == Raised(if typed then Refusal else Foreign)
              case CrashBefore => status == Crashed
              case CrashAfter => status == Crashed
    {
      var fault := if faults == [] then Effects.Ok else faults[0];
      faults := if faults == [] then [] else faults[1..];
      match fault {
        case Ok =>
        case FailBefore | FailAfter => status := Raised(if typed then Refusal else Foreign);
        case CrashBefore | CrashAfter => status := Crashed;
      }
    }

    /** failToWeb and failTerminal. */
    method FailTo(phase: Phase)
      requires Kept() && (phase.EscalatedToWeb? || phase.Failed?)
      modifies `durable, `memory, `faults, `status
      ensures Ready() && memory == old(memory).(phase := phase)
      ensures durable == old(durable) || durable == memory
      ensures !status.Running?
      ensures old(faults) == [] && Bounded(old(memory).usage) ==> durable == memory
      ensures old(faults) == [] ==> Now() == Ends(old(Now()), phase) && faults == []
    {
      hide Accounts, AllSettled, AtMostOnce, Approved, Interrupted, Closed;
      EndAccounts(model, calls, memory, phase);
      memory, status := memory.(phase := phase), Running;
      Save();
      if status.Running? {
        status := Returned;
      }
    }

    /** reserveReviewTurn: the turn is durable before the call. */
    method Reserve(config: Config, kind: Kind)
      requires Ready() && status.Running?
      modifies `durable, `memory, `faults, `status
      ensures Ready() && !status.Returned?
      ensures memory == old(memory).(usage := old(memory).usage.(turns := memory.usage.turns))
      ensures old(memory).usage.turns <= memory.usage.turns <= Max(old(memory).usage.turns, config.policy.turns)
      ensures status.Running? ==> durable == memory && memory.usage.turns == old(memory).usage.turns + 1
      ensures old(faults) == [] && !config.late(kind) && Room(old(memory), config, 1) ==>
                status.Running? && faults == []
      ensures old(faults) == [] ==> Now() == Reserves(old(Now()), config, kind) && faults == []
    {
      hide Accounts, AllSettled, AtMostOnce, Approved, Interrupted, Closed;
      var usage := memory.usage;
      if config.late(kind) || usage.turns >= config.policy.turns || usage.input >= config.policy.input
        || usage.output >= config.policy.output {
        status := Raised(BudgetExhausted);
        return;
      }
      UsageAccounts(model, calls, memory, usage.(turns := usage.turns + 1));
      memory := memory.(usage := usage.(turns := usage.turns + 1));
      Save();
    }

    /** recordUsage, then the check of the measured tokens. */
    method Record(config: Config, used: Report)
      requires Ready() && status.Running?
      modifies `durable, `memory, `faults, `status
      ensures Ready() && !status.Returned?
      ensures memory == old(memory).(usage := memory.usage)
      ensures memory.usage == if Countable(old(memory).usage, used) then Added(old(memory).usage, used)
              else old(memory).usage
      ensures status.Running? ==> durable == memory && Countable(old(memory).usage, used)
      ensures !Countable(old(memory).usage, used) ==> status == Raised(Refusal) && durable == old(durable)
      ensures old(faults) == [] && used == NOTHING && Room(old(memory), config, 0) ==>
                status.Running? && faults == [] && memory == old(memory)
      ensures old(faults) == [] ==> Now() == Records(old(Now()), config, used) && faults == []
    {
      hide Accounts, AllSettled, AtMostOnce, Approved, Interrupted, Closed;
      if !Countable(memory.usage, used) {
        status := Raised(Refusal);
        return;
      }
      UsageAccounts(model, calls, memory, Added(memory.usage, used));
      memory := memory.(usage := Added(memory.usage, used));
      if memory.usage.input > config.policy.input || memory.usage.output > config.policy.output {
        status := Raised(BudgetExhausted);
        return;
      }
      Save();
    }

    /** reviewOne: true when the process may go on to the next gate. */
    method ReviewOne(config: Config, kind: Kind) returns (next: bool)
      requires Quiet() && !memory.repair && memory.digest == Some(config.digest) && Runs(memory, kind)
      modifies `durable, `memory, `faults, `status, `calls
      ensures Kept() && Called(old(calls), calls, kind)
      ensures ReportsNoTurns(config) ==> memory.usage.turns <= Max(old(memory).usage.turns, config.policy.turns)
      ensures if next then Quiet() && Approved(memory, kind) && SameElse(old(memory), memory, kind)
              else !status.Running?
      ensures old(faults) == [] && Smooth(config) && Room(old(memory), config, 1) && !Approved(old(memory), kind) ==>
                next && faults == [] && calls == old(calls)[kind := 1] && Spent(old(memory), memory)
      ensures old(faults) == [] ==>
                && Now() == Reviews(model, old(Now()), config, kind) && faults == []
                && calls == if !HasApproved(old(memory), kind) && Asks(old(Now()), config, kind).status == Running
                            then old(calls)[kind := 1] else old(calls)
    {
      hide Writes, Ends, Asks, Concludes, Accounts, AllSettled, AtMostOnce, Approved, Interrupted, Closed;
      ApprovalStands(memory, kind);
      if Approved(memory, kind) {
        FailAccounts(model, calls, memory);
        return true;
      }
      Uncalled(model, calls, memory, kind);
      next := Open(config, kind);
      if !next {
        FailAccounts(model, calls, memory);
        return;
      }
      OneMore(model, old(calls), old(memory), memory, kind);
      PayCall(kind);
      FailAccounts(model, calls, memory);
      next := false;
      match config.answer(kind) {
        case Dies => status := Crashed;
        case Throws(isTyped) => status := Raised(if isTyped then Refusal else Foreign);
        case Result(verdict, used, repairable) => next := Conclude(config, kind, verdict, used, repairable);
      }
    }

    /** Enter the review state and reserve the turn; true when the reviewer may be called. */
    method Open(config: Config, kind: Kind) returns (open: bool)
      requires Quiet()
      modifies `durable, `memory, `faults, `status
      ensures Ready() && AllSettled(calls, memory) && open == status.Running?
      ensures memory == old(memory).(phase := Reviewing(kind), usage := memory.usage)
      ensures memory.usage.turns <= Max(old(memory).usage.turns, config.policy.turns)
      ensures open ==> durable == memory && memory.usage.turns == old(memory).usage.turns + 1
      ensures old(faults) == [] && !config.late(kind) && Room(old(memory), config, 1) ==>
                open && faults == [] && Spent(old(memory), memory)
      ensures old(faults) == [] ==> Now() == Asks(old(Now()), config, kind) && faults == []
    {
      hide Writes, Reserves, Accounts, AllSettled, AtMostOnce, Approved, Interrupted, Closed;
      PhaseAccounts(model, calls, memory, Reviewing(kind));
      memory := memory.(phase := Reviewing(kind));
      Save();
      if status.Running? {
        Reserve(config, kind);
      }
      SettledUsage(calls, old(memory).(phase := Reviewing(kind)), memory);
      open := status.Running?;
    }

    /** The outside world sees one more call. */
    method PayCall(kind: Kind)
      requires Ready() && durable == memory && memory.phase == Reviewing(kind) && Count(calls, kind) == 0
      requires Counts(calls[kind := 1], memory)
      modifies `calls
      ensures Ready() && calls == old(calls)[kind := 1]
    {
      hide Accounts, AtMostOnce, Counts;
      CallAccounts(model, calls, memory, kind);
      calls := calls[kind := Count(calls, kind) + 1];
    }

    /** The part of reviewOne after the reviewer answered. */
    method Conclude(config: Config, kind: Kind, verdict: Verdict, used: Report, repairable: bool) returns (next: bool)
      requires Ready() && status.Running? && memory.phase == Reviewing(kind) && !memory.repair
      requires memory.digest == Some(config.digest)
      requires Count(calls, Other(kind)) > 0 ==> Settled(memory, Other(kind))
      modifies `durable, `memory, `faults, `status
      ensures Kept()
      ensures memory.usage.turns <= old(memory).usage.turns + if used.turns < 0 then 0 else used.turns
      ensures if next then Quiet() && Approved(memory, kind) && SameElse(old(memory), memory, kind)
              else !status.Running?
      ensures old(faults) == [] && !config.drifts && verdict.Approve? && used == NOTHING
              && Room(old(memory), config, 0) ==>
                next && faults == [] && memory.usage == old(memory).usage
      ensures old(faults) == [] ==>
                && Now() == Concludes(model, old(Now()), config, kind, Result(verdict, used, repairable))
                && faults == []
    {
      hide Writes, Records, Decides, Accounts, AllSettled, AtMostOnce, Closed;
      next := false;
      FailAccounts(model, calls, memory);
      if config.drifts {
        status := Raised(Refusal);
        return;
      }
      Record(config, used);
      FailAccounts(model, calls, memory);
      if !status.Running? {
        return;
      }
      Install();
      if !status.Running? {
        return;
      }
      next := Decide(config, kind, verdict, repairable);
    }

    /** The verdict goes into the receipt: the next gate, a repair, or the end. */
    method Decide(config: Config, kind: Kind, verdict: Verdict, repairable: bool) returns (next: bool)
      requires Ready() && status.Running? && memory.phase == Reviewing(kind) && !memory.repair && durable == memory
      requires memory.digest == Some(config.digest)
      requires Count(calls, Other(kind)) > 0 ==> Settled(memory, Other(kind))
      modifies `durable, `memory, `faults, `status
      ensures Kept() && memory.usage == old(memory).usage
      ensures if next then Quiet() && Approved(memory, kind) && SameElse(old(memory), memory, kind)
              else !status.Running?
      ensures old(faults) == [] && verdict.Approve? ==> next && faults == []
      ensures old(faults) == [] ==>
                Now() == Decides(model, old(Now()), config, kind, verdict, repairable) && faults == []
    {
      hide Writes, Ends, Repairs, Accounts, AllSettled, AtMostOnce, Closed;
      next := false;
      FailAccounts(model, calls, memory);
      var repair := model && verdict.Revise? && repairable;
      VerdictAccounts(model, calls, memory, kind, verdict, repair);
      memory := WithReview(memory, kind, Review(Some(verdict), Some(config.digest))).(repair := repair);
      if verdict.Approve? {
        Save();
        next := status.Running?;
        return;
      }
      if repair {
        Save();
        if status.Running? {
          CompleteRepair(config);
        }
      } else {
        FailTo(EscalatedToWeb);
      }
      FailAccounts(model, calls, memory);
    }

    /** completeAdaptiveRepair: it calls no reviewer and ends READY, escalated or raised. */
    method CompleteRepair(config: Config)
      requires Quiet() && memory.repair
      modifies `durable, `memory, `faults, `status
      ensures Ready() && !status.Running?
      ensures memory == old(memory).(phase := memory.phase)
      ensures old(faults) == [] ==> Now() == Repairs(old(Now()), config) && faults == []
    {
      hide Writes, Accounts, AllSettled, AtMostOnce, Approved, Interrupted, Closed;
      PhaseAccounts(model, calls, memory, Repairing);
      PhaseAccounts(model, calls, memory, Phase.Ready);
      memory := memory.(phase := Repairing);
      Save();
      if !status.Running? {
        return;
      }
      match config.repair {
        case RepairThrows(isTyped) => status := Raised(if isTyped then Refusal else Foreign);
        case RepairRejected =>
          FailAccounts(model, calls, memory);
          FailTo(EscalatedToWeb);
        case RepairVerified =>
          memory := memory.(phase := Phase.Ready);
          Save();
          if status.Running? {
            status := Returned;
          }
      }
    }

    /** Refuse an interrupted review; persist the reviewer selection of this process. */
    method Select(config: Config)
      requires Ready() && durable == memory && status.Running? && !Terminal(memory.phase)
      modifies `durable, `memory, `faults, `status
      ensures Ready() && memory.usage == old(memory).usage
      ensures status.Running? ==>
                Quiet() && memory == old(memory).(selection := config.kind) && (model ==> config.kind.Some?)
      ensures old(Interrupted(memory, config)) ==>
                status == Raised(AmbiguousRecovery) && durable == memory == old(memory) && faults == old(faults)
      ensures old(faults) == [] && Fresh(old(memory)) && (model ==> config.kind.Some?) && !config.profile ==>
                status.Running? && faults == []
      ensures old(faults) == [] ==> Now() == Selects(model, old(Now()), config) && faults == []
    {
      hide Accounts, AllSettled, AtMostOnce, Approved, Closed;
      OpenReview(memory, config);
      if Interrupted(memory, config) {
        status := Raised(AmbiguousRecovery);
        return;
      }
      if (model && config.kind.None?)
         || (memory.selection.Some? && (memory.selection != config.kind || config.profile)) {
        status := Raised(Refusal);
        return;
      }
      SelectAccounts(model, calls, memory, config);
      if memory.selection != config.kind {
        memory := memory.(selection := config.kind);
        Save();
      }
    }

    /** Finish an open transaction, pin the change-set digest and run the deterministic verification once. */
    method Verify(config: Config)
      requires Quiet() && !memory.repair
      modifies `durable, `memory, `faults, `status
      ensures Ready() && memory.usage == old(memory).usage
      ensures status.Running? ==>
                Quiet() && memory == old(memory).(phase := memory.phase, digest := Some(config.digest),
                                                  verified := true)
      ensures old(faults) == [] && config.apply.None? && config.passes && old(memory).phase.Working?
              && old(memory).digest.None? ==>
                status.Running? && faults == []
      ensures old(faults) == [] ==> Now() == Verifies(old(Now()), config) && faults == []
    {
      hide Writes, Proves, Accounts, AllSettled, AtMostOnce, Approved, Interrupted, Closed;
      if memory.phase.Working? && config.apply.Some? {
        status := Raised(config.apply.value);
        return;
      }
      if memory.phase.Repairing? || (memory.digest.Some? && memory.digest != Some(config.digest)) {
        status := Raised(Refusal);
        return;
      }
      DigestAccounts(model, calls, memory, config.digest);
      memory := memory.(digest := Some(config.digest));
      Save();
      if !status.Running? || memory.verified {
        return;
      }
      Prove(config);
    }

    /** The deterministic verification. */
    method Prove(config: Config)
      requires Quiet() && memory.digest == Some(config.digest)
      modifies `durable, `memory, `faults, `status
      ensures Ready() && memory.usage == old(memory).usage
      ensures status.Running? ==> Quiet() && memory == old(memory).(phase := memory.phase, verified := true)
      ensures old(faults) == [] && config.passes ==> status.Running? && faults == []
      ensures old(faults) == [] ==> Now() == Proves(old(Now()), config) && faults == []
    {
      hide Writes, Ends, Accounts, AllSettled, AtMostOnce, Approved, Interrupted, Closed;
      PhaseAccounts(model, calls, memory, Verifying);
      memory := memory.(phase := Verifying);
      Save();
      if !status.Running? {
        return;
      }
      Install();
      if !status.Running? {
        return;
      }
      if !config.passes {
        FailAccounts(model, calls, memory);
        FailTo(EscalatedToWeb);
        return;
      }
      DigestAccounts(model, calls, memory, config.digest);
      memory := memory.(verified := true);
      Save();
    }

    /** The try block of executeRegisteredWebPack. */
    method Attempt(config: Config)
      requires Ready() && durable == memory && status.Running? && !Terminal(memory.phase)
      modifies `durable, `memory, `faults, `status, `calls
      ensures Kept() && !status.Running?
      ensures ReportsNoTurns(config) ==> memory.usage.turns <= Max(old(memory).usage.turns, config.policy.turns)
      ensures config.early.Some? || old(Interrupted(memory, config)) ==>
                && status == Raised(if config.early.Some? then config.early.value else AmbiguousRecovery)
                && durable == memory == old(memory) && calls == old(calls) && faults == old(faults)
      ensures Grew(old(calls), calls)
      ensures old(faults) == [] && Fresh(old(memory)) && Clean(config, old(memory)) ==>
                Reviewed(old(calls), config.kind)
      ensures old(faults) == [] ==> Now() == Attempts(model, old(Now()), config) && faults == []
    {
      hide Writes, Ends, Repairs, Selects, Verifies, Passes, Accounts, AllSettled, AtMostOnce, Interrupted, Closed;
      if config.early.Some? {
        status := Raised(config.early.value);
        FailAccounts(model, calls, memory);
        return;
      }
      Select(config);
      if status.Running? {
        if memory.repair {
          CompleteRepair(config);
        } else {
          Verify(config);
        }
      }
      if status.Running? {
        Gates(config);
      } else {
        FailAccounts(model, calls, memory);
      }
    }

    /** The selected reviews in order, then READY. */
    method Gates(config: Config)
      requires Quiet() && !memory.repair && memory.digest == Some(config.digest)
      modifies `durable, `memory, `faults, `status, `calls
      ensures Kept() && !status.Running? && Grew(old(calls), calls)
      ensures ReportsNoTurns(config) ==> memory.usage.turns <= Max(old(memory).usage.turns, config.policy.turns)
      ensures old(faults) == [] && Smooth(config) && Room(old(memory), config, 2) ==>
                Approved(old(memory), Terra) || Approved(old(memory), Sol)
                    || Reviewed(old(calls), old(memory).selection)
      ensures old(faults) == [] ==> Now() == Passes(model, old(Now()), config) && faults == []
    {
      hide Writes, Ends, Reviews, Accounts, AllSettled, AtMostOnce, Approved, Closed, ReportsNoTurns, Called, Grew,
           Smooth;
      assert memory.selection.Some? ==> memory.selection.value.Terra? || memory.selection.value.Sol?;
      assert Grew(calls, calls) && Called(calls, calls, Terra) by { CalledSame(calls); }
      FailAccounts(model, calls, memory);
      var next := true;
      if Runs(memory, Terra) {
        ghost var before := calls;
        ghost var start := memory;
        next := ReviewOne(config, Terra);
        if next {
          SameApproval(start, memory, Terra);
        }
        GrewStep(before, before, calls, Terra);
      }
      if next && Runs(memory, Sol) {
        ghost var middle, before := calls, memory;
        next := ReviewOne(config, Sol);
        GrewStep(old(calls), middle, calls, Sol);
        if next {
          SameApproval(before, memory, Sol);
        }
      }
      if next {
        Publish();
      }
    }

    method Publish()
      requires Quiet() && Earned(memory)
      modifies `durable, `memory, `faults, `status
      ensures Kept() && !status.Running? && memory.usage == old(memory).usage
      ensures old(faults) == [] ==> status.Returned? && durable == memory && memory.phase.Ready?
      ensures old(faults) == [] ==> Now() == Ends(old(Now()), Phase.Ready) && faults == []
    {
      hide Accounts, AllSettled, AtMostOnce, Approved, Closed;
      PhaseAccounts(model, calls, memory, Phase.Ready);
      memory := memory.(phase := Phase.Ready);
      Save();
      FailAccounts(model, calls, memory);
      if status.Running? {
        status := Returned;
      }
    }

    /** executeRegisteredWebPack: read the durable receipt, attempt, and turn errors into terminal states. */
    method Execute(config: Config)
      requires Valid()
      modifies `durable, `memory, `faults, `status, `typed, `calls
      ensures Valid()
      ensures old(Terminal(durable.phase)) ==> durable == old(durable) && calls == old(calls)
      ensures ReportsNoTurns(config) ==> durable.usage.turns <= Max(old(durable).usage.turns, config.policy.turns)
      ensures old(!Terminal(durable.phase)) && config.early.Some? ==>
                && calls == old(calls)
                && durable == old(durable).(phase := durable.phase)
                && (durable.phase == old(durable).phase || durable.phase.EscalatedToWeb? || durable.phase.Failed?)
                && (config.faults == [] && config.early.value.Refusal? ==> durable.phase.EscalatedToWeb?)
      ensures old(!Terminal(durable.phase) && Interrupted(durable, config)) && config.early.None? ==>
                && calls == old(calls)
                && (durable == old(durable) || durable == old(durable).(phase := Failed))
                && (config.faults == [] ==> durable.phase.Failed?)
      ensures Grew(old(calls), calls)
      ensures config.faults == [] && Fresh(old(durable)) && Clean(config, old(durable)) ==>
                Reviewed(old(calls), config.kind)
      ensures config.faults == [] ==> Now() == Executes(model, old(durable), config)
    {
      hide Writes, Ends, Attempts;
      memory, faults, status, typed := durable, config.faults, Running, config.typed;
      if Terminal(durable.phase) {
        status := Returned;
        return;
      }
      Attempt(config);
      if status.Raised? {
        if (status.error.AmbiguousRecovery? || status.error.BudgetExhausted?) && !memory.phase.Ready? {
          FailTo(Failed);
        } else if !status.error.Foreign? && !Terminal(memory.phase) {
          FailTo(EscalatedToWeb);
        }
      }
    }

    /**
     Any number of processes, crashed, failed or finished, one after another: each reviewer is
     called at most once, and the calls never exceed the turns written, nor those the limit.
     */
    method Run(configs: seq<Config>, limit: nat)
      requires Valid() && durable.usage.turns <= limit
      requires forall i :: 0 <= i < |configs| ==> configs[i].policy.turns <= limit
      modifies `durable, `memory, `faults, `status, `typed, `calls
      ensures Count(calls, Terra) <= 1 && Count(calls, Sol) <= 1
      ensures Count(calls, Terra) + Count(calls, Sol) <= durable.usage.turns <= MAX_MODEL_TURNS
      ensures (forall i :: 0 <= i < |configs| ==> ReportsNoTurns(configs[i])) ==> durable.usage.turns <= limit
      ensures Grew(old(calls), calls)
      ensures durable.phase == Phase.Ready && !durable.repair ==>
                && (durable.selection == Some(Sol) || HasApproved(durable, Terra))
                && (durable.selection == Some(Terra) || HasApproved(durable, Sol))
    {
      for k := 0 to |configs|
        invariant Valid()
        invariant (forall i :: 0 <= i < |configs| ==> ReportsNoTurns(configs[i])) ==> durable.usage.turns <= limit
        invariant Grew(old(calls), calls)
      {
        Execute(configs[k]);
      }
      ReadyIsApproved(model, calls, durable);
    }
  }
}
