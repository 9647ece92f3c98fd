/**
 The AUTOPILOT receipt, its validation, and the compare-and-swap on its generation
 (src/orchestration/autopilot-job.ts).
 */
module AutopilotJob {
  import opened Prelude

  type Time = int

  const MAX_RETRIES: nat := 5
  const MAX_GENERATION: nat := 1_000_000
  const MAX_REASON: nat := 8192
  const MAX_JOB_ID: nat := 4096
  const MAX_ROUNDS: nat := 4
  const MAX_REVISIONS: nat := 3

  datatype Stage = Execute | Publish | DraftPr | PackageResult | WaitWeb | Revise | Done
  datatype Status = Running | WaitingWeb | WaitingRetry | Paused | ReadyForYou | NeedsYou
  datatype Action = AskUserToMerge | AskUserToIntervene

  datatype Receipt = Receipt(generation: nat, status: Status, stage: Stage, attempts: map<Stage, nat>,
                             retryAt: Option<Time>, pending: Option<string>, rounds: nat, revisions: nat,
                             action: Option<Action>, reason: Option<string>, created: Time, updated: Time)

  function Tries(r: Receipt, stage: Stage): nat {
    if stage in r.attempts then r.attempts[stage] else 0
  }

  function WithTries(r: Receipt, stage: Stage, n: nat): Receipt {
    r.(attempts := r.attempts[stage := n])
  }

  function Initial(now: Time): Receipt {
    Receipt(0, Running, Execute, map[], None, None, 0, 0, None, None, now, now)
  }

  predicate AttemptsAtMost(r: Receipt, n: nat) {
    forall stage :: stage in r.attempts ==> r.attempts[stage] <= n
  }

  /** semanticReceiptValid. */
  predicate SemanticValid(r: Receipt) {
    && r.updated >= r.created
    && r.revisions <= MAX_REVISIONS && r.rounds <= MAX_ROUNDS && r.revisions <= r.rounds
    && AttemptsAtMost(r, MAX_RETRIES + 1)
    && (r.pending.Some? ==> r.stage.WaitWeb?)
    && (r.retryAt.Some? ==> r.status.WaitingRetry? || r.status.Paused?)
    && (r.stage.Done? ==> r.status.ReadyForYou?)
    && match r.status
       case ReadyForYou =>
         r.stage.Done? && r.action == Some(AskUserToMerge) && r.pending.None? && r.retryAt.None? && r.rounds >= 1
       case NeedsYou => r.action == Some(AskUserToIntervene) && r.retryAt.None? && !r.stage.Done?
       case WaitingWeb => r.action.None? && r.stage.WaitWeb? && r.pending.Some? && r.retryAt.None?
       case WaitingRetry => r.action.None? && !r.stage.Done? && r.retryAt.Some?
       case Paused => r.action.None? && !r.stage.Done?
       case Running => r.action.None? && !r.stage.Done? && r.retryAt.None?
  }

  /** validReceipt. */
  predicate Valid(r: Receipt) {
    && r.generation <= MAX_GENERATION
    && (r.pending.Some? ==> 1 <= |r.pending.value| <= MAX_JOB_ID)
    && (r.reason.Some? ==> |r.reason.value| <= MAX_REASON)
    && SemanticValid(r)
  }

  /** semanticReceiptValid, test by test as the program runs it. */
  method SemanticReceiptValid(r: Receipt) returns (ok: bool)
    ensures ok <==> SemanticValid(r)
  {
    if r.updated < r.created || r.revisions > 3 || r.rounds > 4 || r.revisions > r.rounds {
      return false;
    }
    if exists stage | stage in r.attempts.Keys :: r.attempts[stage] > 5 + 1 {
      return false;
    }
    if r.pending != None && r.stage != WaitWeb {
      return false;
    }
    if r.retryAt != None && r.status != WaitingRetry && r.status != Paused {
      return false;
    }
    if r.stage == Done && r.status != ReadyForYou {
      return false;
    }
    if r.status == ReadyForYou {
      return r.stage == Done && r.action == Some(AskUserToMerge) && r.pending == None && r.retryAt == None
             && r.rounds >= 1;
    }
    if r.action == Some(AskUserToMerge) {
      return false;
    }
    if r.status == NeedsYou {
      return r.action == Some(AskUserToIntervene) && r.retryAt == None && r.stage != Done;
    }
    if r.action != None {
      return false;
    }
    if r.status == WaitingWeb {
      return r.stage == WaitWeb && r.pending != None && r.retryAt == None;
    }
    if r.status == WaitingRetry {
      return r.stage != Done && r.retryAt != None;
    }
    if r.status == Paused {
      return r.stage != Done;
    }
    ok := r.status == Running && r.stage != Done && r.retryAt == None;
  }

  /** validReceipt: the bounds, then the semantic test. */
  method ValidReceipt(r: Receipt) returns (ok: bool)
    ensures ok <==> Valid(r)
  {
    hide SemanticValid;
    if r.generation > 1_000_000 {
      return false;
    }
    if r.pending.Some? && (|r.pending.value| == 0 || |r.pending.value| > 4096) {
      return false;
    }
    if r.reason.Some? && |r.reason.value| > 8192 {
      return false;
    }
    ok := SemanticReceiptValid(r);
  }

  // ----- Exact checks a run has passed, in order ------------------------------------------

  datatype Milestone = Executed | Published | Drafted | Packaged | Approved

  function Rank(m: Milestone): nat {
    match m
    case Executed => 0
    case Published => 1
    case Drafted => 2
    case Packaged => 3
    case Approved => 4
  }

  /** How many milestones of the required order have occurred one after another. */
  function Reached(trace: seq<Milestone>): (n: nat)
    ensures n <= 5
  {
    if trace == [] then 0
    else
      var before := Reached(trace[..|trace| - 1]);
      if before == Rank(trace[|trace| - 1]) then before + 1 else before
  }

  function Needed(stage: Stage): nat {
    match stage
    case Execute => 0
    case Publish => 1
    case DraftPr => 2
    case PackageResult => 3
    case WaitWeb | Revise => 4
    case Done => 5
  }

  /** The positions of the required milestones, in order. */
  lemma {:induction false} InOrder(trace: seq<Milestone>) returns (at: seq<nat>)
    ensures |at| == Reached(trace)
    ensures forall k :: 0 <= k < |at| ==> at[k] < |trace| && Rank(trace[at[k]]) == k
    ensures forall j, k :: 0 <= j < k < |at| ==> at[j] < at[k]
  {
    at := [];
    if trace != [] {
      var n := |trace| - 1;
      at := InOrder(trace[..n]);
      assert forall k :: 0 <= k < |at| ==> trace[..n][at[k]] == trace[at[k]];
      if Reached(trace[..n]) == Rank(trace[n]) {
        at := at + [n];
      }
    }
  }

  lemma {:induction false} ReachedGrows(trace: seq<Milestone>, more: seq<Milestone>)
    ensures Reached(trace) <= Reached(trace + more)
    decreases |more|
  {
    if more == [] {
      assert trace + more == trace;
    } else {
      var n := |more| - 1;
      assert (trace + more)[..|trace + more| - 1] == trace + more[..n];
      ReachedGrows(trace, more[..n]);
    }
  }

  // ----- The inductive invariant -----------------------------------------------------------

  /** What every stored receipt satisfies, beyond validation. */
  predicate Sound(r: Receipt, trace: seq<Milestone>) {
    && Valid(r)
    && (!r.status.NeedsYou? ==> AttemptsAtMost(r, MAX_RETRIES))
    && (r.stage.Revise? ==> r.revisions < r.rounds)
    && Needed(r.stage) <= Reached(trace)
  }

  /** A run that is ready for its user has passed every check, in order. */
  lemma ReadyPassedEverything(r: Receipt, trace: seq<Milestone>) returns (at: seq<nat>)
    requires Sound(r, trace) && r.status.ReadyForYou?
    ensures |at| == 5 && forall k :: 0 <= k < 5 ==> at[k] < |trace|
    ensures at[0] < at[1] < at[2] < at[3] < at[4]
    ensures (trace[at[0]], trace[at[1]], trace[at[2]], trace[at[3]], trace[at[4]]) ==
            (Executed, Published, Drafted, Packaged, Approved)
  {
    at := InOrder(trace);
    assert forall m :: Rank(m) == 0 ==> m == Executed;
    assert forall m :: Rank(m) == 1 ==> m == Published;
    assert forall m :: Rank(m) == 2 ==> m == Drafted;
    assert forall m :: Rank(m) == 3 ==> m == Packaged;
    assert forall m :: Rank(m) == 4 ==> m == Approved;
  }

  // ----- Compare-and-swap over concurrent drivers -------------------------------------------

  /** One driver reads the stored receipt, or writes a receipt it derived from its last one. */
  datatype Move = Read(driver: nat) | Write(driver: nat, change: Receipt)

  /** The stored receipt, what each driver last saw, and every receipt ever stored. */
  datatype World = World(store: Option<Receipt>, seen: map<nat, Receipt>, log: seq<Receipt>)

  /** persist: refuse unless the stored generation is the one the driver saw. */
  predicate Accepts(w: World, driver: nat, change: Receipt) {
    && driver in w.seen
    && w.seen[driver].generation < MAX_GENERATION
    && (if w.store.Some? then w.store.value.generation == w.seen[driver].generation else w.seen[driver].generation == 0)
    && Valid(change.(generation := w.seen[driver].generation + 1))
  }

  function Do(w: World, move: Move): World {
    match move
    case Read(driver) =>
      var seen := if w.store.Some? then w.store.value else Initial(0);
      w.(seen := w.seen[driver := seen])
    case Write(driver, change) =>
      if !Accepts(w, driver, change) then w
      else
        var next := change.(generation := w.seen[driver].generation + 1);
        World(Some(next), w.seen[driver := next], w.log + [next])
  }

  function DoAll(w: World, moves: seq<Move>): World
    decreases |moves|
  {
    if moves == [] then w else DoAll(Do(w, moves[0]), moves[1..])
  }

  const NOTHING := World(None, map[], [])

  /** The stored receipts are one chain; what a driver saw is the chain at its generation. */
  ghost predicate OneChain(w: World) {
    && (forall i :: 0 <= i < |w.log| ==> w.log[i].generation == i + 1 && Valid(w.log[i]))
    && w.store == (if w.log == [] then None else Some(w.log[|w.log| - 1]))
    && (forall driver :: driver in w.seen ==>
          var g := w.seen[driver].generation;
          g <= |w.log| && (g > 0 ==> w.seen[driver] == w.log[g - 1]))
  }

  /** An accepted write extends exactly the receipt its driver last saw: no update is lost. */
  lemma WriteExtendsSeen(w: World, driver: nat, change: Receipt)
    requires OneChain(w) && Accepts(w, driver, change)
    ensures w.seen[driver].generation == |w.log|
    ensures w.store.Some? ==> w.store.value == w.seen[driver]
    ensures Do(w, Write(driver, change)).log == w.log + [change.(generation := |w.log| + 1)]
  {
  }

  lemma ReadKeepsChain(w: World, driver: nat)
    requires OneChain(w)
    ensures OneChain(Do(w, Read(driver)))
  {
    hide Valid;
  }

  lemma WriteKeepsChain(w: World, driver: nat, change: Receipt)
    requires OneChain(w) && Accepts(w, driver, change)
    ensures OneChain(Do(w, Write(driver, change)))
  {
    hide Valid;
    WriteExtendsSeen(w, driver, change);
    var next := Do(w, Write(driver, change));
    assert forall i :: 0 <= i < |w.log| ==> next.log[i] == w.log[i];
    hide Accepts, Do;
    assert next.log == w.log + [change.(generation := |w.log| + 1)];
    forall d | d in next.seen
      ensures next.seen[d].generation <= |next.log|
              && (next.seen[d].generation > 0 ==> next.seen[d] == next.log[next.seen[d].generation - 1])
    {
      if d == driver {
        SeenByWriter(w, driver, change);
      } else {
        SeenByOthers(w, driver, change, d);
        var g := w.seen[d].generation;
        assert g <= |w.log| && (g > 0 ==> w.seen[d] == w.log[g - 1]);
      }
    }
    StoredLast(w, driver, change);
  }

  lemma SeenByOthers(w: World, driver: nat, change: Receipt, d: nat)
    requires d in Do(w, Write(driver, change)).seen && d != driver
    ensures d in w.seen && Do(w, Write(driver, change)).seen[d] == w.seen[d]
  {
  }

  lemma SeenByWriter(w: World, driver: nat, change: Receipt)
    requires OneChain(w) && Accepts(w, driver, change)
    ensures var next := Do(w, Write(driver, change));
            driver in next.seen && next.seen[driver] == change.(generation := |w.log| + 1)
  {
    WriteExtendsSeen(w, driver, change);
  }

  lemma StoredLast(w: World, driver: nat, change: Receipt)
    requires OneChain(w) && Accepts(w, driver, change)
    ensures Do(w, Write(driver, change)).store == Some(change.(generation := |w.log| + 1))
    ensures Valid(change.(generation := |w.log| + 1))
  {
    WriteExtendsSeen(w, driver, change);
  }

  lemma StepKeepsChain(w: World, move: Move)
    requires OneChain(w)
    ensures OneChain(Do(w, move)) && w.log <= Do(w, move).log
  {
    match move
    case Read(driver) => ReadKeepsChain(w, driver);
    case Write(driver, change) =>
      if Accepts(w, driver, change) {
        WriteKeepsChain(w, driver, change);
      }
      hide OneChain;
  }

  /** Any interleaving of any number of drivers keeps one chain, which only grows. */
  lemma {:induction false} DriversKeepOneChain(w: World, moves: seq<Move>)
    requires OneChain(w)
    ensures OneChain(DoAll(w, moves)) && w.log <= DoAll(w, moves).log
    decreases |moves|
  {
    if moves != [] {
      StepKeepsChain(w, moves[0]);
      DriversKeepOneChain(Do(w, moves[0]), moves[1..]);
    }
  }

  /** Two drivers that saw the same receipt cannot both write: the second one is refused. */
  lemma SecondWriterIsRefused(w: World, first: nat, second: nat, a: Receipt, b: Receipt)
    requires OneChain(w) && first != second && second in w.seen && Accepts(w, first, a)
    requires first in w.seen && w.seen[first].generation == w.seen[second].generation
    ensures !Accepts(Do(w, Write(first, a)), second, b)
  {
    WriteExtendsSeen(w, first, a);
  }
}
