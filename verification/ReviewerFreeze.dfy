/**
 The write-once reviewer of a run (src/agent/reviewer-mode-store.ts): any number of processes read,
 link without replacing, and read again, in any interleaving and with crashes.
 */
module ReviewerFreeze {
  import opened Prelude

  datatype Kind = Terra | Sol
  datatype Selection = Selection(kind: Kind, effort: string)

  /** Where a process is in freezeRunReviewMode. */
  datatype Stage =
    | Starting
    | Absent              // the first read found nothing
    | Tried               // the link was made, or refused because the file exists
    | Returned(value: Selection)
    | Drifted             // REVIEW_MODE_RUN_DRIFT
    | Crashed

  datatype Process = Process(proposal: Selection, stage: Stage)

  /** The file of the run, and the processes that freeze it. */
  datatype World = World(file: Option<Selection>, processes: map<nat, Process>)

  /** One step of one process; `Dies` may come at any point. */
  datatype Event = Arrives(pid: nat,
                           proposal: Selection) | Reads(pid: nat) | Links(pid: nat) | Rereads(pid: nat) | Dies(pid: nat)

  function Move(w: World, pid: nat, stage: Stage): World
    requires pid in w.processes
  {
    w.(processes := w.processes[pid := w.processes[pid].(stage := stage)])
  }

  /** An event that its process cannot perform now changes nothing. */
  function Step(w: World, e: Event): World {
    match e
    case Arrives(pid, proposal) =>
      if pid in w.processes then w else w.(processes := w.processes[pid := Process(proposal, Starting)])
    case Reads(pid) =>
      if pid !in w.processes || !w.processes[pid].stage.Starting? then w
      else
        Move(w, pid, if w.file.None? then Absent else if w.file.value == w.processes[pid].proposal
             then Returned(w.file.value) else Drifted)
    case Links(pid) =>
      if pid !in w.processes || !w.processes[pid].stage.Absent? then w
      else
        var linked := if w.file.None? then w.(file := Some(w.processes[pid].proposal)) else w;
        Move(linked, pid, Tried)
    case Rereads(pid) =>
      if pid !in w.processes || !w.processes[pid].stage.Tried? then w
      else
        Move(w, pid, if w.file.Some? && w.file.value == w.processes[pid].proposal then Returned(w.file.value)
             else Drifted)
    case Dies(pid) =>
      if pid !in w.processes || w.processes[pid].stage.Returned? || w.processes[pid].stage.Drifted? then w
         else Move(w, pid, Crashed)
  }

  function Run(w: World, events: seq<Event>): World
    decreases |events|
  {
    if events == [] then w else Run(Step(w, events[0]), events[1..])
  }

  /** What a process has learned agrees with the file. */
  ghost predicate Knows(w: World, p: Process) {
    match p.stage
    case Starting | Absent | Crashed => true
    case Tried => w.file.Some?
    case Returned(value) => value == p.proposal && w.file == Some(value)
    case Drifted => w.file.Some? && w.file.value != p.proposal
  }

  ghost predicate Agreed(w: World) {
    && (forall pid :: pid in w.processes ==> Knows(w, w.processes[pid]))
    && (w.file.Some? ==> exists pid :: pid in w.processes && w.processes[pid].proposal == w.file.value)
  }

  /** The file is written once and holds what some process proposed. */
  lemma StepAgrees(w: World, e: Event)
    requires Agreed(w)
    ensures Agreed(Step(w, e)) && (w.file.Some? ==> Step(w, e).file == w.file)
    ensures forall pid :: pid in w.processes ==>
              pid in Step(w, e).processes && Step(w, e).processes[pid].proposal == w.processes[pid].proposal
  {
    var next := Step(w, e);
    if w.file.Some? {
      var pid :| pid in w.processes && w.processes[pid].proposal == w.file.value;
      assert pid in next.processes && next.processes[pid].proposal == w.processes[pid].proposal;
    } else if next.file.Some? {
      assert e.pid in next.processes && next.processes[e.pid].proposal == next.file.value;
    }
  }

  /**
   Freeze agreement, over every interleaving: the frozen reviewer never changes once it is set;
   every process that returns, returns its own proposal, equal to the frozen one; and a process
   is refused only when another reviewer was frozen.
   */
  lemma {:induction false} FreezeAgreement(w: World, events: seq<Event>)
    requires Agreed(w)
    ensures var end := Run(w, events);
            && Agreed(end)
            && (w.file.Some? ==> end.file == w.file)
            && (forall pid :: pid in end.processes && end.processes[pid].stage.Returned? ==>
                  end.file == Some(end.processes[pid].proposal)
                      && end.processes[pid].stage.value == end.processes[pid].proposal)
            && (forall pid :: pid in end.processes && end.processes[pid].stage.Drifted? ==>
                  end.file.Some? && end.file.value != end.processes[pid].proposal)
    decreases |events|
  {
    if events != [] {
      StepAgrees(w, events[0]);
      FreezeAgreement(Step(w, events[0]), events[1..]);
    } else {
      forall pid | pid in w.processes ensures Knows(w, w.processes[pid]) {
      }
    }
  }

  /** No two processes come back with different reviewers. */
  lemma ReturnsAgree(events: seq<Event>, a: nat, b: nat)
    ensures var end := Run(World(None, map[]), events);
            a in end.processes && b in end.processes && end.processes[a].stage.Returned?
                && end.processes[b].stage.Returned? ==>
              end.processes[a].stage == end.processes[b].stage
  {
    FreezeAgreement(World(None, map[]), events);
  }

  // ----- Every process that takes its steps is answered --------------------------------------------

  ghost predicate Others(events: seq<Event>, pid: nat) {
    forall i :: 0 <= i < |events| ==> events[i].pid != pid
  }

  /** The other processes leave this one where it is, and a frozen reviewer as it is. */
  lemma {:induction false} OthersLeave(w: World, events: seq<Event>, pid: nat)
    requires Others(events, pid)
    ensures var end := Run(w, events);
            && (pid in end.processes <==> pid in w.processes)
            && (pid in w.processes ==> end.processes[pid] == w.processes[pid])
            && (w.file.Some? ==> end.file == w.file)
    decreases |events|
  {
    if events != [] {
      assert events[0].pid != pid;
      OthersLeave(Step(w, events[0]), events[1..], pid);
    }
  }

  /**
   A process that arrives, reads, links and reads again, with any steps of others in between, is answered: it
   returns its own proposal when that is the frozen one, and is refused otherwise; and a reviewer is frozen by then.
   */
  lemma EveryProcessIsAnswered(w: World, pid: nat, proposal: Selection, a: seq<Event>, b: seq<Event>, c: seq<Event>)
    requires pid !in w.processes && Others(a, pid) && Others(b, pid) && Others(c, pid)
    ensures var started := Run(Step(w, Arrives(pid, proposal)), a);
            var found := Run(Step(started, Reads(pid)), b);
            var linked := Run(Step(found, Links(pid)), c);
            var end := Step(linked, Rereads(pid));
            && end.file.Some? && pid in end.processes && end.processes[pid].proposal == proposal
            && end.processes[pid].stage == (if end.file == Some(proposal) then Returned(proposal) else Drifted)
            && (w.file.None? && started.file.None? && found.file.None? ==> end.file == Some(proposal))
  {
    OthersLeave(Step(w, Arrives(pid, proposal)), a, pid);
    var started := Run(Step(w, Arrives(pid, proposal)), a);
    OthersLeave(Step(started, Reads(pid)), b, pid);
    var found := Run(Step(started, Reads(pid)), b);
    OthersLeave(Step(found, Links(pid)), c, pid);
  }

  /** A process that has returned, was refused, or has crashed takes no further step; one at work may die anywhere. */
  lemma EndsStay(w: World, e: Event, pid: nat)
    requires pid in w.processes
    ensures var p := w.processes[pid];
            p.stage.Returned? || p.stage == Drifted || p.stage == Crashed ==> Step(w, e).processes[pid] == p
    ensures var p := w.processes[pid];
            p.stage == Starting || p.stage == Absent || p.stage == Tried ==>
              && Step(w, Dies(pid)).processes[pid] == Process(p.proposal, Crashed)
              && Step(w, Dies(pid)).file == w.file
    ensures Step(w, Arrives(pid, w.processes[pid].proposal)) == w
  {
  }

  // ----- One process, effect by effect ----------------------------------------------------------

  /** The reviewer file of a run; a link never replaces it. */
  class RunFile {
    var frozen: Option<Selection>

    constructor ()
      ensures frozen.None?
    {
      frozen := None;
    }

    method Link(value: Selection) returns (linked: bool)
      modifies this
      ensures linked == old(frozen).None?
      ensures frozen == if linked then Some(value) else old(frozen)
    {
      linked := frozen.None?;
      if linked {
        frozen := Some(value);
      }
    }
  }

  /** The first reviewer that anyone froze, this process included. */
  function FirstFrozen(before: Option<Selection>, rivals: seq<Selection>, proposal: Selection): Selection {
    if before.Some? then before.value else if rivals != [] then rivals[0] else proposal
  }

  /** freezeRunReviewMode; `rivals` are the processes that link between its two reads. */
  method Freeze(file: RunFile, proposal: Selection, rivals: seq<Selection>) returns (result: Option<Selection>)
    modifies file
    ensures file.frozen == Some(FirstFrozen(old(file.frozen), if old(file.frozen).None? then rivals else [], proposal))
    ensures result == if file.frozen == Some(proposal) then Some(proposal) else None
  {
    var existing := file.frozen;
    if existing.Some? {
      return if existing.value == proposal then existing else None;
    }
    var k := 0;
    while k < |rivals|
      invariant k <= |rivals|
      invariant file.frozen == if k == 0 then None else Some(rivals[0])
    {
      var _ := file.Link(rivals[k]);
      k := k + 1;
    }
    var _ := file.Link(proposal);
    var persisted := file.frozen;
    result := if persisted == Some(proposal) then persisted else None;
  }
}
