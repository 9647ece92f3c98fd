/**
 The bounded pool of src/orchestration/resource-pool.ts. A job is known by its place in the order
 of submission; a job that fails at once, before its first await, frees its slot inside the call
 that started it.
 */
module ResourcePool {
  import opened Prelude

  datatype Admission = Started | Queued | Backpressure | Cancelled

  /** Where a submitted job is. InHand: taken by the pool, not yet placed. */
  datatype Place = InHand | Waiting | Running | Finished | Refused | Dropped

  /** The promise of the job has settled. */
  predicate IsSettled(place: Place) {
    place.Finished? || place.Refused? || place.Dropped?
  }

  /** What has settled stays as it is. */
  ghost predicate Permanent(before: seq<Place>, after: seq<Place>) {
    |before| <= |after| && forall job :: 0 <= job < |before| && IsSettled(before[job]) ==> after[job] == before[job]
  }

  predicate ValidBounds(maximumActive: int, maximumQueue: int) {
    1 <= maximumActive <= 64 && 0 <= maximumQueue <= 10_000
  }

  ghost predicate Increasing(s: seq<nat>) {
    forall i, j :: 0 <= i < j < |s| ==> s[i] < s[j]
  }

  ghost predicate Below(a: seq<nat>, b: seq<nat>) {
    forall i, j :: 0 <= i < |a| && 0 <= j < |b| ==> a[i] < b[j]
  }

  /** Starts happen in the order of submission, and nothing that waits has been overtaken. */
  ghost predicate Ordered(queue: seq<nat>, started: seq<nat>) {
    Increasing(queue) && Increasing(started) && Below(started, queue)
  }

  /** The queue and the log of starts agree with where each job is. */
  ghost predicate Tracks(places: seq<Place>, queue: seq<nat>, started: seq<nat>) {
    && (forall job :: 0 <= job < |places| ==> (places[job].Waiting? <==> job in queue))
    && (forall job :: 0 <= job < |places| ==> (places[job].Running? || places[job].Finished? <==> job in started))
    && (forall i :: 0 <= i < |queue| ==> queue[i] < |places|)
    && (forall i :: 0 <= i < |started| ==> started[i] < |places|)
  }

  ghost predicate OnlyInHand(places: seq<Place>, hand: set<nat>) {
    forall job :: 0 <= job < |places| ==> (places[job].InHand? <==> job in hand)
  }

  function Count(places: seq<Place>, place: Place): nat {
    if places == [] then 0
    else Count(places[..|places| - 1], place) + if places[|places| - 1] == place then 1 else 0
  }

  lemma {:induction false} CountUpdate(places: seq<Place>, job: nat, to: Place, place: Place)
    requires job < |places|
    ensures Count(places[job := to], place) ==
            Count(places, place) - (if places[job] == place then 1 else 0) + (if to == place then 1 else 0)
  {
    var n := |places| - 1;
    if job < n {
      CountUpdate(places[..n], job, to, place);
      assert places[job := to][..n] == places[..n][job := to];
    } else {
      assert places[job := to][..n] == places[..n];
    }
  }

  lemma CountAppend(places: seq<Place>, to: Place, place: Place)
    ensures Count(places + [to], place) == Count(places, place) + if to == place then 1 else 0
  {
    assert (places + [to])[..|places|] == places;
  }

  /** Every job is counted once. */
  lemma {:induction false} CountsAddUp(places: seq<Place>)
    ensures |places| == Count(places, InHand) + Count(places, Waiting) + Count(places, Running) + Count(places,
            Finished)
                        + Count(places, Refused) + Count(places, Dropped)
  {
    if places != [] {
      CountsAddUp(places[..|places| - 1]);
    }
  }

  ghost predicate Counted(places: seq<Place>, active: nat, completed: nat, rejected: nat, waiting: nat) {
    && Count(places, Running) == active && Count(places, Finished) == completed
    && Count(places, Refused) == rejected && Count(places, Waiting) == waiting
  }

  // ----- What each move keeps ------------------------------------------------------------------

  lemma JobArrives(places: seq<Place>, queue: seq<nat>, started: seq<nat>, active: nat, completed: nat, rejected: nat,
                   waiting: nat)
    requires Tracks(places, queue, started) && OnlyInHand(places, {})
             && Counted(places, active, completed, rejected, waiting)
    ensures var next := places + [InHand];
            && Tracks(next, queue, started) && OnlyInHand(next, {|places|})
            && Counted(next, active, completed, rejected, waiting)
            && Below(started, [|places|]) && Below(queue, [|places|])
  {
    CountAppend(places, InHand, Running);
    CountAppend(places, InHand, Finished);
    CountAppend(places, InHand, Refused);
    CountAppend(places, InHand, Waiting);
  }

  lemma {:induction false} SomeCounted(places: seq<Place>, job: nat)
    requires job < |places|
    ensures Count(places, places[job]) >= 1
  {
    if job < |places| - 1 {
      assert places[..|places| - 1][job] == places[job];
      SomeCounted(places[..|places| - 1], job);
    }
  }

  function One(to: Place, place: Place): nat {
    if to == place then 1 else 0
  }

  /** The counters after a job moves out of the hand. */
  lemma Places(places: seq<Place>, job: nat, to: Place, active: nat, completed: nat, rejected: nat, waiting: nat)
    requires job < |places| && places[job].InHand? && Counted(places, active, completed, rejected, waiting)
    ensures Counted(places[job := to], active + One(to, Running), completed + One(to, Finished),
                    rejected + One(to, Refused),
                    waiting + One(to, Waiting))
  {
    CountUpdate(places, job, to, Running);
    CountUpdate(places, job, to, Finished);
    CountUpdate(places, job, to, Refused);
    CountUpdate(places, job, to, Waiting);
  }

  lemma Completes(places: seq<Place>, job: nat, active: nat, completed: nat, rejected: nat, waiting: nat)
    requires job < |places| && places[job].Running? && Counted(places, active, completed, rejected, waiting)
    ensures active >= 1 && Counted(places[job := Finished], active - 1, completed + 1, rejected, waiting)
  {
    SomeCounted(places, job);
    CountUpdate(places, job, Finished, Running);
    CountUpdate(places, job, Finished, Finished);
    CountUpdate(places, job, Finished, Refused);
    CountUpdate(places, job, Finished, Waiting);
  }

  lemma Grabs(places: seq<Place>, job: nat, active: nat, completed: nat, rejected: nat, waiting: nat)
    requires job < |places| && places[job].Waiting? && Counted(places, active, completed, rejected, waiting)
    ensures waiting >= 1 && Counted(places[job := InHand], active, completed, rejected, waiting - 1)
  {
    SomeCounted(places, job);
    CountUpdate(places, job, InHand, Running);
    CountUpdate(places, job, InHand, Finished);
    CountUpdate(places, job, InHand, Refused);
    CountUpdate(places, job, InHand, Waiting);
  }

  lemma {:induction false} NoneInHand(places: seq<Place>)
    requires OnlyInHand(places, {})
    ensures Count(places, InHand) == 0
  {
    if places != [] {
      assert forall job :: 0 <= job < |places| - 1 ==> places[..|places| - 1][job] == places[job];
      NoneInHand(places[..|places| - 1]);
    }
  }

  lemma Starts(places: seq<Place>, queue: seq<nat>, started: seq<nat>, job: nat)
    requires Tracks(places, queue, started) && Ordered(queue, started) && job < |places| && OnlyInHand(places, {job})
    requires Below(started, [job]) && Below([job], queue)
    ensures var next := places[job := Running];
            Tracks(next, queue, started + [job]) && Ordered(queue, started + [job]) && OnlyInHand(next, {})
  {
    assert forall i :: 0 <= i < |started| ==> started[i] < [job][0];
    assert forall i :: 0 <= i < |queue| ==> [job][0] < queue[i];
  }

  lemma Ends(places: seq<Place>, queue: seq<nat>, started: seq<nat>, job: nat)
    requires Tracks(places, queue, started) && OnlyInHand(places, {}) && job < |places| && places[job].Running?
    ensures Tracks(places[job := Finished], queue, started) && OnlyInHand(places[job := Finished], {})
  {
  }

  lemma Leaves(places: seq<Place>, queue: seq<nat>, started: seq<nat>, job: nat, to: Place)
    requires Tracks(places, queue, started) && job < |places| && OnlyInHand(places, {job})
             && (to.Refused? || to.Dropped?)
    ensures Tracks(places[job := to], queue, started) && OnlyInHand(places[job := to], {})
  {
  }

  lemma Waits(places: seq<Place>, queue: seq<nat>, started: seq<nat>, job: nat)
    requires Tracks(places, queue, started) && Ordered(queue, started) && job < |places| && OnlyInHand(places, {job})
    requires Below(started, [job]) && Below(queue, [job])
    ensures var next := places[job := Waiting];
            Tracks(next, queue + [job], started) && Ordered(queue + [job], started) && OnlyInHand(next, {})
  {
    assert forall i :: 0 <= i < |queue| ==> queue[i] < [job][0];
    assert forall i :: 0 <= i < |started| ==> started[i] < [job][0];
  }

  /** Any waiting job can be taken out; the first one is older than the rest and younger than all starts. */
  lemma Takes(places: seq<Place>, queue: seq<nat>, started: seq<nat>, index: nat)
    requires Tracks(places, queue, started) && Ordered(queue, started) && index < |queue| && OnlyInHand(places, {})
    ensures var job, rest := queue[index], queue[..index] + queue[index + 1..];
            && job < |places| && places[job].Waiting? && job !in rest
            && Tracks(places[job := InHand], rest, started) && Ordered(rest, started)
            && OnlyInHand(places[job := InHand], {job})
            && Below(started, [job]) && (index == 0 ==> Below([job], rest))
  {
    var job, rest := queue[index], queue[..index] + queue[index + 1..];
    assert forall i :: 0 <= i < |rest| ==> rest[i] == queue[if i < index then i else i + 1];
    forall other | 0 <= other < |places| && other != job ensures other in rest <==> other in queue {
      if other in queue {
        var k :| 0 <= k < |queue| && queue[k] == other;
        assert rest[if k < index then k else k - 1] == other;
      }
    }
  }

  /** What happens to a pool: a job is submitted, the promise of a running job settles, a signal fires. */
  datatype Event = Arrives(signalled: bool, failing: set<nat>) | Settles(job: nat, failing: set<nat>) | Aborts(job: nat)

  class Pool {
    const maximumActive: nat
    const maximumQueue: nat
    var active: nat
    var completed: nat
    var rejected: nat
    var queue: seq<nat>
    /** Jobs whose signal has been aborted. */
    var aborted: set<nat>
    /** How many jobs were submitted; it names the next one. */
    var submitted: nat
    /** Where the promise of each job stands. */
    var places: seq<Place>
    ghost var started: seq<nat>

    constructor (maximumActive: nat, maximumQueue: nat)
      requires ValidBounds(maximumActive, maximumQueue)
      ensures Valid() && this.maximumActive == maximumActive && this.maximumQueue == maximumQueue
      ensures submitted == 0 && started == [] && queue == []
    {
      this.maximumActive, this.maximumQueue := maximumActive, maximumQueue;
      active, completed, rejected, queue, aborted := 0, 0, 0, [], {};
      submitted, places, started := 0, [], [];
    }

    ghost predicate Consistent(hand: set<nat>)
      reads this
    {
      && |places| == submitted
      && Tracks(places, queue, started) && Ordered(queue, started) && OnlyInHand(places, hand)
      && Counted(places, active, completed, rejected, |queue|)
      && active <= maximumActive && |queue| <= maximumQueue && maximumActive >= 1
      && (forall i :: 0 <= i < |queue| ==> queue[i] !in aborted)
      && (forall job :: job in aborted ==> job < submitted)
    }

    /** The `k` oldest waiting jobs have started, in order, and no other. */
    ghost predicate PumpedBy(waiting: seq<nat>, before: seq<nat>, busy: nat, k: int)
      reads this
    {
      && 0 <= k <= |waiting| && active == busy + k && queue == waiting[k..] && started == before + waiting[..k]
      && (k == |waiting| || active == maximumActive)
    }

    /** A job waits only while every slot is busy. */
    ghost predicate Full()
      reads this
    {
      queue != [] ==> active == maximumActive
    }

    ghost predicate Valid()
      reads this
    {
      Consistent({}) && Full()
    }

    /** snapshot: within bounds, and with the cancelled jobs the counters account for every submission. */
    method Snapshot() returns (busy: nat, waiting: nat, done: nat, turnedAway: nat)
      requires Valid()
      ensures busy <= maximumActive && waiting <= maximumQueue && (waiting > 0 ==> busy == maximumActive)
      ensures submitted == busy + waiting + done + turnedAway + Count(places, Dropped)
    {
      busy, waiting, done, turnedAway := active, |queue|, completed, rejected;
      CountsAddUp(places);
      NoneInHand(places);
    }

    /** run: admit, queue or refuse a new job. `failing` are the jobs that fail at once. */
    method Submit(signalled: bool, failing: set<nat>) returns (job: nat, admission: Admission)
      requires Valid()
      modifies this
      ensures Valid() && job == old(submitted) && submitted == old(submitted) + 1
      ensures admission == (if signalled then Cancelled
                            else if old(active) < maximumActive then Started
                            else if |old(queue)| < maximumQueue then Queued
                            else Backpressure)
      ensures old(started) <= started && Permanent(old(places), places)
      ensures match admission
              case Started =>
                && job in started && old(queue) == [] && places[job] == (if job in failing then Finished else Running)
                && (job !in failing ==> started == old(started) + [job] && active == old(active) + 1)
              case Queued => places[job].Waiting? && queue == old(queue) + [job] && started == old(started)
              case Backpressure => places[job].Refused? && queue == old(queue) && started == old(started)
              case Cancelled => places[job].Dropped? && queue == old(queue) && started == old(started)
    {
      hide Tracks, Ordered, OnlyInHand, Counted, Count;
      job := submitted;
      JobArrives(places, queue, started, active, completed, rejected, |queue|);
      places, submitted := places + [InHand], submitted + 1;
      if !signalled && active < maximumActive {
        admission := Started;
        Execute(job, failing);
        StartedAt(started, |old(started)|, job);
      } else if !signalled && |queue| < maximumQueue {
        admission := Queued;
        Waits(places, queue, started, job);
        Places(places, job, Waiting, active, completed, rejected, |queue|);
        places, queue := places[job := Waiting], queue + [job];
      } else {
        admission := if signalled then Cancelled else Backpressure;
        var to := if signalled then Dropped else Refused;
        Leaves(places, queue, started, job, to);
        Places(places, job, to, active, completed, rejected, |queue|);
        places := places[job := to];
        if signalled {
          aborted := aborted + {job};
        } else {
          rejected := rejected + 1;
        }
      }
    }

    /** execute, up to its first await: the job starts, and frees its slot at once if it fails there. */
    method Execute(job: nat, failing: set<nat>)
      requires Consistent({job}) && job < submitted && active < maximumActive
      requires Below(started, [job]) && Below([job], queue)
      modifies this
      ensures Consistent({}) && submitted == old(submitted) && |queue| <= |old(queue)|
      ensures old(started) + [job] <= started
      ensures old(queue) == [] ==> queue == []
      ensures completed >= old(completed)
      ensures Permanent(old(places), places)
      ensures job < |places| && places[job] == if job in failing then Finished else Running
      ensures job !in failing ==>
                queue == old(queue) && started == old(started) + [job] && active == old(active) + 1
                    && completed == old(completed)
      decreases |queue|, 1
    {
      hide Tracks, Ordered, Counted, Count, Below;
      assert places[job].InHand? by { InHandIs(places, job); }
      Starts(places, queue, started, job);
      Places(places, job, Running, active, completed, rejected, |queue|);
      hide OnlyInHand;
      active, places, started := active + 1, places[job := Running], started + [job];
      if job in failing {
        Settle(job);
        Pump(failing);
      }
    }

    /** The finally block before the pump. */
    method Settle(job: nat)
      requires Consistent({}) && job < submitted && places[job].Running?
      modifies `active, `completed, `places
      ensures Consistent({}) && active == old(active) - 1 && completed == old(completed) + 1
      ensures places == old(places)[job := Finished]
    {
      hide Tracks, Ordered, OnlyInHand, Counted, Count;
      Ends(places, queue, started, job);
      Completes(places, job, active, completed, rejected, |queue|);
      active, completed, places := active - 1, completed + 1, places[job := Finished];
    }

    /** pump: start waiting jobs, oldest first, while slots are free. */
    method Pump(failing: set<nat>)
      requires Consistent({})
      modifies this
      ensures Consistent({}) && Full() && submitted == old(submitted) && |queue| <= |old(queue)|
      ensures old(started) <= started && completed >= old(completed) && Permanent(old(places), places)
      ensures failing == {} ==>
                PumpedBy(old(queue), old(started), old(active), active - old(active)) && completed == old(completed)
      decreases |queue|, 0
    {
      hide Tracks, Ordered, OnlyInHand, Counted, Count, Below;
      ghost var k := 0;
      while active < maximumActive && |queue| > 0
        invariant Consistent({}) && submitted == old(submitted) && |queue| <= |old(queue)|
        invariant old(started) <= started && completed >= old(completed) && Permanent(old(places), places)
        invariant failing == {} ==> k <= |old(queue)| && active == old(active) + k && completed == old(completed)
                                    && queue == old(queue)[k..] && started == old(started) + old(queue)[..k]
        decreases |queue|
      {
        var item := queue[0];
        Takes(places, queue, started, 0);
        Grabs(places, item, active, completed, rejected, |queue|);
        assert queue[..0] + queue[0 + 1..] == queue[1..];
        assert places[item].Waiting?;
        places, queue := places[item := InHand], queue[1..];
        // An abort takes its job out of the queue, so the pump's own check never finds one.
        assert item !in aborted;
        Execute(item, failing);
        assert failing == {} ==> old(queue)[..k + 1] == old(queue)[..k] + [item];
        k := k + 1;
      }
    }

    /** The promise of a running job settles, either way. */
    method Finish(job: nat, failing: set<nat>)
      requires Valid() && job < submitted && places[job].Running?
      modifies this
      ensures Valid() && submitted == old(submitted) && old(started) <= started
      ensures Permanent(old(places), places) && job < |places| && places[job].Finished?
      ensures completed >= old(completed) + 1
      ensures failing == {} && old(queue) != [] ==>
                active == old(active) && started == old(started) + [old(queue)[0]] && queue == old(queue)[1..]
      ensures failing == {} && old(queue) == [] ==> active == old(active) - 1 && started == old(started) && queue == []
    {
      hide Tracks, Ordered, OnlyInHand, Counted, Count;
      Settle(job);
      Pump(failing);
    }

    /** The abort signal of a job fires: a waiting job leaves the queue, any other is left alone. */
    method Abort(job: nat)
      requires Valid() && job < submitted
      modifies `queue, `aborted, `places
      ensures Valid() && job !in queue
      ensures places == if job in old(queue) then old(places)[job := Dropped] else old(places)
      ensures Permanent(old(places), places)
      ensures |queue| == |old(queue)| - if job in old(queue) then 1 else 0
    {
      hide Tracks, Ordered, OnlyInHand, Counted, Count;
      var index := IndexOf(queue, job);
      if index < |queue| {
        Takes(places, queue, started, index);
        Grabs(places, job, active, completed, rejected, |queue|);
        var rest := queue[..index] + queue[index + 1..];
        Leaves(places[job := InHand], rest, started, job, Dropped);
        Places(places[job := InHand], job, Dropped, active, completed, rejected, |rest|);
        assert places[job := InHand][job := Dropped] == places[job := Dropped];
        assert places[job].Waiting?;
        assert forall i :: 0 <= i < |rest| ==> rest[i] == queue[if i < index then i else i + 1];
        assert forall i :: 0 <= i < |rest| ==> rest[i] != job;
        places, queue := places[job := Dropped], rest;
      }
      aborted := aborted + {job};
    }

    /**
     Any life of the pool: whatever arrives, settles or aborts, and in whatever order, each job settles
     at most once, and when nothing runs any more every job has settled.
     */
    method Live(events: seq<Event>)
      requires Valid()
      modifies this
      ensures Valid() && Permanent(old(places), places) && old(started) <= started
      ensures active == 0 ==> forall job :: 0 <= job < |places| ==> IsSettled(places[job])
    {
      for k := 0 to |events|
        invariant Valid() && Permanent(old(places), places) && old(started) <= started
      {
        hide Valid;
        match events[k] {
          case Arrives(signalled, failing) =>
            var _, _ := Submit(signalled, failing);
          case Settles(job, failing) =>
            assert |places| == submitted by { Known(); }
            if job < submitted && places[job].Running? {
              Finish(job, failing);
            }
          case Aborts(job) =>
            if job < submitted {
              Abort(job);
            }
        }
      }
      if active == 0 {
        NobodyIsLost();
      }
    }

    lemma Known()
      requires Valid()
      ensures |places| == submitted
    {
    }

    /** With no slot in use nothing can wait, so nothing is pending. */
    lemma NobodyIsLost()
      requires Valid() && active == 0
      ensures forall job :: 0 <= job < |places| ==> IsSettled(places[job])
    {
      hide Ordered;
      forall job | 0 <= job < |places| ensures IsSettled(places[job]) {
        SomeCounted(places, job);
      }
    }
  }

  lemma InHandIs(places: seq<Place>, job: nat)
    requires job < |places| && OnlyInHand(places, {job})
    ensures places[job].InHand?
  {
  }

  lemma StartedAt(started: seq<nat>, index: nat, job: nat)
    requires index < |started| && started[index] == job
    ensures job in started
  {
  }

  /** Array.prototype.indexOf; the length when the job is not there. */
  method IndexOf(queue: seq<nat>, job: nat) returns (index: nat)
    ensures index <= |queue| && job !in queue[..index]
    ensures index < |queue| ==> queue[index] == job
    ensures index == |queue| <==> job !in queue
  {
    index := 0;
    while index < |queue| && queue[index] != job
      invariant index <= |queue| && job !in queue[..index]
    {
      index := index + 1;
    }
  }

  /** A pool is made for 1 to 64 active and up to 10,000 waiting jobs, and refused for any other bounds. */
  method Create(maximumActive: int, maximumQueue: int) returns (pool: Option<Pool>)
    ensures pool.Some? <==> 1 <= maximumActive && maximumActive <= 64 && 0 <= maximumQueue && maximumQueue <= 10_000
    ensures pool.Some? ==>
              && fresh(pool.value) && pool.value.Valid() && pool.value.submitted == 0
              && pool.value.maximumActive == maximumActive && pool.value.maximumQueue == maximumQueue
  {
    if !ValidBounds(maximumActive, maximumQueue) {
      return None;
    }
    var made := new Pool(maximumActive, maximumQueue);
    pool := Some(made);
  }
}
