/**
 The hash-chained event log of src/orchestration/ledger.ts, kept to its newest 128 events.
 SHA-256 over the canonical form of an event is the parameter `hash`.
 */
module EventChain {
  import opened Prelude

  const MAX_EVENTS: nat := 128
  const ZERO_HASH: Digest := "0000000000000000000000000000000000000000000000000000000000000000"

  /** What a caller appends: the kind, the time and the digest of the data. */
  datatype Entry = Entry(kind: string, at: int, data: Digest)

  datatype Body = Body(sequence: nat, kind: string, at: int, data: Digest, previous: Digest)
  datatype Event = Event(body: Body, hash: Digest)
  datatype Chain = Chain(anchor: Digest, compacted: nat, events: seq<Event>)

  const EMPTY := Chain(ZERO_HASH, 0, [])

  function Clip(kind: string): string {
    if |kind| > 128 then kind[..128] else kind
  }

  function Tip(chain: Chain): Digest {
    if chain.events == [] then chain.anchor else chain.events[|chain.events| - 1].hash
  }

  // ----- The complete history, never stored ------------------------------------------------

  function Seal(hash: Body -> Digest, sequence: nat, entry: Entry, previous: Digest): Event {
    var body := Body(sequence, Clip(entry.kind), entry.at, entry.data, previous);
    Event(body, hash(body))
  }

  /** Every event ever appended, each sealed over the hash of the one before it. */
  function History(hash: Body -> Digest, entries: seq<Entry>): (events: seq<Event>)
    ensures |events| == |entries|
  {
    if entries == [] then []
    else
      var n := |entries| - 1;
      var before := History(hash, entries[..n]);
      before + [Seal(hash, n + 1, entries[n], if n == 0 then ZERO_HASH else before[n - 1].hash)]
  }

  function Dropped(n: nat): nat {
    if n > MAX_EVENTS then n - MAX_EVENTS else 0
  }

  /** What should be stored after these appends: the newest events and the last dropped hash. */
  function Window(hash: Body -> Digest, entries: seq<Entry>): Chain {
    var all, k := History(hash, entries), Dropped(|entries|);
    Chain(if k == 0 then ZERO_HASH else all[k - 1].hash, k, all[k..])
  }

  // ----- Append ----------------------------------------------------------------------------

  function Compact(chain: Chain): Chain
    decreases |chain.events|
  {
    if |chain.events| <= MAX_EVENTS then chain
    else Compact(Chain(chain.events[0].hash, chain.compacted + 1, chain.events[1..]))
  }

  /** appendLedgerEvent on the log. */
  function Append(hash: Body -> Digest, chain: Chain, entry: Entry): Chain {
    var event := Seal(hash, chain.compacted + |chain.events| + 1, entry, Tip(chain));
    Compact(chain.(events := chain.events + [event]))
  }

  function AppendAll(hash: Body -> Digest, entries: seq<Entry>): Chain {
    if entries == [] then EMPTY
    else Append(hash, AppendAll(hash, entries[..|entries| - 1]), entries[|entries| - 1])
  }

  lemma CompactAtMostOne(chain: Chain)
    requires |chain.events| <= MAX_EVENTS + 1
    ensures Compact(chain) ==
            if |chain.events| <= MAX_EVENTS then chain
            else Chain(chain.events[0].hash, chain.compacted + 1, chain.events[1..])
  {
    if |chain.events| > MAX_EVENTS {
      assert Compact(Chain(chain.events[0].hash, chain.compacted + 1, chain.events[1..])) ==
             Chain(chain.events[0].hash, chain.compacted + 1, chain.events[1..]);
    }
  }

  lemma WindowTip(hash: Body -> Digest, entries: seq<Entry>)
    ensures var all := History(hash, entries);
            Tip(Window(hash, entries)) == if entries == [] then ZERO_HASH else all[|entries| - 1].hash
  {
    hide Seal;
  }

  lemma WindowStep(hash: Body -> Digest, entries: seq<Entry>)
    requires entries != []
    ensures Append(hash, Window(hash, entries[..|entries| - 1]), entries[|entries| - 1]) == Window(hash, entries)
  {
    hide Seal;
    var n := |entries| - 1;
    var all, before, k := History(hash, entries), History(hash, entries[..n]), Dropped(n);
    var chain := Window(hash, entries[..n]);
    WindowTip(hash, entries[..n]);
    hide Tip;
    assert all == before + [Seal(hash, n + 1, entries[n], Tip(chain))];
    hide History;
    var longer := chain.(events := chain.events + [all[n]]);
    assert longer.events == all[k..];
    CompactAtMostOne(longer);
  }

  /** After any number of appends the log is exactly the window on the complete history. */
  lemma {:induction false} AppendsKeepWindow(hash: Body -> Digest, entries: seq<Entry>)
    ensures AppendAll(hash, entries) == Window(hash, entries)
    ensures var n := |entries|;
            AppendAll(hash, entries).events == History(hash, entries)[if n <= 128 then 0 else n - 128..]
  {
    if entries != [] {
      AppendsKeepWindow(hash, entries[..|entries| - 1]);
      WindowStep(hash, entries);
      hide Window, Append;
    }
  }

  // ----- Validation ------------------------------------------------------------------------

  /** The event in place i continues what is before it, or the anchor. */
  ghost predicate LinkedAt(hash: Body -> Digest, chain: Chain, i: nat)
    requires i < |chain.events|
  {
    var event := chain.events[i];
    && event.body.sequence == chain.compacted + i + 1
    && 1 <= |event.body.kind| <= 128
    && event.body.previous == (if i == 0 then chain.anchor else chain.events[i - 1].hash)
    && event.hash == hash(event.body)
  }

  ghost predicate Linked(hash: Body -> Digest, chain: Chain) {
    forall i :: 0 <= i < |chain.events| ==> LinkedAt(hash, chain, i)
  }

  /** validateEventChain. */
  method Validate(hash: Body -> Digest, chain: Chain) returns (ok: bool)
    ensures ok <==> Linked(hash, chain)
  {
    var previous, expected := chain.anchor, chain.compacted + 1;
    var i := 0;
    while i < |chain.events|
      invariant i <= |chain.events| && expected == chain.compacted + i + 1
      invariant previous == if i == 0 then chain.anchor else chain.events[i - 1].hash
      invariant forall j :: 0 <= j < i ==> LinkedAt(hash, chain, j)
    {
      var event := chain.events[i];
      if |event.body.kind| < 1 || |event.body.kind| > 128 || event.body.sequence != expected
        || event.body.previous != previous || event.hash != hash(event.body) {
        assert !LinkedAt(hash, chain, i);
        return false;
      }
      previous, expected := event.hash, expected + 1;
      i := i + 1;
    }
    ok := true;
  }

  lemma CompactKeepsLinks(hash: Body -> Digest, chain: Chain)
    requires Linked(hash, chain) && |chain.events| <= MAX_EVENTS + 1
    ensures Linked(hash, Compact(chain)) && |Compact(chain).events| <= MAX_EVENTS && Tip(Compact(chain)) == Tip(chain)
  {
    CompactAtMostOne(chain);
    var compact := Compact(chain);
    if |chain.events| > MAX_EVENTS {
      forall i | 0 <= i < |compact.events| ensures LinkedAt(hash, compact, i) {
        assert LinkedAt(hash, chain, i + 1);
        assert compact.events[i] == chain.events[i + 1];
      }
    }
  }

  /** Appending to an accepted log gives an accepted log that ends in the new event. */
  lemma AppendKeepsLinks(hash: Body -> Digest, chain: Chain, entry: Entry)
    requires Linked(hash, chain) && |chain.events| <= MAX_EVENTS && entry.kind != []
    ensures var next := Append(hash, chain, entry);
            && Linked(hash, next) && |next.events| <= MAX_EVENTS && next.events != []
            && next.compacted + |next.events| == chain.compacted + |chain.events| + 1
            && Tip(next) == Seal(hash, chain.compacted + |chain.events| + 1, entry, Tip(chain)).hash
  {
    var event := Seal(hash, chain.compacted + |chain.events| + 1, entry, Tip(chain));
    var longer := chain.(events := chain.events + [event]);
    forall i | 0 <= i < |longer.events| ensures LinkedAt(hash, longer, i) {
      if i < |chain.events| {
        assert LinkedAt(hash, chain, i);
      }
    }
    CompactKeepsLinks(hash, longer);
    CompactAtMostOne(longer);
  }

  // ----- What a tip pins down --------------------------------------------------------------

  /**
   With a collision-free hash, two accepted logs with the same compacted count, the same length
   and the same newest hash are the same log, anchor included.
   */
  lemma {:induction false} TipPinsWindow(hash: Body -> Digest, a: Chain, b: Chain)
    requires CollisionFree(hash) && Linked(hash, a) && Linked(hash, b)
    requires a.compacted == b.compacted && |a.events| == |b.events| && Tip(a) == Tip(b)
    ensures a == b
    decreases |a.events|
  {
    if a.events != [] {
      var n := |a.events| - 1;
      assert LinkedAt(hash, a, n) && LinkedAt(hash, b, n);
      assert a.events[n].body == b.events[n].body;
      var c, d := a.(events := a.events[..n]), b.(events := b.events[..n]);
      forall i | 0 <= i < n ensures LinkedAt(hash, c, i) && LinkedAt(hash, d, i) {
        assert LinkedAt(hash, a, i) && LinkedAt(hash, b, i);
      }
      TipPinsWindow(hash, c, d);
      assert a.events == c.events + [a.events[n]] && b.events == d.events + [b.events[n]];
    }
  }

  /** Each event of the history holds what was appended, its kind cut to 128 characters, and seals the one before. */
  lemma {:induction false} HistoryHolds(hash: Body -> Digest, entries: seq<Entry>, i: nat)
    requires i < |entries|
    ensures var events := History(hash, entries);
            && events[i].body.sequence == i + 1 && events[i].body.at == entries[i].at
            && events[i].body.data == entries[i].data && events[i].hash == hash(events[i].body)
            && events[i].body.kind == entries[i].kind[..if |entries[i].kind| <= 128 then |entries[i].kind| else 128]
            && events[i].body.previous == if i == 0 then ZERO_HASH else events[i - 1].hash
  {
    var n := |entries| - 1;
    if i < n {
      HistoryHolds(hash, entries[..n], i);
      assert entries[..n][i] == entries[i];
    }
  }

  lemma {:induction false} HistoryIsLinked(hash: Body -> Digest, entries: seq<Entry>)
    requires forall i :: 0 <= i < |entries| ==> entries[i].kind != []
    ensures Linked(hash, Chain(ZERO_HASH, 0, History(hash, entries)))
  {
    if entries != [] {
      var n := |entries| - 1;
      HistoryIsLinked(hash, entries[..n]);
      var all, before := Chain(ZERO_HASH, 0, History(hash, entries)), Chain(ZERO_HASH, 0, History(hash, entries[..n]));
      forall i | 0 <= i < n ensures LinkedAt(hash, all, i) {
        assert LinkedAt(hash, before, i);
      }
    }
  }

  /** The newest hash also pins every event that was dropped: the whole history is one. */
  lemma TipPinsHistory(hash: Body -> Digest, xs: seq<Entry>, ys: seq<Entry>)
    requires CollisionFree(hash) && |xs| == |ys|
    requires forall i :: 0 <= i < |xs| ==> xs[i].kind != [] && ys[i].kind != []
    requires Tip(AppendAll(hash, xs)) == Tip(AppendAll(hash, ys))
    ensures History(hash, xs) == History(hash, ys)
  {
    AppendsKeepWindow(hash, xs);
    AppendsKeepWindow(hash, ys);
    HistoryIsLinked(hash, xs);
    HistoryIsLinked(hash, ys);
    TipPinsWindow(hash, Chain(ZERO_HASH, 0, History(hash, xs)), Chain(ZERO_HASH, 0, History(hash, ys)));
  }

  // ----- appendLedgerEvent ------------------------------------------------------------------

  /** Push the event, then shift the oldest ones out while there are too many. */
  method Push(hash: Body -> Digest, chain: Chain, entry: Entry) returns (next: Chain)
    ensures next == Append(hash, chain, entry)
  {
    var anchor, events := chain.anchor, chain.events;
    var compacted: nat := chain.compacted;
    var previous := if events == [] then anchor else events[|events| - 1].hash;
    var body := Body(compacted + |events| + 1, Clip(entry.kind), entry.at, entry.data, previous);
    events := events + [Event(body, hash(body))];
    while |events| > MAX_EVENTS
      invariant Compact(Chain(anchor, compacted, events)) == Append(hash, chain, entry)
      decreases |events|
    {
      anchor, compacted := events[0].hash, compacted + 1;
      events := events[1..];
    }
    next := Chain(anchor, compacted, events);
  }
}
