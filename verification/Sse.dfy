/** The server-sent event stream of one order: src/orders/orders.controller.ts:65-87. */
module Sse {
  import opened Prelude
  import opened StatusLog

  /** One open response: the captured `seen` and what has been written. */
  class Connection {
    var seen: int
    var written: seq<Event>

    constructor (lastId: int)
      ensures seen == lastId && written == []
    {
      seen, written := lastId, [];
    }

    // Called for each live event, and by the replay loop.
    method Write(event: Event)
      modifies this
      ensures written == old(written) + Merge(old(seen), [event])
      ensures seen == SeenAfter(old(seen), [event])
    {
      if event.id <= seen { return; }
      seen := event.id;
      written := written + [event];
    }

    method WriteEach(events: seq<Event>)
      modifies this
      ensures written == old(written) + Merge(old(seen), events)
      ensures seen == SeenAfter(old(seen), events)
    {
      for i := 0 to |events|
        invariant written == old(written) + Merge(old(seen), events[..i])
        invariant seen == SeenAfter(old(seen), events[..i])
      {
        assert events[..i + 1] == events[..i] + [events[i]];
        MergeAppend(old(seen), events[..i], [events[i]]);
        Write(events[i]);
      }
      assert events[..|events|] == events;
    }

    // The handler: `early` arrives while the replay query is awaited, `late`
    // after its loop has run.
    method Serve(early: seq<Event>, replay: seq<Event>, late: seq<Event>)
      modifies this
      ensures written == old(written) + Merge(old(seen), early + replay + late)
    {
      ServeMerge(seen, early, replay, late);
      WriteEach(early);
      WriteEach(replay);
      WriteEach(late);
    }
  }

  // ----- what is written -----

  function Merge(seen: int, events: seq<Event>): seq<Event>
    decreases |events|
  {
    if events == [] then []
    else if events[0].id <= seen then Merge(seen, events[1..])
    else [events[0]] + Merge(events[0].id, events[1..])
  }

  function SeenAfter(seen: int, events: seq<Event>): int
    decreases |events|
  {
    if events == [] then seen else SeenAfter(Later(seen, events[0].id), events[1..])
  }

  lemma {:induction false} MergeAppend(seen: int, a: seq<Event>, b: seq<Event>)
    ensures Merge(seen, a + b) == Merge(seen, a) + Merge(SeenAfter(seen, a), b)
    ensures SeenAfter(seen, a + b) == SeenAfter(SeenAfter(seen, a), b)
    decreases |a|
  {
    if a == [] {
      assert a + b == b;
    } else {
      MergeAppend(Later(seen, a[0].id), a[1..], b);
      assert (a + b)[1..] == a[1..] + b;
    }
  }

  lemma ServeMerge(seen: int, early: seq<Event>, replay: seq<Event>, late: seq<Event>)
    ensures var seen1 := SeenAfter(seen, early);
      Merge(seen, early + replay + late)
        == Merge(seen, early) + Merge(seen1, replay) + Merge(SeenAfter(seen1, replay), late)
  {
    MergeAppend(seen, early + replay, late);
    MergeAppend(seen, early, replay);
  }

  // Event i is written when its id exceeds Last-Event-ID and every id before it.
  predicate Written(seen: int, events: seq<Event>, i: nat)
    requires i < |events|
  {
    events[i].id > seen && forall j :: 0 <= j < i ==> events[j].id < events[i].id
  }

  lemma LaterWritten(seen: int, events: seq<Event>, i: nat)
    requires i + 1 < |events|
    ensures Written(Later(seen, events[0].id), events[1..], i) <==> Written(seen, events, i + 1)
  {
    var rest := events[1..];
    if Written(Later(seen, events[0].id), rest, i) {
      forall j | 0 <= j < i + 1
        ensures events[j].id < events[i + 1].id
      {
        if j > 0 { assert rest[j - 1] == events[j]; }
      }
    }
  }

  lemma {:induction false} RecordIsWritten(seen: int, events: seq<Event>, i: nat)
    requires i < |events| && Written(seen, events, i)
    ensures events[i] in Merge(seen, events)
    decreases i
  {
    if i > 0 {
      LaterWritten(seen, events, i - 1);
      RecordIsWritten(Later(seen, events[0].id), events[1..], i - 1);
    }
  }

  lemma {:induction false} WrittenIsRecord(seen: int, events: seq<Event>, k: nat) returns (i: nat)
    requires k < |Merge(seen, events)|
    ensures i < |events| && events[i] == Merge(seen, events)[k] && Written(seen, events, i)
    decreases |events|
  {
    if events[0].id > seen && k == 0 {
      i := 0;
    } else {
      var seen' := Later(seen, events[0].id);
      i := WrittenIsRecord(seen', events[1..], if events[0].id > seen then k - 1 else k);
      LaterWritten(seen, events, i);
      i := i + 1;
    }
  }

  ghost predicate Ascends(seen: int, out: seq<Event>) {
    && (forall i, j :: 0 <= i < j < |out| ==> out[i].id < out[j].id)
    && (forall i :: 0 <= i < |out| ==> out[i].id > seen)
  }

  lemma AscendsCons(seen: int, e: Event, rest: seq<Event>)
    requires e.id > seen && Ascends(e.id, rest)
    ensures Ascends(seen, [e] + rest)
  {
  }

  lemma {:induction false} WrittenAscend(seen: int, events: seq<Event>)
    ensures Ascends(seen, Merge(seen, events))
    decreases |events|
  {
    if events != [] {
      WrittenAscend(Later(seen, events[0].id), events[1..]);
      if events[0].id > seen {
        AscendsCons(seen, events[0], Merge(events[0].id, events[1..]));
      }
    }
  }

  // Whatever arrives in whatever order: the ids written are strictly increasing
  // and above Last-Event-ID, and they are exactly the arrivals that exceed
  // everything before them.
  lemma WrittenAreRecords(seen: int, events: seq<Event>)
    ensures var out := Merge(seen, events);
      && Ascends(seen, out)
      && (forall e :: e in out <==> exists i :: 0 <= i < |events| && events[i] == e && Written(seen, events, i))
  {
    WrittenAscend(seen, events);
    forall k | 0 <= k < |Merge(seen, events)|
      ensures exists i :: 0 <= i < |events| && events[i] == Merge(seen, events)[k] && Written(seen, events, i)
    {
      var i := WrittenIsRecord(seen, events, k);
    }
    forall i | 0 <= i < |events| && Written(seen, events, i)
      ensures events[i] in Merge(seen, events)
    {
      RecordIsWritten(seen, events, i);
    }
  }

  // ----- a reconnecting client -----

  // Each connection sends the id of the last event the client got.
  function Session(lastId: int, connections: seq<seq<Event>>): seq<Event>
    decreases |connections|
  {
    if connections == [] then []
    else Merge(lastId, connections[0]) + Session(SeenAfter(lastId, connections[0]), connections[1..])
  }

  function Flatten(connections: seq<seq<Event>>): seq<Event> {
    if connections == [] then [] else connections[0] + Flatten(connections[1..])
  }

  // The last id a client was given is what its connection had seen.
  lemma {:induction false} LastIdIsSeen(lastId: int, events: seq<Event>)
    ensures var out := Merge(lastId, events);
      SeenAfter(lastId, events) == if out == [] then lastId else out[|out| - 1].id
    decreases |events|
  {
    if events != [] { LastIdIsSeen(Later(lastId, events[0].id), events[1..]); }
  }

  // Across any number of reconnects the client reads what one endless connection
  // would have written: no id twice, none out of order.
  lemma {:induction false} SessionIsOneStream(lastId: int, connections: seq<seq<Event>>)
    ensures Session(lastId, connections) == Merge(lastId, Flatten(connections))
    decreases |connections|
  {
    if connections != [] {
      SessionIsOneStream(SeenAfter(lastId, connections[0]), connections[1..]);
      MergeAppend(lastId, connections[0], Flatten(connections[1..]));
    }
  }

  // ----- gaps -----

  // Entries from + 1 .. to of an order's log.
  function Entries(full: seq<string>, order: nat, from: nat, to: nat): seq<Event>
    requires from <= to <= |full|
  {
    seq(to - from, i requires 0 <= i < to - from => Event(from + i + 1, order, full[from + i]))
  }

  function Clamp(x: int, lo: nat, hi: nat): (r: nat)
    requires lo <= hi
    ensures lo <= r <= hi
  {
    if x < lo then lo else if x > hi then hi else x
  }

  // A block of consecutive entries is written from where `seen` is on.
  lemma {:induction false} MergeEntries(seen: int, full: seq<string>, order: nat, from: nat, to: nat)
    requires from <= to <= |full|
    ensures Merge(seen, Entries(full, order, from, to)) == Entries(full, order, Clamp(seen, from, to), to)
    ensures SeenAfter(seen, Entries(full, order, from, to)) == if from < to then Later(seen, to) else seen
    decreases |full| - from
  {
    if from < to {
      var block := Entries(full, order, from, to);
      assert block[1..] == Entries(full, order, from + 1, to);
      MergeEntries(Later(seen, from + 1), full, order, from + 1, to);
      if seen <= from {
        assert Entries(full, order, from, to) == [block[0]] + Entries(full, order, from + 1, to);
      }
    }
  }

  // What a connection writes when live events come in id order: entries a + 1 .. b
  // arrive before the replay loop runs, the rest after; the replay query saw the
  // first m entries.
  ghost function Stream(full: seq<string>, order: nat, lastId: int, a: nat, b: nat, m: nat): seq<Event>
    requires a <= b <= |full| && m <= |full|
  {
    var replay := Suffix(full[..m], order, Later(lastId, Start(m)));
    Merge(lastId, Entries(full, order, a, b) + replay + Entries(full, order, b, |full|))
  }

  // No early live event counts: the window must reach back to Last-Event-ID.
  // Otherwise the early ones must follow on from Last-Event-ID, and the window
  // must reach back to the last of them.
  predicate Complete(lastId: int, a: nat, b: nat, m: nat) {
    var from := Later(lastId, 0);
    if b <= a || b <= from then Start(m) <= from else a <= from && Start(m) <= b
  }

  lemma StreamBlocks(full: seq<string>, order: nat, lastId: int, a: nat, b: nat, m: nat)
    requires a <= b <= |full| && m <= |full|
    ensures
      var seen1 := if a < b then Later(lastId, b) else lastId;
      var r := Clamp(Later(lastId, Start(m)), 0, m);
      var seen2 := if r < m then Later(seen1, m) else seen1;
      Stream(full, order, lastId, a, b, m)
        == Entries(full, order, Clamp(lastId, a, b), b)
         + Entries(full, order, Clamp(seen1, r, m), m)
         + Entries(full, order, Clamp(seen2, b, |full|), |full|)
  {
    var r := Clamp(Later(lastId, Start(m)), 0, m);
    var early, replay, late := Entries(full, order, a, b), Entries(full, order, r, m), Entries(full, order, b, |full|);
    assert Suffix(full[..m], order, Later(lastId, Start(m))) == replay;
    MergeAppend(lastId, early + replay, late);
    MergeAppend(lastId, early, replay);
    MergeEntries(lastId, full, order, a, b);
    MergeEntries(SeenAfter(lastId, early), full, order, r, m);
    MergeEntries(SeenAfter(lastId, early + replay), full, order, b, |full|);
  }

  // With live events in id order a connection misses nothing after Last-Event-ID
  // if and only if the condition above holds.
  lemma GapFreeIff(full: seq<string>, order: nat, lastId: int, a: nat, b: nat, m: nat)
    requires a <= b <= |full| && a <= m <= |full|
    ensures Stream(full, order, lastId, a, b, m) == Suffix(full, order, lastId) <==> Complete(lastId, a, b, m)
  {
    var n, from := |full|, Clamp(lastId, 0, |full|);
    var seen1 := if a < b then Later(lastId, b) else lastId;
    var r := Clamp(Later(lastId, Start(m)), 0, m);
    var seen2 := if r < m then Later(seen1, m) else seen1;
    StreamBlocks(full, order, lastId, a, b, m);
    assert Suffix(full, order, lastId) == Entries(full, order, from, n);
    var c1, c2, c3 := Clamp(lastId, a, b), Clamp(seen1, r, m), Clamp(seen2, b, n);
    if Complete(lastId, a, b, m) {
      Contiguous(full, order, lastId, a, b, m);
    } else {
      assert (b - c1) + (m - c2) + (n - c3) < n - from;
    }
  }

  lemma Contiguous(full: seq<string>, order: nat, lastId: int, a: nat, b: nat, m: nat)
    requires a <= b <= |full| && a <= m <= |full| && Complete(lastId, a, b, m)
    ensures Stream(full, order, lastId, a, b, m) == Entries(full, order, Clamp(lastId, 0, |full|), |full|)
  {
    var n := |full|;
    var seen1 := if a < b then Later(lastId, b) else lastId;
    var r := Clamp(Later(lastId, Start(m)), 0, m);
    var seen2 := if r < m then Later(seen1, m) else seen1;
    var c1, c2, c3 := Clamp(lastId, a, b), Clamp(seen1, r, m), Clamp(seen2, b, n);
    StreamBlocks(full, order, lastId, a, b, m);
    Join(full, order, Clamp(lastId, 0, n), c1, b, c2, m, c3);
  }

  lemma Join(full: seq<string>, order: nat, from: nat, c1: nat, b: nat, c2: nat, m: nat, c3: nat)
    requires from <= |full| && c1 <= b <= |full| && c2 <= m <= |full| && c3 <= |full|
    requires
      || (c1 == b && c2 == m && c3 == from)
      || (c1 == b && c2 == from && c3 == m)
      || (c1 == from && c2 == m && c3 == b)
      || (c1 == from && c2 == b && c3 == m)
    ensures Entries(full, order, c1, b) + Entries(full, order, c2, m) + Entries(full, order, c3, |full|)
         == Entries(full, order, from, |full|)
  {
  }

  // The run where the merge drops an event: two entries, nothing read yet; the
  // first was emitted before the subscription, the second arrives while the
  // replay query is awaited. The client is given 2 and never 1.
  lemma EarlyLiveEventHidesReplay(order: nat, first: string, second: string)
    ensures Stream([first, second], order, 0, 1, 2, 2) == [Event(2, order, second)]
    ensures Suffix([first, second], order, 0) == [Event(1, order, first), Event(2, order, second)]
  {
    var full := [first, second];
    StreamBlocks(full, order, 0, 1, 2, 2);
    assert Entries(full, order, 1, 2) == [Event(2, order, second)];
    assert Entries(full, order, 2, 2) == [];
  }

  // Everything a connection writes is a genuine entry of the log.
  predicate Genuine(full: seq<string>, order: nat, e: Event) {
    1 <= e.id <= |full| && e == Event(e.id, order, full[e.id - 1])
  }

  lemma OnlyGenuine(rows: Rows, order: nat, full: seq<string>, m: nat, lastId: int, early: seq<Event>, late: seq<Event>)
    requires m <= |full| && OrderWindow(rows, order, full[..m])
    requires forall e :: e in early || e in late ==> Genuine(full, order, e)
    ensures forall e :: e in Merge(lastId, early + Since(rows, order, lastId) + late) ==> Genuine(full, order, e)
  {
    var all := early + Since(rows, order, lastId) + late;
    forall i | 0 <= i < |all|
      ensures Genuine(full, order, all[i])
    {
      SinceGenuine(rows, order, full, m, lastId);
    }
    forall e | e in Merge(lastId, all)
      ensures Genuine(full, order, e)
    {
      var k :| 0 <= k < |Merge(lastId, all)| && Merge(lastId, all)[k] == e;
      var i := WrittenIsRecord(lastId, all, k);
    }
  }

  lemma SinceGenuine(rows: Rows, order: nat, full: seq<string>, m: nat, lastId: int)
    requires m <= |full| && OrderWindow(rows, order, full[..m])
    ensures forall i :: 0 <= i < |Since(rows, order, lastId)| ==> Genuine(full, order, Since(rows, order, lastId)[i])
  {
    SinceWindow(rows, order, full[..m], lastId);
  }
}
