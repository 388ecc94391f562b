/** The outbox relay and its maintenance: src/outbox/relay.ts. */
module Outbox {
  import opened Prelude
  import opened Tables
  import Contract
  import Json

  type Rows = map<nat, OutboxRow>

  // ----- the poll: ORDER BY created_at, id LIMIT n -----

  predicate Before(rows: Rows, a: nat, b: nat)
    requires a in rows && b in rows
  {
    rows[a].createdAt < rows[b].createdAt || (rows[a].createdAt == rows[b].createdAt && a < b)
  }

  function Unpublished(rows: Rows): set<nat> {
    set id | id in rows && rows[id].publishedAt.None?
  }

  // WHERE published_at IS NULL and the optional aggregate filter; rows locked by
  // another claim are skipped.
  function Claimable(rows: Rows, aggregate: Option<nat>, locked: set<nat>): set<nat> {
    set id | id in rows && rows[id].publishedAt.None? && id !in locked
      && (aggregate.None? || rows[id].aggregate == aggregate.value)
  }

  predicate IsOldest(rows: Rows, ids: set<nat>, m: nat)
    requires ids <= rows.Keys
  {
    m in ids && forall x :: x in ids && x != m ==> Before(rows, m, x)
  }

  lemma {:induction false} OldestExists(rows: Rows, ids: set<nat>)
    requires ids <= rows.Keys && ids != {}
    ensures exists m :: IsOldest(rows, ids, m)
  {
    var x :| x in ids;
    if ids == {x} {
      assert IsOldest(rows, ids, x);
    } else {
      OldestExists(rows, ids - {x});
      var m :| IsOldest(rows, ids - {x}, m);
      var best := if Before(rows, m, x) then m else x;
      forall y | y in ids && y != best
        ensures Before(rows, best, y)
      {
        if y != m && y != x { assert Before(rows, m, y); }
      }
      assert IsOldest(rows, ids, best);
    }
  }

  function Oldest(rows: Rows, ids: set<nat>): (m: nat)
    requires ids <= rows.Keys && ids != {}
    ensures IsOldest(rows, ids, m)
  {
    OldestExists(rows, ids);
    var m :| m in ids && IsOldest(rows, ids, m);
    m
  }

  function Batch(rows: Rows, ids: set<nat>, limit: nat): seq<nat>
    requires ids <= rows.Keys
    decreases limit
  {
    if limit == 0 || ids == {} then [] else
      var m := Oldest(rows, ids);
      [m] + Batch(rows, ids - {m}, limit - 1)
  }

  ghost predicate Distinct(ids: seq<nat>) {
    forall i, j :: 0 <= i < j < |ids| ==> ids[i] != ids[j]
  }

  // The batch is the oldest rows, oldest first: as many as the limit allows, and
  // every row left behind is younger than every row taken.
  lemma {:induction false} BatchIsOldest(rows: Rows, ids: set<nat>, limit: nat)
    requires ids <= rows.Keys
    ensures var b := Batch(rows, ids, limit);
      && |b| == (if limit < |ids| then limit else |ids|)
      && (forall i :: 0 <= i < |b| ==> b[i] in ids)
      && (forall i, j :: 0 <= i < j < |b| ==> b[i] in rows && b[j] in rows && Before(rows, b[i], b[j]))
      && (forall i, x :: 0 <= i < |b| && x in ids && x !in b ==> b[i] in rows && Before(rows, b[i], x))
    decreases limit
  {
    if limit > 0 && ids != {} {
      var m := Oldest(rows, ids);
      BatchIsOldest(rows, ids - {m}, limit - 1);
      assert |ids - {m}| == |ids| - 1;
    }
  }

  // In plain terms: by created_at, rows of the same instant by id, and every row
  // left behind is newer, or as old with a larger id.
  lemma BatchInOrder(rows: Rows, ids: set<nat>, limit: nat, i: nat, x: nat)
    requires ids <= rows.Keys && i < |Batch(rows, ids, limit)| && x in ids
    ensures Batch(rows, ids, limit)[i] in rows
    ensures var b := Batch(rows, ids, limit); var y := b[i];
      x in b[i + 1..] || x !in b ==>
        rows[y].createdAt < rows[x].createdAt || (rows[y].createdAt == rows[x].createdAt && y < x)
  {
    BatchIsOldest(rows, ids, limit);
    var b := Batch(rows, ids, limit);
    if x in b[i + 1..] {
      var j :| i + 1 <= j < |b| && b[j] == x;
      assert Before(rows, b[i], b[j]);
    }
  }

  // What one claim takes, row by row: only unpublished rows of the aggregate asked
  // for that nobody else holds; and it leaves such a row behind only when it has
  // taken `limit` older ones.
  lemma ClaimTakes(rows: Rows, aggregate: Option<nat>, locked: set<nat>, limit: nat, id: nat)
    ensures var b := Batch(rows, Claimable(rows, aggregate, locked), limit);
      id in b ==> id in rows && rows[id].publishedAt == None && id !in locked
                  && (aggregate.Some? ==> rows[id].aggregate == aggregate.value)
    ensures var b := Batch(rows, Claimable(rows, aggregate, locked), limit);
      id !in b && id in rows && rows[id].publishedAt == None && id !in locked
      && (aggregate.Some? ==> rows[id].aggregate == aggregate.value) ==>
        |b| == limit && forall y :: y in b ==> y in rows && Before(rows, y, id)
  {
    BatchIsOldest(rows, Claimable(rows, aggregate, locked), limit);
    var ids, b := Claimable(rows, aggregate, locked), Batch(rows, Claimable(rows, aggregate, locked), limit);
    if id in ids && id !in b && |b| == |ids| {
      var rest := set x: nat | x in ids && x !in b;
      assert id in rest;
      WithoutBatch(rows, ids, b, rest);
    }
  }

  // ----- what a run does to the table -----

  function Attempted(rows: Rows, ids: seq<nat>): Rows {
    map id | id in rows :: if id in ids then rows[id].(attempts := rows[id].attempts + 1) else rows[id]
  }

  // UPDATE ... SET published_at = now WHERE published_at IS NULL.
  function Marked(rows: Rows, ids: seq<nat>, now: nat): Rows {
    map id | id in rows ::
      if id in ids && rows[id].publishedAt.None? then rows[id].(publishedAt := Some(now)) else rows[id]
  }

  // What the broker does with one publish: confirm it, lose it, or take it
  // without the confirmation ever arriving.
  datatype Answer = Confirmed | Lost | Unconfirmed

  datatype Finish = Published(n: nat) | PublishFailed | RelayCrashed

  /** One relay process: the table it polls and the messages it has handed over. */
  class Relay {
    var rows: Rows
    var sent: seq<Contract.Event>

    constructor (rows: Rows)
      ensures this.rows == rows && sent == []
    {
      this.rows, sent := rows, [];
    }

    // `parse` is eventFromPayload on a row's payload as the driver returns it,
    // `answer` what the broker does with the k-th publish of this run.
    method RelayOutbox(limit: nat, aggregate: Option<nat>, locked: set<nat>, crashAfterPublish: bool,
                       parse: nat -> Contract.Parsed, answer: nat -> Answer, now: nat)
      returns (finish: Finish)
      modifies this
      ensures
        var batch := Batch(old(rows), Claimable(old(rows), aggregate, locked), limit);
        Out(rows, sent, finish)
          == Summary(Attempted(old(rows), batch), old(sent), batch, crashAfterPublish, parse, answer, now)
    {
      var batch := Claim(limit, aggregate, locked);
      PublishWhole(rows, sent, batch, crashAfterPublish, parse, answer, now);
      finish := PublishAll(batch, crashAfterPublish, parse, answer, now);
    }

    // The first transaction: pick the rows, count the attempt, commit.
    method Claim(limit: nat, aggregate: Option<nat>, locked: set<nat>) returns (batch: seq<nat>)
      modifies `rows
      ensures batch == Batch(old(rows), Claimable(old(rows), aggregate, locked), limit)
      ensures rows == Attempted(old(rows), batch)
    {
      batch := Batch(rows, Claimable(rows, aggregate, locked), limit);
      BatchIsOldest(rows, Claimable(rows, aggregate, locked), limit);
      for i := 0 to |batch|
        invariant rows == Attempted(old(rows), batch[..i])
      {
        assert batch[..i + 1] == batch[..i] + [batch[i]];
        rows := rows[batch[i] := rows[batch[i]].(attempts := rows[batch[i]].attempts + 1)];
      }
      assert batch[..|batch|] == batch;
    }

    method PublishAll(batch: seq<nat>, crashAfterPublish: bool, parse: nat -> Contract.Parsed,
                      answer: nat -> Answer, now: nat) returns (finish: Finish)
      modifies this
      ensures Out(rows, sent, finish)
        == PublishFrom(old(rows), old(sent), batch, crashAfterPublish, parse, answer, now, 0)
    {
      var published := 0;
      for i := 0 to |batch|
        invariant published == i
        invariant PublishFrom(rows, sent, batch, crashAfterPublish, parse, answer, now, i)
               == PublishFrom(old(rows), old(sent), batch, crashAfterPublish, parse, answer, now, 0)
      {
        var parsed := parse(batch[i]);
        if parsed.BadEvent? { return PublishFailed; }
        if answer(i) == Lost { return PublishFailed; }
        sent := sent + [parsed.event];
        if answer(i) == Unconfirmed { return PublishFailed; }
        published := published + 1;
        if crashAfterPublish { return RelayCrashed; }
        if batch[i] in rows && rows[batch[i]].publishedAt.None? {
          rows := rows[batch[i] := rows[batch[i]].(publishedAt := Some(now))];
        }
      }
      return Published(published);
    }

    // Only rows published more than seven days ago go.
    method Purge(now: nat)
      modifies `rows
      ensures forall id :: id in rows <==> id in old(rows) && (old(rows)[id].publishedAt.Some? ==>
        now <= old(rows)[id].publishedAt.value + 7 * 24 * 60 * 60 * 1000)
      ensures forall id :: id in rows ==> rows[id] == old(rows)[id]
      ensures Unpublished(rows) == Unpublished(old(rows))
    {
      rows := Purged(rows, now);
    }
  }

  const RETENTION: nat := 7 * 24 * 60 * 60 * 1000

  predicate Stale(row: OutboxRow, now: nat) {
    row.publishedAt.Some? && row.publishedAt.value + RETENTION < now
  }

  function Purged(rows: Rows, now: nat): Rows {
    map id | id in rows && !Stale(rows[id], now) :: rows[id]
  }

  // How many rows of the batch, from i on, are handed over and confirmed before
  // the first that is not.
  function Handed(parse: nat -> Contract.Parsed, answer: nat -> Answer, batch: seq<nat>, i: nat): (k: nat)
    requires i <= |batch|
    ensures i <= k <= |batch|
    ensures k < |batch| ==> parse(batch[k]).BadEvent? || answer(k) != Confirmed
    ensures forall j :: i <= j < k ==> parse(batch[j]).Ok? && answer(j) == Confirmed
    decreases |batch| - i
  {
    if i == |batch| || parse(batch[i]).BadEvent? || answer(i) != Confirmed then i
    else Handed(parse, answer, batch, i + 1)
  }

  datatype Out = Out(rows: Rows, sent: seq<Contract.Event>, finish: Finish)

  function MarkRow(rows: Rows, id: nat, now: nat): Rows {
    if id in rows && rows[id].publishedAt.None? then rows[id := rows[id].(publishedAt := Some(now))] else rows
  }

  // The publish loop from row i on.
  function PublishFrom(rows: Rows, sent: seq<Contract.Event>, batch: seq<nat>, crash: bool,
                       parse: nat -> Contract.Parsed, answer: nat -> Answer, now: nat, i: nat): Out
    requires i <= |batch|
    decreases |batch| - i
  {
    if i == |batch| then Out(rows, sent, Published(i))
    else if parse(batch[i]).BadEvent? || answer(i) == Lost then Out(rows, sent, PublishFailed)
    else
      var sent' := sent + [parse(batch[i]).event];
      if answer(i) == Unconfirmed then Out(rows, sent', PublishFailed)
      else if crash then Out(rows, sent', RelayCrashed)
      else PublishFrom(MarkRow(rows, batch[i], now), sent', batch, crash, parse, answer, now, i + 1)
  }

  lemma {:induction false} PublishMeans(rows: Rows, sent: seq<Contract.Event>, batch: seq<nat>,
                                        parse: nat -> Contract.Parsed, answer: nat -> Answer, now: nat, i: nat)
    requires i <= |batch|
    ensures
      var k := Handed(parse, answer, batch, i);
      PublishFrom(Marked(rows, batch[..i], now), sent + Events(parse, batch, i), batch, false, parse, answer, now, i)
        == Out(Marked(rows, batch[..k], now), sent + Events(parse, batch, k) + Stray(parse, answer, batch, k),
               if k == |batch| then Published(k) else PublishFailed)
    decreases |batch| - i
  {
    var marked, out := Marked(rows, batch[..i], now), sent + Events(parse, batch, i);
    if i < |batch| && parse(batch[i]).Ok? && answer(i) == Confirmed {
      MarkOne(rows, batch, i, now);
      assert out + [parse(batch[i]).event] == sent + Events(parse, batch, i + 1);
      PublishMeans(rows, sent, batch, parse, answer, now, i + 1);
    } else {
      assert Handed(parse, answer, batch, i) == i;
      assert out + [] == out;
    }
  }

  // The same, said at once: the rows handed over before the first failure are
  // marked, their messages sent, and at most one more message went out.
  function Summary(rows: Rows, sent: seq<Contract.Event>, batch: seq<nat>, crash: bool,
                   parse: nat -> Contract.Parsed, answer: nat -> Answer, now: nat): Out {
    var k := Handed(parse, answer, batch, 0);
    if crash && k > 0 then Out(rows, sent + Events(parse, batch, 1), RelayCrashed)
    else Out(Marked(rows, batch[..k], now), sent + Events(parse, batch, k) + Stray(parse, answer, batch, k),
             if k == |batch| then Published(k) else PublishFailed)
  }

  lemma PublishWhole(rows: Rows, sent: seq<Contract.Event>, batch: seq<nat>, crash: bool,
                     parse: nat -> Contract.Parsed, answer: nat -> Answer, now: nat)
    ensures PublishFrom(rows, sent, batch, crash, parse, answer, now, 0)
         == Summary(rows, sent, batch, crash, parse, answer, now)
  {
    PublishMeans(rows, sent, batch, parse, answer, now, 0);
    assert Marked(rows, batch[..0], now) == rows;
    assert sent + Events(parse, batch, 0) == sent;
  }

  lemma MarkOne(rows: Rows, ids: seq<nat>, i: nat, now: nat)
    requires i < |ids|
    ensures Marked(rows, ids[..i + 1], now) == MarkRow(Marked(rows, ids[..i], now), ids[i], now)
  {
    assert ids[..i + 1] == ids[..i] + [ids[i]];
  }

  // The messages of the first k rows.
  function Events(parse: nat -> Contract.Parsed, ids: seq<nat>, k: nat): seq<Contract.Event>
    requires k <= |ids|
  {
    if k == 0 then [] else Events(parse, ids, k - 1) + Message(parse, ids[k - 1])
  }

  function Message(parse: nat -> Contract.Parsed, id: nat): seq<Contract.Event> {
    var parsed := parse(id);
    if parsed.Ok? then [parsed.event] else []
  }

  // The message of a publish that was taken but never confirmed.
  function Stray(parse: nat -> Contract.Parsed, answer: nat -> Answer, batch: seq<nat>, k: nat): seq<Contract.Event> {
    if k < |batch| && answer(k) == Unconfirmed then Message(parse, batch[k]) else []
  }

  // ----- draining -----

  // One relay, nobody else holding rows, every publish confirmed.
  function Tick(rows: Rows, limit: nat, now: nat): Rows {
    var batch := Batch(rows, Unpublished(rows), limit);
    Marked(Attempted(rows, batch), batch, now)
  }

  function Ticks(rows: Rows, limit: nat, n: nat, now: nat): Rows {
    if n == 0 then rows else Ticks(Tick(rows, limit, now), limit, n - 1, now)
  }

  // What a relay reads back from rows that checkout wrote.
  ghost predicate ReadsRows(rows: Rows, coerce: Json.Json -> Contract.Number, read: nat -> Json.Json,
                            parse: nat -> Contract.Parsed)
  {
    forall id :: id in rows ==>
      && Contract.Valid(rows[id].payload) && Json.Reordered(Contract.Render(rows[id].payload), read(id))
      && parse(id) == Contract.Parse(coerce, Some(read(id)))
  }

  lemma RowsParse(rows: Rows, coerce: Json.Json -> Contract.Number, read: nat -> Json.Json,
                  parse: nat -> Contract.Parsed, id: nat)
    requires ReadsRows(rows, coerce, read, parse) && id in rows
    ensures parse(id) == Contract.Ok(rows[id].payload)
  {
    Contract.RoundTrip(coerce, rows[id].payload, read(id));
  }

  // A confirming run of RelayOutbox over rows that checkout wrote is a Tick.
  lemma ConfirmedRunIsTick(rows: Rows, sent: seq<Contract.Event>, limit: nat, coerce: Json.Json -> Contract.Number,
                           read: nat -> Json.Json, parse: nat -> Contract.Parsed, answer: nat -> Answer, now: nat)
    requires ReadsRows(rows, coerce, read, parse)
    requires forall k :: answer(k) == Confirmed
    ensures var batch := Batch(rows, Claimable(rows, None, {}), limit);
      && (forall i :: 0 <= i < |batch| ==> batch[i] in rows && parse(batch[i]) == Contract.Ok(rows[batch[i]].payload))
      && Summary(Attempted(rows, batch), sent, batch, false, parse, answer, now)
           == Out(Tick(rows, limit, now), sent + Events(parse, batch, |batch|), Published(|batch|))
  {
    var batch := Batch(rows, Claimable(rows, None, {}), limit);
    BatchIsOldest(rows, Claimable(rows, None, {}), limit);
    assert Claimable(rows, None, {}) == Unpublished(rows);
    forall i | 0 <= i < |batch|
      ensures batch[i] in rows && parse(batch[i]) == Contract.Ok(rows[batch[i]].payload)
    {
      RowsParse(rows, coerce, read, parse, batch[i]);
    }
    ConfirmedSummary(Attempted(rows, batch), sent, batch, parse, answer, now);
  }

  lemma ConfirmedSummary(rows: Rows, sent: seq<Contract.Event>, batch: seq<nat>,
                         parse: nat -> Contract.Parsed, answer: nat -> Answer, now: nat)
    requires forall i :: 0 <= i < |batch| ==> parse(batch[i]).Ok?
    requires forall k :: answer(k) == Confirmed
    ensures Summary(rows, sent, batch, false, parse, answer, now)
         == Out(Marked(rows, batch, now), sent + Events(parse, batch, |batch|), Published(|batch|))
  {
    AllHanded(parse, answer, batch);
    assert batch[..|batch|] == batch;
  }

  lemma AllHanded(parse: nat -> Contract.Parsed, answer: nat -> Answer, batch: seq<nat>)
    requires forall i :: 0 <= i < |batch| ==> parse(batch[i]).Ok?
    requires forall k :: answer(k) == Confirmed
    ensures Handed(parse, answer, batch, 0) == |batch|
  {
  }

  // One tick takes exactly the `limit` oldest unpublished rows to published,
  // adds one attempt to each, and touches nothing else.
  lemma TickMovesOldest(rows: Rows, limit: nat, now: nat)
    ensures var batch := Batch(rows, Unpublished(rows), limit); var rows' := Tick(rows, limit, now);
      && rows'.Keys == rows.Keys
      && (forall id :: id in batch ==>
            id in rows && rows'[id] == rows[id].(attempts := rows[id].attempts + 1, publishedAt := Some(now)))
      && (forall id :: id in rows && id !in batch ==> rows'[id] == rows[id])
  {
    BatchIsOldest(rows, Unpublished(rows), limit);
  }

  lemma TickShrinks(rows: Rows, limit: nat, now: nat)
    ensures |Unpublished(Tick(rows, limit, now))|
      == (if limit < |Unpublished(rows)| then |Unpublished(rows)| - limit else 0)
  {
    var batch := Batch(rows, Unpublished(rows), limit);
    BatchIsOldest(rows, Unpublished(rows), limit);
    TickUnpublished(rows, limit, now);
    WithoutBatch(rows, Unpublished(rows), batch, Unpublished(Tick(rows, limit, now)));
  }

  lemma WithoutBatch(rows: Rows, ids: set<nat>, batch: seq<nat>, rest: set<nat>)
    requires forall i :: 0 <= i < |batch| ==> batch[i] in ids
    requires forall i, j :: 0 <= i < j < |batch| ==>
      batch[i] in rows && batch[j] in rows && Before(rows, batch[i], batch[j])
    requires forall id :: id in rest <==> id in ids && id !in batch
    ensures |rest| == |ids| - |batch|
  {
    var taken := Elements(batch, |batch|);
    ElementsSize(batch, |batch|);
    forall x
      ensures x in taken <==> x in batch
    {
      if x in taken { var i := ElementAt(batch, |batch|, x); }
      if i :| 0 <= i < |batch| && batch[i] == x { ElementIn(batch, |batch|, i); }
    }
    assert taken <= ids;
    assert rest == ids - taken;
  }

  function Elements(ids: seq<nat>, k: nat): set<nat>
    requires k <= |ids|
  {
    if k == 0 then {} else Elements(ids, k - 1) + {ids[k - 1]}
  }

  lemma {:induction false} ElementAt(ids: seq<nat>, k: nat, x: nat) returns (i: nat)
    requires k <= |ids| && x in Elements(ids, k)
    ensures i < k && ids[i] == x
  {
    if x == ids[k - 1] { i := k - 1; } else { i := ElementAt(ids, k - 1, x); }
  }

  lemma {:induction false} ElementIn(ids: seq<nat>, k: nat, i: nat)
    requires i < k <= |ids|
    ensures ids[i] in Elements(ids, k)
  {
    if i < k - 1 { ElementIn(ids, k - 1, i); }
  }

  lemma {:induction false} ElementsSize(ids: seq<nat>, k: nat)
    requires k <= |ids| && Distinct(ids)
    ensures |Elements(ids, k)| == k
  {
    if k > 0 {
      ElementsSize(ids, k - 1);
      if ids[k - 1] in Elements(ids, k - 1) { var i := ElementAt(ids, k - 1, ids[k - 1]); }
    }
  }

  lemma TickUnpublished(rows: Rows, limit: nat, now: nat)
    ensures var batch := Batch(rows, Unpublished(rows), limit);
      forall id :: id in Unpublished(Tick(rows, limit, now)) <==> id in Unpublished(rows) && id !in batch
  {
  }

  function Backlog(size: nat, limit: nat, n: nat): nat {
    if n * limit < size then size - n * limit else 0
  }

  lemma BacklogStep(size: nat, limit: nat, n: nat)
    requires n > 0
    ensures Backlog(if limit < size then size - limit else 0, limit, n - 1) == Backlog(size, limit, n)
  {
    assert n * limit == (n - 1) * limit + limit;
    assert (n - 1) * limit >= 0;
  }

  // Repeated ticks reach an empty backlog: n of them clear n * limit rows.
  lemma {:induction false} TicksDrain(rows: Rows, limit: nat, n: nat, now: nat)
    ensures |Unpublished(Ticks(rows, limit, n, now))| == Backlog(|Unpublished(rows)|, limit, n)
    decreases n
  {
    if n > 0 {
      TickShrinks(rows, limit, now);
      TicksDrain(Tick(rows, limit, now), limit, n - 1, now);
      BacklogStep(|Unpublished(rows)|, limit, n);
    }
  }

  lemma DrainedInTime(rows: Rows, limit: nat, now: nat)
    requires limit >= 1
    ensures Unpublished(Ticks(rows, limit, |Unpublished(rows)|, now)) == {}
  {
    var size := |Unpublished(rows)|;
    TicksDrain(rows, limit, size, now);
    assert size * limit == size * (limit - 1) + size;
  }
}
