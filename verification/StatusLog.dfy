/** The bounded, numbered log of order statuses: src/orders/order-events.service.ts. */
module StatusLog {
  import opened Prelude

  const BUFFER_LIMIT: nat := 100

  datatype Key = Key(order: nat, event: nat)
  datatype Event = Event(id: nat, order: nat, status: string)

  type Rows = map<Key, string>

  // ----- SQL over the ids of one order -----

  function Ids(rows: Rows, order: nat): set<nat> {
    set k | k in rows && k.order == order :: k.event
  }

  predicate IsMax(ids: set<nat>, m: nat) { m in ids && forall i :: i in ids ==> i <= m }

  function Max(ids: set<nat>): (m: nat)
    requires ids != {}
    ensures IsMax(ids, m)
  {
    MaxExists(ids);
    var m :| m in ids && IsMax(ids, m);
    m
  }

  lemma {:induction false} MaxExists(ids: set<nat>)
    requires ids != {}
    ensures exists m :: m in ids && IsMax(ids, m)
    decreases |ids|
  {
    var x :| x in ids;
    if ids == {x} {
      assert IsMax(ids, x);
    } else {
      MaxExists(ids - {x});
      var m :| m in ids - {x} && IsMax(ids - {x}, m);
      MaxOfTwo(ids, x, m);
    }
  }

  lemma MaxOfTwo(ids: set<nat>, x: nat, m: nat)
    requires x in ids && IsMax(ids - {x}, m)
    ensures IsMax(ids, if m < x then x else m)
  {
    forall i | i in ids
      ensures i <= m || i == x
    {
      if i != x { assert i in ids - {x}; }
    }
  }

  // ORDER BY event_id DESC OFFSET n LIMIT 1
  function FromTop(ids: set<nat>, n: nat): Option<nat>
    decreases n
  {
    if ids == {} then None
    else if n == 0 then Some(Max(ids))
    else FromTop(ids - {Max(ids)}, n - 1)
  }

  // ORDER BY event_id
  function Ascending(ids: set<nat>): seq<nat>
    decreases |ids|
  {
    if ids == {} then [] else Ascending(ids - {Max(ids)}) + [Max(ids)]
  }

  // ids lo + 1 .. hi
  function Range(lo: nat, hi: nat): (ids: set<nat>)
    ensures forall i :: i in ids <==> lo < i <= hi
  {
    if hi <= lo then {} else Range(lo, hi - 1) + {hi}
  }

  lemma MaxOfRange(lo: nat, hi: nat)
    requires lo < hi
    ensures hi in Range(lo, hi)
    ensures Max(Range(lo, hi)) == hi && Range(lo, hi) - {hi} == Range(lo, hi - 1)
  {
  }

  lemma {:induction false} FromTopOfRange(lo: nat, hi: nat, n: nat)
    requires lo <= hi
    ensures FromTop(Range(lo, hi), n) == if lo + n < hi then Some(hi - n) else None
    decreases n
  {
    if lo < hi {
      MaxOfRange(lo, hi);
      if n > 0 { FromTopOfRange(lo, hi - 1, n - 1); }
    } else {
      assert Range(lo, hi) == {};
    }
  }

  lemma {:induction false} AscendingRange(lo: nat, hi: nat)
    requires lo <= hi
    ensures |Ascending(Range(lo, hi))| == hi - lo
    ensures forall i :: 0 <= i < hi - lo ==> Ascending(Range(lo, hi))[i] == lo + 1 + i
    decreases hi
  {
    if lo < hi {
      MaxOfRange(lo, hi);
      AscendingRange(lo, hi - 1);
    } else {
      assert Range(lo, hi) == {};
    }
  }

  // ----- publish and since -----

  // coalesce(max(event_id), 0) + 1
  function NextId(rows: Rows, order: nat): nat {
    if Ids(rows, order) == {} then 1 else Max(Ids(rows, order)) + 1
  }

  function Trimmed(rows: Rows, order: nat): Rows {
    var cut := FromTop(Ids(rows, order), BUFFER_LIMIT);
    if cut.None? then rows else map k | k in rows && !(k.order == order && k.event <= cut.value) :: rows[k]
  }

  function Published(rows: Rows, order: nat, status: string): Rows {
    Trimmed(rows[Key(order, NextId(rows, order)) := status], order)
  }

  function Above(ids: set<nat>, last: int): set<nat> { set i | i in ids && i > last }

  function Since(rows: Rows, order: nat, last: int): seq<Event> {
    var ids := Ascending(Above(Ids(rows, order), last));
    seq(|ids|, i requires 0 <= i < |ids| =>
      Event(ids[i], order, if Key(order, ids[i]) in rows then rows[Key(order, ids[i])] else ""))
  }

  /** The service: its table and what it has emitted to live listeners. */
  class OrderEvents {
    var rows: Rows
    var emitted: seq<Event>

    constructor ()
      ensures rows == map[] && emitted == []
    {
      rows, emitted := map[], [];
    }

    // The transaction, under the order's advisory lock.
    method Insert(order: nat, status: string) returns (event: Event)
      modifies `rows
      ensures rows == Published(old(rows), order, status)
      ensures event == Event(NextId(old(rows), order), order, status)
    {
      var id := 1;
      if Ids(rows, order) != {} { id := Max(Ids(rows, order)) + 1; }
      rows := rows[Key(order, id) := status];
      var cut := FromTop(Ids(rows, order), BUFFER_LIMIT);
      if cut.Some? {
        rows := map k | k in rows && !(k.order == order && k.event <= cut.value) :: rows[k];
      }
      event := Event(id, order, status);
    }

    method Publish(order: nat, status: string) returns (event: Event)
      modifies this
      ensures rows == Published(old(rows), order, status)
      ensures event == Event(NextId(old(rows), order), order, status)
      ensures emitted == old(emitted) + [event]
    {
      event := Insert(order, status);
      emitted := emitted + [event];
    }
  }

  // ----- the unbounded log it stands for -----

  // What would be stored if nothing were ever deleted: event i of order o is log[o][i - 1].
  type Log = map<nat, seq<string>>

  function Of(log: Log, order: nat): seq<string> { if order in log then log[order] else [] }

  function Start(n: nat): nat { if n > BUFFER_LIMIT then n - BUFFER_LIMIT else 0 }

  // The rows of an order are its entries lo + 1 .. n.
  ghost predicate Holds(rows: Rows, order: nat, lo: nat, full: seq<string>) {
    && (forall e: nat :: Key(order, e) in rows <==> lo < e <= |full|)
    && (forall e: nat :: Key(order, e) in rows && 1 <= e <= |full| ==> rows[Key(order, e)] == full[e - 1])
  }

  ghost predicate OrderWindow(rows: Rows, order: nat, full: seq<string>) {
    Holds(rows, order, Start(|full|), full)
  }

  ghost predicate Window(rows: Rows, log: Log) {
    forall order: nat :: OrderWindow(rows, order, Of(log, order))
  }

  lemma WindowIds(rows: Rows, order: nat, full: seq<string>)
    requires OrderWindow(rows, order, full)
    ensures Ids(rows, order) == Range(Start(|full|), |full|)
    ensures NextId(rows, order) == |full| + 1
  {
    forall e: nat
      ensures e in Ids(rows, order) <==> Start(|full|) < e <= |full|
    {
      assert e in Ids(rows, order) <==> Key(order, e) in rows;
    }
    if full != [] { MaxOfRange(Start(|full|), |full|); }
  }

  lemma InsertedIds(rows: Rows, order: nat, full: seq<string>, status: string)
    requires OrderWindow(rows, order, full)
    ensures Ids(rows[Key(order, |full| + 1) := status], order) == Range(Start(|full|), |full| + 1)
  {
    WindowIds(rows, order, full);
    assert Ids(rows[Key(order, |full| + 1) := status], order) == Ids(rows, order) + {|full| + 1};
  }

  lemma InsertHolds(rows: Rows, order: nat, full: seq<string>, status: string)
    requires OrderWindow(rows, order, full)
    ensures Holds(rows[Key(order, |full| + 1) := status], order, Start(|full|), full + [status])
  {
  }

  lemma TrimHolds(rows: Rows, order: nat, lo: nat, full: seq<string>)
    requires Holds(rows, order, lo, full) && Ids(rows, order) == Range(lo, |full|) && lo < |full| && lo <= Start(|full|)
    ensures Holds(Trimmed(rows, order), order, Start(|full|), full)
  {
    FromTopOfRange(lo, |full|, BUFFER_LIMIT);
  }

  lemma PublishKeepsOrder(rows: Rows, order: nat, full: seq<string>, status: string)
    requires OrderWindow(rows, order, full)
    ensures OrderWindow(Published(rows, order, status), order, full + [status])
  {
    WindowIds(rows, order, full);
    InsertedIds(rows, order, full, status);
    InsertHolds(rows, order, full, status);
    TrimHolds(rows[Key(order, |full| + 1) := status], order, Start(|full|), full + [status]);
  }

  // One publish: the next number, never used before, whatever was deleted; the
  // window moves by one; other orders' rows stay.
  lemma PublishKeepsWindow(rows: Rows, log: Log, order: nat, status: string)
    requires Window(rows, log)
    ensures NextId(rows, order) == |Of(log, order)| + 1
    ensures Window(Published(rows, order, status), log[order := Of(log, order) + [status]])
    ensures forall k: Key :: k.order != order ==> (k in Published(rows, order, status) <==> k in rows)
  {
    var rows', log' := Published(rows, order, status), log[order := Of(log, order) + [status]];
    WindowIds(rows, order, Of(log, order));
    forall o: nat
      ensures OrderWindow(rows', o, Of(log', o))
    {
      if o == order {
        PublishKeepsOrder(rows, order, Of(log, order), status);
      } else {
        assert OrderWindow(rows, o, Of(log, o));
      }
    }
  }

  datatype Call = Call(order: nat, status: string)

  function PublishAll(calls: seq<Call>): Rows {
    if calls == [] then map[] else
      var last := calls[|calls| - 1];
      Published(PublishAll(calls[..|calls| - 1]), last.order, last.status)
  }

  function LogOf(calls: seq<Call>): Log {
    if calls == [] then map[] else
      var last := calls[|calls| - 1];
      var log := LogOf(calls[..|calls| - 1]);
      log[last.order := Of(log, last.order) + [last.status]]
  }

  // For every sequence of publishes the stored ids of every order are exactly the
  // last min(n, 100) of 1..n, with their statuses.
  lemma {:induction false} StoredIsWindow(calls: seq<Call>)
    ensures Window(PublishAll(calls), LogOf(calls))
  {
    if calls != [] {
      var last := calls[|calls| - 1];
      StoredIsWindow(calls[..|calls| - 1]);
      PublishKeepsWindow(PublishAll(calls[..|calls| - 1]), LogOf(calls[..|calls| - 1]), last.order, last.status);
    }
  }

  // The entries after `last`, of the log nothing was deleted from.
  function Suffix(full: seq<string>, order: nat, last: int): seq<Event> {
    var from := if last < 0 then 0 else if last > |full| then |full| else last;
    seq(|full| - from, i requires 0 <= i < |full| - from => Event(from + i + 1, order, full[from + i]))
  }

  function Later(a: int, b: int): int { if a < b then b else a }

  lemma SinceWindow(rows: Rows, order: nat, full: seq<string>, last: int)
    requires OrderWindow(rows, order, full)
    ensures Since(rows, order, last) == Suffix(full, order, Later(last, Start(|full|)))
  {
    var from := if Later(last, Start(|full|)) > |full| then |full| else Later(last, Start(|full|));
    WindowIds(rows, order, full);
    assert Above(Ids(rows, order), last) == Range(from, |full|);
    AscendingRange(from, |full|);
  }

  // A reader gets everything after `last` exactly when `last` is not older than
  // the window; a reader further behind is given less, without being told.
  lemma SinceIsSuffixIff(rows: Rows, log: Log, order: nat, last: int)
    requires Window(rows, log)
    ensures Since(rows, order, last) == Suffix(Of(log, order), order, last)
      <==> |Of(log, order)| <= 100 || last >= |Of(log, order)| - 100
  {
    assert OrderWindow(rows, order, Of(log, order));
    SinceWindow(rows, order, Of(log, order), last);
    var full := Of(log, order);
    if |full| > BUFFER_LIMIT && last < |full| - BUFFER_LIMIT {
      assert |Suffix(full, order, last)| > |Suffix(full, order, Start(|full|))|;
    }
  }
}
