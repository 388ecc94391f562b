/** The in-memory idempotency layer: src/common/idempotency/idempotency.interceptor.ts. */
module Interceptor {
  import opened Prelude

  const KEY_TTL_MS: nat := 24 * 60 * 60 * 1000

  // `body` is the answer of a finished request, by the id of its order.
  datatype Entry = Entry(key: string, fingerprint: string, expiresAt: nat, body: Option<nat>)

  datatype Answer = PassThrough | KeyReuse | InFlight | Replay(body: nat) | Start(expiresAt: nat)

  // ----- an insertion-ordered Map -----

  function Find(entries: seq<Entry>, key: string): (i: nat)
    ensures i <= |entries|
    ensures i < |entries| ==> entries[i].key == key
    ensures forall j :: 0 <= j < i ==> entries[j].key != key
  {
    if entries == [] || entries[0].key == key then 0 else 1 + Find(entries[1..], key)
  }

  // Map.set: an existing key keeps its place, a new one goes last.
  function Put(entries: seq<Entry>, e: Entry): seq<Entry> {
    var i := Find(entries, e.key);
    if i < |entries| then entries[i := e] else entries + [e]
  }

  // The sweep: delete from the front, stop at the first live record.
  function Swept(entries: seq<Entry>, now: nat): seq<Entry> {
    if entries == [] || entries[0].expiresAt > now then entries else Swept(entries[1..], now)
  }

  // Deleting every expired record.
  function Live(entries: seq<Entry>, now: nat): seq<Entry> {
    if entries == [] then []
    else (if entries[0].expiresAt > now then [entries[0]] else []) + Live(entries[1..], now)
  }

  function Lookup(entries: seq<Entry>, key: string, fingerprint: string, now: nat): Answer {
    var i := Find(entries, key);
    if i == |entries| then Start(now + KEY_TTL_MS)
    else if entries[i].fingerprint != fingerprint then KeyReuse
    else if entries[i].body.None? then InFlight
    else Replay(entries[i].body.value)
  }

  function Began(entries: seq<Entry>, key: string, fingerprint: string, answer: Answer): seq<Entry> {
    if answer.Start? then Put(entries, Entry(key, fingerprint, answer.expiresAt, None)) else entries
  }

  /** The interceptor's Map. */
  class Interceptor {
    var entries: seq<Entry>

    constructor ()
      ensures entries == []
    {
      entries := [];
    }

    method Sweep(now: nat)
      modifies this
      ensures entries == Swept(old(entries), now)
    {
      while entries != []
        invariant Swept(entries, now) == Swept(old(entries), now)
      {
        if entries[0].expiresAt > now { break; }
        entries := entries[1..];
      }
    }

    // The clock is read for the sweep and again for the new record.
    method Handle(post: bool, key: Option<string>, fingerprint: string, sweepNow: nat, now: nat)
      returns (answer: Answer)
      modifies this
      ensures !post || key.None? || key.value == "" ==> answer == PassThrough && entries == old(entries)
      ensures post && key.Some? && key.value != "" ==>
        && answer == Lookup(Swept(old(entries), sweepNow), key.value, fingerprint, now)
        && entries == Began(Swept(old(entries), sweepNow), key.value, fingerprint, answer)
    {
      if !post || key.None? || key.value == "" { return PassThrough; }
      Sweep(sweepNow);
      var i := Find(entries, key.value);
      if i < |entries| {
        var record := entries[i];
        if record.fingerprint != fingerprint { return KeyReuse; }
        if record.body.None? { return InFlight; }
        return Replay(record.body.value);
      }
      var expiresAt := now + KEY_TTL_MS;
      entries := Put(entries, Entry(key.value, fingerprint, expiresAt, None));
      return Start(expiresAt);
    }

    // The handler answered: its record is finished where the key stands, and no
    // other moves; a key that has gone comes back last.
    method Complete(key: string, fingerprint: string, expiresAt: nat, body: nat)
      modifies this
      ensures var finished, i := Entry(key, fingerprint, expiresAt, Some(body)), Find(old(entries), key);
        if exists j :: 0 <= j < |old(entries)| && old(entries)[j].key == key then
          && |entries| == |old(entries)| && i < |entries| && entries[i] == finished
          && forall j :: 0 <= j < |entries| && j != i ==> entries[j] == old(entries)[j]
        else entries == old(entries) + [finished]
      ensures entries == Put(old(entries), Entry(key, fingerprint, expiresAt, Some(body)))
    {
      var finished := Entry(key, fingerprint, expiresAt, Some(body));
      var i := Find(entries, key);
      if i < |entries| {
        entries := entries[i := finished];
      } else {
        entries := entries + [finished];
      }
    }
  }

  // ----- order of the map -----

  ghost predicate Ordered(entries: seq<Entry>) {
    forall i, j :: 0 <= i < j < |entries| ==> entries[i].expiresAt <= entries[j].expiresAt
  }

  ghost predicate Distinct(entries: seq<Entry>) {
    forall i, j :: 0 <= i < j < |entries| ==> entries[i].key != entries[j].key
  }

  // In an ordered map the early exit deletes exactly the expired records.
  lemma {:induction false} SweepIsFull(entries: seq<Entry>, now: nat)
    requires Ordered(entries)
    ensures Swept(entries, now) == Live(entries, now)
  {
    if entries != [] {
      if entries[0].expiresAt > now { AllLive(entries, now); } else { SweepIsFull(entries[1..], now); }
    }
  }

  lemma {:induction false} AllLive(entries: seq<Entry>, now: nat)
    requires forall i :: 0 <= i < |entries| ==> entries[i].expiresAt > now
    ensures Live(entries, now) == entries
  {
    if entries != [] { AllLive(entries[1..], now); }
  }

  // The sweep drops a prefix, and only of expired records.
  lemma {:induction false} SweptIsSuffix(entries: seq<Entry>, now: nat) returns (k: nat)
    ensures k <= |entries| && Swept(entries, now) == entries[k..]
    ensures forall i :: 0 <= i < k ==> entries[i].expiresAt <= now
    ensures k < |entries| ==> entries[k].expiresAt > now
  {
    if entries == [] || entries[0].expiresAt > now {
      k := 0;
    } else {
      k := SweptIsSuffix(entries[1..], now);
      k := k + 1;
    }
  }

  lemma SweptKeeps(entries: seq<Entry>, now: nat)
    requires Ordered(entries) && Distinct(entries)
    ensures Ordered(Swept(entries, now)) && Distinct(Swept(entries, now))
    ensures forall e :: e in entries && e.expiresAt > now ==> e in Swept(entries, now)
    ensures forall e :: e in Swept(entries, now) ==> e in entries && e.expiresAt > now
  {
    var k := SweptIsSuffix(entries, now);
    var rest := Swept(entries, now);
    forall e | e in entries && e.expiresAt > now
      ensures e in rest
    {
      var i :| 0 <= i < |entries| && entries[i] == e;
      assert rest[i - k] == e;
    }
    SweepIsFull(entries, now);
    LiveIsLive(entries, now);
  }

  lemma {:induction false} LiveIsLive(entries: seq<Entry>, now: nat)
    ensures forall e :: e in Live(entries, now) ==> e in entries && e.expiresAt > now
  {
    if entries != [] { LiveIsLive(entries[1..], now); }
  }

  // ----- every run of one process -----

  datatype Handler = Handler(key: string, fingerprint: string, expiresAt: nat)
  datatype Begin = Begin(key: string, at: nat)

  // `begins` records every handler start.
  datatype State = State(entries: seq<Entry>, running: map<nat, Handler>, now: nat, begins: seq<Begin>)

  datatype Action =
    | Pass(ms: nat)
    | Request(h: nat, key: string, fingerprint: string, lag: nat)
    | Finish(h: nat, body: nat)
    | Error(h: nat)

  predicate Enabled(s: State, a: Action) {
    match a
    case Pass(ms) => true
    case Request(h, key, fingerprint, lag) => h !in s.running && key != ""
    case Finish(h, body) => h in s.running
    case Error(h) => h in s.running
  }

  function AnswerTo(s: State, a: Action): Answer
    requires a.Request?
  {
    Lookup(Swept(s.entries, s.now), a.key, a.fingerprint, s.now + a.lag)
  }

  // A handler starts at `at`.
  function Started(s: State, h: nat, key: string, fingerprint: string, at: nat): State {
    var expiresAt := at + KEY_TTL_MS;
    State(Put(s.entries, Entry(key, fingerprint, expiresAt, None)),
          s.running[h := Handler(key, fingerprint, expiresAt)], at, s.begins + [Begin(key, at)])
  }

  function Do(s: State, a: Action): State
    requires Enabled(s, a)
  {
    match a
    case Pass(ms) => s.(now := s.now + ms)
    case Request(h, key, fingerprint, lag) =>
      var swept := s.(entries := Swept(s.entries, s.now));
      if AnswerTo(s, a).Start? then Started(swept, h, key, fingerprint, s.now + lag) else swept.(now := s.now + lag)
    case Finish(h, body) =>
      var handler := s.running[h];
      s.(entries := Put(s.entries, Entry(handler.key, handler.fingerprint, handler.expiresAt, Some(body))),
         running := s.running - {h})
    case Error(h) => s.(running := s.running - {h})
  }

  // What Handle leaves in the map is what the step leaves.
  lemma RequestBegan(s: State, a: Action)
    requires Enabled(s, a) && a.Request?
    ensures Do(s, a).entries == Began(Swept(s.entries, s.now), a.key, a.fingerprint, AnswerTo(s, a))
  {
  }

  // The handler that answers finds its own record still there.
  ghost predicate Found(s: State, a: Action) {
    a.Finish? && a.h in s.running ==> HasRecord(s.entries, s.running[a.h].key, s.running[a.h].expiresAt)
  }

  // The handler answers before its record expires.
  predicate Timely(s: State, a: Action) {
    a.Finish? && a.h in s.running ==> s.now < s.running[a.h].expiresAt
  }

  ghost predicate Executes(s: State, actions: seq<Action>, s': State)
    decreases |actions|
  {
    if actions == [] then s' == s
    else Enabled(s, actions[0]) && Executes(Do(s, actions[0]), actions[1..], s')
  }

  ghost predicate AllTimely(s: State, actions: seq<Action>)
    decreases |actions|
  {
    actions == [] || (Enabled(s, actions[0]) && Timely(s, actions[0]) && AllTimely(Do(s, actions[0]), actions[1..]))
  }

  ghost predicate AllFound(s: State, actions: seq<Action>)
    decreases |actions|
  {
    actions == [] || (Enabled(s, actions[0]) && Found(s, actions[0]) && AllFound(Do(s, actions[0]), actions[1..]))
  }

  const START := State([], map[], 0, [])

  // Records are in order and not from the future.
  ghost predicate OrderInv(entries: seq<Entry>, now: nat) {
    && Ordered(entries) && Distinct(entries)
    && (forall i :: 0 <= i < |entries| ==> entries[i].expiresAt <= now + KEY_TTL_MS)
  }

  ghost predicate HasRecord(entries: seq<Entry>, key: string, expiresAt: nat) {
    exists i :: 0 <= i < |entries| && entries[i].key == key && entries[i].expiresAt == expiresAt
  }

  // A running handler's record stays until it expires; so does that of every
  // start, finished or not.
  ghost predicate HandlersInv(entries: seq<Entry>, running: map<nat, Handler>, now: nat) {
    forall h :: h in running && now < running[h].expiresAt ==> HasRecord(entries, running[h].key, running[h].expiresAt)
  }

  ghost predicate BeginsInv(entries: seq<Entry>, begins: seq<Begin>, now: nat) {
    && (forall i :: 0 <= i < |begins| && now < begins[i].at + KEY_TTL_MS ==>
          HasRecord(entries, begins[i].key, begins[i].at + KEY_TTL_MS))
    && (forall i :: 0 <= i < |begins| ==> begins[i].at <= now)
  }

  // At most one start per key in any window of KEY_TTL_MS.
  ghost predicate Spaced(begins: seq<Begin>) {
    forall i, j :: 0 <= i < j < |begins| && begins[i].key == begins[j].key ==> begins[i].at + KEY_TTL_MS <= begins[j].at
  }

  ghost predicate Inv(s: State) {
    OrderInv(s.entries, s.now) && HandlersInv(s.entries, s.running, s.now)
    && BeginsInv(s.entries, s.begins, s.now) && Spaced(s.begins)
  }

  lemma PutNew(entries: seq<Entry>, e: Entry, now: nat)
    requires OrderInv(entries, now) && Find(entries, e.key) == |entries| && e.expiresAt == now + KEY_TTL_MS
    ensures OrderInv(Put(entries, e), now)
    ensures forall key, expiresAt :: HasRecord(entries, key, expiresAt) ==> HasRecord(Put(entries, e), key, expiresAt)
    ensures HasRecord(Put(entries, e), e.key, e.expiresAt)
  {
    var entries' := Put(entries, e);
    assert entries'[|entries|] == e;
    forall key, expiresAt | HasRecord(entries, key, expiresAt)
      ensures HasRecord(entries', key, expiresAt)
    {
      var i :| 0 <= i < |entries| && entries[i].key == key && entries[i].expiresAt == expiresAt;
      assert entries'[i] == entries[i];
    }
  }

  lemma PutBack(entries: seq<Entry>, e: Entry, now: nat)
    requires OrderInv(entries, now) && HasRecord(entries, e.key, e.expiresAt)
    ensures OrderInv(Put(entries, e), now)
    ensures forall key, expiresAt :: HasRecord(entries, key, expiresAt) ==> HasRecord(Put(entries, e), key, expiresAt)
  {
    var k := Find(entries, e.key);
    var i :| 0 <= i < |entries| && entries[i].key == e.key && entries[i].expiresAt == e.expiresAt;
    assert i == k;
    forall key, expiresAt | HasRecord(entries, key, expiresAt)
      ensures HasRecord(Put(entries, e), key, expiresAt)
    {
      var j :| 0 <= j < |entries| && entries[j].key == key && entries[j].expiresAt == expiresAt;
      assert Put(entries, e)[j].key == key && Put(entries, e)[j].expiresAt == expiresAt;
    }
  }

  lemma SweptRecords(entries: seq<Entry>, now: nat, key: string, expiresAt: nat)
    requires OrderInv(entries, now) && HasRecord(entries, key, expiresAt) && now < expiresAt
    ensures HasRecord(Swept(entries, now), key, expiresAt)
  {
    SweptKeeps(entries, now);
    var i :| 0 <= i < |entries| && entries[i].key == key && entries[i].expiresAt == expiresAt;
    assert entries[i] in Swept(entries, now);
  }

  lemma SweepKeepsInv(entries: seq<Entry>, running: map<nat, Handler>, begins: seq<Begin>, now: nat)
    requires OrderInv(entries, now) && HandlersInv(entries, running, now) && BeginsInv(entries, begins, now)
    ensures var rest := Swept(entries, now);
      OrderInv(rest, now) && HandlersInv(rest, running, now) && BeginsInv(rest, begins, now)
  {
    SweptKeeps(entries, now);
    forall h | h in running && now < running[h].expiresAt
      ensures HasRecord(Swept(entries, now), running[h].key, running[h].expiresAt)
    {
      SweptRecords(entries, now, running[h].key, running[h].expiresAt);
    }
    forall i | 0 <= i < |begins| && now < begins[i].at + KEY_TTL_MS
      ensures HasRecord(Swept(entries, now), begins[i].key, begins[i].at + KEY_TTL_MS)
    {
      SweptRecords(entries, now, begins[i].key, begins[i].at + KEY_TTL_MS);
    }
  }

  lemma LaterKeepsInv(s: State, ms: nat)
    requires Inv(s)
    ensures Inv(s.(now := s.now + ms))
  {
  }

  lemma SpacedSnoc(begins: seq<Begin>, key: string, at: nat)
    requires Spaced(begins)
    requires forall i :: 0 <= i < |begins| && begins[i].key == key ==> begins[i].at + KEY_TTL_MS <= at
    ensures Spaced(begins + [Begin(key, at)])
  {
  }

  lemma RecordsStay(entries: seq<Entry>, entries': seq<Entry>, running: map<nat, Handler>, begins: seq<Begin>, now: nat)
    requires HandlersInv(entries, running, now) && BeginsInv(entries, begins, now)
    requires forall key, expiresAt :: HasRecord(entries, key, expiresAt) ==> HasRecord(entries', key, expiresAt)
    ensures HandlersInv(entries', running, now) && BeginsInv(entries', begins, now)
  {
  }

  lemma HandlerAdded(entries: seq<Entry>, running: map<nat, Handler>, now: nat, h: nat, handler: Handler)
    requires HandlersInv(entries, running, now) && HasRecord(entries, handler.key, handler.expiresAt)
    ensures HandlersInv(entries, running[h := handler], now)
  {
  }

  lemma BeginAdded(entries: seq<Entry>, begins: seq<Begin>, now: nat, key: string)
    requires BeginsInv(entries, begins, now) && HasRecord(entries, key, now + KEY_TTL_MS)
    ensures BeginsInv(entries, begins + [Begin(key, now)], now)
  {
  }

  lemma StartKeeps(s: State, h: nat, key: string, fingerprint: string)
    requires Inv(s) && Find(s.entries, key) == |s.entries|
    requires forall i :: 0 <= i < |s.begins| && s.begins[i].key == key ==> s.begins[i].at + KEY_TTL_MS <= s.now
    ensures Inv(Started(s, h, key, fingerprint, s.now))
  {
    var e := Entry(key, fingerprint, s.now + KEY_TTL_MS, None);
    var entries := Put(s.entries, e);
    PutNew(s.entries, e, s.now);
    RecordsStay(s.entries, entries, s.running, s.begins, s.now);
    HandlerAdded(entries, s.running, s.now, h, Handler(key, fingerprint, e.expiresAt));
    BeginAdded(entries, s.begins, s.now, key);
    SpacedSnoc(s.begins, key, s.now);
  }

  lemma NoRecord(entries: seq<Entry>, key: string, expiresAt: nat)
    requires Find(entries, key) == |entries|
    ensures !HasRecord(entries, key, expiresAt)
  {
  }

  lemma SweptStateKeeps(s: State)
    requires Inv(s)
    ensures Inv(s.(entries := Swept(s.entries, s.now)))
  {
    SweepKeepsInv(s.entries, s.running, s.begins, s.now);
  }

  lemma RequestKeeps(s: State, a: Action)
    requires Inv(s) && Enabled(s, a) && a.Request?
    ensures Inv(Do(s, a))
  {
    SweptStateKeeps(s);
    var s1 := s.(entries := Swept(s.entries, s.now));
    if AnswerTo(s, a).Start? {
      StartLater(s1, a.lag, a.h, a.key, a.fingerprint);
    } else {
      LaterKeepsInv(s1, a.lag);
    }
  }

  lemma StartLater(s: State, lag: nat, h: nat, key: string, fingerprint: string)
    requires Inv(s) && Find(s.entries, key) == |s.entries|
    ensures Inv(Started(s, h, key, fingerprint, s.now + lag))
  {
    FreeToStart(s, key);
    LaterKeepsInv(s, lag);
    StartKeeps(s.(now := s.now + lag), h, key, fingerprint);
  }

  lemma FreeToStart(s: State, key: string)
    requires BeginsInv(s.entries, s.begins, s.now) && Find(s.entries, key) == |s.entries|
    ensures forall i :: 0 <= i < |s.begins| && s.begins[i].key == key ==> s.begins[i].at + KEY_TTL_MS <= s.now
  {
    forall i | 0 <= i < |s.begins| && s.begins[i].key == key
      ensures s.begins[i].at + KEY_TTL_MS <= s.now
    {
      NoRecord(s.entries, key, s.begins[i].at + KEY_TTL_MS);
    }
  }

  lemma FinishKeeps(s: State, a: Action)
    requires Inv(s) && Enabled(s, a) && a.Finish? && Found(s, a)
    ensures Inv(Do(s, a))
  {
    var handler := s.running[a.h];
    PutBack(s.entries, Entry(handler.key, handler.fingerprint, handler.expiresAt, Some(a.body)), s.now);
  }

  lemma StepKeeps(s: State, a: Action)
    requires Inv(s) && Enabled(s, a) && Found(s, a)
    ensures Inv(Do(s, a))
  {
    if a.Pass? {
      LaterKeepsInv(s, a.ms);
    } else if a.Request? {
      RequestKeeps(s, a);
    } else if a.Finish? {
      FinishKeeps(s, a);
    }
  }

  lemma {:induction false} RunKeeps(s: State, actions: seq<Action>, s': State)
    requires Inv(s) && Executes(s, actions, s') && AllFound(s, actions)
    ensures Inv(s')
    decreases |actions|
  {
    if actions != [] {
      StepKeeps(s, actions[0]);
      RunKeeps(Do(s, actions[0]), actions[1..], s');
    }
  }

  // If every handler that answers finds its own record: map order is expiry order,
  // so stopping at the first live record is a full sweep, and a key starts at most
  // one handler in any time-to-live window.
  lemma FoundRunsSweepFully(actions: seq<Action>, s: State)
    requires Executes(START, actions, s) && AllFound(START, actions)
    ensures Ordered(s.entries) && Swept(s.entries, s.now) == Live(s.entries, s.now)
    ensures Spaced(s.begins)
  {
    RunKeeps(START, actions, s);
    SweepIsFull(s.entries, s.now);
  }

  // Answering before the record expires is enough.
  lemma {:induction false} TimelyIsFound(s: State, actions: seq<Action>)
    requires Inv(s) && AllTimely(s, actions)
    ensures AllFound(s, actions)
    decreases |actions|
  {
    if actions != [] {
      StepKeeps(s, actions[0]);
      TimelyIsFound(Do(s, actions[0]), actions[1..]);
    }
  }

  lemma TimelyRunsSweepFully(actions: seq<Action>, s: State)
    requires Executes(START, actions, s) && AllTimely(START, actions)
    ensures Ordered(s.entries) && Swept(s.entries, s.now) == Live(s.entries, s.now)
    ensures Spaced(s.begins)
  {
    TimelyIsFound(START, actions);
    FoundRunsSweepFully(actions, s);
  }
}
