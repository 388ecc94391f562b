/** Handlers that come back too late, and handlers that fail. */
module InterceptorLaws {
  import opened Prelude
  import opened Interceptor

  // Once a handler's record has gone, everything in the map expires after it.
  ghost predicate GoneInv(entries: seq<Entry>, running: map<nat, Handler>) {
    forall h :: h in running && !HasRecord(entries, running[h].key, running[h].expiresAt) ==>
      forall i :: 0 <= i < |entries| ==> entries[i].expiresAt > running[h].expiresAt
  }

  lemma SweepKeepsGone(entries: seq<Entry>, running: map<nat, Handler>, now: nat)
    requires OrderInv(entries, now) && GoneInv(entries, running)
    ensures GoneInv(Swept(entries, now), running)
  {
    SweptKeeps(entries, now);
    var rest := Swept(entries, now);
    forall h | h in running && !HasRecord(rest, running[h].key, running[h].expiresAt)
      ensures forall i :: 0 <= i < |rest| ==> rest[i].expiresAt > running[h].expiresAt
    {
      forall i | 0 <= i < |rest|
        ensures rest[i].expiresAt > running[h].expiresAt
      {
        assert rest[i] in rest;
        if HasRecord(entries, running[h].key, running[h].expiresAt) && now < running[h].expiresAt {
          SweptRecords(entries, now, running[h].key, running[h].expiresAt);
        }
      }
    }
  }

  lemma PutNewKeepsGone(entries: seq<Entry>, running: map<nat, Handler>, now: nat, h: nat, e: Entry)
    requires OrderInv(entries, now) && HandlersInv(entries, running, now) && GoneInv(entries, running)
    requires Find(entries, e.key) == |entries| && e.expiresAt == now + KEY_TTL_MS
    ensures GoneInv(Put(entries, e), running[h := Handler(e.key, e.fingerprint, e.expiresAt)])
  {
    PutNew(entries, e, now);
  }

  lemma PutBackKeepsGone(entries: seq<Entry>, running: map<nat, Handler>, now: nat, h: nat, e: Entry)
    requires OrderInv(entries, now) && GoneInv(entries, running) && HasRecord(entries, e.key, e.expiresAt)
    ensures GoneInv(Put(entries, e), running - {h})
  {
    PutBack(entries, e, now);
    var k := Find(entries, e.key);
    var i :| 0 <= i < |entries| && entries[i].key == e.key && entries[i].expiresAt == e.expiresAt;
    assert i == k;
    forall g | g in running && !HasRecord(Put(entries, e), running[g].key, running[g].expiresAt)
      ensures forall j :: 0 <= j < |entries| ==> Put(entries, e)[j].expiresAt > running[g].expiresAt
    {
      assert !HasRecord(entries, running[g].key, running[g].expiresAt);
    }
  }

  lemma StartKeepsGone(s: State, h: nat, key: string, fingerprint: string, at: nat)
    requires OrderInv(s.entries, s.now) && HandlersInv(s.entries, s.running, s.now) && GoneInv(s.entries, s.running)
    requires Find(s.entries, key) == |s.entries| && at >= s.now
    ensures GoneInv(Started(s, h, key, fingerprint, at).entries, Started(s, h, key, fingerprint, at).running)
  {
    PutNewKeepsGone(s.entries, s.running, at, h, Entry(key, fingerprint, at + KEY_TTL_MS, None));
  }

  lemma RequestKeepsGone(s: State, a: Action)
    requires Inv(s) && GoneInv(s.entries, s.running) && Enabled(s, a) && a.Request?
    ensures GoneInv(Do(s, a).entries, Do(s, a).running)
  {
    SweepKeepsGone(s.entries, s.running, s.now);
    SweepKeepsInv(s.entries, s.running, s.begins, s.now);
    if AnswerTo(s, a).Start? {
      StartKeepsGone(s.(entries := Swept(s.entries, s.now)), a.h, a.key, a.fingerprint, s.now + a.lag);
    }
  }

  lemma StepKeepsGone(s: State, a: Action)
    requires Inv(s) && GoneInv(s.entries, s.running) && Enabled(s, a) && Found(s, a)
    ensures GoneInv(Do(s, a).entries, Do(s, a).running)
  {
    if a.Request? {
      RequestKeepsGone(s, a);
    } else if a.Finish? {
      var handler := s.running[a.h];
      PutBackKeepsGone(s.entries, s.running, s.now, a.h,
                       Entry(handler.key, handler.fingerprint, handler.expiresAt, Some(a.body)));
    }
  }

  lemma {:induction false} RunKeepsGone(s: State, actions: seq<Action>, s': State)
    requires Inv(s) && GoneInv(s.entries, s.running) && Executes(s, actions, s') && AllFound(s, actions)
    ensures GoneInv(s'.entries, s'.running)
    decreases |actions|
  {
    if actions != [] {
      StepKeepsGone(s, actions[0]);
      StepKeeps(s, actions[0]);
      RunKeepsGone(Do(s, actions[0]), actions[1..], s');
    }
  }

  // After any run in which every handler that answered found its own record, the
  // next one to answer keeps the map in expiry order if and only if it finds its
  // record too, or nothing stands before the place its answer is put in.
  lemma FinishKeepsOrderIff(actions: seq<Action>, s: State, h: nat, body: nat)
    requires Executes(START, actions, s) && AllFound(START, actions) && h in s.running
    ensures Ordered(Do(s, Finish(h, body)).entries)
      <==> HasRecord(s.entries, s.running[h].key, s.running[h].expiresAt) || Find(s.entries, s.running[h].key) == 0
  {
    RunKeeps(START, actions, s);
    RunKeepsGone(START, actions, s);
    var e := Entry(s.running[h].key, s.running[h].fingerprint, s.running[h].expiresAt, Some(body));
    if HasRecord(s.entries, e.key, e.expiresAt) {
      PutBack(s.entries, e, s.now);
    } else {
      PutLate(s.entries, e);
    }
  }

  lemma PutLate(entries: seq<Entry>, e: Entry)
    requires Ordered(entries) && forall i :: 0 <= i < |entries| ==> entries[i].expiresAt > e.expiresAt
    ensures Ordered(Put(entries, e)) <==> Find(entries, e.key) == 0
  {
    var k, entries' := Find(entries, e.key), Put(entries, e);
    assert entries'[k] == e;
    if k > 0 { assert entries'[0] == entries[0]; }
  }

  // What goes wrong otherwise. A slow handler's record expires and is swept by
  // another request; its answer then goes last, behind a live record, where no
  // sweep reaches it; and it is replayed after its time.
  lemma LateFinishIsReplayed(a: string, f: string, b: string, g: string, body: nat)
    requires a != b && a != "" && b != ""
    ensures var late := LateState(a, f, b, g, body);
      && Executes(START, [Request(0, a, f, 0), Pass(KEY_TTL_MS), Request(1, b, g, 0), Finish(0, body)], late)
      && Swept(late.entries, late.now) != Live(late.entries, late.now)
      && late.now >= KEY_TTL_MS && AnswerTo(late, Request(2, a, f, 0)) == Replay(body)
  {
    var last, two, three := [Finish(0, body)], [Request(1, b, g, 0), Finish(0, body)],
      [Pass(KEY_TTL_MS), Request(1, b, g, 0), Finish(0, body)];
    var all := [Request(0, a, f, 0), Pass(KEY_TTL_MS), Request(1, b, g, 0), Finish(0, body)];
    var s1, s2 := FirstState(a, f), FirstState(a, f).(now := KEY_TTL_MS);
    var s3, s4 := SweptState(a, f, b, g), LateState(a, f, b, g, body);
    LateSteps(a, f, b, g, body);
    assert last[1..] == [] && two[1..] == last && three[1..] == two && all[1..] == three;
    assert Executes(s4, [], s4);
    assert Executes(s3, last, s4);
    assert Executes(s2, two, s4);
    assert Executes(s1, three, s4);
    LateEntries(Entry(b, g, 2 * KEY_TTL_MS, None), Entry(a, f, KEY_TTL_MS, Some(body)), KEY_TTL_MS);
  }

  function FirstState(a: string, f: string): State {
    State([Entry(a, f, KEY_TTL_MS, None)], map[0 := Handler(a, f, KEY_TTL_MS)], 0, [Begin(a, 0)])
  }

  function SweptState(a: string, f: string, b: string, g: string): State {
    State([Entry(b, g, 2 * KEY_TTL_MS, None)],
          map[0 := Handler(a, f, KEY_TTL_MS), 1 := Handler(b, g, 2 * KEY_TTL_MS)],
          KEY_TTL_MS, [Begin(a, 0), Begin(b, KEY_TTL_MS)])
  }

  function LateState(a: string, f: string, b: string, g: string, body: nat): State {
    State([Entry(b, g, 2 * KEY_TTL_MS, None), Entry(a, f, KEY_TTL_MS, Some(body))],
          map[1 := Handler(b, g, 2 * KEY_TTL_MS)],
          KEY_TTL_MS, [Begin(a, 0), Begin(b, KEY_TTL_MS)])
  }

  lemma LateSteps(a: string, f: string, b: string, g: string, body: nat)
    requires a != b && a != "" && b != ""
    ensures Do(START, Request(0, a, f, 0)) == FirstState(a, f)
    ensures Do(FirstState(a, f).(now := KEY_TTL_MS), Request(1, b, g, 0)) == SweptState(a, f, b, g)
    ensures Do(SweptState(a, f, b, g), Finish(0, body)) == LateState(a, f, b, g, body)
  {
    var e := Entry(a, f, KEY_TTL_MS, None);
    assert Swept([], 0) == [];
    assert Put([], e) == [e];
    assert [e][1..] == [] && Swept([e], KEY_TTL_MS) == [];
    FindAlone(Entry(b, g, 2 * KEY_TTL_MS, None), a);
    assert SweptState(a, f, b, g).running - {0} == LateState(a, f, b, g, body).running;
  }

  lemma FindAlone(e: Entry, key: string)
    requires e.key != key
    ensures Find([e], key) == 1
  {
    assert [e][1..] == [];
  }

  lemma LateEntries(live: Entry, late: Entry, now: nat)
    requires live.expiresAt > now >= late.expiresAt && live.key != late.key
    ensures Live([live, late], now) == [live] && Swept([live, late], now) == [live, late]
    ensures Find([live, late], late.key) == 1
  {
    assert [live, late][1..] == [late];
    assert [late][1..] == [];
    assert Live([late], now) == Live([], now) == [];
    assert Live([live, late], now) == [live] + Live([late], now);
    assert [live, late][1] == late;
  }

  // ----- what a record answers while it lives -----

  // The record is in the map and nobody is going to write it again.
  ghost predicate Kept(s: State, e: Entry) {
    e in s.entries && forall h :: h in s.running && s.running[h].key == e.key ==> s.running[h].expiresAt != e.expiresAt
  }

  function AnswerOf(e: Entry, fingerprint: string): Answer {
    if fingerprint != e.fingerprint then KeyReuse
    else if e.body.None? then InFlight
    else Replay(e.body.value)
  }

  lemma KeptRecord(s: State, e: Entry) returns (i: nat)
    requires Inv(s) && e in s.entries && s.now < e.expiresAt
    ensures var rest := Swept(s.entries, s.now);
      i < |rest| && rest[i] == e && Distinct(rest) && Find(rest, e.key) == i
  {
    SweptKeeps(s.entries, s.now);
    i :| 0 <= i < |Swept(s.entries, s.now)| && Swept(s.entries, s.now)[i] == e;
  }

  lemma KeptByRequest(s: State, a: Action, e: Entry)
    requires Inv(s) && Kept(s, e) && Enabled(s, a) && a.Request? && s.now < e.expiresAt
    ensures Kept(Do(s, a), e)
    ensures a.key == e.key ==> AnswerTo(s, a) == AnswerOf(e, a.fingerprint)
  {
    var i := KeptRecord(s, e);
    if a.key != e.key && AnswerTo(s, a).Start? {
      assert Do(s, a).entries[i] == e;
    }
  }

  lemma OneRecord(entries: seq<Entry>, e: Entry, expiresAt: nat)
    requires Distinct(entries) && e in entries
    ensures HasRecord(entries, e.key, expiresAt) ==> expiresAt == e.expiresAt
  {
  }

  lemma KeptByFinish(s: State, a: Action, e: Entry)
    requires Inv(s) && Kept(s, e) && Enabled(s, a) && a.Finish? && Found(s, a)
    ensures Kept(Do(s, a), e)
  {
    var i :| 0 <= i < |s.entries| && s.entries[i] == e;
    var handler := s.running[a.h];
    OneRecord(s.entries, e, handler.expiresAt);
    assert Do(s, a).entries[i] == e;
  }

  lemma {:induction false} KeptUntilExpiry(s: State, actions: seq<Action>, s': State, e: Entry, h: nat,
                                           fingerprint: string)
    requires Inv(s) && Kept(s, e) && Executes(s, actions, s') && AllFound(s, actions) && e.key != ""
    requires s'.now < e.expiresAt
    ensures Kept(s', e) && Inv(s')
    ensures AnswerTo(s', Request(h, e.key, fingerprint, 0)) == AnswerOf(e, fingerprint)
    decreases |actions|
  {
    if actions == [] {
      var i := KeptRecord(s, e);
    } else {
      ClockForward(Do(s, actions[0]), actions[1..], s');
      ClockStep(s, actions[0]);
      if actions[0].Request? { KeptByRequest(s, actions[0], e); }
      if actions[0].Finish? { KeptByFinish(s, actions[0], e); }
      StepKeeps(s, actions[0]);
      KeptUntilExpiry(Do(s, actions[0]), actions[1..], s', e, h, fingerprint);
    }
  }

  // Until it expires, whatever else happens, a record answers every request for
  // its key the same way: 422 to another body; to the same body the finished
  // answer again, or 409 when its handler has failed.
  lemma RecordAnswersUntilExpiry(before: seq<Action>, s: State, after: seq<Action>, s': State, e: Entry,
                                 h: nat, fingerprint: string)
    requires Executes(START, before, s) && AllFound(START, before)
    requires Kept(s, e) && e.key != "" && Executes(s, after, s') && AllFound(s, after)
    requires s'.now < e.expiresAt
    ensures Kept(s', e)
    ensures AnswerTo(s', Request(h, e.key, fingerprint, 0)) == AnswerOf(e, fingerprint)
  {
    RunKeeps(START, before, s);
    KeptUntilExpiry(s, after, s', e, h, fingerprint);
  }

  lemma {:induction false} ClockForward(s: State, actions: seq<Action>, s': State)
    requires Executes(s, actions, s')
    ensures s.now <= s'.now
    decreases |actions|
  {
    if actions != [] { ClockForward(Do(s, actions[0]), actions[1..], s'); }
  }

  lemma ClockStep(s: State, a: Action)
    requires Enabled(s, a)
    ensures s.now <= Do(s, a).now
  {
  }

  // The first request after that starts a new handler.
  lemma ExpiredKeyStarts(actions: seq<Action>, s: State, e: Entry, h: nat, fingerprint: string)
    requires Executes(START, actions, s) && AllFound(START, actions)
    requires e in s.entries && e.expiresAt <= s.now
    ensures AnswerTo(s, Request(h, e.key, fingerprint, 0)) == Start(s.now + 24 * 60 * 60 * 1000)
  {
    RunKeeps(START, actions, s);
    var j :| 0 <= j < |s.entries| && s.entries[j] == e;
    ExpiredIsSwept(s.entries, j, s.now);
  }

  lemma ExpiredIsSwept(entries: seq<Entry>, j: nat, now: nat)
    requires Ordered(entries) && Distinct(entries) && j < |entries| && entries[j].expiresAt <= now
    ensures Find(Swept(entries, now), entries[j].key) == |Swept(entries, now)|
  {
    var k := SweptIsSuffix(entries, now);
    assert j < k;
    forall i | k <= i < |entries|
      ensures entries[i].key != entries[j].key
    {
    }
  }

  // ----- a handler and its own record -----

  predicate IsRecordOf(e: Entry, handler: Handler) { e.key == handler.key && e.expiresAt == handler.expiresAt }

  // Handlers of one key have different records, and the record of a running one
  // is its own and not finished.
  ghost predicate OwnInv(entries: seq<Entry>, running: map<nat, Handler>) {
    && (forall g, h :: g in running && h in running && g != h && running[g].key == running[h].key ==>
          running[g].expiresAt != running[h].expiresAt)
    && (forall h, i :: h in running && 0 <= i < |entries| && IsRecordOf(entries[i], running[h]) ==>
          entries[i].fingerprint == running[h].fingerprint && entries[i].body.None?)
  }

  lemma SweepKeepsOwn(entries: seq<Entry>, running: map<nat, Handler>, now: nat)
    requires OwnInv(entries, running)
    ensures OwnInv(Swept(entries, now), running)
  {
    var k := SweptIsSuffix(entries, now);
  }

  lemma PutNewKeepsOwn(entries: seq<Entry>, running: map<nat, Handler>, h: nat, e: Entry)
    requires OwnInv(entries, running) && Find(entries, e.key) == |entries| && e.body.None?
    requires forall g :: g in running && running[g].key == e.key ==> running[g].expiresAt < e.expiresAt
    ensures OwnInv(Put(entries, e), running[h := Handler(e.key, e.fingerprint, e.expiresAt)])
  {
  }

  lemma OldOnesExpired(entries: seq<Entry>, running: map<nat, Handler>, now: nat, key: string)
    requires HandlersInv(entries, running, now) && Find(entries, key) == |entries|
    ensures forall g :: g in running && running[g].key == key ==> running[g].expiresAt <= now
  {
    forall g | g in running && running[g].key == key
      ensures running[g].expiresAt <= now
    {
      NoRecord(entries, key, running[g].expiresAt);
    }
  }

  lemma RequestKeepsOwn(s: State, a: Action)
    requires Inv(s) && OwnInv(s.entries, s.running) && Enabled(s, a) && a.Request?
    ensures OwnInv(Do(s, a).entries, Do(s, a).running)
  {
    var swept := Swept(s.entries, s.now);
    SweepKeepsOwn(s.entries, s.running, s.now);
    SweepKeepsInv(s.entries, s.running, s.begins, s.now);
    if AnswerTo(s, a).Start? {
      OldOnesExpired(swept, s.running, s.now, a.key);
      PutNewKeepsOwn(swept, s.running, a.h, Entry(a.key, a.fingerprint, s.now + a.lag + KEY_TTL_MS, None));
    }
  }

  lemma FinishKeepsOwn(s: State, a: Action)
    requires Distinct(s.entries) && OwnInv(s.entries, s.running) && Enabled(s, a) && a.Finish? && Found(s, a)
    ensures OwnInv(Do(s, a).entries, Do(s, a).running)
  {
    var handler := s.running[a.h];
    var j :| 0 <= j < |s.entries| && s.entries[j].key == handler.key && s.entries[j].expiresAt == handler.expiresAt;
    assert Find(s.entries, handler.key) == j;
  }

  lemma {:induction false} RunKeepsOwn(s: State, actions: seq<Action>, s': State)
    requires Inv(s) && OwnInv(s.entries, s.running) && Executes(s, actions, s') && AllFound(s, actions)
    ensures OwnInv(s'.entries, s'.running)
    decreases |actions|
  {
    if actions != [] {
      if actions[0].Request? { RequestKeepsOwn(s, actions[0]); }
      if actions[0].Finish? { FinishKeepsOwn(s, actions[0]); }
      StepKeeps(s, actions[0]);
      RunKeepsOwn(Do(s, actions[0]), actions[1..], s');
    }
  }

  lemma OwnRecord(s: State, h: nat)
    requires Inv(s) && OwnInv(s.entries, s.running) && h in s.running && s.now < s.running[h].expiresAt
    ensures var handler := s.running[h]; var e := Entry(handler.key, handler.fingerprint, handler.expiresAt, None);
      e in s.entries && Find(s.entries, e.key) < |s.entries| && s.entries[Find(s.entries, e.key)] == e
  {
    var handler := s.running[h];
    var j :| 0 <= j < |s.entries| && s.entries[j].key == handler.key && s.entries[j].expiresAt == handler.expiresAt;
    assert Find(s.entries, handler.key) == j;
  }

  // The end of a handler, `body` its answer if it has one.
  function Ends(h: nat, body: Option<nat>): Action {
    if body.Some? then Finish(h, body.value) else Error(h)
  }

  lemma EndsKept(s: State, h: nat, body: Option<nat>)
    requires Inv(s) && OwnInv(s.entries, s.running) && h in s.running && s.now < s.running[h].expiresAt
    ensures var handler := s.running[h];
      Kept(Do(s, Ends(h, body)), Entry(handler.key, handler.fingerprint, handler.expiresAt, body))
  {
    OwnRecord(s, h);
    var k := Find(s.entries, s.running[h].key);
    assert Do(s, Ends(h, body)).entries[k] in Do(s, Ends(h, body)).entries;
  }

  // What a client sees. Once the handler of a request has answered in time, the
  // same request gets that answer again for the rest of the 24 hours; once it has
  // failed, 409 for as long; and another body under the key 422 in either case -
  // whatever else is asked meanwhile.
  lemma EndedRequestIsRemembered(before: seq<Action>, s: State, h: nat, body: Option<nat>, after: seq<Action>,
                                 s': State, g: nat, fingerprint: string)
    requires Executes(START, before, s) && AllFound(START, before)
    requires h in s.running && s.now < s.running[h].expiresAt && s.running[h].key != ""
    requires Executes(Do(s, Ends(h, body)), after, s') && AllFound(Do(s, Ends(h, body)), after)
    requires s'.now < s.running[h].expiresAt
    ensures AnswerTo(s', Request(g, s.running[h].key, fingerprint, 0))
      == if fingerprint != s.running[h].fingerprint then KeyReuse
         else if body.Some? then Replay(body.value)
         else InFlight
  {
    RunKeeps(START, before, s);
    RunKeepsOwn(START, before, s);
    var handler := s.running[h];
    EndsKept(s, h, body);
    StepKeeps(s, Ends(h, body));
    KeptUntilExpiry(Do(s, Ends(h, body)), after, s', Entry(handler.key, handler.fingerprint, handler.expiresAt, body),
                    g, fingerprint);
  }

  // And a request while its first is being handled gets 409, or 422 with another body.
  lemma SecondRequestWaits(before: seq<Action>, s: State, h: nat, g: nat, fingerprint: string)
    requires Executes(START, before, s) && AllFound(START, before)
    requires h in s.running && s.now < s.running[h].expiresAt
    ensures AnswerTo(s, Request(g, s.running[h].key, fingerprint, 0))
      == if fingerprint != s.running[h].fingerprint then KeyReuse else InFlight
  {
    RunKeeps(START, before, s);
    RunKeepsOwn(START, before, s);
    OwnRecord(s, h);
    SweepKeepsInv(s.entries, s.running, s.begins, s.now);
    SweepKeepsOwn(s.entries, s.running, s.now);
    OwnRecord(s.(entries := Swept(s.entries, s.now)), h);
  }
}
