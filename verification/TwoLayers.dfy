/**
 * The in-memory layer over the database layer: POST /orders as
 * src/common/idempotency/idempotency.interceptor.ts and src/orders/orders.service.ts
 * answer it together, across expiry and restarts of the process.
 */
module TwoLayers {
  import opened Prelude
  import opened Tables
  import Checkout
  import CheckoutLaws
  import Interceptor
  import Interleaving
  import InterleavingLaws

  // A request past the interceptor; `result` once its checkout has committed or
  // has been answered from the key row.
  datatype Handler = Handler(key: string, fingerprint: string, expiresAt: nat, result: Option<nat>)

  // A 201: the raw header it was for and the order it named.
  datatype Answer = Answer(key: string, order: nat)

  datatype State = State(
    db: Db,
    next: Ids,
    entries: seq<Interceptor.Entry>,
    running: map<nat, Handler>,
    now: nat,
    answers: seq<Answer>)

  datatype Action =
    | Pass(ms: nat)
    | Request(h: nat, key: string, fingerprint: string, lag: nat)
    | Work(h: nat, input: Input)
    | Anonymous(input: Input)
    | Finish(h: nat)
    | Lose(h: nat)
    | SkipIds(next: Ids)
    | Restart

  // `keyOf` is what the service makes of a header: trimmed, none when blank.
  predicate Enabled(keyOf: string -> Option<string>, s: State, a: Action) {
    match a
    case Pass(ms) => true
    case Request(h, key, fingerprint, lag) => h !in s.running && key != ""
    case Work(h, input) => h in s.running && s.running[h].result.None? && input.key == keyOf(s.running[h].key)
    case Anonymous(input) => input.key.None?
    case Finish(h) => h in s.running && s.running[h].result.Some?
    case Lose(h) => h in s.running
    // sequences never go back
    case SkipIds(next) => next.order >= s.next.order && next.job >= s.next.job && next.outbox >= s.next.outbox
    case Restart => true
  }

  function Advanced(next: Ids, out: Checkout.Outcome): Ids {
    if out.Created? then Ids(next.order + 1, next.job + 1, next.outbox + 1) else next
  }

  function Lookup(s: State, a: Action): Interceptor.Answer
    requires a.Request?
  {
    Interceptor.Lookup(Interceptor.Swept(s.entries, s.now), a.key, a.fingerprint, s.now + a.lag)
  }

  function DoRequest(s: State, a: Action): State
    requires a.Request?
  {
    var answer := Lookup(s, a);
    var swept := Interceptor.Swept(s.entries, s.now);
    var s' := s.(entries := Interceptor.Began(swept, a.key, a.fingerprint, answer), now := s.now + a.lag);
    if answer.Start? then s'.(running := s.running[a.h := Handler(a.key, a.fingerprint, answer.expiresAt, None)])
    else if answer.Replay? then s'.(answers := s.answers + [Answer(a.key, answer.body)])
    else s'
  }

  function DoWork(s: State, h: nat, input: Input): State
    requires h in s.running
  {
    var r := Checkout.Run(s.db, input, s.next);
    var s' := s.(db := r.db, next := Advanced(s.next, r.out));
    if r.out.Created? || r.out.Replayed? then s'.(running := s.running[h := s.running[h].(result := Some(r.out.order))])
    else s'.(running := s.running - {h})
  }

  function DoFinish(s: State, h: nat): State
    requires h in s.running && s.running[h].result.Some?
  {
    var handler := s.running[h];
    var finished := Interceptor.Entry(handler.key, handler.fingerprint, handler.expiresAt, handler.result);
    s.(entries := Interceptor.Put(s.entries, finished),
       running := s.running - {h},
       answers := s.answers + [Answer(handler.key, handler.result.value)])
  }

  function Do(keyOf: string -> Option<string>, s: State, a: Action): State
    requires Enabled(keyOf, s, a)
  {
    match a
    case Pass(ms) => s.(now := s.now + ms)
    case Request(h, key, fingerprint, lag) => DoRequest(s, a)
    case Work(h, input) => DoWork(s, h, input)
    case Anonymous(input) =>
      var r := Checkout.Run(s.db, input, s.next);
      s.(db := r.db, next := Advanced(s.next, r.out))
    case Finish(h) => DoFinish(s, h)
    case Lose(h) => s.(running := s.running - {h})
    case SkipIds(next) => s.(next := next)
    case Restart => s.(entries := [], running := map[])
  }

  ghost predicate Executes(keyOf: string -> Option<string>, s: State, actions: seq<Action>, s': State)
    decreases |actions|
  {
    if actions == [] then s' == s
    else Enabled(keyOf, s, actions[0]) && Executes(keyOf, Do(keyOf, s, actions[0]), actions[1..], s')
  }

  // ----- the map that never forgets -----

  type Keys = map<string, KeyRow>

  // The key, if the database remembers it at all, names this order.
  predicate Names(keyOf: string -> Option<string>, keys: Keys, key: string, order: nat) {
    keyOf(key).Some? ==> keyOf(key).value in keys && keys[keyOf(key).value].orderId == Some(order)
  }

  ghost predicate EntriesInv(keyOf: string -> Option<string>, keys: Keys, entries: seq<Interceptor.Entry>) {
    forall i :: 0 <= i < |entries| && entries[i].body.Some? ==>
      Names(keyOf, keys, entries[i].key, entries[i].body.value)
  }

  ghost predicate RunningInv(keyOf: string -> Option<string>, keys: Keys, running: map<nat, Handler>) {
    forall h :: h in running && running[h].result.Some? ==> Names(keyOf, keys, running[h].key, running[h].result.value)
  }

  ghost predicate AnswersInv(keyOf: string -> Option<string>, keys: Keys, answers: seq<Answer>) {
    forall i :: 0 <= i < |answers| ==> Names(keyOf, keys, answers[i].key, answers[i].order)
  }

  ghost predicate Inv(keyOf: string -> Option<string>, s: State) {
    && InterleavingLaws.KeysBound(s.db)
    && EntriesInv(keyOf, s.db.keys, s.entries)
    && RunningInv(keyOf, s.db.keys, s.running)
    && AnswersInv(keyOf, s.db.keys, s.answers)
  }

  // Key rows are only ever added.
  ghost predicate Grown(keys: Keys, keys': Keys) {
    forall k :: k in keys ==> k in keys' && keys'[k] == keys[k]
  }

  lemma GrownKeeps(keyOf: string -> Option<string>, keys: Keys, keys': Keys, entries: seq<Interceptor.Entry>,
                   running: map<nat, Handler>, answers: seq<Answer>)
    requires Grown(keys, keys')
    requires EntriesInv(keyOf, keys, entries) && RunningInv(keyOf, keys, running) && AnswersInv(keyOf, keys, answers)
    ensures EntriesInv(keyOf, keys', entries) && RunningInv(keyOf, keys', running) && AnswersInv(keyOf, keys', answers)
  {
    forall i | 0 <= i < |entries| && entries[i].body.Some?
      ensures Names(keyOf, keys', entries[i].key, entries[i].body.value)
    {
      assert Names(keyOf, keys, entries[i].key, entries[i].body.value);
    }
    forall h | h in running && running[h].result.Some?
      ensures Names(keyOf, keys', running[h].key, running[h].result.value)
    {
      assert Names(keyOf, keys, running[h].key, running[h].result.value);
    }
    forall i | 0 <= i < |answers|
      ensures Names(keyOf, keys', answers[i].key, answers[i].order)
    {
      assert Names(keyOf, keys, answers[i].key, answers[i].order);
    }
  }

  // What one checkout does to the key rows, and what its 201 says.
  lemma CheckoutNames(db: Db, input: Input, next: Ids)
    requires InterleavingLaws.KeysBound(db)
    ensures var r := Checkout.Run(db, input, next);
      && InterleavingLaws.KeysBound(r.db) && Grown(db.keys, r.db.keys)
      && r.out != Checkout.KeyInFlight
      && ((r.out.Created? || r.out.Replayed?) && input.key.Some? ==>
            input.key.value in r.db.keys && r.db.keys[input.key.value].orderId == Some(r.out.order))
  {
    var r := Checkout.Run(db, input, next);
    if r.out.Created? {
      InterleavingLaws.SaleBindsKey(db, input, next);
    } else {
      InterleavingLaws.StoppedAnswer(db, input, next);
      assert InterleavingLaws.Named(db, Interleaving.Entry(input, next, r.out));
      if Checkout.ValidInput(input) { Checkout.AbortedLeavesNoTrace(db, input, next, Checkout.NOTHING, 0); }
    }
  }

  lemma SweepKeepsEntries(keyOf: string -> Option<string>, keys: Keys, entries: seq<Interceptor.Entry>, now: nat)
    requires EntriesInv(keyOf, keys, entries)
    ensures EntriesInv(keyOf, keys, Interceptor.Swept(entries, now))
  {
    var k := Interceptor.SweptIsSuffix(entries, now);
  }

  lemma PutKeepsEntries(keyOf: string -> Option<string>, keys: Keys, entries: seq<Interceptor.Entry>,
                        e: Interceptor.Entry)
    requires EntriesInv(keyOf, keys, entries) && (e.body.Some? ==> Names(keyOf, keys, e.key, e.body.value))
    ensures EntriesInv(keyOf, keys, Interceptor.Put(entries, e))
  {
  }

  lemma RequestKeeps(keyOf: string -> Option<string>, s: State, a: Action)
    requires Inv(keyOf, s) && Enabled(keyOf, s, a) && a.Request?
    ensures Inv(keyOf, DoRequest(s, a))
  {
    var swept := Interceptor.Swept(s.entries, s.now);
    SweepKeepsEntries(keyOf, s.db.keys, s.entries, s.now);
    var answer := Lookup(s, a);
    if answer.Start? {
      PutKeepsEntries(keyOf, s.db.keys, swept, Interceptor.Entry(a.key, a.fingerprint, answer.expiresAt, None));
    } else if answer.Replay? {
      var i := Interceptor.Find(swept, a.key);
      assert swept[i].body == Some(answer.body);
    }
  }

  lemma WorkKeeps(keyOf: string -> Option<string>, s: State, h: nat, input: Input)
    requires Inv(keyOf, s) && Enabled(keyOf, s, Work(h, input))
    ensures Inv(keyOf, DoWork(s, h, input))
  {
    CheckoutNames(s.db, input, s.next);
    GrownKeeps(keyOf, s.db.keys, Checkout.Run(s.db, input, s.next).db.keys, s.entries, s.running, s.answers);
  }

  lemma FinishKeeps(keyOf: string -> Option<string>, s: State, h: nat)
    requires Inv(keyOf, s) && Enabled(keyOf, s, Finish(h))
    ensures Inv(keyOf, DoFinish(s, h))
  {
    var handler := s.running[h];
    assert Names(keyOf, s.db.keys, handler.key, handler.result.value);
    PutKeepsEntries(keyOf, s.db.keys, s.entries,
                    Interceptor.Entry(handler.key, handler.fingerprint, handler.expiresAt, handler.result));
  }

  lemma StepKeeps(keyOf: string -> Option<string>, s: State, a: Action)
    requires Inv(keyOf, s) && Enabled(keyOf, s, a)
    ensures Inv(keyOf, Do(keyOf, s, a))
    ensures Grown(s.db.keys, Do(keyOf, s, a).db.keys)
  {
    if a.Request? {
      RequestKeeps(keyOf, s, a);
    } else if a.Work? {
      WorkKeeps(keyOf, s, a.h, a.input);
      CheckoutNames(s.db, a.input, s.next);
    } else if a.Anonymous? {
      CheckoutNames(s.db, a.input, s.next);
      GrownKeeps(keyOf, s.db.keys, Checkout.Run(s.db, a.input, s.next).db.keys, s.entries, s.running, s.answers);
    } else if a.Finish? {
      FinishKeeps(keyOf, s, a.h);
    }
  }

  lemma {:induction false} RunKeeps(keyOf: string -> Option<string>, s: State, actions: seq<Action>, s': State)
    requires Inv(keyOf, s) && Executes(keyOf, s, actions, s')
    ensures Inv(keyOf, s') && Grown(s.db.keys, s'.db.keys)
    decreases |actions|
  {
    if actions != [] {
      StepKeeps(keyOf, s, actions[0]);
      RunKeeps(keyOf, Do(keyOf, s, actions[0]), actions[1..], s');
    }
  }

  // Over every run - expiry, restarts, handlers that fail or answer late - any two
  // 201 answers whose headers come to the same key name the same order, whichever
  // layer gave them; and that is the order of the key's row.
  lemma SameKeySameOrder(keyOf: string -> Option<string>, s0: State, actions: seq<Action>, s: State, i: nat, j: nat)
    requires InterleavingLaws.KeysBound(s0.db) && s0.entries == [] && s0.running == map[] && s0.answers == []
    requires Executes(keyOf, s0, actions, s)
    requires i < |s.answers| && j < |s.answers|
    requires keyOf(s.answers[i].key).Some? && keyOf(s.answers[i].key) == keyOf(s.answers[j].key)
    ensures s.answers[i].order == s.answers[j].order
    ensures var key := keyOf(s.answers[i].key).value;
      key in s.db.keys && s.db.keys[key].orderId == Some(s.answers[i].order)
  {
    RunKeeps(keyOf, s0, actions, s);
    assert Names(keyOf, s.db.keys, s.answers[i].key, s.answers[i].order);
    assert Names(keyOf, s.db.keys, s.answers[j].key, s.answers[j].order);
  }

  // What src/orders/orders.service.ts makes of a header.
  const SERVICE_KEY: string -> Option<string> := (key: string) => KeyOf(Some(key))

  // In particular for keys that are the same once trimmed, and not blank.
  lemma SameTrimmedKeySameOrder(s0: State, actions: seq<Action>, s: State, i: nat, j: nat)
    requires InterleavingLaws.KeysBound(s0.db) && s0.entries == [] && s0.running == map[] && s0.answers == []
    requires Executes(SERVICE_KEY, s0, actions, s) && i < |s.answers| && j < |s.answers|
    requires Trim(s.answers[i].key) == Trim(s.answers[j].key) != ""
    ensures s.answers[i].order == s.answers[j].order
  {
    SameKeySameOrder(SERVICE_KEY, s0, actions, s, i, j);
  }

  // In every reachable state every key row has its order, so no checkout ever
  // takes the "in flight" branch.
  lemma InFlightUnreachable(keyOf: string -> Option<string>, s0: State, actions: seq<Action>, s: State, input: Input,
                            next: Ids)
    requires InterleavingLaws.KeysBound(s0.db) && s0.entries == [] && s0.running == map[] && s0.answers == []
    requires Executes(keyOf, s0, actions, s)
    ensures forall k :: k in s.db.keys ==> s.db.keys[k].orderId.Some?
    ensures Checkout.Run(s.db, input, next).out != Checkout.KeyInFlight
  {
    RunKeeps(keyOf, s0, actions, s);
    CheckoutNames(s.db, input, next);
  }

  // ----- blank keys -----

  // A key that trims to nothing is remembered by the interceptor only: whenever
  // a second checkout can succeed, a restart in between yields two orders for it.
  lemma BlankKeyNamesTwoOrders(keyOf: string -> Option<string>, s: State, key: string, f: string, first: Input,
                               second: Input)
    returns (s': State)
    requires keyOf(key).None? && key != "" && first.key.None? && second.key.None?
    requires s.entries == [] && s.running == map[] && s.answers == []
    requires Checkout.Run(s.db, first, s.next).out.Created?
    requires var db := Checkout.Run(s.db, first, s.next).db;
      Checkout.Run(db, second, Advanced(s.next, Checkout.Created(0))).out.Created?
    ensures Executes(keyOf, s, Served(key, f, first) + Served(key, f, second), s')
    ensures s'.answers == [Answer(key, s.next.order), Answer(key, s.next.order + 1)]
  {
    var s1 := OneOrder(keyOf, s, key, f, first);
    s' := OneOrder(keyOf, s1, key, f, second);
    ExecutesAppend(keyOf, s, Served(key, f, first), s1, Served(key, f, second), s');
  }

  // One request served to the end, then the process restarts.
  function Served(key: string, f: string, input: Input): seq<Action> {
    [Request(0, key, f, 0), Work(0, input), Finish(0), Restart]
  }

  lemma FourSteps(keyOf: string -> Option<string>, s: State, all: seq<Action>, s1: State, s2: State, s3: State,
                  s4: State)
    requires |all| == 4
    requires Enabled(keyOf, s, all[0]) && s1 == Do(keyOf, s, all[0])
    requires Enabled(keyOf, s1, all[1]) && s2 == Do(keyOf, s1, all[1])
    requires Enabled(keyOf, s2, all[2]) && s3 == Do(keyOf, s2, all[2])
    requires Enabled(keyOf, s3, all[3]) && s4 == Do(keyOf, s3, all[3])
    ensures Executes(keyOf, s, all, s4)
  {
    assert Executes(keyOf, s4, all[1..][1..][1..][1..], s4);
    assert Executes(keyOf, s3, all[1..][1..][1..], s4);
    assert Executes(keyOf, s2, all[1..][1..], s4);
    assert Executes(keyOf, s1, all[1..], s4);
  }

  lemma OneOrder(keyOf: string -> Option<string>, s: State, key: string, f: string, input: Input) returns (s4: State)
    requires keyOf(key).None? && key != "" && input.key.None?
    requires s.entries == [] && s.running == map[] && Checkout.Run(s.db, input, s.next).out.Created?
    ensures Executes(keyOf, s, Served(key, f, input), s4)
    ensures s4.entries == [] && s4.running == map[] && s4.answers == s.answers + [Answer(key, s.next.order)]
    ensures s4.db == Checkout.Run(s.db, input, s.next).db && s4.next == Advanced(s.next, Checkout.Created(0))
  {
    if Checkout.ValidInput(input) { Checkout.AbortedLeavesNoTrace(s.db, input, s.next, Checkout.NOTHING, 0); }
    var all := Served(key, f, input);
    assert Interceptor.Swept([], s.now) == [];
    var s1 := Do(keyOf, s, all[0]);
    var s2 := Do(keyOf, s1, all[1]);
    var s3 := Do(keyOf, s2, all[2]);
    s4 := Do(keyOf, s3, all[3]);
    FourSteps(keyOf, s, all, s1, s2, s3, s4);
  }

  lemma {:induction false} ExecutesAppend(keyOf: string -> Option<string>, s: State, a: seq<Action>, s1: State,
                                          b: seq<Action>, s2: State)
    requires Executes(keyOf, s, a, s1) && Executes(keyOf, s1, b, s2)
    ensures Executes(keyOf, s, a + b, s2)
    decreases |a|
  {
    if a == [] {
      assert a + b == b;
    } else {
      ExecutesAppend(keyOf, Do(keyOf, s, a[0]), a[1..], s1, b, s2);
      assert (a + b)[1..] == a[1..] + b;
    }
  }

  // ----- retries -----

  // A repeat in time is answered from memory: the database keeps its one order.
  lemma RepeatedInTime(keyOf: string -> Option<string>, s: State, key: string, f: string, input: Input)
    returns (s': State)
    requires key != "" && input.key == keyOf(key) && s.entries == [] && s.running == map[]
    requires Checkout.Run(s.db, input, s.next).out.Created?
    ensures Executes(keyOf, s, [Request(0, key, f, 0), Work(0, input), Finish(0), Request(1, key, f, 0)], s')
    ensures s'.db == Checkout.Run(s.db, input, s.next).db && s'.running == map[]
    ensures exists o :: s'.answers == s.answers + [Answer(key, o), Answer(key, o)] && o == s.next.order
  {
    CheckoutLaws.RunMeansVerdict(s.db, input, s.next);
    var all := [Request(0, key, f, 0), Work(0, input), Finish(0), Request(1, key, f, 0)];
    assert Interceptor.Swept([], s.now) == [];
    var s1 := Do(keyOf, s, all[0]);
    var s2 := Do(keyOf, s1, all[1]);
    var s3 := Do(keyOf, s2, all[2]);
    var kept := Interceptor.Entry(key, f, s.now + Interceptor.KEY_TTL_MS, Some(s.next.order));
    assert s3.entries == [kept] && Interceptor.Swept([kept], s.now) == [kept];
    s' := Do(keyOf, s3, all[3]);
    FourSteps(keyOf, s, all, s1, s2, s3, s');
    assert s'.answers == s.answers + [Answer(key, s.next.order), Answer(key, s.next.order)];
  }

  // And after a restart, from the key's row: in every reachable state, repeating the
  // request of any earlier 201 gets its order again and leaves the tables alone.
  lemma RepeatedAfterRestart(keyOf: string -> Option<string>, s0: State, actions: seq<Action>, s: State, i: nat,
                             f: string, input: Input)
    returns (s': State)
    requires InterleavingLaws.KeysBound(s0.db) && s0.entries == [] && s0.running == map[] && s0.answers == []
    requires Executes(keyOf, s0, actions, s) && i < |s.answers| && s.answers[i].key != ""
    requires keyOf(s.answers[i].key).Some? && input.key == keyOf(s.answers[i].key) && Checkout.ValidInput(input)
    requires input.key.value in s.db.keys && s.db.keys[input.key.value].fingerprint == input.fingerprint
    ensures Executes(keyOf, s, [Restart, Request(0, s.answers[i].key, f, 0), Work(0, input), Finish(0)], s')
    ensures s'.answers == s.answers + [s.answers[i]] && s'.db == s.db
  {
    RunKeeps(keyOf, s0, actions, s);
    assert Names(keyOf, s.db.keys, s.answers[i].key, s.answers[i].order);
    CheckoutLaws.RunMeansVerdict(s.db, input, s.next);
    var all := [Restart, Request(0, s.answers[i].key, f, 0), Work(0, input), Finish(0)];
    assert Interceptor.Swept([], s.now) == [];
    var s1 := Do(keyOf, s, all[0]);
    var s2 := Do(keyOf, s1, all[1]);
    var s3 := Do(keyOf, s2, all[2]);
    s' := Do(keyOf, s3, all[3]);
    FourSteps(keyOf, s, all, s1, s2, s3, s');
  }

  // A request whose handler is lost holds its key for the rest of the 24 hours, and
  // no longer: then the same request starts a handler again.
  lemma LostKeyComesBack(keyOf: string -> Option<string>, s: State, key: string, f: string) returns (s': State)
    requires key != "" && s.entries == [] && s.running == map[]
    ensures var request := Request(0, key, f, 0);
      Executes(keyOf, s, [request] + [Lose(0), request, Pass(Interceptor.KEY_TTL_MS), request], s')
    ensures s'.db == s.db && s'.answers == s.answers
    ensures s'.running == map[0 := Handler(key, f, s.now + 2 * Interceptor.KEY_TTL_MS, None)]
  {
    var request, ttl := Request(0, key, f, 0), Interceptor.KEY_TTL_MS;
    var held := Interceptor.Entry(key, f, s.now + ttl, None);
    assert Interceptor.Swept([], s.now) == [] && Interceptor.Swept([held], s.now) == [held];
    assert [held][1..] == [] && Interceptor.Swept([held], s.now + ttl) == [];
    var s1 := Do(keyOf, s, request);
    assert s1.entries == [held];
    var s2 := Do(keyOf, s1, Lose(0));
    var s3 := Do(keyOf, s2, request);
    assert s3.entries == [held] && s3.running == map[];
    var s4 := Do(keyOf, s3, Pass(ttl));
    s' := Do(keyOf, s4, request);
    FourSteps(keyOf, s1, [Lose(0), request, Pass(ttl), request], s2, s3, s4, s');
    assert ([request] + [Lose(0), request, Pass(ttl), request])[1..] == [Lose(0), request, Pass(ttl), request];
  }

  // ----- every sale makes one order -----

  // Checkouts of a run that the serial specification grants.
  ghost function Sales(keyOf: string -> Option<string>, s: State, actions: seq<Action>): nat
    decreases |actions|
  {
    if actions == [] || !Enabled(keyOf, s, actions[0]) then 0
    else (if Sells(s, actions[0]) then 1 else 0) + Sales(keyOf, Do(keyOf, s, actions[0]), actions[1..])
  }

  predicate Sells(s: State, a: Action) {
    (a.Work? || a.Anonymous?) && CheckoutLaws.Verdict(s.db, a.input, s.next).Created?
  }

  ghost predicate OrdersBelow(s: State) {
    forall o :: o in s.db.orders ==> o < s.next.order
  }

  lemma SaleAddsOrder(s: State, input: Input)
    requires OrdersBelow(s)
    ensures var r := Checkout.Run(s.db, input, s.next);
      && r.out == CheckoutLaws.Verdict(s.db, input, s.next)
      && |r.db.orders| == |s.db.orders| + (if r.out.Created? then 1 else 0)
      && OrdersBelow(s.(db := r.db, next := Advanced(s.next, r.out)))
  {
    CheckoutLaws.RunMeansVerdict(s.db, input, s.next);
    var orders' := Checkout.Run(s.db, input, s.next).db.orders;
    if Checkout.Run(s.db, input, s.next).out.Created? {
      assert orders'.Keys == s.db.orders.Keys + {s.next.order};
      assert |orders'| == |orders'.Keys| && |s.db.orders| == |s.db.orders.Keys|;
    }
  }

  lemma StepSales(keyOf: string -> Option<string>, s: State, a: Action)
    requires OrdersBelow(s) && Enabled(keyOf, s, a)
    ensures var s' := Do(keyOf, s, a);
      OrdersBelow(s') && |s'.db.orders| == |s.db.orders| + if Sells(s, a) then 1 else 0
  {
    if a.Work? || a.Anonymous? { SaleAddsOrder(s, a.input); }
  }

  // In every run there are as many new orders as checkouts the serial specification
  // grants - through the interceptor or without a key - whatever is replayed, lost
  // or restarted in between.
  lemma {:induction false} OrdersAreSales(keyOf: string -> Option<string>, s: State, actions: seq<Action>, s': State)
    requires OrdersBelow(s) && Executes(keyOf, s, actions, s')
    ensures OrdersBelow(s') && |s'.db.orders| == |s.db.orders| + Sales(keyOf, s, actions)
    decreases |actions|
  {
    if actions != [] {
      StepSales(keyOf, s, actions[0]);
      OrdersAreSales(keyOf, Do(keyOf, s, actions[0]), actions[1..], s');
    }
  }
}
