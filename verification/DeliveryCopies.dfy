/** No message appears or disappears inside the broker: a conservation law over every run. */
module DeliveryCopies {
  import opened Prelude
  import opened Numbers
  import opened Tables
  import opened Delivery
  import opened DeliveryLaws
  import Json
  import Contract
  import Inbox

  // ----- counting copies of a body -----

  ghost function HeldBy(consumers: map<nat, Consumer>, body: Json.Json): map<nat, int> {
    map c | c in consumers :: consumers[c].unacked[body] as int
  }

  ghost function Unsettled(consumers: map<nat, Consumer>, body: Json.Json): int { Sum(HeldBy(consumers, body)) }

  // Copies queued, with consumers, and dead-lettered.
  ghost function Copies(b: Broker, body: Json.Json): int {
    b.ready[body] + b.dead[body] + Unsettled(b.consumers, body)
  }

  lemma UnsettledSet(consumers: map<nat, Consumer>, c: nat, consumer: Consumer, body: Json.Json)
    ensures Unsettled(consumers[c := consumer], body)
      == Unsettled(consumers, body) + consumer.unacked[body]
       - (if c in consumers then consumers[c].unacked[body] else 0)
  {
    assert HeldBy(consumers[c := consumer], body) == HeldBy(consumers, body)[c := consumer.unacked[body]];
    SumSet(HeldBy(consumers, body), c, consumer.unacked[body]);
  }

  lemma UnsettledRemove(consumers: map<nat, Consumer>, c: nat, body: Json.Json)
    requires c in consumers
    ensures Unsettled(consumers - {c}, body) == Unsettled(consumers, body) - consumers[c].unacked[body]
  {
    assert HeldBy(consumers - {c}, body) == HeldBy(consumers, body) - {c};
    SumRemove(HeldBy(consumers, body), c);
  }

  // ----- what enters and what leaves -----

  // The message a step hands to the broker.
  ghost function Entering(codec: Codec, s: System, a: Action): Option<Json.Json>
    requires Enabled(codec, s, a)
  {
    match a
    case Publish(r) => Some(codec.render(codec.parse(s.relays[r].todo[0].body).event))
    case Garbage(body) => Some(body)
    case _ => None
  }

  // The message a step takes out of it: only an ack does.
  ghost function Leaving(codec: Codec, s: System, a: Action): Option<Json.Json>
    requires Enabled(codec, s, a)
  {
    if a.Ack? then s.broker.consumers[a.c].applied else None
  }

  function One(message: Option<Json.Json>, body: Json.Json): int { if message == Some(body) then 1 else 0 }

  predicate ConsumerStep(a: Action) { a.Deliver? || a.Apply? || a.Ack? || a.Reject? || a.Nack? || a.Close? }

  lemma SettleCopies(b: Broker, c: nat, body: Json.Json, x: Json.Json)
    requires c in b.consumers && body in b.consumers[c].unacked
    ensures Copies(Settle(b, c, body), x) == Copies(b, x) - (if x == body then 1 else 0)
  {
    UnsettledSet(b.consumers, c, Consumer(b.consumers[c].unacked - multiset{body}, None), x);
  }

  lemma DeliverCopies(b: Broker, c: nat, body: Json.Json, x: Json.Json)
    requires body in b.ready
    ensures Copies(DeliverTo(b, c, body), x) == Copies(b, x)
  {
    UnsettledSet(b.consumers, c, DeliverTo(b, c, body).consumers[c], x);
  }

  lemma ApplyCopies(b: Broker, c: nat, body: Json.Json, x: Json.Json)
    requires c in b.consumers
    ensures Copies(SetConsumer(b, c, b.consumers[c].(applied := Some(body))), x) == Copies(b, x)
  {
    UnsettledSet(b.consumers, c, b.consumers[c].(applied := Some(body)), x);
  }

  lemma CloseCopies(b: Broker, c: nat, x: Json.Json)
    requires c in b.consumers
    ensures Copies(AddReady(b.(consumers := b.consumers - {c}), b.consumers[c].unacked), x) == Copies(b, x)
  {
    UnsettledRemove(b.consumers, c, x);
  }

  lemma ConsumerStepCopies(codec: Codec, s: System, a: Action, x: Json.Json)
    requires Enabled(codec, s, a) && ConsumersInv(codec, s.broker, s.inbox.marks)
    requires ConsumerStep(a)
    ensures Copies(Do(codec, s, a).broker, x) == Copies(s.broker, x) - One(Leaving(codec, s, a), x)
  {
    match a
    case Deliver(c, body) => DeliverCopies(s.broker, c, body, x);
    case Apply(c, body) => ApplyCopies(s.broker, c, body, x);
    case Ack(c) =>
      assert ConsumerOk(codec, s.broker.consumers[c], s.inbox.marks);
      SettleCopies(s.broker, c, s.broker.consumers[c].applied.value, x);
    case Reject(c, body) => SettleCopies(s.broker, c, body, x);
    case Nack(c, body) => SettleCopies(s.broker, c, body, x);
    case Close(c) => CloseCopies(s.broker, c, x);
  }

  lemma StepConserves(codec: Codec, s: System, a: Action, x: Json.Json)
    requires Enabled(codec, s, a) && ConsumersInv(codec, s.broker, s.inbox.marks)
    ensures Copies(Do(codec, s, a).broker, x)
      == Copies(s.broker, x) + One(Entering(codec, s, a), x) - One(Leaving(codec, s, a), x)
  {
    if ConsumerStep(a) {
      ConsumerStepCopies(codec, s, a, x);
    }
  }

  // ----- over a run -----

  ghost function Entered(codec: Codec, s: System, actions: seq<Action>, x: Json.Json): int
    decreases |actions|
  {
    if actions == [] || !Enabled(codec, s, actions[0]) then 0
    else One(Entering(codec, s, actions[0]), x) + Entered(codec, Do(codec, s, actions[0]), actions[1..], x)
  }

  ghost function Left(codec: Codec, s: System, actions: seq<Action>, x: Json.Json): int
    decreases |actions|
  {
    if actions == [] || !Enabled(codec, s, actions[0]) then 0
    else One(Leaving(codec, s, actions[0]), x) + Left(codec, Do(codec, s, actions[0]), actions[1..], x)
  }

  lemma {:induction false} RunConserves(codec: Codec, s: System, actions: seq<Action>, s': System, x: Json.Json)
    requires Faithful(codec) && Inv(codec, s) && NamedInv(s.hist.placed) && Executes(codec, s, actions, s')
    requires ExactIds(s'.hist.placed)
    ensures Copies(s'.broker, x) == Copies(s.broker, x) + Entered(codec, s, actions, x) - Left(codec, s, actions, x)
    decreases |actions|
  {
    if actions != [] {
      OrdersStay(codec, Do(codec, s, actions[0]), actions[1..], s');
      StepKeeps(codec, s, actions[0]);
      StepConserves(codec, s, actions[0], x);
      RunConserves(codec, Do(codec, s, actions[0]), actions[1..], s', x);
    }
  }

  // In every run, for every message body: copies published (or put in by others)
  // are copies acked plus copies queued, with consumers or dead-lettered. Nothing
  // but an ack takes a message away, however many channels close in between.
  lemma MessagesConserved(codec: Codec, s0: System, actions: seq<Action>, s: System, x: Json.Json)
    requires Faithful(codec) && Initial(s0) && Executes(codec, s0, actions, s) && ExactIds(s.hist.placed)
    ensures Entered(codec, s0, actions, x) == Left(codec, s0, actions, x) + Copies(s.broker, x)
  {
    InitialInv(codec, s0);
    RunConserves(codec, s0, actions, s, x);
    assert HeldBy(map[], x) == map[];
  }

  // And an ack only goes out for a message whose event has been applied.
  lemma AckedIsApplied(codec: Codec, s0: System, actions: seq<Action>, s: System, a: Action)
    requires Faithful(codec) && Initial(s0) && Executes(codec, s0, actions, s) && ExactIds(s.hist.placed)
    requires Enabled(codec, s, a) && Leaving(codec, s, a).Some?
    ensures codec.parse(Leaving(codec, s, a).value).Ok?
    ensures codec.parse(Leaving(codec, s, a).value).event.eventId in s.inbox.marks
  {
    InitialInv(codec, s0);
    RunKeeps(codec, s0, actions, s);
    assert ConsumerOk(codec, s.broker.consumers[a.c], s.inbox.marks);
  }

  // ----- a message once delivered -----

  lemma CopiesInBroker(b: Broker, x: Json.Json)
    ensures Copies(b, x) > 0 <==> InBroker(b, x)
  {
    UnsettledPositive(b.consumers, x);
    if c :| c in b.consumers && x in b.consumers[c].unacked {
      UnsettledRemove(b.consumers, c, x);
      UnsettledPositive(b.consumers - {c}, x);
    } else {
      SumConstant(HeldBy(b.consumers, x), 0);
    }
  }

  // In the broker, or its event applied.
  ghost predicate Settled(codec: Codec, s: System, x: Json.Json)
    requires codec.parse(x).Ok?
  {
    InBroker(s.broker, x) || codec.parse(x).event.eventId in s.inbox.marks
  }

  lemma StepStaysSettled(codec: Codec, s: System, a: Action, x: Json.Json)
    requires Enabled(codec, s, a) && ConsumersInv(codec, s.broker, s.inbox.marks)
    requires codec.parse(x).Ok? && Settled(codec, s, x)
    ensures Settled(codec, Do(codec, s, a), x)
  {
    MarksStay(codec, s, a);
    if InBroker(s.broker, x) {
      CopiesInBroker(s.broker, x);
      CopiesInBroker(Do(codec, s, a).broker, x);
      StepConserves(codec, s, a, x);
      if Leaving(codec, s, a) == Some(x) { assert ConsumerOk(codec, s.broker.consumers[a.c], s.inbox.marks); }
    }
  }

  lemma MarksStay(codec: Codec, s: System, a: Action)
    requires Enabled(codec, s, a)
    ensures forall m :: m in s.inbox.marks ==> m in Do(codec, s, a).inbox.marks
  {
  }

  lemma {:induction false} RunStaysSettled(codec: Codec, s: System, actions: seq<Action>, s': System, x: Json.Json)
    requires Faithful(codec) && Inv(codec, s) && NamedInv(s.hist.placed) && Executes(codec, s, actions, s')
    requires ExactIds(s'.hist.placed) && codec.parse(x).Ok? && Settled(codec, s, x)
    ensures Settled(codec, s', x)
    decreases |actions|
  {
    if actions != [] {
      OrdersStay(codec, Do(codec, s, actions[0]), actions[1..], s');
      StepKeeps(codec, s, actions[0]);
      StepStaysSettled(codec, s, actions[0], x);
      RunStaysSettled(codec, Do(codec, s, actions[0]), actions[1..], s', x);
    }
  }

  // A handler may take any time over a message it was given, past the closing of
  // its channel and the message's redelivery: in every later state the commit is a
  // step of the machine.
  lemma LateApplyIsAStep(codec: Codec, s0: System, before: seq<Action>, s: System, after: seq<Action>, s': System,
                         body: Json.Json)
    requires Faithful(codec) && Initial(s0) && Executes(codec, s0, before, s) && Executes(codec, s, after, s')
    requires ExactIds(s'.hist.placed) && body in s.broker.ready && codec.parse(body).Ok?
    ensures Enabled(codec, s', ApplyLate(body))
  {
    InitialInv(codec, s0);
    ExactEarlier(codec, s, after, s');
    RunKeeps(codec, s0, before, s);
    RunStaysSettled(codec, s, after, s', body);
  }

  lemma ExactEarlier(codec: Codec, s: System, after: seq<Action>, s': System)
    requires Executes(codec, s, after, s') && ExactIds(s'.hist.placed)
    ensures ExactIds(s.hist.placed)
  {
    OrdersStay(codec, s, after, s');
  }

  // ----- where a message goes -----

  // Steps that put a copy of x on the dead-letter queue.
  function DeadLettering(a: Action, x: Json.Json): int {
    if (a.Reject? || a.DeadLetter?) && a.body == x then 1 else 0
  }

  // Copies of x that go back to the queue: a nacked one, and all that a closing
  // channel still held.
  ghost function Returning(s: System, a: Action, x: Json.Json): int {
    if a.Nack? && a.body == x then 1
    else if a.Close? && a.c in s.broker.consumers then s.broker.consumers[a.c].unacked[x]
    else 0
  }

  // Copies of x that leave the queue for a consumer or for the dead letters.
  function Taking(a: Action, x: Json.Json): int {
    if (a.Deliver? || a.DeadLetter?) && a.body == x then 1 else 0
  }

  lemma ConsumerStepDead(codec: Codec, s: System, a: Action, x: Json.Json)
    requires Enabled(codec, s, a) && ConsumerStep(a)
    ensures Do(codec, s, a).broker.dead[x] == s.broker.dead[x] + DeadLettering(a, x)
  {
  }

  lemma OtherStepDead(codec: Codec, s: System, a: Action, x: Json.Json)
    requires Enabled(codec, s, a) && !ConsumerStep(a)
    ensures Do(codec, s, a).broker.dead[x] == s.broker.dead[x] + DeadLettering(a, x)
  {
  }

  lemma ConsumerStepReady(codec: Codec, s: System, a: Action, x: Json.Json)
    requires Enabled(codec, s, a) && ConsumerStep(a)
    ensures Do(codec, s, a).broker.ready[x] == s.broker.ready[x] + Returning(s, a, x) - Taking(a, x)
  {
  }

  lemma OtherStepReady(codec: Codec, s: System, a: Action, x: Json.Json)
    requires Enabled(codec, s, a) && !ConsumerStep(a)
    ensures Do(codec, s, a).broker.ready[x] == s.broker.ready[x] + One(Entering(codec, s, a), x) - Taking(a, x)
  {
  }

  lemma StepPlaces(codec: Codec, s: System, a: Action, x: Json.Json)
    requires Enabled(codec, s, a)
    ensures Do(codec, s, a).broker.dead[x] == s.broker.dead[x] + DeadLettering(a, x)
    ensures Do(codec, s, a).broker.ready[x]
      == s.broker.ready[x] + One(Entering(codec, s, a), x) + Returning(s, a, x) - Taking(a, x)
  {
    if ConsumerStep(a) {
      ConsumerStepDead(codec, s, a, x);
      ConsumerStepReady(codec, s, a, x);
    } else {
      OtherStepDead(codec, s, a, x);
      OtherStepReady(codec, s, a, x);
    }
  }

  function DeadLettered(actions: seq<Action>, x: Json.Json): int {
    if actions == [] then 0 else DeadLettering(actions[0], x) + DeadLettered(actions[1..], x)
  }

  function Taken(actions: seq<Action>, x: Json.Json): int {
    if actions == [] then 0 else Taking(actions[0], x) + Taken(actions[1..], x)
  }

  ghost function Returned(codec: Codec, s: System, actions: seq<Action>, x: Json.Json): int
    decreases |actions|
  {
    if actions == [] || !Enabled(codec, s, actions[0]) then 0
    else Returning(s, actions[0], x) + Returned(codec, Do(codec, s, actions[0]), actions[1..], x)
  }

  lemma {:induction false} RunPlaces(codec: Codec, s: System, actions: seq<Action>, s': System, x: Json.Json)
    requires Executes(codec, s, actions, s')
    ensures s'.broker.dead[x] == s.broker.dead[x] + DeadLettered(actions, x)
    ensures s'.broker.ready[x]
      == s.broker.ready[x] + Entered(codec, s, actions, x) + Returned(codec, s, actions, x) - Taken(actions, x)
    decreases |actions|
  {
    if actions != [] {
      StepPlaces(codec, s, actions[0], x);
      RunPlaces(codec, Do(codec, s, actions[0]), actions[1..], s', x);
    }
  }

  // In every run, for every body: the dead letters are exactly the copies rejected
  // or given up by the broker, and the queue is what entered or came back - by a
  // nack or a closing channel, by nothing else - less what was taken from it.
  lemma DeadAreRejected(codec: Codec, s0: System, actions: seq<Action>, s: System, x: Json.Json)
    requires Initial(s0) && Executes(codec, s0, actions, s)
    ensures s.broker.dead[x] == DeadLettered(actions, x)
    ensures s.broker.ready[x]
      == Entered(codec, s0, actions, x) + Returned(codec, s0, actions, x) - Taken(actions, x)
  {
    RunPlaces(codec, s0, actions, s, x);
  }

  // A copy is rejected at most once: rejections and acks together never exceed
  // what entered.
  lemma RejectedAtMostOnce(codec: Codec, s0: System, actions: seq<Action>, s: System, x: Json.Json)
    requires Faithful(codec) && Initial(s0) && Executes(codec, s0, actions, s) && ExactIds(s.hist.placed)
    ensures DeadLettered(actions, x) + Left(codec, s0, actions, x) <= Entered(codec, s0, actions, x)
  {
    MessagesConserved(codec, s0, actions, s, x);
    DeadAreRejected(codec, s0, actions, s, x);
    UnsettledPositive(s.broker.consumers, x);
  }

  lemma UnsettledPositive(consumers: map<nat, Consumer>, x: Json.Json)
    ensures Unsettled(consumers, x) >= 0
  {
    var zeros: map<nat, int> := map c | c in consumers :: 0;
    SumConstant(zeros, 0);
    SumLessEqual(zeros, HeldBy(consumers, x));
  }

  // ----- the dead-letter queue -----

  // Bodies nobody can parse.
  ghost predicate OnlyGarbageIsDead(codec: Codec, b: Broker) {
    forall x :: x in b.dead ==> codec.parse(x).BadEvent?
  }

  lemma {:induction false} DeadStaysGarbage(codec: Codec, s: System, actions: seq<Action>, s': System)
    requires Executes(codec, s, actions, s') && OnlyGarbageIsDead(codec, s.broker)
    requires forall i :: 0 <= i < |actions| ==> !actions[i].DeadLetter?
    ensures OnlyGarbageIsDead(codec, s'.broker)
    decreases |actions|
  {
    if actions != [] {
      StepDeadStaysGarbage(codec, s, actions[0]);
      DeadStaysGarbage(codec, Do(codec, s, actions[0]), actions[1..], s');
    }
  }

  lemma StepDeadStaysGarbage(codec: Codec, s: System, a: Action)
    requires Enabled(codec, s, a) && OnlyGarbageIsDead(codec, s.broker) && !a.DeadLetter?
    ensures OnlyGarbageIsDead(codec, Do(codec, s, a).broker)
  {
  }

  // As long as the broker's delivery limit is not reached, only bodies the contract
  // refuses are dead-lettered: a failing database or a dying consumer never costs
  // an order its event.
  lemma OrdersAreNotDeadLettered(codec: Codec, s0: System, actions: seq<Action>, s: System, o: nat)
    requires Faithful(codec) && Initial(s0) && Executes(codec, s0, actions, s) && ExactIds(s.hist.placed)
    requires forall i :: 0 <= i < |actions| ==> !actions[i].DeadLetter?
    requires o in s.hist.placed
    ensures codec.render(s.hist.placed[o]) !in s.broker.dead
  {
    InitialInv(codec, s0);
    RunKeeps(codec, s0, actions, s);
    NothingDeadYet(codec, s0);
    DeadStaysGarbage(codec, s0, actions, s);
    OrdersParse(codec, s, o);
  }

  lemma NothingDeadYet(codec: Codec, s: System)
    requires Initial(s)
    ensures OnlyGarbageIsDead(codec, s.broker)
  {
  }

  lemma OrdersParse(codec: Codec, s: System, o: nat)
    requires Faithful(codec) && DatabaseInv(s) && o in s.hist.placed
    ensures codec.parse(codec.render(s.hist.placed[o])) == Contract.Ok(s.hist.placed[o])
  {
    assert Contract.Valid(s.hist.placed[o]);
    assert Json.Reordered(codec.render(s.hist.placed[o]), codec.render(s.hist.placed[o]));
  }

  // ----- prefetch -----

  ghost predicate WithinPrefetch(consumers: map<nat, Consumer>) {
    forall c :: c in consumers ==> |consumers[c].unacked| <= 50
  }

  lemma BuyLeavesConsumers(s: System, input: Input, ids: Ids)
    ensures DoBuy(s, input, ids).broker == s.broker
  {
  }

  lemma ClaimLeavesConsumers(s: System, r: nat, batch: seq<nat>, read: nat -> Json.Json)
    ensures DoClaim(s, r, batch, read).broker == s.broker
  {
  }

  lemma SettleWithinPrefetch(b: Broker, c: nat, body: Json.Json)
    requires c in b.consumers && WithinPrefetch(b.consumers)
    ensures WithinPrefetch(Settle(b, c, body).consumers)
  {
  }

  lemma StepWithinPrefetch(codec: Codec, s: System, a: Action)
    requires Enabled(codec, s, a) && WithinPrefetch(s.broker.consumers)
    ensures WithinPrefetch(Do(codec, s, a).broker.consumers)
  {
    match a
    case Ack(c) => SettleWithinPrefetch(s.broker, c, s.broker.consumers[c].applied.value);
    case Reject(c, body) => SettleWithinPrefetch(s.broker, c, body);
    case Nack(c, body) => SettleWithinPrefetch(s.broker, c, body);
    case Deliver(_, _) =>
    case Apply(_, _) =>
    case Close(_) =>
    case Buy(input, ids) => BuyLeavesConsumers(s, input, ids);
    case Claim(r, limit, aggregate, locked, read) =>
      ClaimLeavesConsumers(s, r, BatchOf(s, limit, aggregate, locked), read);
    case _ =>
  }

  // No consumer ever holds more than 50 messages it has not answered.
  lemma {:induction false} PrefetchHolds(codec: Codec, s: System, actions: seq<Action>, s': System)
    requires Executes(codec, s, actions, s') && WithinPrefetch(s.broker.consumers)
    ensures WithinPrefetch(s'.broker.consumers)
    decreases |actions|
  {
    if actions != [] {
      StepWithinPrefetch(codec, s, actions[0]);
      PrefetchHolds(codec, Do(codec, s, actions[0]), actions[1..], s');
    }
  }
}
