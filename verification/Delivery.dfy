/**
 * The whole pipeline as one machine: checkouts, any number of relays, the
 * broker, any number of consumers, with a crash allowed between any two steps.
 */
module Delivery {
  import opened Prelude
  import opened Tables
  import opened Numbers
  import Json
  import Contract
  import Checkout
  import CheckoutLaws
  import Outbox
  import Inbox

  // ----- state -----

  // A relay holds the rows its claim returned and works on the first one. The
  // claim has committed, so these rows are not locked any more.
  datatype Claimed = Claimed(id: nat, body: Json.Json)
  datatype Phase = Ready | Sent | Confirmed
  datatype Relay = Relay(todo: seq<Claimed>, phase: Phase)

  // A consumer handles one message at a time; `applied` is the message whose
  // transaction has committed and whose ack has not been sent.
  datatype Consumer = Consumer(unacked: multiset<Json.Json>, applied: Option<Json.Json>)

  datatype Broker = Broker(ready: multiset<Json.Json>, consumers: map<nat, Consumer>, dead: multiset<Json.Json>)

  // What happened, for stating the properties: the event of each order, the
  // outbox row it went to, the event of each row ever inserted, publish calls
  // per row that reached the broker, and rows whose publish was confirmed.
  datatype History = History(
    placed: map<nat, Contract.Event>,
    rowOf: map<nat, nat>,
    eventOf: map<nat, Contract.Event>,
    publishes: map<nat, nat>,
    confirmed: set<nat>)

  datatype System = System(
    db: Db,
    relays: map<nat, Relay>,
    broker: Broker,
    inbox: Inbox.Inbox,
    now: nat,
    hist: History)

  // Printing and parsing of message bodies.
  datatype Codec = Codec(parse: Json.Json -> Contract.Parsed, render: Contract.Event -> Json.Json)

  ghost predicate Faithful(codec: Codec) {
    && (forall e, body :: Contract.Valid(e) && Json.Reordered(codec.render(e), body) ==>
          codec.parse(body) == Contract.Ok(e))
    && (forall e :: Json.Reordered(codec.render(e), codec.render(e)))
  }

  const PREFETCH: nat := 50

  datatype Action =
    | Buy(input: Input, ids: Ids)
    | Claim(r: nat, limit: nat, aggregate: Option<nat>, locked: set<nat>, read: nat -> Json.Json)
    | Publish(r: nat)
    | Confirm(r: nat)
    | Mark(r: nat)
    | StopRelay(r: nat)
    | Purge
    | Pass(ms: nat)
    | Deliver(c: nat, body: Json.Json)
    | Apply(c: nat, body: Json.Json)
    | ApplyLate(body: Json.Json)
    | Ack(c: nat)
    | Reject(c: nat, body: Json.Json)
    | Nack(c: nat, body: Json.Json)
    | Close(c: nat)
    | DeadLetter(body: Json.Json)
    | Garbage(body: Json.Json)

  function BatchOf(s: System, limit: nat, aggregate: Option<nat>, locked: set<nat>): seq<nat> {
    Outbox.Batch(s.db.outbox, Outbox.Claimable(s.db.outbox, aggregate, locked), limit)
  }

  predicate Running(s: System, r: nat, phase: Phase) {
    r in s.relays && s.relays[r].todo != [] && s.relays[r].phase == phase
  }

  predicate Unacked(s: System, c: nat, body: Json.Json) {
    c in s.broker.consumers && body in s.broker.consumers[c].unacked
  }

  ghost predicate Held(b: Broker, body: Json.Json) {
    exists c :: c in b.consumers && body in b.consumers[c].unacked
  }

  ghost predicate InBroker(b: Broker, body: Json.Json) {
    body in b.ready || body in b.dead || Held(b, body)
  }

  ghost predicate Enabled(codec: Codec, s: System, a: Action) {
    match a
    // ids from sequences that are not rolled back: used by nobody before, but
    // checkouts need not commit in the order they drew them
    case Buy(input, ids) =>
      ids.order >= 1 && ids.order !in s.hist.placed && ids.job !in s.db.jobs && ids.outbox !in s.hist.eventOf
    case Claim(r, limit, aggregate, locked, read) =>
      && r !in s.relays
      && (forall id :: id in s.db.outbox ==> Json.Reordered(codec.render(s.db.outbox[id].payload), read(id)))
    // the broker takes the message; the relay does not know it yet
    case Publish(r) => Running(s, r, Ready) && codec.parse(s.relays[r].todo[0].body).Ok?
    case Confirm(r) => Running(s, r, Sent)
    case Mark(r) => Running(s, r, Confirmed)
    // crash, failed or unconfirmed publish, unparseable payload
    case StopRelay(r) => r in s.relays
    case Purge => true
    case Pass(ms) => true
    case Deliver(c, body) =>
      body in s.broker.ready && (c in s.broker.consumers ==> |s.broker.consumers[c].unacked| < PREFETCH)
    case Apply(c, body) => Unacked(s, c, body) && s.broker.consumers[c].applied.None? && codec.parse(body).Ok?
    // a handler whose channel has closed commits all the same: its message was
    // delivered, so it is in the broker again or its event has been applied
    case ApplyLate(body) =>
      codec.parse(body).Ok? && (InBroker(s.broker, body) || codec.parse(body).event.eventId in s.inbox.marks)
    case Ack(c) => c in s.broker.consumers && s.broker.consumers[c].applied.Some?
    case Reject(c, body) => Unacked(s, c, body) && s.broker.consumers[c].applied.None? && codec.parse(body).BadEvent?
    case Nack(c, body) => Unacked(s, c, body)
    case Close(c) => c in s.broker.consumers
    case DeadLetter(body) => body in s.broker.ready
    case Garbage(body) => codec.parse(body).BadEvent?
  }

  ghost function Do(codec: Codec, s: System, a: Action): System
    requires Enabled(codec, s, a)
  {
    match a
    case Buy(input, ids) => DoBuy(s, input, ids)
    case Claim(r, limit, aggregate, locked, read) => DoClaim(s, r, BatchOf(s, limit, aggregate, locked), read)
    case Publish(r) => DoPublish(codec, s, r)
    case Confirm(r) =>
      s.(relays := s.relays[r := s.relays[r].(phase := Confirmed)],
         hist := s.hist.(confirmed := s.hist.confirmed + {s.relays[r].todo[0].id}))
    case Mark(r) =>
      s.(relays := Advance(s.relays, r),
         db := s.db.(outbox := Outbox.MarkRow(s.db.outbox, s.relays[r].todo[0].id, s.now)))
    case StopRelay(r) => s.(relays := s.relays - {r})
    case Purge => s.(db := s.db.(outbox := Outbox.Purged(s.db.outbox, s.now)))
    case Pass(ms) => s.(now := s.now + ms)
    case Deliver(c, body) => s.(broker := DeliverTo(s.broker, c, body))
    case Apply(c, body) =>
      s.(inbox := Inbox.Apply(s.inbox, codec.parse(body).event),
         broker := SetConsumer(s.broker, c, s.broker.consumers[c].(applied := Some(body))))
    case ApplyLate(body) => s.(inbox := Inbox.Apply(s.inbox, codec.parse(body).event))
    case Ack(c) => s.(broker := Settle(s.broker, c, s.broker.consumers[c].applied.value))
    case Reject(c, body) => s.(broker := AddDead(Settle(s.broker, c, body), body))
    case Nack(c, body) => s.(broker := AddReady(Settle(s.broker, c, body), multiset{body}))
    case Close(c) =>
      s.(broker := AddReady(s.broker.(consumers := s.broker.consumers - {c}), s.broker.consumers[c].unacked))
    case DeadLetter(body) => s.(broker := AddDead(s.broker.(ready := s.broker.ready - multiset{body}), body))
    case Garbage(body) => s.(broker := AddReady(s.broker, multiset{body}))
  }

  // ----- the steps in detail -----

  function DoBuy(s: System, input: Input, ids: Ids): System {
    var r := Checkout.Run(s.db, input, ids);
    if r.out.Created? && ids.outbox in r.db.outbox then
      var e := r.db.outbox[ids.outbox].payload;
      s.(db := r.db,
         hist := s.hist.(placed := s.hist.placed[ids.order := e],
                         rowOf := s.hist.rowOf[ids.order := ids.outbox],
                         eventOf := s.hist.eventOf[ids.outbox := e]))
    else s
  }

  function Rows(batch: seq<nat>, read: nat -> Json.Json): seq<Claimed> {
    seq(|batch|, i requires 0 <= i < |batch| => Claimed(batch[i], read(batch[i])))
  }

  function DoClaim(s: System, r: nat, batch: seq<nat>, read: nat -> Json.Json): System {
    if batch == [] then s
    else s.(relays := s.relays[r := Relay(Rows(batch, read), Ready)],
            db := s.db.(outbox := Outbox.Attempted(s.db.outbox, batch)))
  }

  function DoPublish(codec: Codec, s: System, r: nat): System
    requires Running(s, r, Ready) && codec.parse(s.relays[r].todo[0].body).Ok?
  {
    var head := s.relays[r].todo[0];
    s.(relays := s.relays[r := s.relays[r].(phase := Sent)],
       broker := AddReady(s.broker, multiset{codec.render(codec.parse(head.body).event)}),
       hist := s.hist.(publishes := s.hist.publishes[head.id := Publishes(s.hist.publishes, head.id) + 1]))
  }

  function Publishes(publishes: map<nat, nat>, id: nat): nat {
    if id in publishes then publishes[id] else 0
  }

  // On to the next claimed row; a relay with none left is done.
  function Advance(relays: map<nat, Relay>, r: nat): map<nat, Relay>
    requires r in relays && relays[r].todo != []
  {
    if |relays[r].todo| == 1 then relays - {r} else relays[r := Relay(relays[r].todo[1..], Ready)]
  }

  function AddReady(b: Broker, bodies: multiset<Json.Json>): Broker { b.(ready := b.ready + bodies) }

  function AddDead(b: Broker, body: Json.Json): Broker { b.(dead := b.dead + multiset{body}) }

  function SetConsumer(b: Broker, c: nat, consumer: Consumer): Broker { b.(consumers := b.consumers[c := consumer]) }

  function DeliverTo(b: Broker, c: nat, body: Json.Json): Broker {
    var consumer := if c in b.consumers then b.consumers[c] else Consumer(multiset{}, None);
    SetConsumer(b.(ready := b.ready - multiset{body}), c, consumer.(unacked := consumer.unacked + multiset{body}))
  }

  // The message leaves the consumer.
  function Settle(b: Broker, c: nat, body: Json.Json): Broker
    requires c in b.consumers
  {
    SetConsumer(b, c, Consumer(b.consumers[c].unacked - multiset{body}, None))
  }

  // ----- runs -----

  // A new deployment: a catalogue and users, nothing sold, nothing queued.
  ghost predicate Initial(s: System) {
    && CheckoutLaws.ExactTotals(s.db.orders) && WellFormed(s.db)
    && s.db.orders == map[] && s.db.outbox == map[]
    && s.relays == map[] && s.broker == Broker(multiset{}, map[], multiset{})
    && s.inbox == Inbox.Inbox([], [], [])
    && s.hist == History(map[], map[], map[], map[], {})
  }

  ghost predicate Executes(codec: Codec, s: System, actions: seq<Action>, s': System)
    decreases |actions|
  {
    if actions == [] then s' == s
    else Enabled(codec, s, actions[0]) && Executes(codec, Do(codec, s, actions[0]), actions[1..], s')
  }
}
