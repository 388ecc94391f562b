/** Exactly-once result over at-least-once delivery, in every reachable state. */
module DeliveryLaws {
  import opened Prelude
  import opened Tables
  import opened Numbers
  import opened Delivery
  import Json
  import Contract
  import Checkout
  import CheckoutLaws
  import Outbox
  import Inbox

  // ----- where a message can be -----

  // The order's event is queued, with a consumer, dead-lettered, or applied.
  ghost predicate Landed(codec: Codec, b: Broker, marks: seq<string>, e: Contract.Event) {
    InBroker(b, codec.render(e)) || e.eventId in marks
  }

  // ----- the invariant -----

  // Every order has its event and its outbox row; event ids tell orders apart.
  ghost predicate OrdersInv(orders: map<nat, Order>, placed: map<nat, Contract.Event>) {
    && placed.Keys == orders.Keys
    && (forall o :: o in placed ==> o >= 1 && Contract.Valid(placed[o]) && placed[o].orderId == o)
    && (forall o, o' :: o in placed && o' in placed && o != o' ==> placed[o].eventId != placed[o'].eventId)
  }

  ghost predicate RowOfInv(placed: map<nat, Contract.Event>, rowOf: map<nat, nat>, eventOf: map<nat, Contract.Event>) {
    && rowOf.Keys == placed.Keys
    && (forall o :: o in placed ==> rowOf[o] in eventOf && eventOf[rowOf[o]] == placed[o])
    && (forall id :: id in eventOf ==> Contract.Valid(eventOf[id]) && EventOfOrder(placed, eventOf[id]))
  }

  ghost predicate EventOfOrder(placed: map<nat, Contract.Event>, e: Contract.Event) {
    exists o :: o in placed && e == placed[o]
  }

  ghost predicate BooksInv(db: Db) {
    WellFormed(db) && CheckoutLaws.ExactTotals(db.orders)
  }

  ghost predicate RowsInv(outbox: Outbox.Rows, eventOf: map<nat, Contract.Event>, confirmed: set<nat>) {
    && (forall id :: id in outbox ==> id in eventOf && outbox[id].payload == eventOf[id])
    && (forall id :: id in outbox && outbox[id].publishedAt.Some? ==> id in confirmed)
  }

  // What a relay has in hand are rows of orders, as jsonb gave them back.
  ghost predicate RelayOk(codec: Codec, relay: Relay, eventOf: map<nat, Contract.Event>, confirmed: set<nat>) {
    && relay.todo != []
    && (forall i :: 0 <= i < |relay.todo| ==> ClaimedOk(codec, relay.todo[i], eventOf))
    && (forall i, j :: 0 <= i < j < |relay.todo| ==> relay.todo[i].id != relay.todo[j].id)
    && (relay.phase == Confirmed ==> relay.todo[0].id in confirmed)
  }

  ghost predicate ClaimedOk(codec: Codec, row: Claimed, eventOf: map<nat, Contract.Event>) {
    row.id in eventOf && Json.Reordered(codec.render(eventOf[row.id]), row.body)
  }

  ghost predicate RelaysInv(codec: Codec, relays: map<nat, Relay>, eventOf: map<nat, Contract.Event>,
                            confirmed: set<nat>)
  {
    forall r :: r in relays ==> RelayOk(codec, relays[r], eventOf, confirmed)
  }

  // A row that a relay has sent or confirmed is in the broker or applied.
  ghost predicate SentOk(codec: Codec, relay: Relay, b: Broker, marks: seq<string>, eventOf: map<nat, Contract.Event>) {
    relay.todo != [] && relay.phase != Ready && relay.todo[0].id in eventOf ==>
      Landed(codec, b, marks, eventOf[relay.todo[0].id])
  }

  ghost predicate SentInv(codec: Codec, relays: map<nat, Relay>, b: Broker, marks: seq<string>,
                          eventOf: map<nat, Contract.Event>)
  {
    forall r :: r in relays ==> SentOk(codec, relays[r], b, marks, eventOf)
  }

  ghost predicate Pending(outbox: Outbox.Rows, id: nat) {
    id in outbox && outbox[id].publishedAt.None?
  }

  // No event is lost: every row ever written is unpublished, or has landed.
  ghost predicate NothingLost(codec: Codec, outbox: Outbox.Rows, b: Broker, marks: seq<string>,
                              eventOf: map<nat, Contract.Event>)
  {
    forall id :: id in eventOf ==> Pending(outbox, id) || Landed(codec, b, marks, eventOf[id])
  }

  // Everything in the broker is the event of an order, or garbage.
  ghost predicate Genuine(codec: Codec, placed: map<nat, Contract.Event>, body: Json.Json) {
    codec.parse(body).BadEvent? || exists o :: o in placed && body == codec.render(placed[o])
  }

  ghost predicate MessagesInv(codec: Codec, b: Broker, placed: map<nat, Contract.Event>) {
    forall body :: InBroker(b, body) ==> Genuine(codec, placed, body)
  }

  ghost predicate EffectOf(placed: map<nat, Contract.Event>, effect: Inbox.Effect) {
    exists o :: o in placed && effect.orderId == o && effect.eventId == placed[o].eventId
  }

  ghost predicate InboxInv(inbox: Inbox.Inbox, placed: map<nat, Contract.Event>) {
    && Inbox.MarkIffEffect(inbox)
    && forall i :: 0 <= i < |inbox.effects| ==> EffectOf(placed, inbox.effects[i])
  }

  ghost predicate ConsumerOk(codec: Codec, consumer: Consumer, marks: seq<string>) {
    consumer.applied.Some? ==>
      var body := consumer.applied.value;
      body in consumer.unacked && codec.parse(body).Ok? && codec.parse(body).event.eventId in marks
  }

  ghost predicate ConsumersInv(codec: Codec, b: Broker, marks: seq<string>) {
    forall c :: c in b.consumers ==> ConsumerOk(codec, b.consumers[c], marks)
  }

  ghost predicate DatabaseInv(s: System) {
    && OrdersInv(s.db.orders, s.hist.placed)
    && RowOfInv(s.hist.placed, s.hist.rowOf, s.hist.eventOf)
    && BooksInv(s.db)
    && RowsInv(s.db.outbox, s.hist.eventOf, s.hist.confirmed)
  }

  ghost predicate TransitInv(codec: Codec, s: System) {
    && RelaysInv(codec, s.relays, s.hist.eventOf, s.hist.confirmed)
    && SentInv(codec, s.relays, s.broker, s.inbox.marks, s.hist.eventOf)
    && NothingLost(codec, s.db.outbox, s.broker, s.inbox.marks, s.hist.eventOf)
  }

  ghost predicate ArrivalInv(codec: Codec, s: System) {
    && MessagesInv(codec, s.broker, s.hist.placed)
    && InboxInv(s.inbox, s.hist.placed)
    && ConsumersInv(codec, s.broker, s.inbox.marks)
  }

  ghost predicate Inv(codec: Codec, s: System) {
    DatabaseInv(s) && TransitInv(codec, s) && ArrivalInv(codec, s)
  }

  // ----- landing is permanent -----

  // A broker step may move messages and may drop one only if it was applied.
  ghost predicate Keeps(codec: Codec, b: Broker, b': Broker, marks: seq<string>) {
    forall body :: InBroker(b, body) ==>
      InBroker(b', body) || (codec.parse(body).Ok? && codec.parse(body).event.eventId in marks)
  }

  lemma LandedStays(codec: Codec, b: Broker, b': Broker, marks: seq<string>, marks': seq<string>, e: Contract.Event)
    requires Faithful(codec) && Contract.Valid(e) && Keeps(codec, b, b', marks')
    requires forall m :: m in marks ==> m in marks'
    requires Landed(codec, b, marks, e)
    ensures Landed(codec, b', marks', e)
  {
    assert Json.Reordered(codec.render(e), codec.render(e));
  }

  lemma TransitStays(codec: Codec, s: System, b': Broker, marks': seq<string>)
    requires Faithful(codec) && DatabaseInv(s) && TransitInv(codec, s)
    requires Keeps(codec, s.broker, b', marks')
    requires forall m :: m in s.inbox.marks ==> m in marks'
    ensures SentInv(codec, s.relays, b', marks', s.hist.eventOf)
    ensures NothingLost(codec, s.db.outbox, b', marks', s.hist.eventOf)
  {
    var eventOf := s.hist.eventOf;
    forall id | id in eventOf && Landed(codec, s.broker, s.inbox.marks, eventOf[id])
      ensures Landed(codec, b', marks', eventOf[id])
    {
      LandedStays(codec, s.broker, b', s.inbox.marks, marks', eventOf[id]);
    }
    forall r | r in s.relays
      ensures SentOk(codec, s.relays[r], b', marks', eventOf)
    {
      assert SentOk(codec, s.relays[r], s.broker, s.inbox.marks, eventOf);
    }
  }

  // Steps that change only the broker and the inbox.
  lemma BrokerStep(codec: Codec, s: System, b': Broker, inbox': Inbox.Inbox)
    requires Faithful(codec) && Inv(codec, s)
    requires Keeps(codec, s.broker, b', inbox'.marks)
    requires forall m :: m in s.inbox.marks ==> m in inbox'.marks
    requires MessagesInv(codec, b', s.hist.placed) && InboxInv(inbox', s.hist.placed)
    requires ConsumersInv(codec, b', inbox'.marks)
    ensures Inv(codec, s.(broker := b', inbox := inbox'))
  {
    TransitStays(codec, s, b', inbox'.marks);
  }

  // ----- broker and consumer steps -----

  lemma DeliverKeeps(codec: Codec, s: System, c: nat, body: Json.Json)
    requires Faithful(codec) && Inv(codec, s) && Enabled(codec, s, Action.Deliver(c, body))
    ensures Inv(codec, Do(codec, s, Action.Deliver(c, body)))
  {
    var b, b' := s.broker, DeliverTo(s.broker, c, body);
    forall x
      ensures InBroker(b', x) <==> InBroker(b, x)
    {
      DeliverMoves(b, c, body, x);
    }
    assert ConsumersInv(codec, b', s.inbox.marks) by {
      if c in b.consumers { assert ConsumerOk(codec, b.consumers[c], s.inbox.marks); }
    }
    BrokerStep(codec, s, b', s.inbox);
  }

  lemma DeliverMoves(b: Broker, c: nat, body: Json.Json, x: Json.Json)
    requires body in b.ready
    ensures InBroker(DeliverTo(b, c, body), x) <==> InBroker(b, x)
  {
    var b' := DeliverTo(b, c, body);
    assert body in b'.consumers[c].unacked;
    if Held(b, x) {
      var d :| d in b.consumers && x in b.consumers[d].unacked;
      assert x in b'.consumers[d].unacked;
    }
    if Held(b', x) {
      var d :| d in b'.consumers && x in b'.consumers[d].unacked;
      if d != c { assert x in b.consumers[d].unacked; }
    }
  }

  // Settling a message takes nothing else out of the broker.
  lemma SettleMoves(b: Broker, c: nat, body: Json.Json, x: Json.Json)
    requires c in b.consumers
    ensures InBroker(Settle(b, c, body), x) ==> InBroker(b, x)
    ensures InBroker(b, x) && x != body ==> InBroker(Settle(b, c, body), x)
  {
    var b' := Settle(b, c, body);
    if Held(b', x) {
      var d :| d in b'.consumers && x in b'.consumers[d].unacked;
      assert x in b.consumers[d].unacked;
    }
    if Held(b, x) && x != body {
      var d :| d in b.consumers && x in b.consumers[d].unacked;
      assert x in b'.consumers[d].unacked;
    }
  }

  lemma AckKeeps(codec: Codec, s: System, c: nat)
    requires Faithful(codec) && Inv(codec, s) && Enabled(codec, s, Action.Ack(c))
    ensures Inv(codec, Do(codec, s, Action.Ack(c)))
  {
    var body := s.broker.consumers[c].applied.value;
    var b' := Settle(s.broker, c, body);
    assert ConsumerOk(codec, s.broker.consumers[c], s.inbox.marks);
    forall x
      ensures InBroker(b', x) ==> InBroker(s.broker, x)
      ensures InBroker(s.broker, x) && x != body ==> InBroker(b', x)
    {
      SettleMoves(s.broker, c, body, x);
    }
    BrokerStep(codec, s, b', s.inbox);
  }

  lemma AddedBody(b: Broker, bodies: multiset<Json.Json>, x: Json.Json)
    ensures InBroker(AddReady(b, bodies), x) <==> InBroker(b, x) || x in bodies
    ensures forall body :: InBroker(AddDead(b, body), x) <==> InBroker(b, x) || x == body
  {
    forall body
      ensures InBroker(AddDead(b, body), x) <==> InBroker(b, x) || x == body
    {
      assert Held(AddDead(b, body), x) <==> Held(b, x) by {
        assert AddDead(b, body).consumers == b.consumers;
      }
    }
    assert AddReady(b, bodies).consumers == b.consumers;
  }

  lemma RejectKeeps(codec: Codec, s: System, c: nat, body: Json.Json)
    requires Faithful(codec) && Inv(codec, s) && Enabled(codec, s, Action.Reject(c, body))
    ensures Inv(codec, Do(codec, s, Action.Reject(c, body)))
  {
    var b1 := Settle(s.broker, c, body);
    var b' := AddDead(b1, body);
    forall x
      ensures InBroker(b', x) ==> InBroker(s.broker, x) || codec.parse(x).BadEvent?
      ensures InBroker(s.broker, x) ==> InBroker(b', x)
    {
      SettleMoves(s.broker, c, body, x);
      AddedBody(b1, multiset{}, x);
    }
    BrokerStep(codec, s, b', s.inbox);
  }

  lemma NackKeeps(codec: Codec, s: System, c: nat, body: Json.Json)
    requires Faithful(codec) && Inv(codec, s) && Enabled(codec, s, Action.Nack(c, body))
    ensures Inv(codec, Do(codec, s, Action.Nack(c, body)))
  {
    var b1 := Settle(s.broker, c, body);
    var b' := AddReady(b1, multiset{body});
    assert InBroker(s.broker, body);
    forall x
      ensures InBroker(b', x) <==> InBroker(s.broker, x)
    {
      SettleMoves(s.broker, c, body, x);
      AddedBody(b1, multiset{body}, x);
    }
    BrokerStep(codec, s, b', s.inbox);
  }

  lemma CloseKeeps(codec: Codec, s: System, c: nat)
    requires Faithful(codec) && Inv(codec, s) && Enabled(codec, s, Action.Close(c))
    ensures Inv(codec, Do(codec, s, Action.Close(c)))
  {
    var b := s.broker;
    var b1 := b.(consumers := b.consumers - {c});
    var b' := AddReady(b1, b.consumers[c].unacked);
    forall x
      ensures InBroker(b', x) <==> InBroker(b, x)
    {
      AddedBody(b1, b.consumers[c].unacked, x);
      if Held(b, x) {
        var d :| d in b.consumers && x in b.consumers[d].unacked;
        if d != c { assert x in b1.consumers[d].unacked; }
      }
      if Held(b1, x) {
        var d :| d in b1.consumers && x in b1.consumers[d].unacked;
        assert x in b.consumers[d].unacked;
      }
    }
    BrokerStep(codec, s, b', s.inbox);
  }

  lemma DeadLetterKeeps(codec: Codec, s: System, body: Json.Json)
    requires Faithful(codec) && Inv(codec, s) && Enabled(codec, s, Action.DeadLetter(body))
    ensures Inv(codec, Do(codec, s, Action.DeadLetter(body)))
  {
    var b := s.broker;
    var b1 := b.(ready := b.ready - multiset{body});
    var b' := AddDead(b1, body);
    forall x
      ensures InBroker(b', x) <==> InBroker(b, x)
    {
      AddedBody(b1, multiset{}, x);
      assert Held(b1, x) <==> Held(b, x) by { assert b1.consumers == b.consumers; }
    }
    BrokerStep(codec, s, b', s.inbox);
  }

  lemma GarbageKeeps(codec: Codec, s: System, body: Json.Json)
    requires Faithful(codec) && Inv(codec, s) && Enabled(codec, s, Action.Garbage(body))
    ensures Inv(codec, Do(codec, s, Action.Garbage(body)))
  {
    var b' := AddReady(s.broker, multiset{body});
    forall x
      ensures InBroker(b', x) ==> InBroker(s.broker, x) || codec.parse(x).BadEvent?
      ensures InBroker(s.broker, x) ==> InBroker(b', x)
    {
      AddedBody(s.broker, multiset{body}, x);
    }
    BrokerStep(codec, s, b', s.inbox);
  }

  lemma AppliedMoves(b: Broker, c: nat, body: Json.Json, x: Json.Json)
    requires c in b.consumers
    ensures InBroker(SetConsumer(b, c, b.consumers[c].(applied := Some(body))), x) <==> InBroker(b, x)
  {
    var b' := SetConsumer(b, c, b.consumers[c].(applied := Some(body)));
    if Held(b, x) {
      var d :| d in b.consumers && x in b.consumers[d].unacked;
      assert x in b'.consumers[d].unacked;
    }
    if Held(b', x) {
      var d :| d in b'.consumers && x in b'.consumers[d].unacked;
      assert x in b.consumers[d].unacked;
    }
  }

  lemma ApplyInbox(codec: Codec, b: Broker, inbox: Inbox.Inbox, placed: map<nat, Contract.Event>, body: Json.Json)
    requires Faithful(codec) && MessagesInv(codec, b, placed) && InboxInv(inbox, placed)
    requires forall o :: o in placed ==> Contract.Valid(placed[o]) && placed[o].orderId == o
    requires InBroker(b, body) && codec.parse(body).Ok?
    ensures var inbox' := Inbox.Apply(inbox, codec.parse(body).event);
      && InboxInv(inbox', placed) && codec.parse(body).event.eventId in inbox'.marks
      && forall m :: m in inbox.marks ==> m in inbox'.marks
  {
    var e := codec.parse(body).event;
    Inbox.ApplyKeepsMarkIffEffect(inbox, e);
    assert Genuine(codec, placed, body);
    var o :| o in placed && body == codec.render(placed[o]);
    assert Json.Reordered(codec.render(placed[o]), body);
    assert EffectOf(placed, Inbox.Effect(e.eventId, e.orderId));
  }

  lemma ApplyKeeps(codec: Codec, s: System, c: nat, body: Json.Json)
    requires Faithful(codec) && Inv(codec, s) && Enabled(codec, s, Action.Apply(c, body))
    ensures Inv(codec, Do(codec, s, Action.Apply(c, body)))
  {
    assert InBroker(s.broker, body);
    ApplyInbox(codec, s.broker, s.inbox, s.hist.placed, body);
    var inbox' := Inbox.Apply(s.inbox, codec.parse(body).event);
    var b' := SetConsumer(s.broker, c, s.broker.consumers[c].(applied := Some(body)));
    forall x
      ensures InBroker(b', x) <==> InBroker(s.broker, x)
    {
      AppliedMoves(s.broker, c, body, x);
    }
    forall d | d in b'.consumers && d != c
      ensures ConsumerOk(codec, b'.consumers[d], inbox'.marks)
    {
      assert ConsumerOk(codec, s.broker.consumers[d], s.inbox.marks);
    }
    BrokerStep(codec, s, b', inbox');
  }

  lemma ApplyLateKeeps(codec: Codec, s: System, body: Json.Json)
    requires Faithful(codec) && Inv(codec, s) && Enabled(codec, s, ApplyLate(body))
    ensures Inv(codec, Do(codec, s, ApplyLate(body)))
  {
    var e := codec.parse(body).event;
    var inbox' := Inbox.Apply(s.inbox, e);
    if InBroker(s.broker, body) {
      ApplyInbox(codec, s.broker, s.inbox, s.hist.placed, body);
    } else {
      Inbox.ApplyKeepsMarkIffEffect(s.inbox, e);
    }
    forall c | c in s.broker.consumers
      ensures ConsumerOk(codec, s.broker.consumers[c], inbox'.marks)
    {
      assert ConsumerOk(codec, s.broker.consumers[c], s.inbox.marks);
    }
    BrokerStep(codec, s, s.broker, inbox');
  }

  // ----- relay steps -----

  // Steps that rewrite outbox rows in place or remove some.
  ghost predicate StaysPending(outbox: Outbox.Rows, outbox': Outbox.Rows, except: set<nat>) {
    && outbox'.Keys <= outbox.Keys
    && (forall id :: id in outbox' ==> outbox'[id].payload == outbox[id].payload)
    && (forall id :: id in outbox' && outbox'[id].publishedAt.Some? ==> outbox[id].publishedAt.Some? || id in except)
    && (forall id :: Pending(outbox, id) && id !in except ==> Pending(outbox', id))
  }

  lemma OutboxStep(codec: Codec, s: System, outbox': Outbox.Rows, except: set<nat>)
    requires Inv(codec, s) && StaysPending(s.db.outbox, outbox', except) && except <= s.hist.confirmed
    requires forall id :: id in except ==>
      id in s.hist.eventOf && Landed(codec, s.broker, s.inbox.marks, s.hist.eventOf[id])
    ensures Inv(codec, s.(db := s.db.(outbox := outbox')))
  {
    assert RowsInv(outbox', s.hist.eventOf, s.hist.confirmed);
    assert NothingLost(codec, outbox', s.broker, s.inbox.marks, s.hist.eventOf);
  }

  lemma AttemptedStays(outbox: Outbox.Rows, batch: seq<nat>)
    ensures StaysPending(outbox, Outbox.Attempted(outbox, batch), {})
  {
  }

  lemma MarkRowStays(outbox: Outbox.Rows, id: nat, now: nat)
    ensures StaysPending(outbox, Outbox.MarkRow(outbox, id, now), {id})
  {
  }

  lemma PurgedStays(outbox: Outbox.Rows, now: nat)
    ensures StaysPending(outbox, Outbox.Purged(outbox, now), {})
  {
  }

  lemma BatchClaimed(codec: Codec, outbox: Outbox.Rows, eventOf: map<nat, Contract.Event>, confirmed: set<nat>,
                     ids: set<nat>, limit: nat, read: nat -> Json.Json)
    requires ids <= outbox.Keys && Outbox.Batch(outbox, ids, limit) != []
    requires forall id :: id in outbox ==> id in eventOf && outbox[id].payload == eventOf[id]
    requires forall id :: id in outbox ==> Json.Reordered(codec.render(outbox[id].payload), read(id))
    ensures RelayOk(codec, Relay(Rows(Outbox.Batch(outbox, ids, limit), read), Ready), eventOf, confirmed)
  {
    var batch := Outbox.Batch(outbox, ids, limit);
    Outbox.BatchIsOldest(outbox, ids, limit);
    forall i, j | 0 <= i < j < |batch|
      ensures batch[i] != batch[j]
    {
      assert Outbox.Before(outbox, batch[i], batch[j]);
    }
  }

  lemma ClaimKeeps(codec: Codec, s: System, r: nat, limit: nat, aggregate: Option<nat>, locked: set<nat>,
                   read: nat -> Json.Json)
    requires Faithful(codec) && Inv(codec, s) && Enabled(codec, s, Action.Claim(r, limit, aggregate, locked, read))
    ensures Inv(codec, Do(codec, s, Action.Claim(r, limit, aggregate, locked, read)))
  {
    var batch := BatchOf(s, limit, aggregate, locked);
    if batch != [] {
      BatchClaimed(codec, s.db.outbox, s.hist.eventOf, s.hist.confirmed,
                   Outbox.Claimable(s.db.outbox, aggregate, locked), limit, read);
      AttemptedStays(s.db.outbox, batch);
      var outbox' := Outbox.Attempted(s.db.outbox, batch);
      OutboxStep(codec, s, outbox', {});
      RelayStarts(codec, s.(db := s.db.(outbox := outbox')), r, Relay(Rows(batch, read), Ready));
    }
  }

  lemma RelayStarts(codec: Codec, s: System, r: nat, relay: Relay)
    requires Inv(codec, s) && RelayOk(codec, relay, s.hist.eventOf, s.hist.confirmed) && relay.phase == Ready
    ensures Inv(codec, s.(relays := s.relays[r := relay]))
  {
  }

  lemma PublishKeeps(codec: Codec, s: System, r: nat)
    requires Faithful(codec) && Inv(codec, s) && Enabled(codec, s, Action.Publish(r))
    ensures Inv(codec, Do(codec, s, Action.Publish(r)))
  {
    var head := s.relays[r].todo[0];
    assert RelayOk(codec, s.relays[r], s.hist.eventOf, s.hist.confirmed);
    assert ClaimedOk(codec, head, s.hist.eventOf);
    var e := s.hist.eventOf[head.id];
    assert codec.parse(head.body) == Contract.Ok(e);
    var b' := AddReady(s.broker, multiset{codec.render(e)});
    forall x
      ensures InBroker(b', x) <==> InBroker(s.broker, x) || x == codec.render(e)
    {
      AddedBody(s.broker, multiset{codec.render(e)}, x);
    }
    assert EventOfOrder(s.hist.placed, e);
    assert Genuine(codec, s.hist.placed, codec.render(e));
    BrokerStep(codec, s, b', s.inbox);
    PublishRelays(codec, s.(broker := b'), r);
  }

  // The relay's own half of a publish.
  lemma PublishRelays(codec: Codec, s: System, r: nat)
    requires TransitInv(codec, s) && Running(s, r, Ready)
    requires s.relays[r].todo[0].id in s.hist.eventOf
    requires Landed(codec, s.broker, s.inbox.marks, s.hist.eventOf[s.relays[r].todo[0].id])
    ensures TransitInv(codec, s.(relays := s.relays[r := s.relays[r].(phase := Sent)]))
  {
    assert RelayOk(codec, s.relays[r], s.hist.eventOf, s.hist.confirmed);
  }

  lemma ConfirmRelays(codec: Codec, relays: map<nat, Relay>, r: nat, eventOf: map<nat, Contract.Event>,
                      confirmed: set<nat>)
    requires RelaysInv(codec, relays, eventOf, confirmed) && r in relays
    ensures relays[r].todo != []
    ensures RelaysInv(codec, relays[r := relays[r].(phase := Confirmed)], eventOf, confirmed + {relays[r].todo[0].id})
  {
    var relays' := relays[r := relays[r].(phase := Confirmed)];
    assert RelayOk(codec, relays[r], eventOf, confirmed);
    forall q | q in relays'
      ensures RelayOk(codec, relays'[q], eventOf, confirmed + {relays[r].todo[0].id})
    {
      assert RelayOk(codec, relays[q], eventOf, confirmed);
    }
  }

  lemma ConfirmSent(codec: Codec, relays: map<nat, Relay>, r: nat, b: Broker, marks: seq<string>,
                    eventOf: map<nat, Contract.Event>)
    requires SentInv(codec, relays, b, marks, eventOf) && r in relays && relays[r].phase == Sent
    ensures SentInv(codec, relays[r := relays[r].(phase := Confirmed)], b, marks, eventOf)
  {
    assert SentOk(codec, relays[r], b, marks, eventOf);
  }

  lemma ConfirmKeeps(codec: Codec, s: System, r: nat)
    requires Faithful(codec) && Inv(codec, s) && Enabled(codec, s, Action.Confirm(r))
    ensures Inv(codec, Do(codec, s, Action.Confirm(r)))
  {
    ConfirmRelays(codec, s.relays, r, s.hist.eventOf, s.hist.confirmed);
    ConfirmSent(codec, s.relays, r, s.broker, s.inbox.marks, s.hist.eventOf);
    assert RowsInv(s.db.outbox, s.hist.eventOf, s.hist.confirmed + {s.relays[r].todo[0].id});
  }

  lemma AdvancedRelay(codec: Codec, relay: Relay, eventOf: map<nat, Contract.Event>, confirmed: set<nat>)
    requires RelayOk(codec, relay, eventOf, confirmed) && |relay.todo| > 1
    ensures RelayOk(codec, Relay(relay.todo[1..], Ready), eventOf, confirmed)
  {
  }

  lemma AdvanceKeeps(codec: Codec, s: System, r: nat)
    requires TransitInv(codec, s) && Running(s, r, Confirmed)
    ensures TransitInv(codec, s.(relays := Advance(s.relays, r)))
  {
    if |s.relays[r].todo| > 1 {
      AdvancedRelay(codec, s.relays[r], s.hist.eventOf, s.hist.confirmed);
    }
  }

  lemma MarkKeeps(codec: Codec, s: System, r: nat)
    requires Faithful(codec) && Inv(codec, s) && Enabled(codec, s, Action.Mark(r))
    ensures Inv(codec, Do(codec, s, Action.Mark(r)))
  {
    var id := s.relays[r].todo[0].id;
    assert RelayOk(codec, s.relays[r], s.hist.eventOf, s.hist.confirmed);
    assert ClaimedOk(codec, s.relays[r].todo[0], s.hist.eventOf);
    assert SentOk(codec, s.relays[r], s.broker, s.inbox.marks, s.hist.eventOf);
    MarkRowStays(s.db.outbox, id, s.now);
    var outbox' := Outbox.MarkRow(s.db.outbox, id, s.now);
    OutboxStep(codec, s, outbox', {id});
    AdvanceKeeps(codec, s.(db := s.db.(outbox := outbox')), r);
  }

  lemma PurgeKeeps(codec: Codec, s: System)
    requires Faithful(codec) && Inv(codec, s)
    ensures Inv(codec, Do(codec, s, Action.Purge))
  {
    PurgedStays(s.db.outbox, s.now);
    OutboxStep(codec, s, Outbox.Purged(s.db.outbox, s.now), {});
  }

  // ----- the checkout step -----

  // What a sale writes, as the rest of the pipeline sees it.
  lemma SoldWrites(db: Db, input: Input, ids: Ids)
    requires CheckoutLaws.Sells(db, input)
    ensures var db' := CheckoutLaws.Sold(db, input, ids);
      && ids.order in db'.orders && db'.orders.Keys == db.orders.Keys + {ids.order}
      && db'.orders[ids.order].buyer == input.buyer
      && ids.outbox in db'.outbox && db'.outbox == db.outbox[ids.outbox := db'.outbox[ids.outbox]]
      && db'.outbox[ids.outbox].publishedAt.None? && db'.outbox[ids.outbox].attempts == 0
      && db'.outbox[ids.outbox].payload == Checkout.PlacedEvent(ids.order, db'.orders[ids.order])
  {
  }

  lemma SaleWrites(db: Db, input: Input, ids: Ids)
    requires BooksInv(db) && Checkout.Run(db, input, ids).out.Created?
    ensures var db' := Checkout.Run(db, input, ids).db;
      && ids.order in db'.orders && db'.orders.Keys == db.orders.Keys + {ids.order}
      && ids.outbox in db'.outbox && db'.outbox == db.outbox[ids.outbox := db'.outbox[ids.outbox]]
      && db'.outbox[ids.outbox].publishedAt.None? && db'.outbox[ids.outbox].attempts == 0
      && db'.outbox[ids.outbox].payload == Checkout.PlacedEvent(ids.order, db'.orders[ids.order])
      && db'.orders[ids.order].buyer >= 1
  {
    CheckoutLaws.SellsOrNothing(db, input, ids);
    SoldWrites(db, input, ids);
    assert input.buyer in db.users;
  }

  lemma PlacedEventValid(o: nat, order: Order)
    requires 1 <= o <= SAFE && order.buyer >= 1
    ensures var e := Checkout.PlacedEvent(o, order);
      Contract.Valid(e) && e.orderId == o && e.eventId == Contract.EventId(o)
  {
    DoubleFloor(o);
    DoubleFloor(order.buyer);
  }

  // Order ids that a double still tells apart.
  ghost predicate ExactIds(placed: map<nat, Contract.Event>) {
    forall o :: o in placed ==> o <= SAFE
  }

  lemma BuyKeeps(codec: Codec, s: System, input: Input, ids: Ids)
    requires Faithful(codec) && Inv(codec, s) && NamedInv(s.hist.placed) && Enabled(codec, s, Action.Buy(input, ids))
    requires ExactIds(DoBuy(s, input, ids).hist.placed)
    ensures Inv(codec, DoBuy(s, input, ids)) && NamedInv(DoBuy(s, input, ids).hist.placed)
  {
    var s' := DoBuy(s, input, ids);
    if Checkout.Run(s.db, input, ids).out.Created? && ids.outbox in Checkout.Run(s.db, input, ids).db.outbox {
      var o, id := ids.order, ids.outbox;
      assert o in s'.hist.placed;
      CheckoutLaws.CheckoutConserves(s.db, input, ids);
      SaleWrites(s.db, input, ids);
      PlacedEventValid(o, s'.db.orders[o]);
      var e := s'.db.outbox[id].payload;
      BuyNames(s.hist.placed, o, e);
      BuyDatabase(s, s', o, id, e);
      BuyTransit(codec, s, s', id, e);
      BuyArrival(codec, s, s', o, e);
    }
  }

  // Event ids are spelled from order ids.
  ghost predicate NamedInv(placed: map<nat, Contract.Event>) {
    forall o :: o in placed ==> placed[o].eventId == Contract.EventId(o)
  }

  lemma BuyNames(placed: map<nat, Contract.Event>, o: nat, e: Contract.Event)
    requires NamedInv(placed) && o !in placed && e.eventId == Contract.EventId(o)
    ensures NamedInv(placed[o := e])
    ensures forall p :: p in placed ==> placed[p].eventId != e.eventId
  {
    forall p | p in placed
      ensures placed[p].eventId != e.eventId
    {
      Contract.EventIdInjective(p, o);
    }
  }

  lemma BuyDatabase(s: System, s': System, o: nat, id: nat, e: Contract.Event)
    requires DatabaseInv(s) && o >= 1 && o !in s.hist.placed && id !in s.hist.eventOf
    requires s'.db.orders.Keys == s.db.orders.Keys + {o} && BooksInv(s'.db)
    requires id in s'.db.outbox && s'.db.outbox == s.db.outbox[id := s'.db.outbox[id]]
    requires s'.db.outbox[id].publishedAt.None? && s'.db.outbox[id].payload == e
    requires Contract.Valid(e) && e.orderId == o
    requires s'.hist == s.hist.(placed := s.hist.placed[o := e],
                                rowOf := s.hist.rowOf[o := id],
                                eventOf := s.hist.eventOf[id := e])
    requires forall p :: p in s.hist.placed ==> s.hist.placed[p].eventId != e.eventId
    ensures DatabaseInv(s')
  {
    BuyOrders(s.db.orders, s'.db.orders, s.hist.placed, o, e);
    BuyRowOf(s.hist.placed, s.hist.rowOf, s.hist.eventOf, o, id, e);
    BuyRows(s.db.outbox, s.hist.eventOf, s.hist.confirmed, id, s'.db.outbox[id]);
  }

  lemma BuyRows(outbox: Outbox.Rows, eventOf: map<nat, Contract.Event>, confirmed: set<nat>, id: nat, row: OutboxRow)
    requires RowsInv(outbox, eventOf, confirmed) && id !in eventOf && row.publishedAt.None?
    ensures RowsInv(outbox[id := row], eventOf[id := row.payload], confirmed)
  {
  }

  lemma BuyOrders(orders: map<nat, Order>, orders': map<nat, Order>, placed: map<nat, Contract.Event>, o: nat,
                  e: Contract.Event)
    requires OrdersInv(orders, placed) && o >= 1 && o !in placed && orders'.Keys == orders.Keys + {o}
    requires Contract.Valid(e) && e.orderId == o
    requires forall p :: p in placed ==> placed[p].eventId != e.eventId
    ensures OrdersInv(orders', placed[o := e])
  {
  }

  lemma BuyRowOf(placed: map<nat, Contract.Event>, rowOf: map<nat, nat>, eventOf: map<nat, Contract.Event>, o: nat,
                 id: nat, e: Contract.Event)
    requires RowOfInv(placed, rowOf, eventOf) && o !in placed && id !in eventOf && Contract.Valid(e)
    ensures RowOfInv(placed[o := e], rowOf[o := id], eventOf[id := e])
  {
    var placed' := placed[o := e];
    assert EventOfOrder(placed', e) by { assert placed'[o] == e; }
    forall x | x in eventOf
      ensures EventOfOrder(placed', eventOf[x])
    {
      assert EventOfOrder(placed, eventOf[x]);
      var p :| p in placed && eventOf[x] == placed[p];
      assert placed'[p] == placed[p];
    }
  }

  lemma BuyTransit(codec: Codec, s: System, s': System, id: nat, e: Contract.Event)
    requires DatabaseInv(s) && TransitInv(codec, s) && id !in s.hist.eventOf
    requires s'.relays == s.relays && s'.broker == s.broker && s'.inbox == s.inbox
    requires s'.hist.eventOf == s.hist.eventOf[id := e] && s'.hist.confirmed == s.hist.confirmed
    requires id in s'.db.outbox && s'.db.outbox == s.db.outbox[id := s'.db.outbox[id]]
    requires s'.db.outbox[id].publishedAt.None?
    ensures TransitInv(codec, s')
  {
    forall r | r in s.relays
      ensures RelayOk(codec, s.relays[r], s'.hist.eventOf, s.hist.confirmed)
      ensures SentOk(codec, s.relays[r], s.broker, s.inbox.marks, s'.hist.eventOf)
    {
      assert SentOk(codec, s.relays[r], s.broker, s.inbox.marks, s.hist.eventOf);
      RelayOkGrows(codec, s.relays[r], s.hist.eventOf, id, e, s.hist.confirmed);
    }
  }

  lemma RelayOkGrows(codec: Codec, relay: Relay, eventOf: map<nat, Contract.Event>, id: nat, e: Contract.Event,
                     confirmed: set<nat>)
    requires RelayOk(codec, relay, eventOf, confirmed) && id !in eventOf
    ensures RelayOk(codec, relay, eventOf[id := e], confirmed)
    ensures relay.todo[0].id in eventOf
  {
    forall i | 0 <= i < |relay.todo|
      ensures ClaimedOk(codec, relay.todo[i], eventOf[id := e])
    {
      assert ClaimedOk(codec, relay.todo[i], eventOf);
    }
  }

  lemma BuyArrival(codec: Codec, s: System, s': System, o: nat, e: Contract.Event)
    requires ArrivalInv(codec, s) && o !in s.hist.placed
    requires s'.broker == s.broker && s'.inbox == s.inbox && s'.hist.placed == s.hist.placed[o := e]
    ensures ArrivalInv(codec, s')
  {
    var placed, placed' := s.hist.placed, s'.hist.placed;
    forall body | InBroker(s'.broker, body)
      ensures Genuine(codec, placed', body)
    {
      assert Genuine(codec, placed, body);
      if codec.parse(body).Ok? {
        var p :| p in placed && body == codec.render(placed[p]);
        assert placed'[p] == placed[p];
      }
    }
    forall i | 0 <= i < |s'.inbox.effects|
      ensures EffectOf(placed', s'.inbox.effects[i])
    {
      assert EffectOf(placed, s.inbox.effects[i]);
      var p :| p in placed && s.inbox.effects[i].orderId == p && s.inbox.effects[i].eventId == placed[p].eventId;
      assert placed'[p] == placed[p];
    }
  }

  // ----- every step, every run -----

  lemma StopKeeps(codec: Codec, s: System, r: nat)
    requires Inv(codec, s) && r in s.relays
    ensures Inv(codec, s.(relays := s.relays - {r}))
  {
  }

  lemma ProducerStepKeeps(codec: Codec, s: System, a: Action)
    requires Faithful(codec) && Inv(codec, s) && Enabled(codec, s, a)
    requires a.Claim? || a.Publish? || a.Confirm? || a.Mark? || a.StopRelay? || a.Purge? || a.Pass?
    ensures Inv(codec, Do(codec, s, a))
  {
    match a
    case Claim(r, limit, aggregate, locked, read) => ClaimKeeps(codec, s, r, limit, aggregate, locked, read);
    case Publish(r) => PublishKeeps(codec, s, r);
    case Confirm(r) => ConfirmKeeps(codec, s, r);
    case Mark(r) => MarkKeeps(codec, s, r);
    case StopRelay(r) => StopKeeps(codec, s, r);
    case Purge => PurgeKeeps(codec, s);
    case Pass(ms) =>
  }

  lemma OnlyBuyPlaces(codec: Codec, s: System, a: Action)
    requires Enabled(codec, s, a) && !a.Buy?
    ensures Do(codec, s, a).hist.placed == s.hist.placed
  {
  }

  lemma ConsumerStepKeeps(codec: Codec, s: System, a: Action)
    requires Faithful(codec) && Inv(codec, s) && Enabled(codec, s, a)
    requires a.Deliver? || a.Apply? || a.ApplyLate? || a.Ack? || a.Reject? || a.Nack? || a.Close? || a.DeadLetter?
          || a.Garbage?
    ensures Inv(codec, Do(codec, s, a))
  {
    match a
    case Deliver(c, body) => DeliverKeeps(codec, s, c, body);
    case Apply(c, body) => ApplyKeeps(codec, s, c, body);
    case ApplyLate(body) => ApplyLateKeeps(codec, s, body);
    case Ack(c) => AckKeeps(codec, s, c);
    case Reject(c, body) => RejectKeeps(codec, s, c, body);
    case Nack(c, body) => NackKeeps(codec, s, c, body);
    case Close(c) => CloseKeeps(codec, s, c);
    case DeadLetter(body) => DeadLetterKeeps(codec, s, body);
    case Garbage(body) => GarbageKeeps(codec, s, body);
  }

  lemma StepKeeps(codec: Codec, s: System, a: Action)
    requires Faithful(codec) && Inv(codec, s) && NamedInv(s.hist.placed) && Enabled(codec, s, a)
    requires ExactIds(Do(codec, s, a).hist.placed)
    ensures Inv(codec, Do(codec, s, a)) && NamedInv(Do(codec, s, a).hist.placed)
  {
    if a.Buy? {
      BuyKeeps(codec, s, a.input, a.ids);
      return;
    }
    OnlyBuyPlaces(codec, s, a);
    if a.Claim? || a.Publish? || a.Confirm? || a.Mark? || a.StopRelay? || a.Purge? || a.Pass? {
      ProducerStepKeeps(codec, s, a);
    } else {
      ConsumerStepKeeps(codec, s, a);
    }
  }

  lemma StepPlaces(codec: Codec, s: System, a: Action)
    requires Enabled(codec, s, a)
    ensures s.hist.placed.Keys <= Do(codec, s, a).hist.placed.Keys
  {
  }

  lemma {:induction false} OrdersStay(codec: Codec, s: System, actions: seq<Action>, s': System)
    requires Executes(codec, s, actions, s')
    ensures s.hist.placed.Keys <= s'.hist.placed.Keys
    decreases |actions|
  {
    if actions != [] {
      StepPlaces(codec, s, actions[0]);
      OrdersStay(codec, Do(codec, s, actions[0]), actions[1..], s');
    }
  }

  lemma {:induction false} RunKeeps(codec: Codec, s: System, actions: seq<Action>, s': System)
    requires Faithful(codec) && Inv(codec, s) && NamedInv(s.hist.placed) && Executes(codec, s, actions, s')
    requires ExactIds(s'.hist.placed)
    ensures Inv(codec, s') && NamedInv(s'.hist.placed)
    decreases |actions|
  {
    if actions != [] {
      OrdersStay(codec, Do(codec, s, actions[0]), actions[1..], s');
      StepKeeps(codec, s, actions[0]);
      RunKeeps(codec, Do(codec, s, actions[0]), actions[1..], s');
    }
  }

  lemma InitialInv(codec: Codec, s: System)
    requires Initial(s)
    ensures Inv(codec, s) && NamedInv(s.hist.placed)
  {
  }

  // ----- the results -----

  // Nothing unpublished, nothing queued, nothing dead-lettered.
  ghost predicate Quiet(s: System) {
    && Outbox.Unpublished(s.db.outbox) == {}
    && forall body :: !InBroker(s.broker, body)
  }

  // Each order is accounted for by its event, exactly one effect per order that
  // has been applied, none for anything else.
  ghost predicate OnceEach(s: System) {
    && (forall i :: 0 <= i < |s.inbox.effects| ==> HasOrder(s.db.orders, s.inbox.effects[i]))
    && (forall i, j :: 0 <= i < j < |s.inbox.effects| ==> s.inbox.effects[i].orderId != s.inbox.effects[j].orderId)
  }

  ghost predicate HasOrder(orders: map<nat, Order>, effect: Inbox.Effect) {
    exists o :: o in orders && effect == Inbox.Effect(Contract.EventId(o), o)
  }

  ghost predicate HasEffect(s: System, o: nat) {
    exists i :: 0 <= i < |s.inbox.effects| && s.inbox.effects[i] == Inbox.Effect(Contract.EventId(o), o)
  }

  ghost predicate Unsent(outbox: Outbox.Rows, e: Contract.Event) {
    exists id :: Pending(outbox, id) && outbox[id].payload == e
  }

  // The order's event is an unpublished outbox row, or is in the broker, or has
  // had its effect.
  ghost predicate Accounted(codec: Codec, s: System, o: nat) {
    && o in s.hist.placed && s.hist.placed[o].eventId == Contract.EventId(o) && s.hist.placed[o].orderId == o
    && (Unsent(s.db.outbox, s.hist.placed[o])
        || InBroker(s.broker, codec.render(s.hist.placed[o]))
        || HasEffect(s, o))
  }

  lemma EffectsAreOnceEach(codec: Codec, s: System)
    requires Inv(codec, s) && NamedInv(s.hist.placed)
    ensures OnceEach(s)
  {
    var placed, effects := s.hist.placed, s.inbox.effects;
    forall i | 0 <= i < |effects|
      ensures HasOrder(s.db.orders, effects[i])
    {
      assert EffectOf(placed, effects[i]);
      var o :| o in placed && effects[i].orderId == o && effects[i].eventId == placed[o].eventId;
      assert o in s.db.orders && effects[i] == Inbox.Effect(Contract.EventId(o), o);
    }
    forall i, j | 0 <= i < j < |effects|
      ensures effects[i].orderId != effects[j].orderId
    {
      assert EffectOf(placed, effects[i]) && EffectOf(placed, effects[j]);
      assert s.inbox.marks[i] != s.inbox.marks[j];
    }
  }

  lemma MarkedHasEffect(codec: Codec, s: System, o: nat)
    requires Inv(codec, s) && NamedInv(s.hist.placed) && o in s.hist.placed
    requires s.hist.placed[o].eventId in s.inbox.marks
    ensures HasEffect(s, o)
  {
    var i :| 0 <= i < |s.inbox.marks| && s.inbox.marks[i] == s.hist.placed[o].eventId;
    assert EffectOf(s.hist.placed, s.inbox.effects[i]);
    var p :| p in s.hist.placed && s.inbox.effects[i].orderId == p
      && s.inbox.effects[i].eventId == s.hist.placed[p].eventId;
    assert p == o;
    assert s.inbox.effects[i] == Inbox.Effect(Contract.EventId(o), o);
  }

  lemma EveryOrderAccounted(codec: Codec, s: System, o: nat)
    requires Inv(codec, s) && NamedInv(s.hist.placed) && o in s.db.orders
    ensures Accounted(codec, s, o)
  {
    var id := s.hist.rowOf[o];
    assert o in s.hist.placed;
    assert s.hist.eventOf[id] == s.hist.placed[o];
    assert Pending(s.db.outbox, id) || Landed(codec, s.broker, s.inbox.marks, s.hist.eventOf[id]);
    if Pending(s.db.outbox, id) {
      assert s.db.outbox[id].payload == s.hist.placed[o];
      assert Unsent(s.db.outbox, s.hist.placed[o]);
    } else if s.hist.placed[o].eventId in s.inbox.marks {
      MarkedHasEffect(codec, s, o);
    }
  }

  // Exactly-once result over at-least-once delivery. In every state any run can
  // reach - any number of checkouts, relays and consumers, a crash between any
  // two steps - every order is accounted for, no order has two effects, no
  // effect lacks its order, and when everything is quiet effects equal orders.
  lemma ExactlyOnce(codec: Codec, s0: System, actions: seq<Action>, s: System)
    requires Faithful(codec) && Initial(s0) && Executes(codec, s0, actions, s)
    requires ExactIds(s.hist.placed)
    ensures forall o :: o in s.db.orders ==> Accounted(codec, s, o)
    ensures OnceEach(s)
    ensures Quiet(s) ==> forall o :: o in s.db.orders <==> HasEffect(s, o)
    ensures Quiet(s) ==> |s.inbox.effects| == |s.db.orders|
  {
    InitialInv(codec, s0);
    RunKeeps(codec, s0, actions, s);
    EffectsAreOnceEach(codec, s);
    forall o | o in s.db.orders
      ensures Accounted(codec, s, o)
    {
      EveryOrderAccounted(codec, s, o);
    }
    if Quiet(s) {
      QuietMeansEqual(codec, s);
    }
  }

  lemma PublishedIsNotUnsent(outbox: Outbox.Rows, e: Contract.Event)
    requires Outbox.Unpublished(outbox) == {}
    ensures !Unsent(outbox, e)
  {
    forall id | id in outbox
      ensures !Pending(outbox, id)
    {
      assert id !in Outbox.Unpublished(outbox);
    }
  }

  lemma QuietMeansEqual(codec: Codec, s: System)
    requires Quiet(s) && OnceEach(s) && forall o :: o in s.db.orders ==> Accounted(codec, s, o)
    ensures forall o :: o in s.db.orders <==> HasEffect(s, o)
    ensures |s.inbox.effects| == |s.db.orders|
  {
    forall o: nat
      ensures o in s.db.orders <==> HasEffect(s, o)
    {
      if o in s.db.orders {
        assert Accounted(codec, s, o);
        PublishedIsNotUnsent(s.db.outbox, s.hist.placed[o]);
      }
    }
    forall i | 0 <= i < |s.inbox.effects|
      ensures s.inbox.effects[i].orderId >= 0 && s.inbox.effects[i].orderId in s.db.orders.Keys
    {
      assert HasOrder(s.db.orders, s.inbox.effects[i]);
    }
    CountEffects(s.inbox.effects, s.db.orders.Keys);
    assert |s.db.orders.Keys| == |s.db.orders|;
  }

  // As many effects as orders.
  lemma {:induction false} CountEffects(effects: seq<Inbox.Effect>, orders: set<nat>)
    requires forall i :: 0 <= i < |effects| ==> effects[i].orderId >= 0 && effects[i].orderId in orders
    requires forall i, j :: 0 <= i < j < |effects| ==> effects[i].orderId != effects[j].orderId
    requires forall o :: o in orders ==> exists i :: 0 <= i < |effects| && effects[i].orderId == o
    ensures |effects| == |orders|
    decreases |effects|
  {
    if effects == [] {
      assert orders == {};
    } else {
      var n := |effects| - 1;
      var last := effects[n].orderId;
      forall o | o in orders - {last}
        ensures exists i :: 0 <= i < n && effects[..n][i].orderId == o
      {
        var i :| 0 <= i < |effects| && effects[i].orderId == o;
        assert effects[..n][i].orderId == o;
      }
      CountEffects(effects[..n], orders - {last});
    }
  }
}
