/** The pipeline is never stuck: what is still possible in every reachable state. */
module DeliveryRecovery {
  import opened Prelude
  import opened Tables
  import opened Numbers
  import opened Delivery
  import opened DeliveryLaws
  import Json
  import Contract
  import DeliveryCopies
  import Outbox
  import Inbox

  lemma FreshNat(ids: set<nat>) returns (n: nat)
    ensures n !in ids
  {
    n := 0;
    var rest := ids;
    while n in rest
      invariant forall i :: i in ids ==> i < n || i in rest
      decreases |rest|
    {
      rest := rest - {n};
      n := n + 1;
    }
  }

  // A state the invariant covers, with order ids still exact.
  ghost predicate Sound(codec: Codec, s: System) {
    Faithful(codec) && Inv(codec, s) && NamedInv(s.hist.placed) && ExactIds(s.hist.placed)
  }

  // The body carries the event of order o.
  ghost predicate Carries(codec: Codec, s: System, body: Json.Json, o: nat) {
    o in s.hist.placed && codec.parse(body) == Contract.Ok(s.hist.placed[o])
  }

  // Steps other than a purchase keep everything sound.
  lemma StepSound(codec: Codec, s: System, a: Action)
    requires Sound(codec, s) && Enabled(codec, s, a) && !a.Buy?
    ensures Sound(codec, Do(codec, s, a)) && Do(codec, s, a).hist.placed == s.hist.placed
  {
    NothingPlaced(codec, s, a);
    StepKeeps(codec, s, a);
  }

  lemma NothingPlaced(codec: Codec, s: System, a: Action)
    requires Enabled(codec, s, a) && !a.Buy?
    ensures Do(codec, s, a).hist.placed == s.hist.placed
  {
  }

  lemma ApplyGivesEffect(codec: Codec, s: System, c: nat, body: Json.Json, o: nat)
    requires Sound(codec, s) && Enabled(codec, s, Apply(c, body)) && Carries(codec, s, body, o)
    ensures HasEffect(Do(codec, s, Apply(c, body)), o)
    ensures Enabled(codec, Do(codec, s, Apply(c, body)), Ack(c))
    ensures DeliveryCopies.Leaving(codec, Do(codec, s, Apply(c, body)), Ack(c)) == Some(body)
  {
    var s' := Do(codec, s, Apply(c, body));
    StepSound(codec, s, Apply(c, body));
    AppliedIsMarked(s.inbox, codec.parse(body).event);
    MarkedHasEffect(codec, s', o);
  }

  lemma AppliedIsMarked(inbox: Inbox.Inbox, e: Contract.Event)
    ensures e.eventId in Inbox.Apply(inbox, e).marks
  {
  }

  lemma ExecutesOne(codec: Codec, s: System, a: Action, rest: seq<Action>, s': System)
    requires Enabled(codec, s, a) && Executes(codec, Do(codec, s, a), rest, s')
    ensures Executes(codec, s, [a] + rest, s')
  {
    assert ([a] + rest)[1..] == rest;
  }

  lemma ExecutesTwo(codec: Codec, s: System, a: Action, b: Action)
    requires Enabled(codec, s, a) && Enabled(codec, Do(codec, s, a), b)
    ensures Executes(codec, s, [a, b], Do(codec, Do(codec, s, a), b))
  {
    assert [a, b][1..] == [b];
    assert [b][1..] == [];
    assert Executes(codec, Do(codec, Do(codec, s, a), b), [], Do(codec, Do(codec, s, a), b));
  }

  lemma DeliverEnables(codec: Codec, s: System, c: nat, body: Json.Json, o: nat)
    requires c !in s.broker.consumers && body in s.broker.ready && Carries(codec, s, body, o)
    ensures Enabled(codec, s, Deliver(c, body))
    ensures Enabled(codec, Do(codec, s, Deliver(c, body)), Apply(c, body))
    ensures Carries(codec, Do(codec, s, Deliver(c, body)), body, o)
  {
  }

  lemma DeliverThenApply(codec: Codec, s: System, body: Json.Json, o: nat) returns (actions: seq<Action>, s': System)
    requires Sound(codec, s) && body in s.broker.ready && Carries(codec, s, body, o)
    ensures |actions| == 2 && Executes(codec, s, actions, s') && HasEffect(s', o)
  {
    var c := FreshNat(s.broker.consumers.Keys);
    DeliverEnables(codec, s, c, body, o);
    var s1 := Do(codec, s, Deliver(c, body));
    StepSound(codec, s, Deliver(c, body));
    s' := Do(codec, s1, Apply(c, body));
    ApplyGivesEffect(codec, s1, c, body, o);
    ExecutesTwo(codec, s, Deliver(c, body), Apply(c, body));
    actions := [Deliver(c, body), Apply(c, body)];
  }

  // A message some consumer holds comes back when its channel closes.
  lemma CloseThenApply(codec: Codec, s: System, c: nat, body: Json.Json, o: nat)
    returns (actions: seq<Action>, s': System)
    requires Sound(codec, s) && Unacked(s, c, body) && Carries(codec, s, body, o)
    ensures |actions| == 3 && Executes(codec, s, actions, s') && HasEffect(s', o)
  {
    StepSound(codec, s, Close(c));
    var rest;
    rest, s' := DeliverThenApply(codec, Do(codec, s, Close(c)), body, o);
    ExecutesOne(codec, s, Close(c), rest, s');
    actions := [Close(c)] + rest;
  }

  function Printed(codec: Codec, outbox: Outbox.Rows): nat -> Json.Json {
    (id: nat) => if id in outbox then codec.render(outbox[id].payload) else Json.JNull
  }

  // A claim that finds every other row locked.
  function ClaimOnly(codec: Codec, s: System, r: nat, id: nat): Action {
    Claim(r, 1, None, s.db.outbox.Keys - {id}, Printed(codec, s.db.outbox))
  }

  lemma ClaimsOnly(outbox: Outbox.Rows, id: nat)
    requires Pending(outbox, id)
    ensures Outbox.Batch(outbox, Outbox.Claimable(outbox, None, outbox.Keys - {id}), 1) == [id]
  {
    assert Outbox.Claimable(outbox, None, outbox.Keys - {id}) == {id};
    assert Outbox.Oldest(outbox, {id}) == id;
    assert Outbox.Batch(outbox, {id} - {id}, 0) == [];
  }

  lemma ClaimOnlyEnabled(codec: Codec, s: System, r: nat, id: nat)
    requires Faithful(codec) && r !in s.relays && Pending(s.db.outbox, id)
    ensures Enabled(codec, s, ClaimOnly(codec, s, r, id))
    ensures Do(codec, s, ClaimOnly(codec, s, r, id)).relays
      == s.relays[r := Relay([Claimed(id, codec.render(s.db.outbox[id].payload))], Ready)]
  {
    ClaimsOnly(s.db.outbox, id);
    assert Rows([id], Printed(codec, s.db.outbox)) == [Claimed(id, codec.render(s.db.outbox[id].payload))];
  }

  lemma OrderParses(codec: Codec, s: System, o: nat)
    requires Sound(codec, s) && o in s.hist.placed
    ensures Carries(codec, s, codec.render(s.hist.placed[o]), o)
  {
    DeliveryCopies.OrdersParse(codec, s, o);
  }

  lemma PublishPuts(codec: Codec, s: System, r: nat, o: nat)
    requires Running(s, r, Ready) && Carries(codec, s, s.relays[r].todo[0].body, o)
    ensures Enabled(codec, s, Publish(r))
    ensures codec.render(s.hist.placed[o]) in Do(codec, s, Publish(r)).broker.ready
  {
  }

  // An unpublished row can be claimed, published, delivered and applied.
  lemma PublishThenApply(codec: Codec, s: System, id: nat, o: nat) returns (actions: seq<Action>, s': System)
    requires Sound(codec, s) && Pending(s.db.outbox, id) && o in s.hist.placed
    requires s.db.outbox[id].payload == s.hist.placed[o]
    ensures |actions| == 4 && Executes(codec, s, actions, s') && HasEffect(s', o)
  {
    var r := FreshNat(s.relays.Keys);
    var claim := ClaimOnly(codec, s, r, id);
    ClaimOnlyEnabled(codec, s, r, id);
    StepSound(codec, s, claim);
    var s1 := Do(codec, s, claim);
    OrderParses(codec, s1, o);
    PublishPuts(codec, s1, r, o);
    StepSound(codec, s1, Publish(r));
    var s2 := Do(codec, s1, Publish(r));
    OrderParses(codec, s2, o);
    var rest;
    rest, s' := DeliverThenApply(codec, s2, codec.render(s.hist.placed[o]), o);
    ExecutesOne(codec, s1, Publish(r), rest, s');
    ExecutesOne(codec, s, claim, [Publish(r)] + rest, s');
    actions := [claim] + ([Publish(r)] + rest);
  }

  // In every run: applying a message that carries an order's event gives the order
  // its effect and lets that message be acked.
  lemma ApplyTakesEffect(codec: Codec, s0: System, actions: seq<Action>, s: System, c: nat, body: Json.Json, o: nat)
    requires Faithful(codec) && Initial(s0) && Executes(codec, s0, actions, s) && ExactIds(s.hist.placed)
    requires Enabled(codec, s, Apply(c, body)) && Carries(codec, s, body, o)
    ensures HasEffect(Do(codec, s, Apply(c, body)), o)
    ensures Enabled(codec, Do(codec, s, Apply(c, body)), Ack(c))
    ensures DeliveryCopies.Leaving(codec, Do(codec, s, Apply(c, body)), Ack(c)) == Some(body)
  {
    InitialInv(codec, s0);
    RunKeeps(codec, s0, actions, s);
    ApplyGivesEffect(codec, s, c, body, o);
  }

  lemma Recovers(codec: Codec, s: System, o: nat) returns (actions: seq<Action>, s': System)
    requires Sound(codec, s) && Accounted(codec, s, o) && codec.render(s.hist.placed[o]) !in s.broker.dead
    ensures |actions| <= 4 && Executes(codec, s, actions, s') && HasEffect(s', o)
  {
    var body := codec.render(s.hist.placed[o]);
    OrderParses(codec, s, o);
    if HasEffect(s, o) {
      actions, s' := [], s;
    } else if body in s.broker.ready {
      actions, s' := DeliverThenApply(codec, s, body, o);
    } else if Held(s.broker, body) {
      var c :| c in s.broker.consumers && body in s.broker.consumers[c].unacked;
      actions, s' := CloseThenApply(codec, s, c, body, o);
    } else {
      var id :| Pending(s.db.outbox, id) && s.db.outbox[id].payload == s.hist.placed[o];
      actions, s' := PublishThenApply(codec, s, id, o);
    }
  }

  // Whatever has happened - crashes between any two steps, lost confirms, dead
  // relays and consumers - an order whose event is not dead-lettered is at most
  // four steps from its effect.
  lemma NoOrderIsStuck(codec: Codec, s0: System, before: seq<Action>, s: System, o: nat)
    returns (after: seq<Action>, s': System)
    requires Faithful(codec) && Initial(s0) && Executes(codec, s0, before, s) && ExactIds(s.hist.placed)
    requires o in s.db.orders && o in s.hist.placed && codec.render(s.hist.placed[o]) !in s.broker.dead
    ensures |after| <= 4 && Executes(codec, s, after, s') && HasEffect(s', o)
  {
    InitialInv(codec, s0);
    RunKeeps(codec, s0, before, s);
    EveryOrderAccounted(codec, s, o);
    after, s' := Recovers(codec, s, o);
  }
}
