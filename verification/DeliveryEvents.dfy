/** What the pipeline's events say, and that every sale enters the pipeline. */
module DeliveryEvents {
  import opened Prelude
  import opened Tables
  import opened Numbers
  import opened Delivery
  import opened DeliveryLaws
  import Contract
  import Checkout
  import CheckoutLaws
  import Outbox
  import Inbox

  // ----- events tell of their orders -----

  ghost predicate EventsTell(orders: map<nat, Order>, placed: map<nat, Contract.Event>) {
    forall o :: o in placed ==> o in orders && CheckoutLaws.Tells(placed[o], o, orders[o])
  }

  // Only a purchase touches orders.
  lemma OrdersKept(codec: Codec, s: System, a: Action)
    requires Enabled(codec, s, a) && !a.Buy?
    ensures Do(codec, s, a).db.orders == s.db.orders && Do(codec, s, a).hist.placed == s.hist.placed
  {
  }

  // A purchase is the checkout, whole: its tables, and nothing else of the system
  // but the record that the order was placed.
  lemma BuyIsCheckout(codec: Codec, s: System, input: Input, ids: Ids)
    requires BooksInv(s.db) && Enabled(codec, s, Buy(input, ids))
    ensures var s', r := Do(codec, s, Buy(input, ids)), Checkout.Run(s.db, input, ids);
      && s'.db == r.db && s'.relays == s.relays && s'.broker == s.broker && s'.inbox == s.inbox
      && s'.hist.placed.Keys == s.hist.placed.Keys + (if r.out.Created? then {ids.order} else {})
      && (r.out.Created? ==> ids.outbox in r.db.outbox && s'.hist.placed[ids.order] == r.db.outbox[ids.outbox].payload)
      && (forall o :: o in s.hist.placed ==> s'.hist.placed[o] == s.hist.placed[o])
  {
    if Checkout.Run(s.db, input, ids).out.Created? { SaleWrites(s.db, input, ids); }
    CheckoutLaws.SellsOrNothing(s.db, input, ids);
  }

  lemma SaleKeepsOrders(db: Db, input: Input, ids: Ids)
    requires ids.order !in db.orders && Checkout.Run(db, input, ids).out.Created?
    ensures var orders' := Checkout.Run(db, input, ids).db.orders;
      forall o :: o in db.orders ==> o in orders' && orders'[o] == db.orders[o]
  {
    CheckoutLaws.RunMeansVerdict(db, input, ids);
  }

  lemma BuyTells(codec: Codec, s: System, input: Input, ids: Ids)
    requires DatabaseInv(s) && EventsTell(s.db.orders, s.hist.placed) && Enabled(codec, s, Buy(input, ids))
    ensures var s' := Do(codec, s, Buy(input, ids)); EventsTell(s'.db.orders, s'.hist.placed)
  {
    BuyIsCheckout(codec, s, input, ids);
    CheckoutLaws.SellsOrNothing(s.db, input, ids);
    if Checkout.Run(s.db, input, ids).out.Created? {
      SaleKeepsOrders(s.db, input, ids);
      CheckoutLaws.SaleStores(s.db, input, ids);
    }
  }

  lemma {:induction false} RunTells(codec: Codec, s: System, actions: seq<Action>, s': System)
    requires Faithful(codec) && Inv(codec, s) && NamedInv(s.hist.placed) && Executes(codec, s, actions, s')
    requires ExactIds(s'.hist.placed) && EventsTell(s.db.orders, s.hist.placed)
    ensures EventsTell(s'.db.orders, s'.hist.placed)
    decreases |actions|
  {
    if actions != [] {
      OrdersStay(codec, Do(codec, s, actions[0]), actions[1..], s');
      StepKeeps(codec, s, actions[0]);
      if actions[0].Buy? {
        BuyTells(codec, s, actions[0].input, actions[0].ids);
      } else {
        OrdersKept(codec, s, actions[0]);
      }
      RunTells(codec, Do(codec, s, actions[0]), actions[1..], s');
    }
  }

  // In every run the event of every order, which is what its outbox row holds, tells
  // the order's id, buyer, exact total and time.
  lemma EventTellsOrder(codec: Codec, s0: System, actions: seq<Action>, s: System, o: nat)
    requires Faithful(codec) && Initial(s0) && Executes(codec, s0, actions, s) && ExactIds(s.hist.placed)
    requires o in s.db.orders
    ensures o in s.hist.placed
    ensures var e, order := s.hist.placed[o], s.db.orders[o];
      && e.orderId == o && e.eventId == Contract.EventId(o)
      && (order.buyer <= SAFE ==> e.buyerId == order.buyer)
      && e.totalCents == CheckoutLaws.Total(order.items)
      && e.status == "paid" && e.occurredAt == order.createdAt
    ensures o in s.hist.rowOf
    ensures s.hist.rowOf[o] in s.db.outbox ==> s.db.outbox[s.hist.rowOf[o]].payload == s.hist.placed[o]
  {
    InitialInv(codec, s0);
    RunKeeps(codec, s0, actions, s);
    RunTells(codec, s0, actions, s);
    assert CheckoutLaws.Tells(s.hist.placed[o], o, s.db.orders[o]);
  }

  // ----- every sale enters the pipeline -----

  // Purchases of a run that a serial checkout would grant.
  ghost function Sales(codec: Codec, s: System, actions: seq<Action>): nat
    decreases |actions|
  {
    if actions == [] || !Enabled(codec, s, actions[0]) then 0
    else
      var a := actions[0];
      (if a.Buy? && CheckoutLaws.Verdict(s.db, a.input, a.ids).Created? then 1 else 0)
        + Sales(codec, Do(codec, s, a), actions[1..])
  }

  lemma StepSales(codec: Codec, s: System, a: Action)
    requires DatabaseInv(s) && Enabled(codec, s, a)
    ensures |Do(codec, s, a).db.orders| == |s.db.orders|
      + (if a.Buy? && CheckoutLaws.Verdict(s.db, a.input, a.ids).Created? then 1 else 0)
  {
    if a.Buy? {
      BuyIsCheckout(codec, s, a.input, a.ids);
      CheckoutLaws.RunMeansVerdict(s.db, a.input, a.ids);
      OrderAdded(s.db, a.input, a.ids);
    } else {
      OrdersKept(codec, s, a);
    }
  }

  lemma OrderAdded(db: Db, input: Input, ids: Ids)
    requires BooksInv(db) && ids.order !in db.orders
    ensures var r := Checkout.Run(db, input, ids); |r.db.orders| == |db.orders| + if r.out.Created? then 1 else 0
  {
    var r := Checkout.Run(db, input, ids);
    CheckoutLaws.SellsOrNothing(db, input, ids);
    if r.out.Created? {
      SaleWrites(db, input, ids);
      assert |r.db.orders| == |r.db.orders.Keys| && |db.orders| == |db.orders.Keys|;
    }
  }

  lemma {:induction false} RunSales(codec: Codec, s: System, actions: seq<Action>, s': System)
    requires Faithful(codec) && Inv(codec, s) && NamedInv(s.hist.placed) && Executes(codec, s, actions, s')
    requires ExactIds(s'.hist.placed)
    ensures |s'.db.orders| == |s.db.orders| + Sales(codec, s, actions)
    decreases |actions|
  {
    if actions != [] {
      OrdersStay(codec, Do(codec, s, actions[0]), actions[1..], s');
      StepKeeps(codec, s, actions[0]);
      StepSales(codec, s, actions[0]);
      RunSales(codec, Do(codec, s, actions[0]), actions[1..], s');
    }
  }

  // Every purchase that a serial checkout grants becomes an order with an event,
  // and nothing else does.
  lemma OrdersAreSales(codec: Codec, s0: System, actions: seq<Action>, s: System)
    requires Faithful(codec) && Initial(s0) && Executes(codec, s0, actions, s) && ExactIds(s.hist.placed)
    ensures |s.db.orders| == Sales(codec, s0, actions)
    ensures s.hist.placed.Keys == s.db.orders.Keys
  {
    InitialInv(codec, s0);
    RunKeeps(codec, s0, actions, s);
    RunSales(codec, s0, actions, s);
  }

  // ----- deliveries and the clock -----

  predicate Applies(a: Action) { a.Apply? || a.ApplyLate? }

  function Applications(actions: seq<Action>): nat {
    if actions == [] then 0 else (if Applies(actions[0]) then 1 else 0) + Applications(actions[1..])
  }

  function Passed(actions: seq<Action>): nat {
    if actions == [] then 0 else (if actions[0].Pass? then actions[0].ms else 0) + Passed(actions[1..])
  }

  // Every transaction of a consumer leaves its delivery row, redelivered or not,
  // and time is what has passed.
  lemma {:induction false} DeliveriesCounted(codec: Codec, s: System, actions: seq<Action>, s': System)
    requires Executes(codec, s, actions, s')
    ensures |s'.inbox.deliveries| == |s.inbox.deliveries| + Applications(actions)
    ensures s'.now == s.now + Passed(actions)
    decreases |actions|
  {
    if actions != [] {
      StepCounted(codec, s, actions[0]);
      DeliveriesCounted(codec, Do(codec, s, actions[0]), actions[1..], s');
    }
  }

  lemma StepCounted(codec: Codec, s: System, a: Action)
    requires Enabled(codec, s, a)
    ensures |Do(codec, s, a).inbox.deliveries| == |s.inbox.deliveries| + if Applies(a) then 1 else 0
    ensures Do(codec, s, a).now == s.now + if a.Pass? then a.ms else 0
  {
  }

  // Maintenance removes exactly the rows published more than seven days before.
  lemma PurgeRemovesOld(codec: Codec, s: System, id: nat)
    requires id in s.db.outbox
    ensures var row, outbox' := s.db.outbox[id], Do(codec, s, Purge).db.outbox;
      && (id in outbox' <==> row.publishedAt.None? || row.publishedAt.value + 7 * 24 * 60 * 60 * 1000 >= s.now)
      && (id in outbox' ==> outbox'[id] == row)
  {
  }
}
