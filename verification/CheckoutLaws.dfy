/**
 * What a checkout means: its answer and its effect stated from the request and
 * the tables alone, without following the statements.
 */
module CheckoutLaws {
  import opened Prelude
  import opened Numbers
  import opened Tables
  import opened Checkout
  import Contract

  // ----- the request against the tables -----

  // Units of p asked for by the first k lines.
  function Demand(lines: seq<Line>, k: nat, p: nat): int
    requires k <= |lines|
  {
    if k == 0 then 0 else
      Demand(lines, k - 1, p) + if lines[k - 1].product == p then lines[k - 1].quantity else 0
  }

  function Products(lines: seq<Line>, k: nat): set<nat>
    requires k <= |lines|
  {
    if k == 0 then {} else Products(lines, k - 1) + {lines[k - 1].product}
  }

  // A line is served when the stock still covers everything the request has
  // asked of that product up to and including this line.
  predicate Served(db: Db, lines: seq<Line>, i: nat)
    requires i < |lines|
  {
    && lines[i].quantity <= INT4_MAX
    && lines[i].product in db.products
    && Demand(lines, i + 1, lines[i].product) <= db.products[lines[i].product].stock
  }

  function FirstUnserved(db: Db, lines: seq<Line>, k: nat): (first: nat)
    requires k <= |lines|
    ensures k <= first <= |lines|
    ensures forall i :: k <= i < first ==> Served(db, lines, i) && lines[i].product in db.products
    ensures first < |lines| ==> !Served(db, lines, first)
    decreases |lines| - k
  {
    if k == |lines| || !Served(db, lines, k) then k else FirstUnserved(db, lines, k + 1)
  }

  function LineFault(db: Db, line: Line): Outcome {
    if line.quantity > INT4_MAX then Failed(IntegerOutOfRange)
    else if line.product in db.products then Rejected(OutOfStock)
    else Rejected(UnknownProduct)
  }

  predicate Known(db: Db, lines: seq<Line>, k: nat)
    requires k <= |lines|
  {
    forall i :: 0 <= i < k ==> lines[i].product in db.products && lines[i].quantity >= 1
  }

  // The order items of the first k lines, at today's prices.
  function Priced(db: Db, lines: seq<Line>, k: nat): seq<Item>
    requires k <= |lines| && Known(db, lines, k)
  {
    if k == 0 then [] else
      var line := lines[k - 1];
      Priced(db, lines, k - 1) + [Item(line.product, line.quantity, db.products[line.product].price)]
  }

  // Exact integer cents: of the first k lines at today's prices, and of the
  // items an order recorded.
  function Cost(db: Db, lines: seq<Line>, k: nat): nat
    requires k <= |lines| && Known(db, lines, k)
  {
    if k == 0 then 0 else
      Cost(db, lines, k - 1) + db.products[lines[k - 1].product].price * lines[k - 1].quantity
  }

  function Total(items: seq<Item>): nat {
    if items == [] then 0 else
      Total(items[..|items| - 1]) + items[|items| - 1].unitPrice * items[|items| - 1].quantity
  }

  lemma {:induction false} CostIsTotal(db: Db, lines: seq<Line>, k: nat)
    requires k <= |lines| && Known(db, lines, k)
    ensures Total(Priced(db, lines, k)) == Cost(db, lines, k)
  {
    if k > 0 {
      CostIsTotal(db, lines, k - 1);
      assert Priced(db, lines, k)[..|Priced(db, lines, k)| - 1] == Priced(db, lines, k - 1);
    }
  }

  predicate RepeatedLine(lines: seq<Line>) {
    exists i, j :: 0 <= i < j < |lines| && lines[i].product == lines[j].product
  }

  function Verdict(db: Db, input: Input, ids: Ids): Outcome {
    var key := input.key;
    if !ValidInput(input) then BadInput
    else if key.Some? && key.value in db.keys then
      if db.keys[key.value].fingerprint != input.fingerprint then KeyReuse
      else if db.keys[key.value].orderId.None? then KeyInFlight
      else Replayed(db.keys[key.value].orderId.value)
    else
      var n, i := |input.items|, FirstUnserved(db, input.items, 0);
      if i < n then LineFault(db, input.items[i])
      else PaymentVerdict(db, input, ids)
  }

  function PaymentVerdict(db: Db, input: Input, ids: Ids): Outcome
    requires Known(db, input.items, |input.items|)
  {
    var total := Cost(db, input.items, |input.items|);
    if total > INT4_MAX then Failed(IntegerOutOfRange)
    else if input.buyer !in db.users || db.users[input.buyer] < total then Rejected(InsufficientFunds)
    else if RepeatedLine(input.items) then Failed(DuplicateLine)
    else if input.crashAfterOutbox then Crashed
    else Created(ids.order)
  }

  predicate Sells(db: Db, input: Input) {
    var n := |input.items|;
    && ValidInput(input) && Known(db, input.items, n) && input.buyer in db.users
    && Cost(db, input.items, n) <= db.users[input.buyer]
    && forall p :: p in Products(input.items, n) ==>
         p in db.products && Demand(input.items, n, p) <= db.products[p].stock
  }

  // The tables after a sale.
  function Sold(db: Db, input: Input, ids: Ids): Db
    requires Sells(db, input)
  {
    var order := SoldOrder(db, input);
    Db(SoldProducts(db, input),
       db.users[input.buyer := db.users[input.buyer] - order.total],
       db.orders[ids.order := order],
       db.jobs[ids.job := Job(Receipt, ids.order, 0, 0)],
       db.outbox[ids.outbox := OutboxRow(ids.order, PlacedEvent(ids.order, order), input.now, None, 0)],
       if input.key.None? then db.keys
       else db.keys[input.key.value := KeyRow(input.fingerprint, Some(ids.order))])
  }

  function SoldOrder(db: Db, input: Input): Order
    requires Known(db, input.items, |input.items|)
  {
    var n := |input.items|;
    Order(input.buyer, Paid, Cost(db, input.items, n), Priced(db, input.items, n), input.stamp)
  }

  function SoldProducts(db: Db, input: Input): map<nat, Product>
    requires Sells(db, input)
  {
    map p | p in db.products :: if p in Products(input.items, |input.items|)
      then db.products[p].(stock := db.products[p].stock - DemandNat(input.items, p)) else db.products[p]
  }

  function DemandNat(lines: seq<Line>, p: nat): nat
    requires forall i :: 0 <= i < |lines| ==> lines[i].quantity >= 1
  {
    DemandPositive(lines, |lines|, p);
    Demand(lines, |lines|, p)
  }

  lemma {:induction false} DemandPositive(lines: seq<Line>, k: nat, p: nat)
    requires k <= |lines| && forall i :: 0 <= i < k ==> lines[i].quantity >= 1
    ensures Demand(lines, k, p) >= 0
    ensures Demand(lines, k, p) > 0 <==> p in Products(lines, k)
  {
    if k > 0 {
      DemandPositive(lines, k - 1, p);
    }
  }

  // ----- money -----

  predicate Charged(exact: nat, double: nat) {
    if exact <= SAFE then double == exact else double > INT4_MAX
  }

  // The running total is kept in doubles. It is exact for as long as it is at
  // most 2^53, and once past that it can no longer fit the integer column.
  lemma RunningTotalStep(exact: nat, double: nat, x: nat)
    requires Charged(exact, double)
    ensures Charged(exact + x, Double(double + Double(x)))
  {
    DoubleFloor(x);
    DoubleFloor(double + Double(x));
  }

  // ----- following the lines -----

  // What the transaction has written once the first k lines are through.
  predicate Taken(db: Db, lines: seq<Line>, k: nat, stock: map<nat, nat>)
    requires k <= |lines|
  {
    && stock.Keys == Products(lines, k)
    && forall p :: p in stock ==> p in db.products && stock[p] == db.products[p].stock - Demand(lines, k, p)
  }

  predicate Through(db: Db, input: Input, k: nat, w: Writes)
    requires k <= |input.items|
  {
    && Known(db, input.items, k)
    && Taken(db, input.items, k, w.stock)
    && w.items == Priced(db, input.items, k)
    && Charged(Cost(db, input.items, k), w.total)
    && w.key == ClaimedRow(input)
    && w.balance.None? && w.order.None? && w.job.None? && w.outbox.None?
  }

  function ClaimedRow(input: Input): Option<KeyRow> {
    if input.key.None? then None else Some(KeyRow(input.fingerprint, None))
  }

  // What is left of a product inside the transaction.
  lemma SeenStock(db: Db, lines: seq<Line>, k: nat, w: Writes, p: nat)
    requires k <= |lines| && Known(db, lines, k) && Taken(db, lines, k, w.stock) && p in db.products
    ensures StockSeen(db, w, p) == db.products[p].stock - Demand(lines, k, p)
  {
    DemandPositive(lines, k, p);
  }

  lemma TakenLine(db: Db, lines: seq<Line>, k: nat, stock: map<nat, nat>, left: nat)
    requires k < |lines| && Taken(db, lines, k, stock)
    requires lines[k].product in db.products
    requires left == db.products[lines[k].product].stock - Demand(lines, k + 1, lines[k].product)
    ensures Taken(db, lines, k + 1, stock[lines[k].product := left])
  {
  }

  lemma ThroughServed(db: Db, input: Input, k: nat, w: Writes, left: nat, item: Item, total: nat)
    requires k < |input.items| && Through(db, input, k, w)
    requires var line := input.items[k];
      && line.product in db.products && line.quantity >= 1
      && left == db.products[line.product].stock - Demand(input.items, k + 1, line.product)
      && item == Item(line.product, line.quantity, db.products[line.product].price)
    requires Charged(Cost(db, input.items, k) + item.unitPrice * item.quantity, total)
    ensures Through(db, input, k + 1,
                    w.(stock := w.stock[item.product := left], items := w.items + [item], total := total))
  {
    TakenLine(db, input.items, k, w.stock, left);
  }

  lemma ThroughLine(db: Db, input: Input, k: nat, w: Writes)
    requires ValidInput(input) && k < |input.items| && Through(db, input, k, w)
    ensures var s := TakeStock(db, input.items[k], w);
      if Served(db, input.items, k) then s.Continue? && Through(db, input, k + 1, s.writes)
      else s == Stop(LineFault(db, input.items[k]))
  {
    var line := input.items[k];
    var p := line.product;
    if p in db.products {
      SeenStock(db, input.items, k, w, p);
      if Served(db, input.items, k) {
        var item := Item(p, line.quantity, db.products[p].price);
        RunningTotalStep(Cost(db, input.items, k), w.total, item.unitPrice * item.quantity);
        ThroughServed(db, input, k, w, StockSeen(db, w, p) - line.quantity, item, TakeStock(db, line, w).writes.total);
      }
    }
  }

  // The stock loop on its own.
  function TakeLines(db: Db, lines: seq<Line>, w: Writes, k: nat): Step
    requires k <= |lines| && forall i :: 0 <= i < |lines| ==> lines[i].quantity >= 1
    decreases |lines| - k
  {
    if k == |lines| then Continue(w) else
      match TakeStock(db, lines[k], w)
      case Stop(out) => Stop(out)
      case Continue(w') => TakeLines(db, lines, w', k + 1)
  }

  lemma {:induction false} RunTakesLines(db: Db, input: Input, ids: Ids, w: Writes, k: nat)
    requires ValidInput(input) && k <= |input.items|
    ensures RunFrom(db, input, ids, w, k + 1) ==
      match TakeLines(db, input.items, w, k)
      case Stop(out) => Result(db, out)
      case Continue(w') => RunFrom(db, input, ids, w', |input.items| + 1)
    decreases |input.items| - k
  {
    if k < |input.items| && TakeStock(db, input.items[k], w).Continue? {
      RunTakesLines(db, input, ids, TakeStock(db, input.items[k], w).writes, k + 1);
    }
  }

  lemma {:induction false} FollowLines(db: Db, input: Input, w: Writes, k: nat)
    requires ValidInput(input) && k <= |input.items| && Through(db, input, k, w)
    ensures var s, i := TakeLines(db, input.items, w, k), FirstUnserved(db, input.items, k);
      if i < |input.items| then s == Stop(LineFault(db, input.items[i]))
      else s.Continue? && Through(db, input, |input.items|, s.writes)
    decreases |input.items| - k
  {
    if k < |input.items| {
      ThroughLine(db, input, k, w);
      if Served(db, input.items, k) {
        FollowLines(db, input, TakeStock(db, input.items[k], w).writes, k + 1);
      }
    }
  }

  // ----- the answer -----

  // The outcome of every checkout on every state of the tables, and the tables
  // it leaves.
  lemma RunMeansVerdict(db: Db, input: Input, ids: Ids)
    ensures Run(db, input, ids).out == Verdict(db, input, ids)
    ensures if Verdict(db, input, ids).Created?
      then Sells(db, input) && Run(db, input, ids).db == Sold(db, input, ids)
      else Run(db, input, ids).db == db
  {
    if ValidInput(input) {
      RunClaims(db, input, ids);
      if ClaimKey(db, input, NOTHING).Continue? {
        var w0 := ClaimKey(db, input, NOTHING).writes;
        FollowLines(db, input, w0, 0);
        RunTakesLines(db, input, ids, w0, 0);
        if FirstUnserved(db, input.items, 0) == |input.items| {
          AfterLines(db, input, ids, TakeLines(db, input.items, w0, 0).writes);
        }
      }
    }
  }

  lemma RunClaims(db: Db, input: Input, ids: Ids)
    requires ValidInput(input)
    ensures var s := ClaimKey(db, input, NOTHING);
      Run(db, input, ids) == if s.Stop? then Result(db, s.out) else RunFrom(db, input, ids, s.writes, 1)
  {
    assert Exec(db, input, ids, NOTHING, 0) == ClaimKey(db, input, NOTHING);
  }

  lemma AfterLines(db: Db, input: Input, ids: Ids, w: Writes)
    requires ValidInput(input) && Through(db, input, |input.items|, w)
    ensures var r := RunFrom(db, input, ids, w, |input.items| + 1);
      && r.out == PaymentVerdict(db, input, ids)
      && if r.out.Created? then Sells(db, input) && r.db == Sold(db, input, ids) else r.db == db
  {
    DebitThenFinish(db, input, ids, w);
    SameRepeats(db, input.items);
    if Debit(db, input, w).Continue? && !RepeatedLine(input.items) {
      FinishIsSold(db, input, ids, w);
    }
  }

  lemma DebitThenFinish(db: Db, input: Input, ids: Ids, w: Writes)
    requires ValidInput(input)
    ensures var s := Debit(db, input, w);
      RunFrom(db, input, ids, w, |input.items| + 1) ==
        if s.Stop? then Result(db, s.out) else Finish(db, input, ids, s.writes)
  {
    var n := |input.items|;
    assert Exec(db, input, ids, w, n + 1) == Debit(db, input, w);
    if Debit(db, input, w).Continue? {
      FinishFrom(db, input, ids, Debit(db, input, w).writes);
    }
  }

  lemma FinishIsSold(db: Db, input: Input, ids: Ids, w: Writes)
    requires ValidInput(input) && Through(db, input, |input.items|, w)
    requires Debit(db, input, w).Continue? && !RepeatedProduct(w.items)
    ensures Sells(db, input)
    ensures Finish(db, input, ids, Debit(db, input, w).writes) ==
      if input.crashAfterOutbox then Result(db, Crashed) else Result(Sold(db, input, ids), Created(ids.order))
  {
    forall p | p in Products(input.items, |input.items|)
      ensures Demand(input.items, |input.items|, p) <= db.products[p].stock
    {
      assert w.stock[p] == db.products[p].stock - Demand(input.items, |input.items|, p);
    }
    assert Restock(db.products, w.stock) == SoldProducts(db, input);
  }

  lemma {:induction false} PricedAt(db: Db, lines: seq<Line>, k: nat, i: nat)
    requires k <= |lines| && Known(db, lines, k) && i < k
    ensures |Priced(db, lines, k)| == k
    ensures Priced(db, lines, k)[i] == Item(lines[i].product, lines[i].quantity, db.products[lines[i].product].price)
  {
    if k > 1 { PricedAt(db, lines, k - 1, if i < k - 1 then i else 0); }
  }

  lemma SameRepeats(db: Db, lines: seq<Line>)
    requires Known(db, lines, |lines|)
    ensures RepeatedProduct(Priced(db, lines, |lines|)) <==> RepeatedLine(lines)
  {
    var items := Priced(db, lines, |lines|);
    forall i | 0 <= i < |lines|
      ensures |items| == |lines| && items[i].product == lines[i].product
    {
      PricedAt(db, lines, |lines|, i);
    }
    if RepeatedLine(lines) {
      var i, j :| 0 <= i < j < |lines| && lines[i].product == lines[j].product;
      assert items[i].product == items[j].product;
    }
    if RepeatedProduct(items) && lines != [] {
      var i, j :| 0 <= i < j < |items| && items[i].product == items[j].product;
      assert lines[i].product == lines[j].product;
    }
  }

  // ----- the rows a sale writes -----

  // The lines of a request, as the order records them.
  predicate Records(items: seq<Item>, lines: seq<Line>) {
    |items| == |lines|
    && forall i :: 0 <= i < |lines| ==> items[i].product == lines[i].product && items[i].quantity == lines[i].quantity
  }

  // What an order.placed event says about an order.
  predicate Tells(e: Contract.Event, o: nat, order: Order) {
    && e.totalCents == Total(order.items) && e.status == "paid" && e.occurredAt == order.createdAt
    && (o <= SAFE ==> e.orderId == o && e.eventId == Contract.EventId(o))
    && (order.buyer <= SAFE ==> e.buyerId == order.buyer)
  }

  // A checkout that answers with a new order has stored the request's order, one
  // receipt job for it, and one outbox row whose event tells of it.
  lemma SaleStores(db: Db, input: Input, ids: Ids)
    requires Run(db, input, ids).out.Created?
    ensures var db' := Run(db, input, ids).db;
      && Run(db, input, ids).out == Created(ids.order)
      && ids.order in db'.orders && ids.job in db'.jobs && ids.outbox in db'.outbox
      && StoresOrder(db, input, db'.orders[ids.order])
      && db'.jobs[ids.job] == Job(Receipt, ids.order, 0, 0)
      && StoresRow(input, ids.order, db'.orders[ids.order], db'.outbox[ids.outbox])
  {
    RunMeansVerdict(db, input, ids);
    var n := |input.items|;
    CostIsTotal(db, input.items, n);
    forall i | 0 <= i < n
      ensures |Priced(db, input.items, n)| == n
      ensures var item := Priced(db, input.items, n)[i];
        && item.product == input.items[i].product && item.quantity == input.items[i].quantity
        && item.product in db.products && item.unitPrice == db.products[item.product].price
    {
      PricedAt(db, input.items, n, i);
    }
    DoubleFloor(ids.order);
    DoubleFloor(input.buyer);
  }

  ghost predicate StoresOrder(db: Db, input: Input, order: Order) {
    && order.buyer == input.buyer && order.status == Paid && order.createdAt == input.stamp
    && order.total == Total(order.items) && Records(order.items, input.items)
    && forall i :: 0 <= i < |order.items| ==>
         order.items[i].product in db.products && order.items[i].unitPrice == db.products[order.items[i].product].price
  }

  ghost predicate StoresRow(input: Input, o: nat, order: Order, row: OutboxRow) {
    && row.aggregate == o && row.createdAt == input.now && row.publishedAt.None? && row.attempts == 0
    && Tells(row.payload, o, order)
  }

  // ----- conservation -----

  function UnitsIn(items: seq<Item>, p: nat): int {
    if items == [] then 0 else
      UnitsIn(items[..|items| - 1], p) + if items[|items| - 1].product == p then items[|items| - 1].quantity else 0
  }

  ghost function UnitsBy(orders: map<nat, Order>, p: nat): map<nat, int> {
    map o | o in orders :: UnitsIn(orders[o].items, p)
  }

  ghost function SpentBy(orders: map<nat, Order>, u: nat): map<nat, int> {
    map o | o in orders :: if orders[o].buyer == u then orders[o].total else 0
  }

  // Units of p sold, and cents spent by u, over all orders.
  ghost function Units(orders: map<nat, Order>, p: nat): int { Sum(UnitsBy(orders, p)) }

  ghost function Spent(orders: map<nat, Order>, u: nat): int { Sum(SpentBy(orders, u)) }

  ghost predicate ExactTotals(orders: map<nat, Order>) {
    forall o :: o in orders ==> orders[o].total == Total(orders[o].items) <= INT4_MAX
  }

  // Stock and money only move between the tables and the orders.
  ghost predicate Conserves(before: Db, after: Db) {
    && ConservesStock(before.products, before.orders, after.products, after.orders)
    && ConservesMoney(before.users, before.orders, after.users, after.orders)
  }

  ghost predicate ConservesStock(products: map<nat, Product>, orders: map<nat, Order>,
                                 products': map<nat, Product>, orders': map<nat, Order>) {
    && products'.Keys == products.Keys
    && forall p :: p in products ==>
         products'[p].price == products[p].price
         && products'[p].stock + Units(orders', p) == products[p].stock + Units(orders, p)
  }

  ghost predicate ConservesMoney(users: map<nat, nat>, orders: map<nat, Order>,
                                 users': map<nat, nat>, orders': map<nat, Order>) {
    && users'.Keys == users.Keys
    && forall u :: u in users ==> users'[u] + Spent(orders', u) == users[u] + Spent(orders, u)
  }

  lemma {:induction false} UnitsPriced(db: Db, lines: seq<Line>, k: nat, p: nat)
    requires k <= |lines| && Known(db, lines, k)
    ensures UnitsIn(Priced(db, lines, k), p) == Demand(lines, k, p)
  {
    if k > 0 {
      UnitsPriced(db, lines, k - 1, p);
      assert Priced(db, lines, k)[..|Priced(db, lines, k)| - 1] == Priced(db, lines, k - 1);
    }
  }

  lemma AddUnits(orders: map<nat, Order>, o: nat, order: Order, p: nat)
    requires o !in orders
    ensures Units(orders[o := order], p) == Units(orders, p) + UnitsIn(order.items, p)
  {
    assert UnitsBy(orders[o := order], p) == UnitsBy(orders, p)[o := UnitsIn(order.items, p)];
    SumSet(UnitsBy(orders, p), o, UnitsIn(order.items, p));
  }

  lemma AddSpent(orders: map<nat, Order>, o: nat, order: Order, u: nat)
    requires o !in orders
    ensures Spent(orders[o := order], u) == Spent(orders, u) + if order.buyer == u then order.total else 0
  {
    var v := if order.buyer == u then order.total else 0;
    assert SpentBy(orders[o := order], u) == SpentBy(orders, u)[o := v];
    SumSet(SpentBy(orders, u), o, v);
  }

  lemma StockBalances(products: map<nat, Product>, orders: map<nat, Order>, o: nat, order: Order,
                      products': map<nat, Product>)
    requires o !in orders && products'.Keys == products.Keys
    requires forall p :: p in products ==>
      products'[p].price == products[p].price && products'[p].stock + UnitsIn(order.items, p) == products[p].stock
    ensures ConservesStock(products, orders, products', orders[o := order])
  {
    forall p | p in products
      ensures Units(orders[o := order], p) == Units(orders, p) + UnitsIn(order.items, p)
    {
      AddUnits(orders, o, order, p);
    }
  }

  lemma SoldStock(db: Db, input: Input, p: nat)
    requires Sells(db, input) && p in db.products
    ensures var products' := SoldProducts(db, input);
      && products'[p].price == db.products[p].price
      && products'[p].stock + UnitsIn(Priced(db, input.items, |input.items|), p) == db.products[p].stock
      && products'[p].stock <= db.products[p].stock
  {
    DemandPositive(input.items, |input.items|, p);
    UnitsPriced(db, input.items, |input.items|, p);
  }

  lemma SaleConservesStock(db: Db, input: Input, o: nat)
    requires Sells(db, input) && o !in db.orders
    ensures ConservesStock(db.products, db.orders, SoldProducts(db, input), db.orders[o := SoldOrder(db, input)])
  {
    var order, products' := SoldOrder(db, input), SoldProducts(db, input);
    forall p | p in db.products
      ensures products'[p].price == db.products[p].price
      ensures products'[p].stock + UnitsIn(order.items, p) == db.products[p].stock
    {
      SoldStock(db, input, p);
    }
    StockBalances(db.products, db.orders, o, order, products');
  }

  lemma SaleConservesMoney(users: map<nat, nat>, orders: map<nat, Order>, o: nat, order: Order, users': map<nat, nat>)
    requires o !in orders && order.buyer in users && users'.Keys == users.Keys
    requires forall u :: u in users ==> users'[u] + (if order.buyer == u then order.total else 0) == users[u]
    ensures ConservesMoney(users, orders, users', orders[o := order])
  {
    forall u | u in users {
      AddSpent(orders, o, order, u);
    }
  }

  lemma SaleKeepsChecks(db: Db, input: Input, ids: Ids)
    requires Sells(db, input) && ids.order >= 1
    requires WellFormed(db) && ExactTotals(db.orders)
    ensures WellFormed(Sold(db, input, ids)) && ExactTotals(Sold(db, input, ids).orders)
  {
    var db' := Sold(db, input, ids);
    CostIsTotal(db, input.items, |input.items|);
    forall p | p in db.products
      ensures db'.products[p].stock <= db.products[p].stock && db'.products[p].price == db.products[p].price
    {
      DemandPositive(input.items, |input.items|, p);
    }
  }

  lemma SoldMoney(db: Db, input: Input, ids: Ids)
    requires Sells(db, input) && ids.order !in db.orders
    ensures var db' := Sold(db, input, ids);
      ConservesMoney(db.users, db.orders, db'.users, db'.orders)
  {
    SaleConservesMoney(db.users, db.orders, ids.order, SoldOrder(db, input), Sold(db, input, ids).users);
  }

  lemma SoldGoods(db: Db, input: Input, ids: Ids)
    requires Sells(db, input) && ids.order !in db.orders
    ensures var db' := Sold(db, input, ids);
      ConservesStock(db.products, db.orders, db'.products, db'.orders)
  {
    SaleConservesStock(db, input, ids.order);
  }

  lemma SaleConserves(db: Db, input: Input, ids: Ids)
    requires Sells(db, input) && ids.order !in db.orders
    ensures Conserves(db, Sold(db, input, ids))
  {
    SoldGoods(db, input, ids);
    SoldMoney(db, input, ids);
  }

  // A checkout either sells or changes nothing.
  lemma SellsOrNothing(db: Db, input: Input, ids: Ids)
    ensures var r := Run(db, input, ids);
      if r.out == Created(ids.order) then Sells(db, input) && r.db == Sold(db, input, ids)
      else !r.out.Created? && r.db == db
  {
    RunMeansVerdict(db, input, ids);
  }

  // Every checkout, whatever its answer, conserves stock and money, keeps the
  // schema's checks, and records the exact price of what it sold.
  lemma CheckoutConserves(db: Db, input: Input, ids: Ids)
    requires ids.order !in db.orders && ids.order >= 1
    requires WellFormed(db) && ExactTotals(db.orders)
    ensures Conserves(db, Run(db, input, ids).db)
    ensures WellFormed(Run(db, input, ids).db) && ExactTotals(Run(db, input, ids).db.orders)
  {
    SellsOrNothing(db, input, ids);
    if Run(db, input, ids).out.Created? {
      SaleConserves(db, input, ids);
      SaleKeepsChecks(db, input, ids);
    }
  }

  lemma ConservesTransitive(a: Db, b: Db, c: Db)
    requires Conserves(a, b) && Conserves(b, c)
    ensures Conserves(a, c)
  {
  }
}
