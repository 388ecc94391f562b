/** One checkout transaction, statement by statement: src/checkout.ts. */
module Checkout {
  import opened Prelude
  import opened Numbers
  import opened Tables
  import Contract

  datatype Code = OutOfStock | InsufficientFunds | UnknownProduct
  datatype Fault = IntegerOutOfRange | DuplicateLine

  datatype Outcome =
    | Created(order: nat)
    | Replayed(order: nat)
    | BadInput
    | KeyReuse
    | KeyInFlight
    | Rejected(code: Code)
    | Failed(fault: Fault)
    | Crashed

  // The uncommitted row versions a transaction has written so far. They exist
  // only under its own row locks.
  datatype Writes = Writes(
    key: Option<KeyRow>,
    stock: map<nat, nat>,
    items: seq<Item>,
    total: nat,
    balance: Option<nat>,
    order: Option<Order>,
    job: Option<Job>,
    outbox: Option<OutboxRow>)

  const NOTHING := Writes(None, map[], [], 0, None, None, None, None)

  datatype Step = Continue(writes: Writes) | Stop(out: Outcome)

  predicate ValidInput(input: Input) {
    |input.items| >= 1 && forall i :: 0 <= i < |input.items| ==> input.items[i].quantity >= 1
  }

  // ----- the statements, in program order -----

  function StockSeen(db: Db, w: Writes, p: nat): nat
    requires p in db.products
  {
    if p in w.stock then w.stock[p] else db.products[p].stock
  }

  function ClaimKey(db: Db, input: Input, w: Writes): Step {
    var key := input.key;
    if key.None? then Continue(w)
    else if key.value !in db.keys then Continue(w.(key := Some(KeyRow(input.fingerprint, None))))
    else
      var row := db.keys[key.value];
      if row.fingerprint != input.fingerprint then Stop(KeyReuse)
      else if row.orderId.None? then Stop(KeyInFlight)
      else Stop(Replayed(row.orderId.value))
  }

  function TakeStock(db: Db, line: Line, w: Writes): Step
    requires line.quantity >= 1
  {
    var p, q := line.product, line.quantity;
    if q > INT4_MAX then Stop(Failed(IntegerOutOfRange))
    else if p !in db.products then Stop(Rejected(UnknownProduct))
    else if StockSeen(db, w, p) < q then Stop(Rejected(OutOfStock))
    else
      var price := db.products[p].price;
      Continue(w.(stock := w.stock[p := StockSeen(db, w, p) - q],
                  items := w.items + [Item(p, q, price)],
                  total := Double(w.total + Double(price * q))))
  }

  function Debit(db: Db, input: Input, w: Writes): Step {
    if w.total > INT4_MAX then Stop(Failed(IntegerOutOfRange))
    else if input.buyer in db.users && db.users[input.buyer] >= w.total then
      Continue(w.(balance := Some(db.users[input.buyer] - w.total)))
    else Stop(Rejected(InsufficientFunds))
  }

  // UNIQUE (order_id, product_id) on order_items.
  predicate RepeatedProduct(items: seq<Item>) {
    exists i, j :: 0 <= i < j < |items| && items[i].product == items[j].product
  }

  function InsertOrder(input: Input, w: Writes): Step {
    if RepeatedProduct(w.items) then Stop(Failed(DuplicateLine))
    else Continue(w.(order := Some(Order(input.buyer, Paid, w.total, w.items, input.stamp))))
  }

  function InsertJob(ids: Ids, w: Writes): Step {
    Continue(w.(job := Some(Job(Receipt, ids.order, 0, 0))))
  }

  // `Number(saved.id)` and `Number(input.buyerId)` go through a double.
  function PlacedEvent(orderId: nat, order: Order): Contract.Event {
    Contract.OrderPlacedEvent(Double(orderId), Double(order.buyer), order.total, "paid", order.createdAt)
  }

  function InsertOutbox(input: Input, ids: Ids, w: Writes): Step
    requires w.order.Some?
  {
    Continue(w.(outbox := Some(OutboxRow(ids.order, PlacedEvent(ids.order, w.order.value), input.now, None, 0))))
  }

  function BindKey(input: Input, ids: Ids, w: Writes): Step {
    if input.key.None? then Continue(w)
    else Continue(w.(key := Some(KeyRow(input.fingerprint, Some(ids.order)))))
  }

  // ----- the program -----

  // Statement numbers: 0 claims the key, 1..n take stock, then debit, order,
  // job, outbox, key binding, crash switch.
  function Length(input: Input): nat { |input.items| + 7 }

  predicate Ready(input: Input, w: Writes, pc: nat) {
    |input.items| + 3 <= pc ==> w.order.Some?
  }

  function Exec(db: Db, input: Input, ids: Ids, w: Writes, pc: nat): (s: Step)
    requires ValidInput(input) && pc < Length(input) && Ready(input, w, pc)
    ensures s.Continue? ==> Ready(input, s.writes, pc + 1)
  {
    var n := |input.items|;
    if pc == 0 then ClaimKey(db, input, w)
    else if pc <= n then TakeStock(db, input.items[pc - 1], w)
    else if pc == n + 1 then Debit(db, input, w)
    else if pc == n + 2 then InsertOrder(input, w)
    else if pc == n + 3 then InsertJob(ids, w)
    else if pc == n + 4 then InsertOutbox(input, ids, w)
    else if pc == n + 5 then BindKey(input, ids, w)
    else if input.crashAfterOutbox then Stop(Crashed) else Continue(w)
  }

  function Restock(products: map<nat, Product>, stock: map<nat, nat>): map<nat, Product> {
    map p | p in products :: if p in stock then products[p].(stock := stock[p]) else products[p]
  }

  // Make the written versions current.
  function Apply(db: Db, input: Input, ids: Ids, w: Writes): Db {
    Db(Restock(db.products, w.stock),
       if w.balance.Some? then db.users[input.buyer := w.balance.value] else db.users,
       if w.order.Some? then db.orders[ids.order := w.order.value] else db.orders,
       if w.job.Some? then db.jobs[ids.job := w.job.value] else db.jobs,
       if w.outbox.Some? then db.outbox[ids.outbox := w.outbox.value] else db.outbox,
       if w.key.Some? && input.key.Some? then db.keys[input.key.value := w.key.value] else db.keys)
  }

  datatype Result = Result(db: Db, out: Outcome)

  function RunFrom(db: Db, input: Input, ids: Ids, w: Writes, pc: nat): Result
    requires ValidInput(input) && pc <= Length(input) && Ready(input, w, pc)
    decreases Length(input) - pc
  {
    if pc == Length(input) then Result(Apply(db, input, ids, w), Created(ids.order))
    else
      match Exec(db, input, ids, w, pc)
      case Stop(out) => Result(db, out)
      case Continue(w') => RunFrom(db, input, ids, w', pc + 1)
  }

  // One checkout with nobody else running: the serial specification.
  function Run(db: Db, input: Input, ids: Ids): Result {
    if !ValidInput(input) then Result(db, BadInput) else RunFrom(db, input, ids, NOTHING, 0)
  }

  // A checkout that does not end in a new order leaves every table alone.
  lemma {:induction false} AbortedLeavesNoTrace(db: Db, input: Input, ids: Ids, w: Writes, pc: nat)
    requires ValidInput(input) && pc <= Length(input) && Ready(input, w, pc)
    ensures var r := RunFrom(db, input, ids, w, pc);
      if r.out.Created? then r.out.order == ids.order else r.db == db
    decreases Length(input) - pc
  {
    if pc < Length(input) && Exec(db, input, ids, w, pc).Continue? {
      AbortedLeavesNoTrace(db, input, ids, Exec(db, input, ids, w, pc).writes, pc + 1);
    }
  }

  // ----- the same checkout as the program runs it -----

  // What the statement at pc has to do to tables that show the writes `w`:
  // answer with the same throw or return, or leave the tables showing the
  // writes Exec adds.
  ghost predicate Performs(db: Db, input: Input, ids: Ids, w: Writes, pc: nat, stop: Option<Outcome>, tables: Db)
    requires ValidInput(input) && pc < Length(input) && Ready(input, w, pc)
  {
    match Exec(db, input, ids, w, pc)
    case Stop(out) => stop == Some(out)
    case Continue(w') => stop.None? && tables == Apply(db, input, ids, w')
  }

  /** The database as one connection sees it: a statement changes the tables in
      place, and a throw inside the transaction puts back what BEGIN saw. */
  class Store {
    var tables: Db
    var next: Ids

    constructor (tables: Db, next: Ids)
      ensures this.tables == tables && this.next == next
    {
      this.tables, this.next := tables, next;
    }

    // Sequences move when a row is inserted and do not move back.
    method Checkout(input: Input) returns (out: Outcome)
      modifies this
      ensures Result(tables, out) == Run(old(tables), input, old(next))
      ensures next.order >= old(next.order) && next.job >= old(next.job) && next.outbox >= old(next.outbox)
      ensures out.Created? ==> next == Ids(old(next.order) + 1, old(next.job) + 1, old(next.outbox) + 1)
    {
      if |input.items| < 1 { return BadInput; }
      for k := 0 to |input.items|
        invariant forall i :: 0 <= i < k ==> input.items[i].quantity >= 1
      {
        if input.items[k].quantity < 1 { return BadInput; }
      }
      var begin := tables;
      AbortedLeavesNoTrace(tables, input, next, NOTHING, 0);
      out := Transaction(input);
      if !out.Created? { tables := begin; }
    }

    method Transaction(input: Input) returns (out: Outcome)
      requires ValidInput(input)
      modifies this
      ensures out == Run(old(tables), input, old(next)).out
      ensures out.Created? ==> tables == Run(old(tables), input, old(next)).db
      ensures next.order >= old(next.order) && next.job >= old(next.job) && next.outbox >= old(next.outbox)
      ensures out.Created? ==> next == Ids(old(next.order) + 1, old(next.job) + 1, old(next.outbox) + 1)
    {
      ghost var db, ids, w := tables, next, NOTHING;
      assert tables == Apply(db, input, ids, w);
      var stop := Claim(input, db, ids, w);
      if stop.Some? { return stop.value; }
      w := Exec(db, input, ids, w, 0).writes;
      assert Run(db, input, ids) == RunFrom(db, input, ids, w, 1);

      var items, total;
      stop, items, total, w := TakeAll(input, db, ids, w);
      if stop.Some? { return stop.value; }

      stop := Pay(input, total, db, ids, w);
      if stop.Some? { return stop.value; }
      w := Exec(db, input, ids, w, |input.items| + 1).writes;
      assert Run(db, input, ids) == RunFrom(db, input, ids, w, |input.items| + 2);

      FinishFrom(db, input, ids, w);
      out := WriteRows(input, items, total, db, ids, w);
    }

    method TakeAll(input: Input, ghost db: Db, ghost ids: Ids, ghost w0: Writes)
      returns (stop: Option<Outcome>, items: seq<Item>, total: nat, ghost w: Writes)
      requires ValidInput(input) && tables == Apply(db, input, ids, w0)
      requires w0 == NOTHING.(key := w0.key)
      modifies `tables
      ensures stop.Some? ==> RunFrom(db, input, ids, w0, 1) == Result(db, stop.value) && !stop.value.Created?
      ensures stop.None? ==>
        && tables == Apply(db, input, ids, w)
        && w == w0.(stock := w.stock, items := items, total := total)
        && RunFrom(db, input, ids, w0, 1) == RunFrom(db, input, ids, w, |input.items| + 1)
    {
      items, total, stop := [], 0, None;
      w := w0;
      for k := 0 to |input.items|
        invariant stop.None? && tables == Apply(db, input, ids, w)
        invariant w == w0.(stock := w.stock, items := items, total := total)
        invariant RunFrom(db, input, ids, w0, 1) == RunFrom(db, input, ids, w, k + 1)
      {
        var price: nat;
        stop, price := Take(input, k, db, ids, w);
        if stop.Some? { return; }
        total := Double(total + Double(price * input.items[k].quantity));
        items := items + [Item(input.items[k].product, input.items[k].quantity, price)];
        w := Exec(db, input, ids, w, k + 1).writes;
      }
    }

    method Claim(input: Input, ghost db: Db, ghost ids: Ids, ghost w: Writes) returns (stop: Option<Outcome>)
      requires ValidInput(input) && w == NOTHING && tables == Apply(db, input, ids, w)
      modifies `tables
      ensures Performs(db, input, ids, w, 0, stop, tables)
    {
      assert tables == db;
      var key := input.key;
      if key.None? { return None; }
      if key.value in tables.keys {
        var row := tables.keys[key.value];
        if row.fingerprint != input.fingerprint { return Some(KeyReuse); }
        if row.orderId.None? { return Some(KeyInFlight); }
        return Some(Replayed(row.orderId.value));
      }
      tables := tables.(keys := tables.keys[key.value := KeyRow(input.fingerprint, None)]);
      return None;
    }

    method Take(input: Input, k: nat, ghost db: Db, ghost ids: Ids, ghost w: Writes)
      returns (stop: Option<Outcome>, price: nat)
      requires ValidInput(input) && k < |input.items| && tables == Apply(db, input, ids, w)
      modifies `tables
      ensures Performs(db, input, ids, w, k + 1, stop, tables)
      ensures stop.None? ==> input.items[k].product in db.products && price == db.products[input.items[k].product].price
    {
      var p, q := input.items[k].product, input.items[k].quantity;
      if q > INT4_MAX { return Some(Failed(IntegerOutOfRange)), 0; }
      if p !in tables.products { return Some(Rejected(UnknownProduct)), 0; }
      if tables.products[p].stock < q { return Some(Rejected(OutOfStock)), 0; }
      var row := tables.products[p];
      tables := tables.(products := tables.products[p := row.(stock := row.stock - q)]);
      ghost var w' := Exec(db, input, ids, w, k + 1).writes;
      assert tables.products == Apply(db, input, ids, w').products;
      return None, row.price;
    }

    method Pay(input: Input, total: nat, ghost db: Db, ghost ids: Ids, ghost w: Writes) returns (stop: Option<Outcome>)
      requires ValidInput(input) && w.total == total && tables == Apply(db, input, ids, w)
      requires w.balance.None?
      modifies `tables
      ensures Performs(db, input, ids, w, |input.items| + 1, stop, tables)
    {
      if total > INT4_MAX { return Some(Failed(IntegerOutOfRange)); }
      if !(input.buyer in tables.users && tables.users[input.buyer] >= total) {
        return Some(Rejected(InsufficientFunds));
      }
      tables := tables.(users := tables.users[input.buyer := tables.users[input.buyer] - total]);
      return None;
    }

    method WriteRows(input: Input, items: seq<Item>, total: nat, ghost db: Db, ghost ids: Ids, ghost w: Writes)
      returns (out: Outcome)
      requires ValidInput(input) && w.items == items && w.total == total && next == ids
      requires w.order.None? && w.job.None? && w.outbox.None?
      requires tables == Apply(db, input, ids, w)
      modifies this
      ensures Result(if out.Created? then tables else db, out) == Finish(db, input, ids, w)
      ensures next.order >= ids.order && next.job >= ids.job && next.outbox >= ids.outbox
      ensures out.Created? ==> next == Ids(ids.order + 1, ids.job + 1, ids.outbox + 1)
    {
      var orderId := next.order;
      next := next.(order := orderId + 1);
      if RepeatedProduct(items) { return Failed(DuplicateLine); }
      var order := Order(input.buyer, Paid, total, items, input.stamp);
      tables := tables.(orders := tables.orders[orderId := order]);
      tables := tables.(jobs := tables.jobs[next.job := Job(Receipt, orderId, 0, 0)]);
      next := next.(job := next.job + 1);
      var payload := PlacedEvent(orderId, order);
      tables := tables.(outbox := tables.outbox[next.outbox := OutboxRow(orderId, payload, input.now, None, 0)]);
      next := next.(outbox := next.outbox + 1);
      var key := input.key;
      if key.Some? {
        tables := tables.(keys := tables.keys[key.value := KeyRow(input.fingerprint, Some(orderId))]);
      }
      if input.crashAfterOutbox { return Crashed; }
      return Created(orderId);
    }
  }

  // The closing inserts, composed.
  function Finish(db: Db, input: Input, ids: Ids, w: Writes): Result {
    if RepeatedProduct(w.items) then Result(db, Failed(DuplicateLine))
    else if input.crashAfterOutbox then Result(db, Crashed)
    else
      var order := Order(input.buyer, Paid, w.total, w.items, input.stamp);
      var w' := w.(
        key := if input.key.None? then w.key else Some(KeyRow(input.fingerprint, Some(ids.order))),
        order := Some(order),
        job := Some(Job(Receipt, ids.order, 0, 0)),
        outbox := Some(OutboxRow(ids.order, PlacedEvent(ids.order, order), input.now, None, 0)));
      Result(Apply(db, input, ids, w'), Created(ids.order))
  }

  function InsertRows(input: Input, ids: Ids, w: Writes): Writes
    requires w.order.Some?
  {
    InsertOutbox(input, ids, InsertJob(ids, w).writes).writes
  }

  lemma RunInserts(db: Db, input: Input, ids: Ids, w: Writes)
    requires ValidInput(input) && w.order.Some?
    ensures RunFrom(db, input, ids, w, |input.items| + 3)
         == RunFrom(db, input, ids, InsertRows(input, ids, w), |input.items| + 5)
  {
    var n, w' := |input.items|, InsertJob(ids, w).writes;
    assert Exec(db, input, ids, w, n + 3) == Continue(w');
    assert RunFrom(db, input, ids, w, n + 3) == RunFrom(db, input, ids, w', n + 4);
    assert Exec(db, input, ids, w', n + 4) == InsertOutbox(input, ids, w');
  }

  lemma RunTail(db: Db, input: Input, ids: Ids, w: Writes)
    requires ValidInput(input) && w.order.Some?
    ensures RunFrom(db, input, ids, w, |input.items| + 5) ==
      if input.crashAfterOutbox then Result(db, Crashed)
      else Result(Apply(db, input, ids, BindKey(input, ids, w).writes), Created(ids.order))
  {
    var n, w' := |input.items|, BindKey(input, ids, w).writes;
    assert Exec(db, input, ids, w, n + 5) == Continue(w');
    assert RunFrom(db, input, ids, w, n + 5) == RunFrom(db, input, ids, w', n + 6);
    assert Exec(db, input, ids, w', n + 6) == if input.crashAfterOutbox then Stop(Crashed) else Continue(w');
  }

  lemma FinishFrom(db: Db, input: Input, ids: Ids, w: Writes)
    requires ValidInput(input)
    ensures RunFrom(db, input, ids, w, |input.items| + 2) == Finish(db, input, ids, w)
  {
    assert Exec(db, input, ids, w, |input.items| + 2) == InsertOrder(input, w);
    if InsertOrder(input, w).Continue? {
      var w3 := InsertOrder(input, w).writes;
      RunInserts(db, input, ids, w3);
      RunTail(db, input, ids, InsertRows(input, ids, w3));
    }
  }
}
