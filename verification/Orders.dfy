/** Placing an order over HTTP: `create` in src/orders/orders.service.ts. */
module Orders {
  import opened Prelude
  import opened Tables
  import opened Numbers
  import opened Checkout
  import opened CheckoutLaws
  import InterleavingLaws

  datatype Response =
    | Placed(order: nat)
    | UnknownBuyer
    | UnknownProductIn
    | InsufficientStock
    | InsufficientFundsFor
    | IdempotencyKeyReuse
    | ServerError

  // A request body and its Idempotency-Key header.
  datatype Request = Request(
    buyer: nat,
    items: seq<Line>,
    header: Option<string>,
    fingerprint: string,
    now: nat,
    stamp: Stamp)

  // What `create` hands to checkout: no fingerprint without a key.
  function InputOf(r: Request): Input {
    var key := KeyOf(r.header);
    Input(r.buyer, r.items, key, if key.Some? then r.fingerprint else "", false, r.now, r.stamp)
  }

  function ResponseTo(out: Outcome): Response {
    match out
    case Created(o) => Placed(o)
    case Replayed(o) => Placed(o)
    case KeyReuse => IdempotencyKeyReuse
    case Rejected(UnknownProduct) => UnknownProductIn
    case Rejected(OutOfStock) => InsufficientStock
    case Rejected(InsufficientFunds) => InsufficientFundsFor
    case _ => ServerError
  }

  function Respond(db: Db, input: Input, ids: Ids): Response {
    if input.buyer !in db.users then UnknownBuyer else ResponseTo(Run(db, input, ids).out)
  }

  /** The service over one database connection. */
  class Service {
    const store: Store

    constructor (store: Store)
      ensures this.store == store
    {
      this.store := store;
    }

    method Create(r: Request) returns (response: Response)
      modifies store
      ensures response == Respond(old(store.tables), InputOf(r), old(store.next))
      ensures store.tables ==
        if r.buyer in old(store.tables).users then Run(old(store.tables), InputOf(r), old(store.next)).db
        else old(store.tables)
    {
      if r.buyer !in store.tables.users { return UnknownBuyer; }
      var key := KeyOf(r.header);
      var fingerprint := if key.Some? then r.fingerprint else "";
      var out := store.Checkout(Input(r.buyer, r.items, key, fingerprint, false, r.now, r.stamp));
      match out
      case Created(o) => response := Placed(o);
      case Replayed(o) => response := Placed(o);
      case KeyReuse => response := IdempotencyKeyReuse;
      case Rejected(code) =>
        if code == UnknownProduct { response := UnknownProductIn; }
        else if code == OutOfStock { response := InsufficientStock; }
        else { response := InsufficientFundsFor; }
      case _ => response := ServerError;
    }
  }

  // ----- the request against the tables -----

  predicate Keyed(r: Request) { r.header.Some? && Trim(r.header.value) != "" }

  predicate Remembered(db: Db, r: Request) { Keyed(r) && Trim(r.header.value) in db.keys }

  predicate ValidLines(lines: seq<Line>) {
    |lines| >= 1 && forall i :: 0 <= i < |lines| ==> lines[i].quantity >= 1
  }

  // A request that is not settled by its buyer, its shape or its key row.
  predicate Considered(db: Db, r: Request) {
    r.buyer in db.users && ValidLines(r.items) && !Remembered(db, r)
  }

  // Which line fails first, if one does.
  predicate FailsAt(db: Db, r: Request, i: nat) {
    Considered(db, r) && i < |r.items| && i == FirstUnserved(db, r.items, 0)
  }

  // All lines can be served.
  predicate Serves(db: Db, r: Request) {
    Considered(db, r) && FirstUnserved(db, r.items, 0) == |r.items|
  }

  function Price(db: Db, r: Request): nat
    requires Serves(db, r)
  {
    Cost(db, r.items, |r.items|)
  }

  // ----- every answer, exactly -----

  lemma UnknownBuyerIff(db: Db, r: Request, ids: Ids)
    ensures Respond(db, InputOf(r), ids) == UnknownBuyer <==> r.buyer !in db.users
  {
  }

  lemma KeyReuseIff(db: Db, r: Request, ids: Ids)
    ensures Respond(db, InputOf(r), ids) == IdempotencyKeyReuse <==>
      r.buyer in db.users && ValidLines(r.items)
      && Remembered(db, r) && db.keys[Trim(r.header.value)].fingerprint != r.fingerprint
  {
    RunMeansVerdict(db, InputOf(r), ids);
  }

  lemma UnknownProductIff(db: Db, r: Request, ids: Ids)
    ensures Respond(db, InputOf(r), ids) == UnknownProductIn <==>
      exists i: nat :: FailsAt(db, r, i) && r.items[i].quantity <= INT4_MAX && r.items[i].product !in db.products
  {
    RunMeansVerdict(db, InputOf(r), ids);
    assert Considered(db, r) && FirstUnserved(db, r.items, 0) < |r.items| ==>
      FailsAt(db, r, FirstUnserved(db, r.items, 0));
  }

  lemma InsufficientStockIff(db: Db, r: Request, ids: Ids)
    ensures Respond(db, InputOf(r), ids) == InsufficientStock <==>
      exists i: nat :: FailsAt(db, r, i) && r.items[i].quantity <= INT4_MAX && r.items[i].product in db.products
  {
    RunMeansVerdict(db, InputOf(r), ids);
    assert Considered(db, r) && FirstUnserved(db, r.items, 0) < |r.items| ==>
      FailsAt(db, r, FirstUnserved(db, r.items, 0));
  }

  lemma InsufficientFundsIff(db: Db, r: Request, ids: Ids)
    ensures Respond(db, InputOf(r), ids) == InsufficientFundsFor <==>
      Serves(db, r) && db.users[r.buyer] < Price(db, r) <= INT4_MAX
  {
    RunMeansVerdict(db, InputOf(r), ids);
  }

  // A 201 names the order of the key row, or else the new order.
  lemma PlacedIff(db: Db, r: Request, ids: Ids, o: nat)
    ensures Respond(db, InputOf(r), ids) == Placed(o) <==>
      || (r.buyer in db.users && ValidLines(r.items) && Remembered(db, r)
          && db.keys[Trim(r.header.value)] == KeyRow(r.fingerprint, Some(o)))
      || (Serves(db, r) && Price(db, r) <= INT4_MAX && Price(db, r) <= db.users[r.buyer]
          && !RepeatedLine(r.items) && o == ids.order)
  {
    RunMeansVerdict(db, InputOf(r), ids);
  }

  // What the tables cannot hold, met before any ordinary refusal: a quantity too
  // large for its column on the first line that fails, a total too large for its
  // column, or a product named twice in an order that could otherwise be paid.
  ghost predicate Unstorable(db: Db, r: Request) {
    || (exists i: nat :: FailsAt(db, r, i) && r.items[i].quantity > INT4_MAX)
    || (Serves(db, r) && Price(db, r) > INT4_MAX)
    || (Serves(db, r) && Price(db, r) <= db.users[r.buyer] && RepeatedLine(r.items))
  }

  // With every key row bound, as every run leaves them, a server error is a request
  // the validation would have stopped, or one the tables cannot hold.
  lemma ServerErrorIff(db: Db, r: Request, ids: Ids)
    requires InterleavingLaws.KeysBound(db)
    ensures Respond(db, InputOf(r), ids) == ServerError <==>
      r.buyer in db.users && (!ValidLines(r.items) || Unstorable(db, r))
  {
    RunMeansVerdict(db, InputOf(r), ids);
    assert Considered(db, r) && FirstUnserved(db, r.items, 0) < |r.items| ==>
      FailsAt(db, r, FirstUnserved(db, r.items, 0));
  }

  // ----- what the answers leave behind -----

  // A 201 that is not a replay has stored the request's order and remembers its key
  // with its fingerprint; any other answer leaves every table as it was.
  lemma PlacedMeansStored(db: Db, r: Request, ids: Ids)
    requires InterleavingLaws.KeysBound(db) && r.buyer in db.users
    ensures var db', response := Run(db, InputOf(r), ids).db, Respond(db, InputOf(r), ids);
      if response.Placed? && !Remembered(db, r) then
        && response.order in db'.orders && StoresOrder(db, InputOf(r), db'.orders[response.order])
        && Records(db'.orders[response.order].items, r.items) && db'.orders[response.order].buyer == r.buyer
        && db'.keys == (if Keyed(r) then db.keys[Trim(r.header.value) := KeyRow(r.fingerprint, Some(response.order))]
                        else db.keys)
      else db' == db && (response.Placed? ==> response.order in db.orders)
  {
    RunMeansVerdict(db, InputOf(r), ids);
    if Run(db, InputOf(r), ids).out.Created? { SaleStores(db, InputOf(r), ids); }
  }

  // The same request again, by key, gets the same order and changes nothing.
  lemma RepeatIsReplay(db: Db, r: Request, ids: Ids, ids': Ids)
    requires InterleavingLaws.KeysBound(db) && Keyed(r) && Respond(db, InputOf(r), ids).Placed?
    ensures var db' := Run(db, InputOf(r), ids).db;
      Respond(db', InputOf(r), ids') == Respond(db, InputOf(r), ids) && Run(db', InputOf(r), ids').db == db'
  {
    RunMeansVerdict(db, InputOf(r), ids);
    RunMeansVerdict(Run(db, InputOf(r), ids).db, InputOf(r), ids');
  }
}
