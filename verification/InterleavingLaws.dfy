/**
 * What holds in every state any interleaving of checkouts can reach: the books
 * balance, and a key names one order.
 */
module InterleavingLaws {
  import opened Prelude
  import opened Numbers
  import opened Tables
  import opened Checkout
  import opened CheckoutLaws
  import opened Interleaving

  // ----- the books -----

  predicate Drawn(tx: Tx) { tx.pc >= |tx.input.items| + 3 }

  // Order ids come from a sequence that is not rolled back: none is used twice.
  ghost predicate FreshIds(world: World) {
    && world.next.order >= 1
    && (forall o :: o in world.db.orders ==> 1 <= o < world.next.order)
    && (forall t :: t in world.txs && Drawn(world.txs[t]) ==>
          1 <= world.txs[t].ids.order < world.next.order && world.txs[t].ids.order !in world.db.orders)
    && (forall t, u :: t in world.txs && u in world.txs && t != u && Drawn(world.txs[t]) && Drawn(world.txs[u]) ==>
          world.txs[t].ids.order != world.txs[u].ids.order)
  }

  // Every remembered key names an existing order.
  ghost predicate KeysBound(db: Db) {
    forall k :: k in db.keys ==> db.keys[k].orderId.Some? && db.keys[k].orderId.value in db.orders
  }

  // A 201 for a key, first or replayed, is the order the key row names.
  ghost predicate Named(db: Db, e: Entry) {
    e.input.key.Some? && (e.out.Created? || e.out.Replayed?) ==>
      e.input.key.value in db.keys && db.keys[e.input.key.value].orderId == Some(e.out.order)
  }

  // ... and only one request ever created it.
  ghost predicate OneCreator(log: seq<Entry>) {
    forall i, j :: 0 <= i < j < |log| && log[i].out.Created? && log[j].out.Created? && log[i].input.key.Some? ==>
      log[i].input.key != log[j].input.key
  }

  ghost predicate Ledger(db0: Db, db: Db) {
    Conserves(db0, db) && WellFormed(db) && ExactTotals(db.orders) && KeysBound(db)
  }

  ghost predicate Answers(db: Db, log: seq<Entry>) {
    && (forall i :: 0 <= i < |log| ==> Named(db, log[i]) && log[i].out != KeyInFlight)
    && OneCreator(log)
  }

  ghost predicate Books(db0: Db, world: World) {
    FreshIds(world) && Ledger(db0, world.db) && Answers(world.db, world.log)
  }

  lemma StoppedAnswer(db: Db, input: Input, ids: Ids)
    requires KeysBound(db) && !Run(db, input, ids).out.Created?
    ensures Run(db, input, ids).out != KeyInFlight
    ensures Named(db, Entry(input, ids, Run(db, input, ids).out))
  {
    RunMeansVerdict(db, input, ids);
  }

  lemma StopNeverCreates(world: World, t: nat)
    requires Enabled(world, Execute(t)) && StatementOf(world, t).Stop?
    ensures !StatementOf(world, t).out.Created?
  {
  }

  lemma StopKeepsAnswers(world: World, t: nat)
    requires Enabled(world, Execute(t)) && StatementOf(world, t).Stop? && TxInv(world.db, world.txs[t])
    requires KeysBound(world.db) && Answers(world.db, world.log)
    ensures var world' := Do(world, Execute(t)); Answers(world'.db, world'.log) && world'.db == world.db
  {
    var tx, ids := world.txs[t], Draw(world.txs[t], world.next);
    StopNeverCreates(world, t);
    StatementKeepsPrefix(world.db, tx, world.next);
    StoppedAnswer(world.db, tx.input, ids);
  }

  lemma ExecuteKeepsIds(world: World, t: nat)
    requires Enabled(world, Execute(t)) && FreshIds(world)
    ensures FreshIds(Do(world, Execute(t)))
  {
  }

  lemma SaleBindsKey(db: Db, input: Input, ids: Ids)
    requires Run(db, input, ids).out.Created?
    ensures var db' := Run(db, input, ids).db;
      && Run(db, input, ids).out == Created(ids.order)
      && db'.orders.Keys == db.orders.Keys + {ids.order}
      && BoundBy(db.keys, input, ids, db'.keys)
  {
    RunMeansVerdict(db, input, ids);
  }

  ghost predicate BoundBy(keys: map<string, KeyRow>, input: Input, ids: Ids, keys': map<string, KeyRow>) {
    if input.key.Some? then
      input.key.value !in keys && keys' == keys[input.key.value := KeyRow(input.fingerprint, Some(ids.order))]
    else keys' == keys
  }

  lemma CommitKeepsLedger(db0: Db, db: Db, input: Input, ids: Ids)
    requires Ledger(db0, db) && ids.order !in db.orders && ids.order >= 1 && Run(db, input, ids).out.Created?
    ensures Ledger(db0, Run(db, input, ids).db)
  {
    CheckoutConserves(db, input, ids);
    ConservesTransitive(db0, db, Run(db, input, ids).db);
    SaleBindsKey(db, input, ids);
  }

  lemma CommitKeepsAnswers(db: Db, log: seq<Entry>, input: Input, ids: Ids, db': Db)
    requires Answers(db, log) && BoundBy(db.keys, input, ids, db'.keys)
    ensures Answers(db', log + [Entry(input, ids, Created(ids.order))])
  {
    forall i | 0 <= i < |log|
      ensures Named(db', log[i])
      ensures log[i].out.Created? && log[i].input.key.Some? ==> log[i].input.key != input.key
    {
      assert Named(db, log[i]);
    }
  }

  lemma CommitKeepsIds(world: World, t: nat)
    requires Enabled(world, Commit(t)) && FreshIds(world)
    requires Do(world, Commit(t)).db.orders.Keys == world.db.orders.Keys + {world.txs[t].ids.order}
    ensures FreshIds(Do(world, Commit(t)))
  {
    assert Drawn(world.txs[t]);
  }

  lemma CommitKeepsBooks(db0: Db, world: World, t: nat)
    requires Inv(db0, world) && Books(db0, world) && Enabled(world, Commit(t))
    ensures Books(db0, Do(world, Commit(t)))
  {
    var tx := world.txs[t];
    CommitIsSerial(world.db, tx);
    SaleBindsKey(world.db, tx.input, tx.ids);
    CommitKeepsIds(world, t);
    CommitKeepsLedger(db0, world.db, tx.input, tx.ids);
    CommitKeepsAnswers(world.db, world.log, tx.input, tx.ids, Do(world, Commit(t)).db);
  }

  lemma StepKeepsBooks(db0: Db, world: World, a: Action)
    requires Inv(db0, world) && Books(db0, world) && Enabled(world, a)
    ensures Books(db0, Do(world, a))
  {
    match a
    case Begin(t, input) =>
    case Execute(t) =>
      ExecuteKeepsIds(world, t);
      if StatementOf(world, t).Stop? { StopKeepsAnswers(world, t); }
    case Commit(t) => CommitKeepsBooks(db0, world, t);
    case Abort(t) =>
  }

  lemma {:induction false} RunKeepsBooks(db0: Db, world: World, actions: seq<Action>, world': World)
    requires Inv(db0, world) && Books(db0, world) && Executes(world, actions, world')
    ensures Books(db0, world')
    decreases |actions|
  {
    if actions != [] {
      StepKeepsInv(db0, world, actions[0]);
      StepKeepsBooks(db0, world, actions[0]);
      RunKeepsBooks(db0, Do(world, actions[0]), actions[1..], world');
    }
  }

  ghost predicate OpeningBooks(db: Db, next: Ids) {
    && WellFormed(db) && ExactTotals(db.orders) && KeysBound(db)
    && next.order >= 1 && forall o :: o in db.orders ==> o < next.order
  }

  // Conservation and idempotency over every run.
  lemma BooksBalance(db: Db, next: Ids, actions: seq<Action>, world: World)
    requires OpeningBooks(db, next) && Executes(Start(db, next), actions, world)
    ensures Books(db, world)
  {
    RunKeepsBooks(db, Start(db, next), actions, world);
  }
}
