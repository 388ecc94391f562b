/**
 * Many checkouts at once, one SQL statement at a time, at READ COMMITTED.
 *
 * A statement sees the committed tables plus its own transaction's writes. A
 * row version written by a transaction stays locked until it commits or aborts.
 */
module Interleaving {
  import opened Prelude
  import opened Tables
  import opened Checkout
  import opened CheckoutLaws

  datatype Tx = Tx(input: Input, ids: Ids, pc: nat, w: Writes)

  // One finished checkout: its request, the ids it drew, the answer it gave.
  datatype Entry = Entry(input: Input, ids: Ids, out: Outcome)

  // `db` is committed, `log` lists finished checkouts in the order they finished.
  datatype World = World(db: Db, next: Ids, txs: map<nat, Tx>, log: seq<Entry>)

  datatype Action = Begin(t: nat, input: Input) | Execute(t: nat) | Commit(t: nat) | Abort(t: nat)

  // ----- locks -----

  datatype Resource = Key(k: string) | Row(p: nat) | Account(u: nat) | Free

  // What the statement at pc writes.
  function Wants(input: Input, pc: nat): Resource {
    var n := |input.items|;
    if pc == 0 then if input.key.Some? then Key(input.key.value) else Free
    else if pc <= n then Row(input.items[pc - 1].product)
    else if pc == n + 1 then Account(input.buyer)
    else Free
  }

  predicate Holds(tx: Tx, r: Resource) {
    match r
    case Key(k) => tx.w.key.Some? && tx.input.key == Some(k)
    case Row(p) => p in tx.w.stock
    case Account(u) => tx.w.balance.Some? && tx.input.buyer == u
    case Free => false
  }

  predicate Waits(world: World, t: nat)
    requires t in world.txs
  {
    exists u :: u in world.txs && u != t && Holds(world.txs[u], Wants(world.txs[t].input, world.txs[t].pc))
  }

  // ----- steps -----

  // The insert statements draw their row id when they run.
  function Draw(tx: Tx, next: Ids): Ids {
    var n := |tx.input.items|;
    if tx.pc == n + 2 then tx.ids.(order := next.order)
    else if tx.pc == n + 3 then tx.ids.(job := next.job)
    else if tx.pc == n + 4 then tx.ids.(outbox := next.outbox)
    else tx.ids
  }

  function Bump(tx: Tx, next: Ids): Ids {
    var n := |tx.input.items|;
    if tx.pc == n + 2 then next.(order := next.order + 1)
    else if tx.pc == n + 3 then next.(job := next.job + 1)
    else if tx.pc == n + 4 then next.(outbox := next.outbox + 1)
    else next
  }

  predicate Sound(tx: Tx) {
    ValidInput(tx.input) && tx.pc <= Length(tx.input) && Ready(tx.input, tx.w, tx.pc)
  }

  function StatementOf(world: World, t: nat): Step
    requires t in world.txs && Sound(world.txs[t]) && world.txs[t].pc < Length(world.txs[t].input)
  {
    var tx := world.txs[t];
    Exec(world.db, tx.input, Draw(tx, world.next), tx.w, tx.pc)
  }

  // A statement whose row is locked by another transaction waits, unless the
  // committed version already fails its condition: then no lock is asked for.
  // Abort is always possible: deadlock victim (40P01), lost connection, kill.
  predicate Enabled(world: World, a: Action) {
    match a
    case Begin(t, input) => t !in world.txs && ValidInput(input)
    case Execute(t) =>
      && t in world.txs && Sound(world.txs[t]) && world.txs[t].pc < Length(world.txs[t].input)
      && (!Waits(world, t) || StatementOf(world, t).Stop?)
    case Commit(t) => t in world.txs && Sound(world.txs[t]) && world.txs[t].pc == Length(world.txs[t].input)
    case Abort(t) => t in world.txs
  }

  function Do(world: World, a: Action): World
    requires Enabled(world, a)
  {
    match a
    case Begin(t, input) => world.(txs := world.txs[t := Tx(input, Ids(0, 0, 0), 0, NOTHING)])
    case Execute(t) =>
      var tx := world.txs[t];
      var ids := Draw(tx, world.next);
      (match StatementOf(world, t)
       case Continue(w) => world.(next := Bump(tx, world.next), txs := world.txs[t := Tx(tx.input, ids, tx.pc + 1, w)])
       case Stop(out) => world.(next := Bump(tx, world.next), txs := world.txs - {t},
                                log := world.log + [Entry(tx.input, ids, out)]))
    case Commit(t) =>
      var tx := world.txs[t];
      world.(db := Apply(world.db, tx.input, tx.ids, tx.w), txs := world.txs - {t},
             log := world.log + [Entry(tx.input, tx.ids, Created(tx.ids.order))])
    case Abort(t) => world.(txs := world.txs - {t})
  }

  // ----- the serial reference -----

  // The finished checkouts again, one after the other, nobody interfering.
  function Replay(db: Db, log: seq<Entry>): Db {
    if log == [] then db else
      var last := log[|log| - 1];
      Run(Replay(db, log[..|log| - 1]), last.input, last.ids).db
  }

  ghost predicate Faithful(db: Db, log: seq<Entry>) {
    forall i :: 0 <= i < |log| ==> log[i].out == Run(Replay(db, log[..i]), log[i].input, log[i].ids).out
  }

  // ----- a transaction is a prefix of its serial run -----

  function Prefix(db: Db, input: Input, ids: Ids, pc: nat): (s: Step)
    requires ValidInput(input) && pc <= Length(input)
    ensures s.Continue? ==> Ready(input, s.writes, pc)
  {
    if pc == 0 then Continue(NOTHING) else
      var s := Prefix(db, input, ids, pc - 1);
      if s.Stop? then s else Exec(db, input, ids, s.writes, pc - 1)
  }

  lemma {:induction false} PrefixRuns(db: Db, input: Input, ids: Ids, pc: nat)
    requires ValidInput(input) && pc <= Length(input) && Prefix(db, input, ids, pc).Continue?
    ensures Run(db, input, ids) == RunFrom(db, input, ids, Prefix(db, input, ids, pc).writes, pc)
  {
    if pc > 0 {
      PrefixRuns(db, input, ids, pc - 1);
    }
  }

  // The order id is first read at statement n + 3; the other ids are only
  // read by the commit.
  lemma {:induction false} PrefixIds(db: Db, input: Input, ids: Ids, ids': Ids, pc: nat)
    requires ValidInput(input) && pc <= Length(input)
    requires pc <= |input.items| + 3 || ids.order == ids'.order
    ensures Prefix(db, input, ids, pc) == Prefix(db, input, ids', pc)
  {
    if pc > 0 {
      PrefixIds(db, input, ids, ids', pc - 1);
    }
  }

  // Two committed states agree on every row a transaction has written.
  ghost predicate Agree(db: Db, db': Db, input: Input, w: Writes) {
    && (forall p :: p in w.stock ==> p in db.products && p in db'.products && db'.products[p] == db.products[p])
    && (w.balance.Some? ==>
          input.buyer in db.users && input.buyer in db'.users && db'.users[input.buyer] == db.users[input.buyer])
    && (w.key.Some? && input.key.Some? ==> input.key.value !in db'.keys)
  }

  lemma ExecFrame(db: Db, db': Db, input: Input, ids: Ids, w: Writes, pc: nat)
    requires ValidInput(input) && pc < Length(input) && Ready(input, w, pc)
    requires Exec(db, input, ids, w, pc).Continue?
    requires Agree(db, db', input, Exec(db, input, ids, w, pc).writes)
    ensures Exec(db', input, ids, w, pc) == Exec(db, input, ids, w, pc)
    ensures Agree(db, db', input, w)
  {
    if 1 <= pc <= |input.items| {
      var s := TakeStock(db, input.items[pc - 1], w);
      assert Exec(db, input, ids, w, pc) == s;
      assert input.items[pc - 1].product in s.writes.stock;
    }
  }

  lemma {:induction false} PrefixFrame(db: Db, db': Db, input: Input, ids: Ids, pc: nat)
    requires ValidInput(input) && pc <= Length(input) && Prefix(db, input, ids, pc).Continue?
    requires Agree(db, db', input, Prefix(db, input, ids, pc).writes)
    ensures Prefix(db', input, ids, pc) == Prefix(db, input, ids, pc)
  {
    if pc > 0 {
      ExecFrame(db, db', input, ids, Prefix(db, input, ids, pc - 1).writes, pc - 1);
      PrefixFrame(db, db', input, ids, pc - 1);
    }
  }

  // How many lines of stock are taken before statement pc.
  function LinesBefore(input: Input, pc: nat): nat {
    if pc == 0 then 0 else if pc - 1 <= |input.items| then pc - 1 else |input.items|
  }

  // What a prefix has locked.
  ghost predicate Locked(db: Db, input: Input, pc: nat, w: Writes) {
    && (w.key.Some? <==> pc >= 1 && input.key.Some?)
    && (w.key.Some? ==> input.key.value !in db.keys)
    && w.stock.Keys == Products(input.items, LinesBefore(input, pc))
    && w.stock.Keys <= db.products.Keys
    && (w.balance.Some? <==> pc >= |input.items| + 2)
    && (w.balance.Some? ==> input.buyer in db.users)
    && (w.order.Some? <==> pc >= |input.items| + 3)
  }

  lemma ExecLocks(db: Db, input: Input, ids: Ids, w: Writes, pc: nat)
    requires ValidInput(input) && pc < Length(input) && Ready(input, w, pc) && Locked(db, input, pc, w)
    requires Exec(db, input, ids, w, pc).Continue?
    ensures Locked(db, input, pc + 1, Exec(db, input, ids, w, pc).writes)
  {
    if 1 <= pc <= |input.items| {
      assert Exec(db, input, ids, w, pc) == TakeStock(db, input.items[pc - 1], w);
    }
  }

  lemma {:induction false} PrefixLocks(db: Db, input: Input, ids: Ids, pc: nat)
    requires ValidInput(input) && pc <= Length(input) && Prefix(db, input, ids, pc).Continue?
    ensures Locked(db, input, pc, Prefix(db, input, ids, pc).writes)
  {
    if pc > 0 {
      PrefixLocks(db, input, ids, pc - 1);
      ExecLocks(db, input, ids, Prefix(db, input, ids, pc - 1).writes, pc - 1);
    }
  }

  // ----- the invariant -----

  ghost predicate TxInv(db: Db, tx: Tx) {
    ValidInput(tx.input) && tx.pc <= Length(tx.input) && Prefix(db, tx.input, tx.ids, tx.pc) == Continue(tx.w)
  }

  ghost predicate Apart(a: Tx, b: Tx) {
    forall r :: !(Holds(a, r) && Holds(b, r))
  }

  ghost predicate Inv(db0: Db, world: World) {
    && (forall t :: t in world.txs ==> TxInv(world.db, world.txs[t]))
    && (forall t, u :: t in world.txs && u in world.txs && t != u ==> Apart(world.txs[t], world.txs[u]))
    && Replay(db0, world.log) == world.db
    && Faithful(db0, world.log)
  }

  lemma LogEntry(db0: Db, log: seq<Entry>, e: Entry)
    requires Faithful(db0, log)
    requires e.out == Run(Replay(db0, log), e.input, e.ids).out
    ensures Faithful(db0, log + [e])
    ensures Replay(db0, log + [e]) == Run(Replay(db0, log), e.input, e.ids).db
  {
    var log' := log + [e];
    assert log'[..|log|] == log;
    forall i | 0 <= i < |log'|
      ensures log'[i].out == Run(Replay(db0, log'[..i]), log'[i].input, log'[i].ids).out
    {
      if i < |log| { assert log'[..i] == log[..i]; }
    }
  }

  // A statement that lets the transaction go on keeps it a serial prefix and
  // takes at most the row it wanted.
  lemma StatementKeepsPrefix(db: Db, tx: Tx, next: Ids)
    requires TxInv(db, tx) && tx.pc < Length(tx.input)
    ensures Sound(tx)
    ensures var ids := Draw(tx, next); var s := Exec(db, tx.input, ids, tx.w, tx.pc);
      if s.Continue? then TxInv(db, Tx(tx.input, ids, tx.pc + 1, s.writes))
      else Run(db, tx.input, ids) == Result(db, s.out)
  {
    var ids := Draw(tx, next);
    PrefixIds(db, tx.input, tx.ids, ids, tx.pc);
    PrefixRuns(db, tx.input, ids, tx.pc);
  }

  lemma StatementLocks(db: Db, tx: Tx, next: Ids, r: Resource)
    requires Sound(tx) && tx.pc < Length(tx.input)
    requires Exec(db, tx.input, Draw(tx, next), tx.w, tx.pc).Continue?
    requires tx.w.key.Some? <==> tx.pc >= 1 && tx.input.key.Some?
    ensures var w' := Exec(db, tx.input, Draw(tx, next), tx.w, tx.pc).writes;
      Holds(Tx(tx.input, Draw(tx, next), tx.pc + 1, w'), r) ==> Holds(tx, r) || r == Wants(tx.input, tx.pc)
  {
    var n, ids := |tx.input.items|, Draw(tx, next);
    if tx.pc == n + 5 {
      assert Exec(db, tx.input, ids, tx.w, tx.pc) == BindKey(tx.input, ids, tx.w);
    }
  }

  lemma CommitIsSerial(db: Db, tx: Tx)
    requires TxInv(db, tx) && tx.pc == Length(tx.input)
    ensures Run(db, tx.input, tx.ids) == Result(Apply(db, tx.input, tx.ids, tx.w), Created(tx.ids.order))
  {
    PrefixRuns(db, tx.input, tx.ids, tx.pc);
  }

  // Rows locked by the others are not touched by a commit.
  lemma CommitSparesOthers(db: Db, tx: Tx, other: Tx)
    requires TxInv(db, tx) && TxInv(db, other) && Apart(tx, other)
    ensures TxInv(Apply(db, tx.input, tx.ids, tx.w), other)
  {
    var db' := Apply(db, tx.input, tx.ids, tx.w);
    PrefixLocks(db, other.input, other.ids, other.pc);
    PrefixLocks(db, tx.input, tx.ids, tx.pc);
    forall p | p in other.w.stock
      ensures p in db'.products && db'.products[p] == db.products[p]
    {
      assert Holds(other, Row(p)) && !Holds(tx, Row(p));
    }
    if other.w.balance.Some? {
      assert Holds(other, Account(other.input.buyer)) && !Holds(tx, Account(other.input.buyer));
    }
    if other.w.key.Some? {
      assert Holds(other, Key(other.input.key.value)) && !Holds(tx, Key(other.input.key.value));
    }
    PrefixFrame(db, db', other.input, other.ids, other.pc);
  }

  lemma ExecuteKeepsInv(db0: Db, world: World, t: nat)
    requires Inv(db0, world) && Enabled(world, Execute(t))
    ensures Inv(db0, Do(world, Execute(t)))
  {
    var world', tx := Do(world, Execute(t)), world.txs[t];
    StatementKeepsPrefix(world.db, tx, world.next);
    if StatementOf(world, t).Stop? {
      LogEntry(db0, world.log, Entry(tx.input, Draw(tx, world.next), StatementOf(world, t).out));
    } else {
      forall u | u in world.txs && u != t {
        StillApart(world, t, u);
      }
    }
  }

  // The statement got its row without waiting, so nobody else holds it.
  lemma StillApart(world: World, t: nat, u: nat)
    requires Enabled(world, Execute(t)) && u in world.txs && u != t
    requires TxInv(world.db, world.txs[t]) && Apart(world.txs[t], world.txs[u])
    requires StatementOf(world, t).Continue?
    ensures var tx' := Do(world, Execute(t)).txs[t];
      Apart(tx', world.txs[u]) && Apart(world.txs[u], tx')
  {
    var tx', tx := Do(world, Execute(t)).txs[t], world.txs[t];
    PrefixLocks(world.db, tx.input, tx.ids, tx.pc);
    forall r
      ensures !(Holds(tx', r) && Holds(world.txs[u], r))
    {
      StatementLocks(world.db, tx, world.next, r);
    }
  }

  lemma CommitKeepsInv(db0: Db, world: World, t: nat)
    requires Inv(db0, world) && Enabled(world, Commit(t))
    ensures Inv(db0, Do(world, Commit(t)))
  {
    var tx := world.txs[t];
    CommitIsSerial(world.db, tx);
    LogEntry(db0, world.log, Entry(tx.input, tx.ids, Created(tx.ids.order)));
    forall u | u in world.txs && u != t
      ensures TxInv(Apply(world.db, tx.input, tx.ids, tx.w), world.txs[u])
    {
      CommitSparesOthers(world.db, tx, world.txs[u]);
    }
  }

  lemma StepKeepsInv(db0: Db, world: World, a: Action)
    requires Inv(db0, world) && Enabled(world, a)
    ensures Inv(db0, Do(world, a))
  {
    match a
    case Begin(t, input) =>
    case Execute(t) => ExecuteKeepsInv(db0, world, t);
    case Commit(t) => CommitKeepsInv(db0, world, t);
    case Abort(t) =>
  }

  // ----- runs -----

  function Start(db: Db, next: Ids): World { World(db, next, map[], []) }

  ghost predicate Executes(world: World, actions: seq<Action>, world': World)
    decreases |actions|
  {
    if actions == [] then world' == world
    else Enabled(world, actions[0]) && Executes(Do(world, actions[0]), actions[1..], world')
  }

  lemma {:induction false} RunKeepsInv(db0: Db, world: World, actions: seq<Action>, world': World)
    requires Inv(db0, world) && Executes(world, actions, world')
    ensures Inv(db0, world')
    decreases |actions|
  {
    if actions != [] {
      StepKeepsInv(db0, world, actions[0]);
      RunKeepsInv(db0, Do(world, actions[0]), actions[1..], world');
    }
  }

  // Serializability: after any interleaving of any checkouts, the committed
  // tables are those of a serial run of the finished checkouts in the order
  // they finished, and each of them got the answer the serial run gives it.
  lemma Serializable(db: Db, next: Ids, actions: seq<Action>, world: World)
    requires Executes(Start(db, next), actions, world)
    ensures world.db == Replay(db, world.log)
    ensures forall i :: 0 <= i < |world.log| ==>
      world.log[i].out == Verdict(Replay(db, world.log[..i]), world.log[i].input, world.log[i].ids)
  {
    RunKeepsInv(db, Start(db, next), actions, world);
    forall i | 0 <= i < |world.log|
      ensures world.log[i].out == Verdict(Replay(db, world.log[..i]), world.log[i].input, world.log[i].ids)
    {
      RunMeansVerdict(Replay(db, world.log[..i]), world.log[i].input, world.log[i].ids);
    }
  }
}
