/**
 * Checkouts waiting for each other's rows: when that can go round in a circle,
 * and when it cannot.
 */
module Deadlock {
  import opened Prelude
  import opened Numbers
  import opened Tables
  import opened Checkout
  import opened CheckoutLaws
  import opened Interleaving

  // The holder keeps the waiter's next statement from running.
  predicate Blocks(holder: Tx, waiter: Tx) { Holds(holder, Wants(waiter.input, waiter.pc)) }

  // ----- sorted requests -----

  predicate Ascending(items: seq<Line>) {
    forall i, j :: 0 <= i < j < |items| ==> items[i].product <= items[j].product
  }

  // Keys are locked before rows, rows in product order, accounts last.
  datatype Rank = Rank(kind: nat, row: nat)

  function RankOf(r: Resource): Rank {
    match r
    case Key(_) => Rank(0, 0)
    case Row(p) => Rank(1, p)
    case Account(_) => Rank(2, 0)
    case Free => Rank(3, 0)
  }

  predicate Below(a: Rank, b: Rank) { a.kind < b.kind || (a.kind == b.kind && a.row < b.row) }

  function WantsRank(tx: Tx): Rank { RankOf(Wants(tx.input, tx.pc)) }

  lemma {:induction false} ProductsBelow(items: seq<Line>, k: nat, i: nat, p: nat)
    requires Ascending(items) && k <= i < |items| && p in Products(items, k)
    ensures p <= items[i].product
  {
    if p != items[k - 1].product {
      ProductsBelow(items, k - 1, i, p);
    }
  }

  lemma HolderWantsMore(db: Db, holder: Tx, r: Resource)
    requires TxInv(db, holder) && Ascending(holder.input.items) && Holds(holder, r)
    ensures Below(RankOf(r), WantsRank(holder)) || Wants(holder.input, holder.pc) == r
  {
    PrefixLocks(db, holder.input, holder.ids, holder.pc);
    var n := |holder.input.items|;
    if r.Row? && 1 <= holder.pc <= n {
      ProductsBelow(holder.input.items, LinesBefore(holder.input, holder.pc), holder.pc - 1, r.p);
    }
  }

  ghost function Above(world: World, rank: Rank): set<nat> {
    set t | t in world.txs && Below(rank, WantsRank(world.txs[t]))
  }

  lemma {:induction false} SomeoneRuns(db0: Db, world: World, t: nat) returns (u: nat)
    requires Inv(db0, world) && t in world.txs
    requires forall v :: v in world.txs ==> Ascending(world.txs[v].input.items)
    ensures u in world.txs && !Waits(world, u)
    decreases |Above(world, WantsRank(world.txs[t]))|
  {
    u := t;
    if Waits(world, t) {
      var r := Wants(world.txs[t].input, world.txs[t].pc);
      var v :| v in world.txs && v != t && Holds(world.txs[v], r);
      HolderWantsMore(world.db, world.txs[v], r);
      if Wants(world.txs[v].input, world.txs[v].pc) == r {
        assert !Waits(world, v) by {
          forall x | x in world.txs && x != v
            ensures !Holds(world.txs[x], r)
          {
            assert Apart(world.txs[v], world.txs[x]);
          }
        }
        u := v;
      } else {
        assert Above(world, WantsRank(world.txs[v])) < Above(world, WantsRank(world.txs[t])) by {
          assert v in Above(world, WantsRank(world.txs[t]));
        }
        SubsetSmaller(Above(world, WantsRank(world.txs[v])), Above(world, WantsRank(world.txs[t])));
        u := SomeoneRuns(db0, world, v);
      }
    }
  }

  lemma {:induction false} SubsetSmaller(a: set<nat>, b: set<nat>)
    requires a < b
    ensures |a| < |b|
  {
    var x :| x in b && x !in a;
    if a != {} {
      var y :| y in a;
      SubsetSmaller(a - {y}, b - {y});
    }
  }

  // No circle of waiting, in any run and whatever else is going on: in every group
  // of transactions whose requests list their products in ascending order, one
  // wants nothing that another of the group holds.
  lemma SortedNeverDeadlocks(db: Db, next: Ids, actions: seq<Action>, world: World, group: set<nat>) returns (u: nat)
    requires Executes(Start(db, next), actions, world)
    requires group != {} && group <= world.txs.Keys
    requires forall t :: t in group ==> Ascending(world.txs[t].input.items)
    ensures u in group
    ensures forall v :: v in group && v != u ==> !Blocks(world.txs[v], world.txs[u])
  {
    RunKeepsInv(db, Start(db, next), actions, world);
    var among := world.(txs := map t | t in group :: world.txs[t]);
    var t :| t in group;
    u := SomeoneRuns(db, among, t);
    forall v | v in group && v != u
      ensures !Blocks(world.txs[v], world.txs[u])
    {
      assert v in among.txs && among.txs[v] == world.txs[v];
    }
  }

  // ----- two requests: only if -----

  // Each wants a product the other has by then, and nothing is had by both.
  predicate CrossedAt(a: seq<Line>, b: seq<Line>, i: nat, k: nat)
    requires i < |a| && k < |b|
  {
    && a[i].product in Products(b, k) && b[k].product in Products(a, i)
    && Products(a, i) !! Products(b, k)
  }

  ghost predicate Crossed(a: seq<Line>, b: seq<Line>) {
    exists i, k :: 0 <= i < |a| && 0 <= k < |b| && CrossedAt(a, b, i, k)
  }

  predicate SameKey(a: Input, b: Input) { a.key.Some? && a.key == b.key }

  // Two transactions stuck on each other: only an abort (40P01) helps.
  ghost predicate Deadlocked(world: World, t: nat, u: nat) {
    && t in world.txs && u in world.txs && t != u
    && Blocks(world.txs[u], world.txs[t]) && Blocks(world.txs[t], world.txs[u])
    && Stuck(world, t) && Stuck(world, u)
  }

  predicate Stuck(world: World, t: nat) { !Enabled(world, Execute(t)) && !Enabled(world, Commit(t)) }

  ghost predicate CanDeadlock(db: Db, next: Ids, a: Input, b: Input) {
    exists actions, world, t, u :: DeadlocksAs(db, next, a, b, actions, world, t, u)
  }

  ghost predicate DeadlocksAs(db: Db, next: Ids, a: Input, b: Input, actions: seq<Action>, world: World, t: nat,
                              u: nat)
  {
    Executes(Start(db, next), actions, world) && Deadlocked(world, t, u)
    && world.txs[t].input == a && world.txs[u].input == b
  }

  // Of two that block each other, each waits for a row.
  lemma WaitsForRow(db: Db, waiter: Tx, holder: Tx)
    requires TxInv(db, waiter) && TxInv(db, holder) && Blocks(holder, waiter) && Blocks(waiter, holder)
    ensures 1 <= waiter.pc <= |waiter.input.items|
    ensures waiter.w.stock.Keys == Products(waiter.input.items, waiter.pc - 1)
    ensures waiter.input.items[waiter.pc - 1].product in holder.w.stock
    ensures waiter.input.key.Some? ==> waiter.w.key.Some?
  {
    PrefixLocks(db, waiter.input, waiter.ids, waiter.pc);
    PrefixLocks(db, holder.input, holder.ids, holder.pc);
  }

  lemma CircleMeansCrossed(db: Db, a: Tx, b: Tx)
    requires TxInv(db, a) && TxInv(db, b) && Apart(a, b) && Blocks(a, b) && Blocks(b, a)
    ensures Crossed(a.input.items, b.input.items) && !SameKey(a.input, b.input)
  {
    WaitsForRow(db, a, b);
    WaitsForRow(db, b, a);
    forall p
      ensures !(p in a.w.stock && p in b.w.stock)
    {
      assert !(Holds(a, Row(p)) && Holds(b, Row(p)));
    }
    assert CrossedAt(a.input.items, b.input.items, a.pc - 1, b.pc - 1);
    var r := if a.input.key.Some? then Key(a.input.key.value) else Free;
    assert !(Holds(a, r) && Holds(b, r));
  }

  // ----- two requests: if -----

  // Nothing but another request's locks can stop its lines.
  ghost predicate Unhindered(db: Db, input: Input) {
    && ValidInput(input)
    && (input.key.Some? ==> input.key.value !in db.keys)
    && forall j :: 0 <= j < |input.items| ==> Served(db, input.items, j)
  }

  lemma {:induction false} ThenStep(world0: World, actions: seq<Action>, world: World, a: Action)
    requires Executes(world0, actions, world) && Enabled(world, a)
    ensures Executes(world0, actions + [a], Do(world, a))
    decreases |actions|
  {
    if actions == [] {
      assert Executes(Do(world, a), [], Do(world, a));
      assert (actions + [a])[1..] == [];
    } else {
      ThenStep(Do(world0, actions[0]), actions[1..], world, a);
      assert (actions + [a])[1..] == actions[1..] + [a];
    }
  }

  // Nobody holds what the first k lines and the key need.
  ghost predicate ClearFor(txs: map<nat, Tx>, input: Input, k: nat)
    requires k <= |input.items|
  {
    forall u :: u in txs ==>
      !Holds(txs[u], Wants(input, 0)) && forall p :: p in Products(input.items, k) ==> !Holds(txs[u], Row(p))
  }

  // A request begins and claims its key.
  lemma Claims(db: Db, next: Ids, txs: map<nat, Tx>, t: nat, input: Input, actions: seq<Action>, world0: World)
    returns (actions': seq<Action>, tx: Tx)
    requires Executes(world0, actions, World(db, next, txs, []))
    requires t !in txs && Unhindered(db, input) && ClearFor(txs, input, 0)
    ensures Executes(world0, actions', World(db, next, txs[t := tx], []))
    ensures tx.input == input && tx.pc == 1 && Through(db, input, 0, tx.w)
  {
    var world := World(db, next, txs, []);
    ThenStep(world0, actions, world, Begin(t, input));
    var world1 := Do(world, Begin(t, input));
    assert !Waits(world1, t);
    ThenStep(world0, actions + [Begin(t, input)], world1, Execute(t));
    actions' := actions + [Begin(t, input)] + [Execute(t)];
    tx := Do(world1, Execute(t)).txs[t];
    assert Do(world1, Execute(t)) == World(db, next, txs[t := tx], []);
  }

  // One more line.
  lemma TakesLine(db: Db, next: Ids, txs: map<nat, Tx>, t: nat, k: nat, actions: seq<Action>, world0: World)
    returns (actions': seq<Action>, tx: Tx)
    requires t in txs && k < |txs[t].input.items| && txs[t].pc == k + 1
    requires Executes(world0, actions, World(db, next, txs, []))
    requires Unhindered(db, txs[t].input) && Through(db, txs[t].input, k, txs[t].w)
    requires forall u :: u in txs && u != t ==> !Holds(txs[u], Row(txs[t].input.items[k].product))
    ensures Executes(world0, actions', World(db, next, txs[t := tx], []))
    ensures tx.input == txs[t].input && tx.pc == k + 2 && Through(db, tx.input, k + 1, tx.w)
  {
    var world := World(db, next, txs, []);
    ThroughLine(db, txs[t].input, k, txs[t].w);
    ThenStep(world0, actions, world, Execute(t));
    actions' := actions + [Execute(t)];
    tx := Do(world, Execute(t)).txs[t];
    assert Do(world, Execute(t)) == World(db, next, txs[t := tx], []);
  }

  lemma ClearForLess(txs: map<nat, Tx>, input: Input, k: nat)
    requires 1 <= k <= |input.items| && ClearFor(txs, input, k)
    ensures ClearFor(txs, input, k - 1)
    ensures forall u :: u in txs ==> !Holds(txs[u], Row(input.items[k - 1].product))
  {
    assert input.items[k - 1].product in Products(input.items, k);
  }

  // A request runs up to its line k while nobody is in its way.
  lemma {:induction false} TakesLines(db: Db, next: Ids, txs: map<nat, Tx>, t: nat, input: Input, k: nat,
                                      actions: seq<Action>, world0: World)
    returns (actions': seq<Action>, tx: Tx)
    requires Executes(world0, actions, World(db, next, txs, []))
    requires t !in txs && k <= |input.items| && Unhindered(db, input) && ClearFor(txs, input, k)
    ensures Executes(world0, actions', World(db, next, txs[t := tx], []))
    ensures tx.input == input && tx.pc == k + 1 && Through(db, input, k, tx.w)
    decreases k
  {
    if k == 0 {
      actions', tx := Claims(db, next, txs, t, input, actions, world0);
    } else {
      ClearForLess(txs, input, k);
      var before, tx0 := TakesLines(db, next, txs, t, input, k - 1, actions, world0);
      actions', tx := TakesLine(db, next, txs[t := tx0], t, k - 1, before, world0);
      assert txs[t := tx0][t := tx] == txs[t := tx];
    }
  }

  // At a line somebody else holds, a request that could go on is stuck.
  lemma StuckAtLine(world: World, t: nat, u: nat, k: nat)
    requires t in world.txs && u in world.txs && t != u
    requires k < |world.txs[t].input.items| && world.txs[t].pc == k + 1
    requires Unhindered(world.db, world.txs[t].input) && Through(world.db, world.txs[t].input, k, world.txs[t].w)
    requires Blocks(world.txs[u], world.txs[t])
    ensures Stuck(world, t)
  {
    ThroughLine(world.db, world.txs[t].input, k, world.txs[t].w);
  }

  lemma ClearAfter(tx: Tx, a: Input, i: nat, b: Input, k: nat)
    requires i <= |a.items| && k <= |b.items| && tx.input == a && tx.w.stock.Keys == Products(a.items, i)
    requires tx.w.balance.None? && !SameKey(a, b) && Products(a.items, i) !! Products(b.items, k)
    ensures ClearFor(map[0 := tx], b, k)
  {
  }

  lemma DeadlockRun(db: Db, next: Ids, a: Input, b: Input, i: nat, k: nat) returns (actions: seq<Action>, world: World)
    requires Unhindered(db, a) && Unhindered(db, b) && !SameKey(a, b)
    requires i < |a.items| && k < |b.items| && CrossedAt(a.items, b.items, i, k)
    ensures DeadlocksAs(db, next, a, b, actions, world, 0, 1) && world.txs.Keys == {0, 1}
  {
    var ta, tb;
    actions, ta := TakesLines(db, next, map[], 0, a, i, [], Start(db, next));
    ClearAfter(ta, a, i, b, k);
    actions, tb := TakesLines(db, next, map[][0 := ta], 1, b, k, actions, Start(db, next));
    world := World(db, next, map[][0 := ta][1 := tb], []);
    assert world.txs[0] == ta && world.txs[1] == tb;
    StuckAtLine(world, 0, 1, i);
    StuckAtLine(world, 1, 0, k);
  }

  // Two requests, with known products and stock enough for either, can deadlock if
  // and only if they do not share a key and their lines cross. Nothing else has
  // to be looked at: not buyers, not what other requests are doing.
  lemma CanDeadlockIff(db: Db, next: Ids, a: Input, b: Input)
    requires Unhindered(db, a) && Unhindered(db, b)
    ensures CanDeadlock(db, next, a, b) <==> !SameKey(a, b) && Crossed(a.items, b.items)
  {
    if CanDeadlock(db, next, a, b) {
      var actions, world, t, u :| DeadlocksAs(db, next, a, b, actions, world, t, u);
      RunKeepsInv(db, Start(db, next), actions, world);
      CircleMeansCrossed(world.db, world.txs[t], world.txs[u]);
    }
    if !SameKey(a, b) && Crossed(a.items, b.items) {
      var i, k :| 0 <= i < |a.items| && 0 <= k < |b.items| && CrossedAt(a.items, b.items, i, k);
      var actions, world := DeadlockRun(db, next, a, b, i, k);
    }
  }

  // ----- what the condition says -----

  // Sorted requests do not cross; nor do unsorted ones that begin with the same
  // product, which keeps one of them out until the other is done.
  lemma NotCrossed(a: seq<Line>, b: seq<Line>)
    requires (Ascending(a) && Ascending(b)) || (a != [] && b != [] && a[0].product == b[0].product)
    ensures !Crossed(a, b)
  {
    if i, k :| 0 <= i < |a| && 0 <= k < |b| && CrossedAt(a, b, i, k) {
      if Ascending(a) && Ascending(b) {
        ProductsBelow(a, i, i, b[k].product);
        ProductsBelow(b, k, k, a[i].product);
      } else {
        FirstIsIn(a, i);
        FirstIsIn(b, k);
      }
    }
  }

  lemma {:induction false} FirstIsIn(lines: seq<Line>, k: nat)
    requires 1 <= k <= |lines|
    ensures lines[0].product in Products(lines, k)
  {
    if k > 1 { FirstIsIn(lines, k - 1); }
  }

  // Requests for the same two products in opposite order cross.
  function Wish(first: nat, second: nat, buyer: nat): Input {
    Input(buyer, [Line(first, 1), Line(second, 1)], None, "", false, 0, "0")
  }

  // The code locks lines in request order, so such a pair can reach a state where
  // both wait and only an abort helps.
  lemma UnsortedCanDeadlock(db: Db, next: Ids, p: nat, q: nat, u: nat) returns (actions: seq<Action>, world: World)
    requires p in db.products && q in db.products && p != q
    requires db.products[p].stock >= 1 && db.products[q].stock >= 1
    ensures Executes(Start(db, next), actions, world)
    ensures world.txs.Keys == {0, 1}
    ensures forall t :: t in world.txs ==> !Enabled(world, Execute(t)) && !Enabled(world, Commit(t))
  {
    var a, b := Wish(p, q, u), Wish(q, p, u);
    TwoLines(p, q);
    TwoLines(q, p);
    actions, world := DeadlockRun(db, next, a, b, 1, 1);
  }

  lemma TwoLines(p: nat, q: nat)
    requires p != q
    ensures var lines := [Line(p, 1), Line(q, 1)];
      && Products(lines, 1) == {p}
      && Demand(lines, 1, p) == 1 && Demand(lines, 2, q) == 1
  {
    var lines := [Line(p, 1), Line(q, 1)];
    assert Products(lines, 0) == {} && Demand(lines, 0, p) == 0 && Demand(lines, 0, q) == 0;
    assert Demand(lines, 1, q) == 0;
  }
}
