/** What becomes of every checkout that begins, in every interleaving. */
module InterleavingRuns {
  import opened Prelude
  import opened Numbers
  import opened Tables
  import opened Checkout
  import opened CheckoutLaws
  import opened Interleaving
  import opened InterleavingLaws

  // ----- every checkout is accounted for -----

  function One(input: Input, x: Input): int { if input == x then 1 else 0 }

  function Begun(actions: seq<Action>, x: Input): int {
    if actions == [] then 0
    else (if actions[0].Begin? then One(actions[0].input, x) else 0) + Begun(actions[1..], x)
  }

  ghost function Aborted(world: World, actions: seq<Action>, x: Input): int
    decreases |actions|
  {
    if actions == [] || !Enabled(world, actions[0]) then 0
    else
      (if actions[0].Abort? then One(world.txs[actions[0].t].input, x) else 0)
        + Aborted(Do(world, actions[0]), actions[1..], x)
  }

  function Logged(log: seq<Entry>, x: Input): int {
    if log == [] then 0 else Logged(log[..|log| - 1], x) + One(log[|log| - 1].input, x)
  }

  ghost function LiveBy(txs: map<nat, Tx>, x: Input): map<nat, int> { map t | t in txs :: One(txs[t].input, x) }

  ghost function Live(txs: map<nat, Tx>, x: Input): int { Sum(LiveBy(txs, x)) }

  lemma LiveSet(txs: map<nat, Tx>, t: nat, tx: Tx, x: Input)
    ensures Live(txs[t := tx], x) == Live(txs, x) + One(tx.input, x) - (if t in txs then One(txs[t].input, x) else 0)
  {
    assert LiveBy(txs[t := tx], x) == LiveBy(txs, x)[t := One(tx.input, x)];
    SumSet(LiveBy(txs, x), t, One(tx.input, x));
  }

  lemma LiveRemove(txs: map<nat, Tx>, t: nat, x: Input)
    requires t in txs
    ensures Live(txs - {t}, x) == Live(txs, x) - One(txs[t].input, x)
  {
    assert LiveBy(txs - {t}, x) == LiveBy(txs, x) - {t};
    SumRemove(LiveBy(txs, x), t);
  }

  lemma LoggedSnoc(log: seq<Entry>, e: Entry, x: Input)
    ensures Logged(log + [e], x) == Logged(log, x) + One(e.input, x)
  {
    assert (log + [e])[..|log|] == log;
  }

  lemma StepAccounts(world: World, a: Action, x: Input)
    requires Enabled(world, a)
    ensures var world' := Do(world, a);
      Live(world'.txs, x) + Logged(world'.log, x)
        == Live(world.txs, x) + Logged(world.log, x)
         + (if a.Begin? then One(a.input, x) else 0)
         - (if a.Abort? then One(world.txs[a.t].input, x) else 0)
  {
    var world' := Do(world, a);
    if a.t in world'.txs { LiveSet(world.txs, a.t, world'.txs[a.t], x); } else { LiveRemove(world.txs, a.t, x); }
    if a.Execute? || a.Commit? {
      if world'.log != world.log { LoggedSnoc(world.log, world'.log[|world.log|], x); }
    }
  }

  lemma {:induction false} RunAccounts(world: World, actions: seq<Action>, world': World, x: Input)
    requires Executes(world, actions, world')
    ensures Live(world'.txs, x) + Logged(world'.log, x) + Aborted(world, actions, x)
      == Live(world.txs, x) + Logged(world.log, x) + Begun(actions, x)
    decreases |actions|
  {
    if actions != [] {
      StepAccounts(world, actions[0], x);
      RunAccounts(Do(world, actions[0]), actions[1..], world', x);
    }
  }

  // In every run, for every request: each time it began it is still running, was
  // aborted, or has exactly one entry in the log. No checkout vanishes.
  lemma EveryRequestAccounted(db: Db, next: Ids, actions: seq<Action>, world: World, x: Input)
    requires Executes(Start(db, next), actions, world)
    ensures Begun(actions, x) == Live(world.txs, x) + Logged(world.log, x) + Aborted(Start(db, next), actions, x)
  {
    assert LiveBy(map[], x) == map[];
    RunAccounts(Start(db, next), actions, world, x);
  }

  // ----- commits create orders, refusals are answered -----

  function Commits(actions: seq<Action>): nat {
    if actions == [] then 0 else (if actions[0].Commit? then 1 else 0) + Commits(actions[1..])
  }

  function CreatedIn(log: seq<Entry>): nat {
    if log == [] then 0 else CreatedIn(log[..|log| - 1]) + if log[|log| - 1].out.Created? then 1 else 0
  }

  lemma CreatedSnoc(log: seq<Entry>, e: Entry)
    ensures CreatedIn(log + [e]) == CreatedIn(log) + if e.out.Created? then 1 else 0
  {
    assert (log + [e])[..|log|] == log;
  }

  lemma StepCreates(world: World, a: Action)
    requires Enabled(world, a)
    ensures CreatedIn(Do(world, a).log) == CreatedIn(world.log) + if a.Commit? then 1 else 0
  {
    var log' := Do(world, a).log;
    if a.Execute? && StatementOf(world, a.t).Stop? { StopNeverCreates(world, a.t); }
    if log' != world.log { CreatedSnoc(world.log, log'[|world.log|]); }
  }

  lemma {:induction false} RunCreates(world: World, actions: seq<Action>, world': World)
    requires Executes(world, actions, world')
    ensures CreatedIn(world'.log) == CreatedIn(world.log) + Commits(actions)
    decreases |actions|
  {
    if actions != [] {
      StepCreates(world, actions[0]);
      RunCreates(Do(world, actions[0]), actions[1..], world');
    }
  }

  // Logs only grow and orders stay as they were stored.
  ghost predicate Onward(world: World, world': World) {
    && world.log <= world'.log
    && forall o :: o in world.db.orders ==> o in world'.db.orders && world'.db.orders[o] == world.db.orders[o]
  }

  lemma CommitOnward(db0: Db, world: World, t: nat)
    requires Inv(db0, world) && FreshIds(world) && Enabled(world, Commit(t))
    ensures Onward(world, Do(world, Commit(t)))
  {
    CommitIsSerial(world.db, world.txs[t]);
    RunMeansVerdict(world.db, world.txs[t].input, world.txs[t].ids);
    assert Drawn(world.txs[t]);
  }

  lemma StepOnward(db0: Db, world: World, a: Action)
    requires Inv(db0, world) && FreshIds(world) && Enabled(world, a)
    ensures Onward(world, Do(world, a))
  {
    if a.Commit? { CommitOnward(db0, world, a.t); }
  }

  lemma {:induction false} RunOnward(db0: Db, world: World, actions: seq<Action>, world': World)
    requires Inv(db0, world) && Books(db0, world) && Executes(world, actions, world')
    ensures Onward(world, world')
    decreases |actions|
  {
    if actions != [] {
      StepOnward(db0, world, actions[0]);
      StepKeepsInv(db0, world, actions[0]);
      StepKeepsBooks(db0, world, actions[0]);
      RunOnward(db0, Do(world, actions[0]), actions[1..], world');
    }
  }

  // The answer a commit leaves: the request's own, with an order that carries its
  // buyer and lines.
  ghost predicate Answered(world: World, i: nat, input: Input) {
    && i < |world.log| && world.log[i].input == input && world.log[i].out.Created?
    && var o := world.log[i].out.order;
      o in world.db.orders && world.db.orders[o].buyer == input.buyer && Records(world.db.orders[o].items, input.items)
  }

  lemma CommitAnswers(db0: Db, world: World, t: nat)
    requires Inv(db0, world) && Enabled(world, Commit(t))
    ensures |Do(world, Commit(t)).log| == |world.log| + 1
    ensures Answered(Do(world, Commit(t)), |world.log|, world.txs[t].input)
  {
    CommitIsSerial(world.db, world.txs[t]);
    SaleStores(world.db, world.txs[t].input, world.txs[t].ids);
  }

  lemma AnsweredStays(world: World, world': World, i: nat, input: Input)
    requires Onward(world, world') && Answered(world, i, input)
    ensures Answered(world', i, input)
  {
    assert world'.log[i] == world.log[i];
  }

  lemma AnsweredFromHere(db0: Db, world: World, t: nat, after: seq<Action>, world': World)
    requires Inv(db0, world) && Books(db0, world) && Enabled(world, Commit(t))
    requires Executes(Do(world, Commit(t)), after, world')
    ensures Answered(world', |world.log|, world.txs[t].input)
  {
    CommitAnswers(db0, world, t);
    StepKeepsInv(db0, world, Commit(t));
    StepKeepsBooks(db0, world, Commit(t));
    RunOnward(db0, Do(world, Commit(t)), after, world');
    AnsweredStays(Do(world, Commit(t)), world', |world.log|, world.txs[t].input);
  }

  // In every run a checkout that commits is answered with a new order of its buyer
  // and lines, and stays so answered for good.
  lemma CommitCreatesOrder(db: Db, next: Ids, before: seq<Action>, world: World, t: nat, after: seq<Action>,
                           world': World)
    requires OpeningBooks(db, next) && Executes(Start(db, next), before, world) && Enabled(world, Commit(t))
    requires Executes(Do(world, Commit(t)), after, world')
    ensures Answered(world', |world.log|, world.txs[t].input)
  {
    RunKeepsInv(db, Start(db, next), before, world);
    BooksBalance(db, next, before, world);
    AnsweredFromHere(db, world, t, after, world');
  }

  // As many orders are answered as checkouts commit.
  lemma OrdersAreCommits(db: Db, next: Ids, actions: seq<Action>, world: World)
    requires Executes(Start(db, next), actions, world)
    ensures CreatedIn(world.log) == Commits(actions)
  {
    RunCreates(Start(db, next), actions, world);
  }

  // A statement that refuses ends its checkout with that answer and no other trace.
  lemma RefusalIsAnswered(world: World, t: nat, out: Outcome)
    requires Enabled(world, Execute(t)) && StatementOf(world, t) == Stop(out)
    ensures var world' := Do(world, Execute(t));
      && t !in world'.txs && world'.db == world.db && |world'.log| == |world.log| + 1 && world.log <= world'.log
      && world'.log[|world.log|].input == world.txs[t].input && world'.log[|world.log|].out == out
  {
  }

  // ----- nobody is held up but by a lock -----

  // In every reachable state a transaction can take its next step exactly when
  // nobody holds what it wants, or its statement fails without the lock.
  lemma RunsUnlessBlocked(db: Db, next: Ids, actions: seq<Action>, world: World, t: nat)
    requires Executes(Start(db, next), actions, world) && t in world.txs
    ensures Enabled(world, Commit(t)) <==> world.txs[t].pc == Length(world.txs[t].input)
    ensures world.txs[t].pc < Length(world.txs[t].input) ==>
      Sound(world.txs[t]) && (Enabled(world, Execute(t)) <==> !Waits(world, t) || StatementOf(world, t).Stop?)
    ensures world.txs[t].pc <= Length(world.txs[t].input)
  {
    RunKeepsInv(db, Start(db, next), actions, world);
    SoundTx(world.db, world.txs[t]);
  }

  lemma SoundTx(db: Db, tx: Tx)
    requires TxInv(db, tx)
    ensures Sound(tx)
  {
    PrefixLocks(db, tx.input, tx.ids, tx.pc);
  }

  lemma {:induction false} ExecutesAppend(world: World, a: seq<Action>, world1: World, b: seq<Action>, world2: World)
    requires Executes(world, a, world1) && Executes(world1, b, world2)
    ensures Executes(world, a + b, world2)
    decreases |a|
  {
    if a == [] {
      assert a + b == b;
    } else {
      ExecutesAppend(Do(world, a[0]), a[1..], world1, b, world2);
      assert (a + b)[1..] == a[1..] + b;
    }
  }

  lemma ExecutesOne(world: World, a: Action)
    requires Enabled(world, a)
    ensures Executes(world, [a], Do(world, a))
  {
    assert [a][1..] == [];
    assert Executes(Do(world, a), [], Do(world, a));
  }

  // A transaction alone goes through to its answer.
  lemma {:induction false} FinishesAlone(db0: Db, world: World, t: nat) returns (actions: seq<Action>, world': World)
    requires Inv(db0, world) && world.txs.Keys == {t}
    ensures Executes(world, actions, world') && world'.txs == map[]
    ensures |world'.log| == |world.log| + 1 && world.log <= world'.log
    ensures world'.log[|world.log|].input == world.txs[t].input
    decreases Length(world.txs[t].input) - world.txs[t].pc
  {
    var tx := world.txs[t];
    SoundTx(world.db, tx);
    if tx.pc == Length(tx.input) {
      actions, world' := [Commit(t)], Do(world, Commit(t));
      ExecutesOne(world, Commit(t));
      assert world'.txs.Keys == {};
    } else {
      assert !Waits(world, t);
      var world1 := Do(world, Execute(t));
      ExecutesOne(world, Execute(t));
      if t in world1.txs {
        StepKeepsInv(db0, world, Execute(t));
        assert world1.txs.Keys == {t};
        var rest;
        rest, world' := FinishesAlone(db0, world1, t);
        actions := [Execute(t)] + rest;
        ExecutesAppend(world, [Execute(t)], world1, rest, world');
      } else {
        actions, world' := [Execute(t)], world1;
        assert world1.txs.Keys == {};
      }
    }
  }

  // Every request that begins on an idle database can be answered as a serial
  // checkout answers it, leaving its tables.
  lemma EveryRequestCanFinish(db: Db, next: Ids, input: Input) returns (actions: seq<Action>, world: World)
    requires ValidInput(input)
    ensures Executes(Start(db, next), actions, world) && world.txs == map[]
    ensures |world.log| == 1 && world.log[0].input == input
    ensures world.log[0].out == Verdict(db, input, world.log[0].ids)
    ensures world.db == Run(db, input, world.log[0].ids).db
  {
    var begin := Begin(0, input);
    var world0 := Start(db, next);
    var world1 := Do(world0, begin);
    assert Inv(db, world0);
    StepKeepsInv(db, world0, begin);
    ExecutesOne(world0, begin);
    var rest;
    rest, world := FinishesAlone(db, world1, 0);
    actions := [begin] + rest;
    ExecutesAppend(world0, [begin], world1, rest, world);
    Serializable(db, next, actions, world);
    assert world.log[..0] == [] && world.log == [world.log[0]];
  }
}
