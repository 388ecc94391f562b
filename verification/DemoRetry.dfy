/** The demo's barrier: src/demo-retry.ts:10-29. */
module DemoRetry {
  import opened Prelude
  import Snapshot

  // The two callers of the demo; `arrived` counts reads, and the first two reads
  // wait for each other before they update.
  datatype State = State(db: Snapshot.State, arrived: nat, wave: map<nat, nat>)

  function Start(balance: nat): State { State(Snapshot.Start(balance, 2), 0, map[]) }

  predicate Enabled(s: State, a: Snapshot.Action) {
    && Snapshot.Enabled(s.db, a) && !a.Break?
    && (a.Update? ==> a.c in s.wave && (s.wave[a.c] <= 2 ==> s.arrived >= 2))
  }

  function Do(most: nat, s: State, a: Snapshot.Action): State
    requires Enabled(s, a)
  {
    var db := Snapshot.Do(most, s.db, a);
    if a.Read? then State(db, s.arrived + 1, s.wave[a.c := s.arrived + 1]) else s.(db := db)
  }

  /** The users row, the shared counter and the two transactions on them. */
  class Demo {
    const most: nat
    var db: Snapshot.State
    var arrived: nat
    var wave: map<nat, nat>

    ghost function View(): State
      reads this
    {
      State(db, arrived, wave)
    }

    constructor (balance: nat, most: nat)
      ensures View() == Start(balance) && this.most == most
    {
      this.most, db, arrived, wave := most, Snapshot.Start(balance, 2), 0, map[];
    }

    // The SELECT takes the snapshot; then the caller counts itself in.
    method ReadBalance(c: nat)
      requires Enabled(View(), Snapshot.Read(c))
      modifies this
      ensures View() == Do(most, old(View()), Snapshot.Read(c))
    {
      var caller := db.callers[c];
      db := db.(callers := db.callers[c := caller.(phase := Snapshot.Reading(db.balance, db.version))]);
      arrived := arrived + 1;
      wave := wave[c := arrived];
    }

    // The UPDATE of a row that has changed since the snapshot fails, and the retry
    // loop rolls back.
    method WriteBalance(c: nat)
      requires Enabled(View(), Snapshot.Update(c))
      modifies this
      ensures View() == Do(most, old(View()), Snapshot.Update(c))
    {
      var caller := db.callers[c];
      if caller.phase.version == db.version {
        db := db.(lock := Some(c), callers := db.callers[c := caller.(phase := Snapshot.Written(caller.phase.seen))]);
      } else {
        var phase := if caller.failures + 1 >= most then Snapshot.GaveUp else Snapshot.Ready;
        db := db.(callers := db.callers[c := Snapshot.Caller(phase, caller.failures + 1)]);
      }
    }

    method CommitBalance(c: nat)
      requires Enabled(View(), Snapshot.Commit(c))
      modifies this
      ensures View() == Do(most, old(View()), Snapshot.Commit(c))
    {
      var caller := db.callers[c];
      var callers := db.callers[c := caller.(phase := Snapshot.Done)];
      db := Snapshot.State(caller.phase.seen + 1, db.version + 1, None, callers);
    }
  }

  ghost predicate Executes(most: nat, s: State, actions: seq<Snapshot.Action>, s': State)
    decreases |actions|
  {
    if actions == [] then s' == s
    else Enabled(s, actions[0]) && Executes(most, Do(most, s, actions[0]), actions[1..], s')
  }

  predicate Two(s: State) { 0 in s.db.callers && 1 in s.db.callers && s.db.callers.Keys == {0, 1} }

  predicate Went(s: State, c: nat) { c in s.db.callers && s.db.callers[c].phase != Snapshot.Ready }

  function Retries(s: State): nat
    requires Two(s)
  {
    s.db.callers[0].failures + s.db.callers[1].failures
  }

  // As long as nobody has failed, nobody updates before both have read, so both
  // have read the starting balance.
  ghost predicate NoFailureYet(s: State) {
    && s.arrived == (if Went(s, 0) then 1 else 0) + (if Went(s, 1) then 1 else 0)
    && (forall c :: c in s.wave ==> s.wave[c] <= s.arrived)
    && (s.db.version > 0 || s.db.lock.Some? ==> Went(s, 0) && Went(s, 1))
    && s.db.version <= 1 && (s.db.lock.Some? ==> s.db.version == 0)
    && (forall c :: c in s.db.callers && s.db.callers[c].phase.Reading? ==> s.db.callers[c].phase.version == 0)
  }

  ghost predicate Inv(s: State) { Two(s) && (Retries(s) == 0 ==> NoFailureYet(s)) }

  lemma StepKeeps(most: nat, s: State, a: Snapshot.Action)
    requires Inv(s) && Snapshot.LockInv(s.db) && Enabled(s, a)
    ensures Inv(Do(most, s, a))
  {
    assert a.c == 0 || a.c == 1 by { assert a.c in s.db.callers.Keys; }
  }

  lemma {:induction false} RunKeeps(most: nat, balance: nat, s: State, actions: seq<Snapshot.Action>, s': State)
    requires most >= 1 && Inv(s) && Snapshot.Inv(most, balance, s.db) && Executes(most, s, actions, s')
    ensures Inv(s') && Snapshot.Inv(most, balance, s'.db)
    decreases |actions|
  {
    if actions != [] {
      StepKeeps(most, s, actions[0]);
      Snapshot.StepKeeps(most, balance, s.db, actions[0]);
      RunKeeps(most, balance, Do(most, s, actions[0]), actions[1..], s');
    }
  }

  // Whatever the interleaving, when both callers are done the demo's check holds:
  // at least one retry was needed and both increments are in the balance.
  lemma DemoSucceeds(most: nat, balance: nat, actions: seq<Snapshot.Action>, s: State)
    requires most >= 1 && Executes(most, Start(balance), actions, s)
    requires forall c :: c in s.db.callers ==> s.db.callers[c].phase == Snapshot.Done
    ensures Two(s) && Retries(s) >= 1 && s.db.balance == balance + 2
  {
    Snapshot.StartInv(most, balance, 2);
    assert Start(balance).db.callers.Keys == {0, 1};
    RunKeeps(most, balance, Start(balance), actions, s);
    Snapshot.AllDone(s.db.callers);
    assert |s.db.callers| == |s.db.callers.Keys| == 2;
  }

  // ----- the barrier lets everybody through -----

  // Until two reads are counted somebody is still to read, and nobody has updated.
  ghost predicate BarrierInv(s: State) {
    && Two(s)
    && (forall c :: c in s.wave ==> s.wave[c] <= s.arrived)
    && (forall c :: c in s.db.callers && s.db.callers[c].phase.Reading? ==> c in s.wave)
    && (forall c :: c in s.db.callers ==> s.db.callers[c].phase != Snapshot.Broken)
    && (s.arrived < 2 ==> s.db.lock.None? && (!Went(s, 0) || !Went(s, 1)))
    && (s.arrived == 0 ==> !Went(s, 0) && !Went(s, 1))
  }

  lemma StepKeepsBarrier(most: nat, s: State, a: Snapshot.Action)
    requires BarrierInv(s) && Snapshot.LockInv(s.db) && Enabled(s, a)
    ensures BarrierInv(Do(most, s, a))
  {
    assert a.c == 0 || a.c == 1 by { assert a.c in s.db.callers.Keys; }
  }

  lemma {:induction false} RunKeepsBarrier(most: nat, balance: nat, s: State, actions: seq<Snapshot.Action>, s': State)
    requires most >= 1 && BarrierInv(s) && Snapshot.Inv(most, balance, s.db) && Executes(most, s, actions, s')
    ensures BarrierInv(s') && Snapshot.Executes(most, s.db, actions, s'.db)
    decreases |actions|
  {
    if actions != [] {
      StepKeepsBarrier(most, s, actions[0]);
      Snapshot.StepKeeps(most, balance, s.db, actions[0]);
      RunKeepsBarrier(most, balance, Do(most, s, actions[0]), actions[1..], s');
    }
  }

  ghost predicate AtRest(s: State) {
    forall a :: !Enabled(s, a)
  }

  lemma RestMeansSettled(s: State, c: nat)
    requires BarrierInv(s) && Snapshot.LockInv(s.db) && AtRest(s) && c in s.db.callers
    ensures Snapshot.Settled(s.db.callers[c].phase)
  {
    if s.db.lock.Some? {
      assert Enabled(s, Snapshot.Commit(s.db.lock.value));
    } else {
      assert !Enabled(s, Snapshot.Read(0)) && !Enabled(s, Snapshot.Read(1));
      assert !Enabled(s, Snapshot.Update(c)) && !Enabled(s, Snapshot.Commit(c));
    }
  }

  // The barrier holds nobody up: every run of the demo has at most ten steps, and
  // one that cannot go on has both callers done and both increments made.
  lemma DemoEnds(most: nat, balance: nat, actions: seq<Snapshot.Action>, s: State)
    requires most >= 2 && Executes(most, Start(balance), actions, s)
    ensures |actions| <= 10
    ensures AtRest(s) ==> s.db.balance == balance + 2 && Two(s) && Retries(s) >= 1
    ensures AtRest(s) ==> forall c :: c in s.db.callers ==> s.db.callers[c].phase == Snapshot.Done
  {
    Snapshot.StartInv(most, balance, 2);
    assert Start(balance).db.callers.Keys == {0, 1};
    RunKeepsBarrier(most, balance, Start(balance), actions, s);
    Snapshot.RunsEnd(most, balance, 2, actions, s.db);
    if AtRest(s) {
      Snapshot.RunKeeps(most, balance, Snapshot.Start(balance, 2), actions, s.db);
      forall c | c in s.db.callers
        ensures s.db.callers[c].phase == Snapshot.Done
      {
        RestMeansSettled(s, c);
        Snapshot.NoLostUpdate(most, balance, 2, actions, s.db, c);
      }
      DemoSucceeds(most, balance, actions, s);
    }
  }
}
