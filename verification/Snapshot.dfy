/**
 * Callers bumping one balance, each a read-modify-write under snapshot isolation
 * inside the retry loop: src/demo-retry.ts with src/retry.ts.
 */
module Snapshot {
  import opened Prelude

  // Reading: the transaction has its snapshot, taken when `version` commits had
  // been made. Written: its update is in place and it holds the row lock.
  datatype Phase = Ready | Reading(seen: nat, version: nat) | Written(seen: nat) | Done | GaveUp | Broken
  datatype Caller = Caller(phase: Phase, failures: nat)

  datatype State = State(balance: nat, version: nat, lock: Option<nat>, callers: map<nat, Caller>)

  datatype Action = Read(c: nat) | Update(c: nat) | Commit(c: nat) | Break(c: nat)

  // The caller's promise has resolved or rejected.
  predicate Settled(phase: Phase) { phase == Done || phase == GaveUp || phase == Broken }

  predicate Enabled(s: State, a: Action) {
    match a
    case Read(c) => c in s.callers && s.callers[c].phase == Ready
    // waits for whoever holds the row
    case Update(c) => c in s.callers && s.callers[c].phase.Reading? && s.lock.None?
    case Commit(c) => c in s.callers && s.callers[c].phase.Written?
    case Break(c) => c in s.callers && !Settled(s.callers[c].phase)
  }

  function Set(s: State, c: nat, phase: Phase): State
    requires c in s.callers
  {
    s.(callers := s.callers[c := s.callers[c].(phase := phase)])
  }

  // 40001: roll back and, with attempts left, go again.
  function Retried(caller: Caller, most: nat): Caller {
    Caller(if caller.failures + 1 >= most then GaveUp else Ready, caller.failures + 1)
  }

  function Do(most: nat, s: State, a: Action): State
    requires Enabled(s, a)
  {
    match a
    case Read(c) => Set(s, c, Reading(s.balance, s.version))
    case Update(c) =>
      var phase := s.callers[c].phase;
      // the row changed since the snapshot: could not serialize access
      if s.version != phase.version then s.(callers := s.callers[c := Retried(s.callers[c], most)])
      else Set(s, c, Written(phase.seen)).(lock := Some(c))
    case Commit(c) =>
      Set(s, c, Done).(balance := s.callers[c].phase.seen + 1, version := s.version + 1, lock := None)
    // an error that is not retryable; the transaction rolls back
    case Break(c) => Set(s, c, Broken).(lock := if s.lock == Some(c) then None else s.lock)
  }

  ghost predicate Executes(most: nat, s: State, actions: seq<Action>, s': State)
    decreases |actions|
  {
    if actions == [] then s' == s
    else Enabled(s, actions[0]) && Executes(most, Do(most, s, actions[0]), actions[1..], s')
  }

  function Callers(n: nat): (callers: map<nat, Caller>)
    ensures forall c :: c in callers <==> 0 <= c < n
    ensures forall c :: c in callers ==> callers[c] == Caller(Ready, 0)
  {
    if n == 0 then map[] else Callers(n - 1)[n - 1 := Caller(Ready, 0)]
  }

  function Start(balance: nat, n: nat): State { State(balance, 0, None, Callers(n)) }

  // ----- successes -----

  ghost function DoneBy(callers: map<nat, Caller>): map<nat, int> {
    map c | c in callers :: if callers[c].phase == Done then 1 else 0
  }

  ghost function Successes(callers: map<nat, Caller>): int { Sum(DoneBy(callers)) }

  lemma SuccessesSet(callers: map<nat, Caller>, c: nat, caller: Caller)
    requires c in callers
    ensures Successes(callers[c := caller])
      == Successes(callers) + (if caller.phase == Done then 1 else 0) - (if callers[c].phase == Done then 1 else 0)
  {
    assert DoneBy(callers[c := caller]) == DoneBy(callers)[c := if caller.phase == Done then 1 else 0];
    SumSet(DoneBy(callers), c, if caller.phase == Done then 1 else 0);
  }

  // Somebody is not done, so not all are.
  lemma NotAllDone(callers: map<nat, Caller>, c: nat)
    requires c in callers && callers[c].phase != Done
    ensures Successes(callers) <= |callers| - 1
  {
    var others: map<nat, int> := map d | d in callers :: 1;
    SumConstant(others, 1);
    SumRemove(others, c);
    SumRemove(DoneBy(callers), c);
    SumLessEqual(DoneBy(callers) - {c}, others - {c});
    assert others.Keys == callers.Keys;
    assert |others| == |others.Keys| && |callers| == |callers.Keys|;
  }

  lemma AllDone(callers: map<nat, Caller>)
    requires forall c :: c in callers ==> callers[c].phase == Done
    ensures Successes(callers) == |callers|
  {
    SumConstant(DoneBy(callers), 1);
    assert DoneBy(callers).Keys == callers.Keys;
    assert |DoneBy(callers)| == |DoneBy(callers).Keys| && |callers| == |callers.Keys|;
  }

  // ----- the invariant -----

  // A caller has failed at most once per commit before its snapshot.
  ghost predicate CallerOk(most: nat, s: State, caller: Caller) {
    match caller.phase
    case Ready => caller.failures <= s.version && caller.failures < most
    case Reading(seen, version) =>
      caller.failures <= version <= s.version && caller.failures < most && (version == s.version ==> seen == s.balance)
    case Written(seen) => caller.failures <= s.version && caller.failures < most && seen == s.balance
    case Done => caller.failures + 1 <= s.version && caller.failures < most
    case GaveUp => most <= caller.failures <= s.version
    case Broken => caller.failures <= s.version
  }

  ghost predicate CallersInv(most: nat, s: State) {
    forall c :: c in s.callers ==> CallerOk(most, s, s.callers[c])
  }

  ghost predicate LockInv(s: State) {
    && (forall c :: c in s.callers && s.callers[c].phase.Written? ==> s.lock == Some(c))
    && (s.lock.Some? ==> s.lock.value in s.callers && s.callers[s.lock.value].phase.Written?)
  }

  ghost predicate Inv(most: nat, start: nat, s: State) {
    s.balance == start + s.version && s.version == Successes(s.callers) && CallersInv(most, s) && LockInv(s)
  }

  lemma StepKeepsCallers(most: nat, s: State, a: Action)
    requires most >= 1 && CallersInv(most, s) && LockInv(s) && Enabled(s, a)
    ensures CallersInv(most, Do(most, s, a)) && LockInv(Do(most, s, a))
    ensures Do(most, s, a).callers.Keys == s.callers.Keys
  {
  }

  lemma StepKeeps(most: nat, start: nat, s: State, a: Action)
    requires most >= 1 && Inv(most, start, s) && Enabled(s, a)
    ensures Inv(most, start, Do(most, s, a)) && Do(most, s, a).callers.Keys == s.callers.Keys
  {
    StepKeepsCallers(most, s, a);
    SuccessesSet(s.callers, a.c, Do(most, s, a).callers[a.c]);
    assert CallerOk(most, s, s.callers[a.c]);
  }

  lemma {:induction false} RunKeeps(most: nat, start: nat, s: State, actions: seq<Action>, s': State)
    requires most >= 1 && Inv(most, start, s) && Executes(most, s, actions, s')
    ensures Inv(most, start, s') && s'.callers.Keys == s.callers.Keys
    decreases |actions|
  {
    if actions != [] {
      StepKeeps(most, start, s, actions[0]);
      RunKeeps(most, start, Do(most, s, actions[0]), actions[1..], s');
    }
  }

  lemma StartInv(most: nat, balance: nat, n: nat)
    requires most >= 1
    ensures Inv(most, balance, Start(balance, n)) && |Start(balance, n).callers| == n
  {
    SumConstant(DoneBy(Callers(n)), 0);
    CallersSize(n);
  }

  lemma {:induction false} CallersSize(n: nat)
    ensures |Callers(n)| == n
  {
    if n > 0 {
      CallersSize(n - 1);
      assert Callers(n).Keys == Callers(n - 1).Keys + {n - 1};
      assert |Callers(n)| == |Callers(n).Keys| && |Callers(n - 1)| == |Callers(n - 1).Keys|;
    }
  }

  // ----- what every run guarantees -----

  // No update is lost: the balance is the start plus one for each success. A
  // caller that failed k times saw k commits by others. So a caller gives up only
  // after as many others as the attempt limit have succeeded, and with no more
  // callers than attempts nobody does.
  lemma NoLostUpdate(most: nat, balance: nat, n: nat, actions: seq<Action>, s: State, c: nat)
    requires most >= 1 && Executes(most, Start(balance, n), actions, s) && c in s.callers
    ensures s.balance == balance + Successes(s.callers)
    ensures s.callers[c].failures <= Successes(s.callers) - (if s.callers[c].phase == Done then 1 else 0)
    ensures s.callers[c].phase == GaveUp ==> most <= s.callers[c].failures <= n - 1
    ensures n <= most ==> s.callers[c].phase != GaveUp
    ensures (forall d :: d in s.callers ==> s.callers[d].phase == Done) ==> s.balance == balance + n
  {
    StartInv(most, balance, n);
    RunKeeps(most, balance, Start(balance, n), actions, s);
    assert CallerOk(most, s, s.callers[c]);
    assert |s.callers| == |s.callers.Keys| == |Callers(n).Keys| == n by { CallersSize(n); }
    if s.callers[c].phase == GaveUp { NotAllDone(s.callers, c); }
    if forall d :: d in s.callers ==> s.callers[d].phase == Done { AllDone(s.callers); }
  }

  // ----- every caller succeeds -----

  // Steps a caller has taken: two for each failure, and its way through the
  // attempt it is in.
  function Steps(caller: Caller): int {
    2 * caller.failures + (match caller.phase
                           case Ready => 0
                           case Reading(_, _) => 1
                           case Written(_) => 2
                           case Done => 3
                           case GaveUp => 0
                           case Broken => 3)
  }

  ghost function StepsBy(callers: map<nat, Caller>): map<nat, int> { map c | c in callers :: Steps(callers[c]) }

  lemma StepsSet(callers: map<nat, Caller>, c: nat, caller: Caller)
    requires c in callers
    ensures Sum(StepsBy(callers[c := caller])) == Sum(StepsBy(callers)) + Steps(caller) - Steps(callers[c])
  {
    assert StepsBy(callers[c := caller]) == StepsBy(callers)[c := Steps(caller)];
    SumSet(StepsBy(callers), c, Steps(caller));
  }

  lemma {:induction false} RunSteps(most: nat, s: State, actions: seq<Action>, s': State)
    requires Executes(most, s, actions, s')
    ensures |actions| <= Sum(StepsBy(s'.callers)) - Sum(StepsBy(s.callers))
    decreases |actions|
  {
    if actions != [] {
      var s1 := Do(most, s, actions[0]);
      StepsSet(s.callers, actions[0].c, s1.callers[actions[0].c]);
      RunSteps(most, s1, actions[1..], s');
    }
  }

  // The most steps n callers can take.
  function MostSteps(n: nat): int { n * (2 * (n - 1) + 3) }

  lemma StepsBounded(callers: map<nat, Caller>, each: int)
    requires forall c :: c in callers ==> Steps(callers[c]) <= each
    ensures Sum(StepsBy(callers)) <= |callers| * each
  {
    var most: map<nat, int> := map c | c in callers :: each;
    SumLessEqual(StepsBy(callers), most);
    SumConstant(most, each);
    assert most.Keys == callers.Keys;
    assert |most| == |most.Keys| && |callers| == |callers.Keys|;
  }

  lemma NothingTaken(n: nat)
    ensures Sum(StepsBy(Callers(n))) == 0
  {
    SumConstant(StepsBy(Callers(n)), 0);
  }

  // No run goes on for ever, errors and giving up included: n callers take at
  // most n * (2 * (n - 1) + 3) steps.
  lemma RunsEnd(most: nat, balance: nat, n: nat, actions: seq<Action>, s: State)
    requires most >= 1 && Executes(most, Start(balance, n), actions, s)
    ensures |actions| <= MostSteps(n)
  {
    StartInv(most, balance, n);
    RunKeeps(most, balance, Start(balance, n), actions, s);
    RunSteps(most, Start(balance, n), actions, s);
    NothingTaken(n);
    CallersSize(n);
    assert |s.callers| == |s.callers.Keys| == |Callers(n).Keys| == n;
    forall c | c in s.callers
      ensures Steps(s.callers[c]) <= 2 * (n - 1) + 3
    {
      NoLostUpdate(most, balance, n, actions, s, c);
      StepsOfOne(s.callers, c, n);
    }
    StepsBounded(s.callers, 2 * (n - 1) + 3);
  }

  lemma StepsOfOne(callers: map<nat, Caller>, c: nat, n: nat)
    requires c in callers && |callers| == n
    requires callers[c].failures <= Successes(callers) - (if callers[c].phase == Done then 1 else 0)
    ensures Steps(callers[c]) <= 2 * (n - 1) + 3
  {
    if callers[c].phase != Done { NotAllDone(callers, c); }
    SuccessesBounded(callers);
  }

  lemma SuccessesBounded(callers: map<nat, Caller>)
    ensures Successes(callers) <= |callers|
  {
    var ones: map<nat, int> := map c | c in callers :: 1;
    SumLessEqual(DoneBy(callers), ones);
    SumConstant(ones, 1);
    assert ones.Keys == callers.Keys;
    assert |ones| == |ones.Keys| && |callers| == |callers.Keys|;
  }

  // Nobody can take another step.
  ghost predicate AtRest(s: State) {
    forall a: Action :: Enabled(s, a) ==> a.Break?
  }

  // A caller that has not settled is not all there is to wait for: somebody can go on.
  lemma RestMeansSettled(most: nat, s: State, c: nat)
    requires CallersInv(most, s) && LockInv(s) && AtRest(s) && c in s.callers
    ensures Settled(s.callers[c].phase)
  {
    if s.lock.Some? {
      assert Enabled(s, Commit(s.lock.value));
    } else {
      assert !Enabled(s, Read(c)) && !Enabled(s, Update(c)) && !Enabled(s, Commit(c));
    }
  }

  // With no more callers than attempts every caller succeeds: a run without other
  // errors has at most MostSteps(n) steps, and where it cannot go on every caller
  // is done and the balance has grown by n.
  lemma EveryCallerSucceeds(most: nat, balance: nat, n: nat, actions: seq<Action>, s: State)
    requires most >= 1 && n <= most && Executes(most, Start(balance, n), actions, s)
    requires forall c :: c in s.callers ==> s.callers[c].phase != Broken
    ensures |actions| <= MostSteps(n)
    ensures AtRest(s) ==> s.balance == balance + n && forall c :: c in s.callers ==> s.callers[c].phase == Done
  {
    RunsEnd(most, balance, n, actions, s);
    if AtRest(s) {
      StartInv(most, balance, n);
      RunKeeps(most, balance, Start(balance, n), actions, s);
      forall c | c in s.callers
        ensures s.callers[c].phase == Done
      {
        RestMeansSettled(most, s, c);
        NoLostUpdate(most, balance, n, actions, s, c);
      }
      AllDone(s.callers);
      CallersSize(n);
      assert |s.callers| == |s.callers.Keys| == |Callers(n).Keys| == n;
    }
  }

  // ----- the limit is exact -----

  // Caller 0 has failed k times, each time behind one of callers 1..k.
  function Behind(balance: nat, n: nat, k: nat, most: nat): State
    requires 1 <= n
  {
    State(balance + k, k, None, Overtaken(n, k)[0 := Caller(if k >= most then GaveUp else Ready, k)])
  }

  function Overtaken(n: nat, k: nat): (callers: map<nat, Caller>)
    ensures forall c :: c in callers <==> 0 <= c < n
    ensures forall c :: c in callers ==> callers[c] == if 1 <= c <= k then Caller(Done, 0) else Caller(Ready, 0)
  {
    if n == 0 then map[] else
      Overtaken(n - 1, k)[n - 1 := if 1 <= n - 1 <= k then Caller(Done, 0) else Caller(Ready, 0)]
  }

  lemma {:induction false} ExecutesAppend(most: nat, s: State, a: seq<Action>, s1: State, b: seq<Action>, s2: State)
    requires Executes(most, s, a, s1) && Executes(most, s1, b, s2)
    ensures Executes(most, s, a + b, s2)
    decreases |a|
  {
    if a == [] {
      assert a + b == b;
    } else {
      ExecutesAppend(most, Do(most, s, a[0]), a[1..], s1, b, s2);
      assert (a + b)[1..] == a[1..] + b;
    }
  }

  function Overtaking(d: nat): seq<Action> { [Read(0), Read(d), Update(d), Commit(d), Update(0)] }

  // Caller 0 reads, caller d overtakes it, caller 0 fails.
  lemma Overtake(most: nat, s: State, d: nat)
    requires 0 in s.callers && d in s.callers && d != 0 && s.lock.None?
    requires s.callers[0].phase == Ready && s.callers[d] == Caller(Ready, 0)
    ensures var s' := State(s.balance + 1, s.version + 1, None,
                            s.callers[d := Caller(Done, 0)][0 := Retried(s.callers[0], most)]);
      Executes(most, s, Overtaking(d), s')
  {
    var all := Overtaking(d);
    var s1 := Do(most, s, all[0]);
    var s2 := Do(most, s1, all[1]);
    var s3 := Do(most, s2, all[2]);
    var s4 := Do(most, s3, all[3]);
    var s5 := Do(most, s4, all[4]);
    assert s5.callers == s.callers[d := Caller(Done, 0)][0 := Retried(s.callers[0], most)];
    assert Executes(most, s5, all[1..][1..][1..][1..][1..], s5);
    assert Executes(most, s4, all[1..][1..][1..][1..], s5);
    assert Executes(most, s3, all[1..][1..][1..], s5);
    assert Executes(most, s2, all[1..][1..], s5);
    assert Executes(most, s1, all[1..], s5);
  }

  lemma OvertakenNext(n: nat, k: nat, before: Caller, after: Caller)
    requires 1 <= k < n
    ensures Overtaken(n, k - 1)[0 := before][k := Caller(Done, 0)][0 := after] == Overtaken(n, k)[0 := after]
  {
  }

  lemma OvertakeBehind(most: nat, balance: nat, n: nat, k: nat)
    requires 1 <= k <= most && k < n
    ensures Executes(most, Behind(balance, n, k - 1, most), Overtaking(k), Behind(balance, n, k, most))
  {
    var s := Behind(balance, n, k - 1, most);
    Overtake(most, s, k);
    OvertakenNext(n, k, s.callers[0], Retried(s.callers[0], most));
  }

  lemma {:induction false} FallBehind(most: nat, balance: nat, n: nat, k: nat) returns (actions: seq<Action>)
    requires 1 <= most && k <= most && k < n
    ensures Executes(most, Start(balance, n), actions, Behind(balance, n, k, most))
    decreases k
  {
    if k == 0 {
      actions := [];
      assert Overtaken(n, 0)[0 := Caller(Ready, 0)] == Callers(n);
    } else {
      var before := FallBehind(most, balance, n, k - 1);
      OvertakeBehind(most, balance, n, k);
      ExecutesAppend(most, Start(balance, n), before, Behind(balance, n, k - 1, most), Overtaking(k),
                     Behind(balance, n, k, most));
      actions := before + Overtaking(k);
    }
  }

  ghost predicate MayGiveUp(most: nat, balance: nat, n: nat) {
    exists actions, s, c ::
      Executes(most, Start(balance, n), actions, s) && c in s.callers && s.callers[c].phase == GaveUp
  }

  // Some run makes a caller give up if and only if there are more callers than attempts.
  lemma EnoughAttemptsIff(most: nat, balance: nat, n: nat)
    requires most >= 1
    ensures MayGiveUp(most, balance, n) <==> n > most
  {
    if n > most {
      var actions := FallBehind(most, balance, n, most);
      var s := Behind(balance, n, most, most);
      assert Executes(most, Start(balance, n), actions, s) && 0 in s.callers && s.callers[0].phase == GaveUp;
    }
    if MayGiveUp(most, balance, n) {
      var actions, s, c :|
        Executes(most, Start(balance, n), actions, s) && c in s.callers && s.callers[c].phase == GaveUp;
      NoLostUpdate(most, balance, n, actions, s, c);
    }
  }
}
