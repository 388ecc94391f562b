/** What job workers guarantee in every run. */
module JobWorkerLaws {
  import opened Prelude
  import opened Tables
  import opened JobWorker

  // ----- the attempt bound -----

  // With at most `limit` workers at a time: attempts, plus claims that have failed
  // or may yet fail, never exceed 4 + limit; a job is processed at most once; and
  // it is claimed at most 4 + limit times, plus once for each worker that died on it.
  lemma AttemptBound(limit: nat, actions: seq<Action>, s: State, j: nat)
    requires Executes(limit, START, actions, s) && j in s.jobs
    ensures s.jobs[j].attempts + Open(s.workers, j) <= 4 + limit
    ensures Open(s.workers, j) >= 0 && s.jobs[j].processed <= 1
    ensures At(s.hist.claims, j) <= 4 + limit + At(s.hist.deaths, j)
  {
    RunKeeps(limit, START, actions, s);
    OpenBounded(s.workers, j);
  }

  ghost predicate Reachable(limit: nat, s: State) {
    exists actions :: Executes(limit, START, actions, s)
  }

  lemma {:induction false} ExecutesSnoc(limit: nat, s: State, actions: seq<Action>, s': State, a: Action)
    requires Executes(limit, s, actions, s') && Enabled(limit, s', a)
    ensures Executes(limit, s, actions + [a], Do(limit, s', a))
    decreases |actions|
  {
    if actions == [] {
      assert ([] + [a])[1..] == [];
    } else {
      ExecutesSnoc(limit, Do(limit, s, actions[0]), actions[1..], s', a);
      assert (actions + [a])[1..] == actions[1..] + [a];
    }
  }

  lemma Extend(limit: nat, s: State, a: Action)
    requires Reachable(limit, s) && Enabled(limit, s, a)
    ensures Reachable(limit, Do(limit, s, a))
  {
    var actions :| Executes(limit, START, actions, s);
    ExecutesSnoc(limit, START, actions, s, a);
  }

  // ----- the bound is reached -----

  // One receipt job, `n` workers of which the first k are in phase `p`, the rest idle.
  function Crew(n: nat, k: nat, p: Phase): (crew: map<nat, Worker>)
    ensures forall w :: w in crew <==> 0 <= w < n
    ensures forall w :: w in crew ==> crew[w] == Worker(Receipt, if w < k then p else Idle, 0)
  {
    if n == 0 then map[] else Crew(n - 1, k, p)[n - 1 := Worker(Receipt, if n - 1 < k then p else Idle, 0)]
  }

  lemma CrewGrows(n: nat, k: nat, p: Phase)
    requires n >= 1 && k < n
    ensures Crew(n, k, p)[k := Worker(Receipt, p, 0)] == Crew(n, k + 1, p)
    ensures Crew(n, k + 1, p)[k := Worker(Receipt, Idle, 0)] == Crew(n, k, p)
  {
  }

  function Stage(workers: map<nat, Worker>, attempts: nat, claims: nat): State {
    State(map[0 := Job(Receipt, 0, 0, attempts)], workers,
          History(if claims == 0 then map[] else map[0 := claims], map[], 0, 0))
  }

  lemma {:induction false} Hired(limit: nat, n: nat)
    requires n <= limit
    ensures Reachable(limit, Stage(Crew(n, 0, Idle), 0, 0))
  {
    if n == 0 {
      assert Executes(limit, START, [], START);
      Extend(limit, START, Enqueue(0, Receipt, 0));
      assert Crew(0, 0, Idle) == map[];
      assert Do(limit, START, Enqueue(0, Receipt, 0)) == Stage(map[], 0, 0);
    } else {
      Hired(limit, n - 1);
      var s := Stage(Crew(n - 1, 0, Idle), 0, 0);
      CrewSize(n - 1, 0, Idle);
      Extend(limit, s, Start(n - 1, Receipt));
      assert Do(limit, s, Start(n - 1, Receipt)) == Stage(Crew(n, 0, Idle), 0, 0);
    }
  }

  lemma {:induction false} CrewSize(n: nat, k: nat, p: Phase)
    ensures |Crew(n, k, p)| == n
  {
    if n > 0 {
      CrewSize(n - 1, k, p);
      assert Crew(n, k, p).Keys == Crew(n - 1, k, p).Keys + {n - 1};
      assert |Crew(n, k, p)| == |Crew(n, k, p).Keys| && |Crew(n - 1, k, p)| == |Crew(n - 1, k, p).Keys|;
    } else {
      assert Crew(n, k, p) == map[];
    }
  }

  lemma ClaimAndFail(limit: nat, workers: map<nat, Worker>, w: nat, attempts: nat, claims: nat)
    requires Reachable(limit, Stage(workers, attempts, claims)) && attempts < JOB_MAX_ATTEMPTS
    requires w in workers && workers[w] == Worker(Receipt, Idle, 0)
    requires forall v :: v in workers ==> !workers[v].phase.Holding?
    ensures Reachable(limit, Stage(workers[w := Worker(Receipt, Failed(0), 0)], attempts, claims + 1))
  {
    var s := Stage(workers, attempts, claims);
    assert Free(s.jobs, s.workers, Receipt, 0);
    Extend(limit, s, Claim(w, 0));
    var s1 := Do(limit, s, Claim(w, 0));
    assert s1 == Stage(workers[w := Worker(Receipt, Holding(0), 0)], attempts, claims + 1);
    Extend(limit, s1, Fail(w));
    assert s1.workers[w := Worker(Receipt, Failed(0), 0)] == workers[w := Worker(Receipt, Failed(0), 0)];
  }

  lemma CountOne(limit: nat, workers: map<nat, Worker>, w: nat, attempts: nat, claims: nat)
    requires Reachable(limit, Stage(workers, attempts, claims))
    requires w in workers && workers[w] == Worker(Receipt, Failed(0), 0)
    requires forall v :: v in workers ==> !workers[v].phase.Holding?
    ensures Reachable(limit, Stage(workers[w := Worker(Receipt, Idle, 0)], attempts + 1, claims))
  {
    var s := Stage(workers, attempts, claims);
    Extend(limit, s, Count(w));
    assert Do(limit, s, Count(w)) == Stage(workers[w := Worker(Receipt, Idle, 0)], attempts + 1, claims);
  }

  // Worker 0 fails the job up to four times by itself.
  lemma {:induction false} FailedAlone(limit: nat, attempts: nat)
    requires limit >= 1 && attempts < JOB_MAX_ATTEMPTS
    ensures Reachable(limit, Stage(Crew(limit, 0, Idle), attempts, attempts))
    decreases attempts
  {
    var crew := Crew(limit, 0, Idle);
    if attempts == 0 {
      Hired(limit, limit);
    } else {
      FailedAlone(limit, attempts - 1);
      ClaimAndFail(limit, crew, 0, attempts - 1, attempts - 1);
      CountOne(limit, crew[0 := Worker(Receipt, Failed(0), 0)], 0, attempts - 1, attempts);
      assert crew[0 := Worker(Receipt, Failed(0), 0)][0 := Worker(Receipt, Idle, 0)] == crew;
    }
  }

  lemma CrewAt(n: nat, k: nat, p: Phase, w: nat)
    requires !p.Holding? && w < n
    ensures w in Crew(n, k, p) && Crew(n, k, p)[w] == Worker(Receipt, if w < k then p else Idle, 0)
    ensures forall v :: v in Crew(n, k, p) ==> !Crew(n, k, p)[v].phase.Holding?
  {
  }

  lemma FourFailures(limit: nat)
    requires 1 <= limit
    ensures Reachable(limit, Stage(Crew(limit, 0, Failed(0)), 4, 4))
  {
    FailedAlone(limit, 4);
    SameCrew(limit, Failed(0), Idle);
  }

  // With the job at four attempts, k workers in turn claim it and fail, none counting yet.
  lemma {:induction false} FailedTogether(limit: nat, k: nat)
    requires 1 <= limit && k <= limit
    ensures Reachable(limit, Stage(Crew(limit, k, Failed(0)), 4, 4 + k))
  {
    if k == 0 {
      FourFailures(limit);
    } else {
      FailedTogether(limit, k - 1);
      OneMoreFails(limit, k);
    }
  }

  lemma SameCrew(n: nat, p: Phase, q: Phase)
    ensures Crew(n, 0, p) == Crew(n, 0, q)
  {
  }

  lemma OneMoreFails(limit: nat, k: nat)
    requires 1 <= k <= limit && Reachable(limit, Stage(Crew(limit, k - 1, Failed(0)), 4, 4 + (k - 1)))
    ensures Reachable(limit, Stage(Crew(limit, k, Failed(0)), 4, 4 + k))
  {
    CrewAt(limit, k - 1, Failed(0), k - 1);
    ClaimAndFail(limit, Crew(limit, k - 1, Failed(0)), k - 1, 4, 4 + (k - 1));
    CrewGrows(limit, k - 1, Failed(0));
  }

  // Then all count, last to first.
  lemma {:induction false} CountedTogether(limit: nat, k: nat)
    requires 1 <= limit && k <= limit
    ensures Reachable(limit, Stage(Crew(limit, k, Failed(0)), 4 + (limit - k), 4 + limit))
    decreases limit - k
  {
    if k == limit {
      FailedTogether(limit, limit);
    } else {
      CountedTogether(limit, k + 1);
      var crew := Crew(limit, k + 1, Failed(0));
      CrewAt(limit, k + 1, Failed(0), k);
      CountOne(limit, crew, k, 4 + (limit - k - 1), 4 + limit);
      CrewGrows(limit, k, Failed(0));
    }
  }

  // For every number of workers some run brings a job to exactly 4 + limit
  // attempts: JOB_MAX_ATTEMPTS itself bounds attempts only for a single worker.
  lemma BoundIsTight(limit: nat)
    requires limit >= 1
    ensures exists s :: Reachable(limit, s) && 0 in s.jobs && s.jobs[0].attempts == 4 + limit
  {
    CountedTogether(limit, 0);
    var s := Stage(Crew(limit, 0, Failed(0)), 4 + limit, 4 + limit);
    assert Reachable(limit, s) && 0 in s.jobs && s.jobs[0].attempts == 4 + limit;
  }

  // ----- a processed job is finished -----

  // Rows never go; attempts and processed never go down; a processed row is final.
  ghost predicate Onward(jobs: Jobs, jobs': Jobs) {
    forall j :: j in jobs ==>
      && j in jobs' && jobs'[j].kind == jobs[j].kind
      && jobs'[j].attempts >= jobs[j].attempts && jobs'[j].processed >= jobs[j].processed
      && (jobs[j].processed >= 1 ==> jobs'[j] == jobs[j])
  }

  lemma StepOnward(limit: nat, s: State, a: Action)
    requires LocksInv(s.jobs, s.workers) && Enabled(limit, s, a)
    ensures Onward(s.jobs, Do(limit, s, a).jobs)
  {
  }

  lemma {:induction false} RunOnward(limit: nat, s: State, actions: seq<Action>, s': State)
    requires Inv(limit, s) && Executes(limit, s, actions, s')
    ensures Onward(s.jobs, s'.jobs)
    decreases |actions|
  {
    if actions != [] {
      StepOnward(limit, s, actions[0]);
      StepKeeps(limit, s, actions[0]);
      RunOnward(limit, Do(limit, s, actions[0]), actions[1..], s');
    }
  }

  // From any reachable state on: once processed, neither processed nor attempts
  // ever changes again.
  lemma ProcessedIsFinal(limit: nat, before: seq<Action>, s: State, after: seq<Action>, s': State, j: nat)
    requires Executes(limit, START, before, s) && Executes(limit, s, after, s')
    requires j in s.jobs && s.jobs[j].processed == 1
    ensures j in s'.jobs && s'.jobs[j] == s.jobs[j]
  {
    RunKeeps(limit, START, before, s);
    RunOnward(limit, s, after, s');
  }

  // ----- when a worker returns -----

  ghost predicate Cleared(jobs: Jobs, kind: JobKind) {
    forall j :: !Pending(jobs, kind, j)
  }

  // A worker that looks returns if and only if no job of its kind is pending, and
  // then none is held by anyone, each being processed or out of attempts; otherwise
  // it goes on.
  lemma ReturnMeansCleared(limit: nat, actions: seq<Action>, s: State, w: nat)
    requires Executes(limit, START, actions, s) && Enabled(limit, s, Check(w))
    ensures Do(limit, s, Check(w)).workers[w].phase
      == if Cleared(s.jobs, s.workers[w].kind) then Returned else Idle
    ensures Cleared(s.jobs, s.workers[w].kind) ==> Finished(s, s.workers[w].kind)
  {
    RunKeeps(limit, START, actions, s);
    if Cleared(s.jobs, s.workers[w].kind) { ClearedMeans(limit, s, s.workers[w].kind); }
  }

  ghost predicate Finished(s: State, kind: JobKind) {
    && (forall v :: v in s.workers && s.workers[v].phase.Holding? ==> s.workers[v].kind != kind)
    && (forall j :: j in s.jobs && s.jobs[j].kind == kind ==>
          s.jobs[j].processed == 1 || s.jobs[j].attempts >= JOB_MAX_ATTEMPTS)
  }

  // And so it stays for as long as nobody enqueues that kind.
  lemma ClearedForGood(limit: nat, before: seq<Action>, s: State, after: seq<Action>, s': State, kind: JobKind)
    requires Executes(limit, START, before, s) && Executes(limit, s, after, s') && Cleared(s.jobs, kind)
    requires forall i :: 0 <= i < |after| && after[i].Enqueue? ==> after[i].kind != kind
    ensures Cleared(s'.jobs, kind) && Finished(s', kind)
  {
    RunKeeps(limit, START, before, s);
    StaysCleared(limit, s, after, s', kind);
    RunKeeps(limit, s, after, s');
    ClearedMeans(limit, s', kind);
  }

  lemma ClearedMeans(limit: nat, s: State, kind: JobKind)
    requires Inv(limit, s) && Cleared(s.jobs, kind)
    ensures Finished(s, kind)
  {
    forall j | j in s.jobs && s.jobs[j].kind == kind
      ensures s.jobs[j].processed == 1 || s.jobs[j].attempts >= JOB_MAX_ATTEMPTS
    {
      assert !Pending(s.jobs, kind, j);
    }
  }

  lemma StepStaysCleared(limit: nat, s: State, a: Action, kind: JobKind)
    requires LocksInv(s.jobs, s.workers) && Enabled(limit, s, a) && Cleared(s.jobs, kind)
    requires a.Enqueue? ==> a.kind != kind
    ensures Cleared(Do(limit, s, a).jobs, kind)
  {
    StepOnward(limit, s, a);
    forall j
      ensures !Pending(Do(limit, s, a).jobs, kind, j)
    {
      assert !Pending(s.jobs, kind, j);
    }
  }

  lemma {:induction false} StaysCleared(limit: nat, s: State, actions: seq<Action>, s': State, kind: JobKind)
    requires Inv(limit, s) && Executes(limit, s, actions, s') && Cleared(s.jobs, kind)
    requires forall i :: 0 <= i < |actions| && actions[i].Enqueue? ==> actions[i].kind != kind
    ensures Cleared(s'.jobs, kind)
    decreases |actions|
  {
    if actions != [] {
      StepStaysCleared(limit, s, actions[0], kind);
      StepKeeps(limit, s, actions[0]);
      StaysCleared(limit, Do(limit, s, actions[0]), actions[1..], s', kind);
    }
  }

  // ----- nobody waits for nothing -----

  lemma {:induction false} FirstFree(jobs: Jobs, workers: map<nat, Worker>, kind: JobKind, j: nat) returns (first: nat)
    requires Free(jobs, workers, kind, j)
    ensures Free(jobs, workers, kind, first) && forall i :: Free(jobs, workers, kind, i) ==> first <= i
    decreases j
  {
    if i: nat :| i < j && Free(jobs, workers, kind, i) {
      first := FirstFree(jobs, workers, kind, i);
    } else {
      first := j;
    }
  }

  // The step a worker can take next, or the worker it waits for.
  ghost predicate CanGoOn(limit: nat, s: State, w: nat)
    requires w in s.workers
  {
    match s.workers[w].phase
    case Idle => Enabled(limit, s, NoneFree(w)) || exists j :: Enabled(limit, s, Claim(w, j))
    case Holding(_) => Enabled(limit, s, Commit(w)) && Enabled(limit, s, Fail(w))
    case Committed(_) => Enabled(limit, s, Hear(w)) && Enabled(limit, s, Unheard(w))
    case Failed(j) => Enabled(limit, s, Count(w)) || exists v :: HoldsUp(limit, s, v, j)
    case Checking => Enabled(limit, s, Check(w))
    case Returned => true
  }

  ghost predicate HoldsUp(limit: nat, s: State, v: nat, j: nat) {
    InPhase(s.workers, v, Holding(j)) && Enabled(limit, s, Commit(v))
  }

  lemma IdleCanGoOn(limit: nat, s: State, w: nat)
    requires InPhase(s.workers, w, Idle)
    ensures CanGoOn(limit, s, w)
  {
    if j :| Free(s.jobs, s.workers, s.workers[w].kind, j) {
      var first := FirstFree(s.jobs, s.workers, s.workers[w].kind, j);
      assert Enabled(limit, s, Claim(w, first));
    } else {
      assert Enabled(limit, s, NoneFree(w));
    }
  }

  lemma FailedCanGoOn(limit: nat, s: State, w: nat)
    requires LocksInv(s.jobs, s.workers) && w in s.workers && s.workers[w].phase.Failed?
    ensures CanGoOn(limit, s, w)
  {
    var j := s.workers[w].phase.job;
    if Held(s.workers, j) {
      var v :| v in s.workers && s.workers[v].phase == Holding(j);
      assert HoldsUp(limit, s, v, j);
    } else {
      assert Enabled(limit, s, Count(w));
    }
  }

  lemma HoldingCanGoOn(limit: nat, s: State, w: nat)
    requires LocksInv(s.jobs, s.workers) && w in s.workers && s.workers[w].phase.Holding?
    ensures CanGoOn(limit, s, w)
  {
    assert Pending(s.jobs, s.workers[w].kind, s.workers[w].phase.job);
  }

  lemma WorkerCanGoOn(limit: nat, s: State, w: nat)
    requires LocksInv(s.jobs, s.workers) && w in s.workers
    ensures CanGoOn(limit, s, w)
  {
    if s.workers[w].phase.Idle? {
      IdleCanGoOn(limit, s, w);
    } else if s.workers[w].phase.Failed? {
      FailedCanGoOn(limit, s, w);
    } else if s.workers[w].phase.Holding? {
      HoldingCanGoOn(limit, s, w);
    }
  }

  // In every reachable state every worker can take its next step, but for one whose
  // failure is waiting for the worker that holds the row - and that one can.
  lemma NobodyIsStuck(limit: nat, actions: seq<Action>, s: State, w: nat)
    requires Executes(limit, START, actions, s) && w in s.workers
    ensures CanGoOn(limit, s, w)
  {
    RunKeeps(limit, START, actions, s);
    WorkerCanGoOn(limit, s, w);
  }

  // Jobs are claimed in order of id: one that is passed over is in some other
  // worker's hands.
  lemma ClaimsInOrder(limit: nat, s: State, w: nat, j: nat, i: nat)
    requires Enabled(limit, s, Claim(w, j)) && i < j && i in s.jobs
    requires s.jobs[i].kind == s.jobs[j].kind && s.jobs[i].processed == 0 && s.jobs[i].attempts < 5
    ensures exists v :: v != w && InPhase(s.workers, v, Holding(i))
  {
    assert !Free(s.jobs, s.workers, s.workers[w].kind, i);
    var v :| v in s.workers && s.workers[v].phase == Holding(i);
    assert v != w && InPhase(s.workers, v, Holding(i));
  }

  lemma ExecutesThen(limit: nat, s: State, a: Action, rest: seq<Action>, s': State)
    requires Enabled(limit, s, a) && Executes(limit, Do(limit, s, a), rest, s')
    ensures Executes(limit, s, [a] + rest, s')
  {
    assert ([a] + rest)[1..] == rest;
  }

  // The first free job, claimed by an idle worker and not failing, is processed and
  // counted as that worker's.
  lemma FreeJobCanBeProcessed(limit: nat, s: State, w: nat, j: nat) returns (s': State)
    requires Enabled(limit, s, Claim(w, j))
    ensures Executes(limit, s, [Claim(w, j)] + ([Commit(w)] + ([Hear(w)] + [])), s')
    ensures s'.jobs == s.jobs[j := s.jobs[j].(processed := 1)]
    ensures s'.workers == s.workers[w := s.workers[w].(done := s.workers[w].done + 1)]
  {
    var s1 := Do(limit, s, Claim(w, j));
    var s2 := Do(limit, s1, Commit(w));
    s' := Do(limit, s2, Hear(w));
    assert Executes(limit, s', [], s');
    ExecutesThen(limit, s2, Hear(w), [], s');
    ExecutesThen(limit, s1, Commit(w), [Hear(w)] + [], s');
    ExecutesThen(limit, s, Claim(w, j), [Commit(w)] + ([Hear(w)] + []), s');
  }

  // A worker that finds nothing left returns with what it has done.
  lemma IdleWorkerReturns(limit: nat, s: State, w: nat) returns (s': State)
    requires InPhase(s.workers, w, Idle) && Cleared(s.jobs, s.workers[w].kind)
    ensures Executes(limit, s, [NoneFree(w)] + ([Check(w)] + []), s')
    ensures s' == s.(workers := s.workers[w := s.workers[w].(phase := Returned)])
  {
    var s1 := Do(limit, s, NoneFree(w));
    s' := Do(limit, s1, Check(w));
    assert Executes(limit, s', [], s');
    ExecutesThen(limit, s1, Check(w), [], s');
    ExecutesThen(limit, s, NoneFree(w), [Check(w)] + [], s');
  }

  // A worker that dies before its commit leaves its job to the others, no attempt
  // counted.
  lemma DeathFreesJob(limit: nat, actions: seq<Action>, s: State, w: nat)
    requires Executes(limit, START, actions, s) && w in s.workers && s.workers[w].phase.Holding?
    ensures var s', j := Do(limit, s, Die(w)), s.workers[w].phase.job;
      w !in s'.workers && s'.jobs == s.jobs && Free(s'.jobs, s'.workers, s.workers[w].kind, j)
  {
    RunKeeps(limit, START, actions, s);
  }

  // ----- counting work -----

  ghost function WorkOf(workers: map<nat, Worker>): map<nat, int> { map w | w in workers :: Work(workers[w]) }
  ghost function DoneJobs(jobs: Jobs): map<nat, int> { map j | j in jobs :: jobs[j].processed as int }

  ghost predicate WorkInv(s: State) {
    Sum(WorkOf(s.workers)) + s.hist.unheard + s.hist.gone == Sum(DoneJobs(s.jobs))
  }

  lemma WorkSet(workers: map<nat, Worker>, w: nat, worker: Worker)
    ensures Sum(WorkOf(workers[w := worker]))
      == Sum(WorkOf(workers)) + Work(worker) - (if w in workers then Work(workers[w]) else 0)
  {
    assert WorkOf(workers[w := worker]) == WorkOf(workers)[w := Work(worker)];
    SumSet(WorkOf(workers), w, Work(worker));
  }

  lemma WorkRemove(workers: map<nat, Worker>, w: nat)
    requires w in workers
    ensures Sum(WorkOf(workers - {w})) == Sum(WorkOf(workers)) - Work(workers[w])
  {
    assert WorkOf(workers - {w}) == WorkOf(workers) - {w};
    SumRemove(WorkOf(workers), w);
  }

  lemma DoneSet(jobs: Jobs, j: nat, job: Job)
    ensures Sum(DoneJobs(jobs[j := job]))
      == Sum(DoneJobs(jobs)) + job.processed - (if j in jobs then jobs[j].processed else 0)
  {
    assert DoneJobs(jobs[j := job]) == DoneJobs(jobs)[j := job.processed];
    SumSet(DoneJobs(jobs), j, job.processed);
  }

  lemma StepWork(limit: nat, s: State, a: Action)
    requires WorkInv(s) && Enabled(limit, s, a)
    ensures WorkInv(Do(limit, s, a))
  {
    var s' := Do(limit, s, a);
    if a.Enqueue? {
      DoneSet(s.jobs, a.j, s'.jobs[a.j]);
    } else if a.Die? {
      WorkRemove(s.workers, a.w);
    } else {
      WorkSet(s.workers, a.w, s'.workers[a.w]);
      if a.Commit? {
        DoneSet(s.jobs, s.workers[a.w].phase.job, s'.jobs[s.workers[a.w].phase.job]);
      } else if a.Count? && s'.jobs != s.jobs {
        DoneSet(s.jobs, s.workers[a.w].phase.job, s'.jobs[s.workers[a.w].phase.job]);
      }
    }
  }

  lemma {:induction false} RunWork(limit: nat, s: State, actions: seq<Action>, s': State)
    requires WorkInv(s) && Executes(limit, s, actions, s')
    ensures WorkInv(s')
    decreases |actions|
  {
    if actions != [] {
      StepWork(limit, s, actions[0]);
      RunWork(limit, Do(limit, s, actions[0]), actions[1..], s');
    }
  }

  ghost function Returns(workers: map<nat, Worker>): map<nat, int> { map w | w in workers :: workers[w].done as int }

  // Once every worker has returned, what they report adds up to the number of
  // processed jobs - less what dead workers had done and commits nobody heard of.
  lemma DoneIsProcessed(limit: nat, actions: seq<Action>, s: State)
    requires Executes(limit, START, actions, s)
    requires forall w :: w in s.workers ==> s.workers[w].phase.Returned?
    ensures Sum(Returns(s.workers)) == Sum(DoneJobs(s.jobs)) - s.hist.gone - s.hist.unheard
    ensures forall j :: j in s.jobs ==> DoneJobs(s.jobs)[j] == 0 || DoneJobs(s.jobs)[j] == 1
  {
    assert WorkInv(START) by { assert WorkOf(map[]) == map[] && DoneJobs(map[]) == map[]; }
    RunWork(limit, START, actions, s);
    RunKeeps(limit, START, actions, s);
    AllReturned(s.workers);
    forall j | j in s.jobs
      ensures DoneJobs(s.jobs)[j] == 0 || DoneJobs(s.jobs)[j] == 1
    {
      assert RowOk(limit, s.jobs[j], Open(s.workers, j), At(s.hist.claims, j), At(s.hist.deaths, j));
    }
  }

  lemma AllReturned(workers: map<nat, Worker>)
    requires forall w :: w in workers ==> workers[w].phase.Returned?
    ensures WorkOf(workers) == Returns(workers)
  {
  }

  // ----- claims cannot go on for ever -----

  function Claims(actions: seq<Action>): nat {
    if actions == [] then 0 else (if actions[0].Claim? then 1 else 0) + Claims(actions[1..])
  }

  function Deaths(actions: seq<Action>): nat {
    if actions == [] then 0 else (if actions[0].Die? then 1 else 0) + Deaths(actions[1..])
  }

  ghost function Counts(m: map<nat, nat>): map<nat, int> { map j | j in m :: m[j] as int }

  lemma BumpCounts(m: map<nat, nat>, j: nat)
    ensures Sum(Counts(Bump(m, j))) == Sum(Counts(m)) + 1
  {
    assert Counts(Bump(m, j)) == Counts(m)[j := At(m, j) + 1];
    SumSet(Counts(m), j, At(m, j) + 1);
  }

  lemma StepClaims(limit: nat, s: State, a: Action)
    requires Enabled(limit, s, a)
    ensures Sum(Counts(Do(limit, s, a).hist.claims)) == Sum(Counts(s.hist.claims)) + if a.Claim? then 1 else 0
    ensures Sum(Counts(Do(limit, s, a).hist.deaths)) <= Sum(Counts(s.hist.deaths)) + if a.Die? then 1 else 0
  {
    if a.Claim? { BumpCounts(s.hist.claims, a.j); }
    if a.Die? && s.workers[a.w].phase.Holding? { BumpCounts(s.hist.deaths, s.workers[a.w].phase.job); }
    if a.Die? && s.workers[a.w].phase.Failed? { BumpCounts(s.hist.deaths, s.workers[a.w].phase.job); }
  }

  lemma {:induction false} RunClaims(limit: nat, s: State, actions: seq<Action>, s': State)
    requires Executes(limit, s, actions, s')
    ensures Sum(Counts(s'.hist.claims)) == Sum(Counts(s.hist.claims)) + Claims(actions)
    ensures Sum(Counts(s'.hist.deaths)) <= Sum(Counts(s.hist.deaths)) + Deaths(actions)
    decreases |actions|
  {
    if actions != [] {
      StepClaims(limit, s, actions[0]);
      RunClaims(limit, Do(limit, s, actions[0]), actions[1..], s');
    }
  }

  // Every run, however long: at most 4 + limit claims per job, plus the deaths.
  lemma ClaimsRunOut(limit: nat, actions: seq<Action>, s: State)
    requires Executes(limit, START, actions, s)
    ensures Claims(actions) <= (4 + limit) * |s.jobs| + Deaths(actions)
  {
    RunKeeps(limit, START, actions, s);
    RunClaims(limit, START, actions, s);
    NothingCounted();
    SumOfClaims(limit, s.jobs, s.workers, s.hist);
  }

  lemma NothingCounted()
    ensures Sum(Counts(map[])) == 0
  {
    assert Counts(map[]) == map[];
  }

  lemma SumOfClaims(limit: nat, jobs: Jobs, workers: map<nat, Worker>, h: History)
    requires RowsInv(limit, jobs, workers, h)
    ensures Sum(Counts(h.claims)) <= (JOB_MAX_ATTEMPTS - 1 + limit) * |jobs| + Sum(Counts(h.deaths))
  {
    var each := JOB_MAX_ATTEMPTS - 1 + limit;
    forall j | j in jobs
      ensures At(h.claims, j) <= each + At(h.deaths, j)
    {
      assert RowOk(limit, jobs[j], Open(workers, j), At(h.claims, j), At(h.deaths, j));
    }
    SumOverJobs(jobs, h.claims, h.deaths, each);
    SumOfEach(jobs, each);
  }

  ghost function Each(jobs: Jobs, each: int): map<nat, int> { map j | j in jobs :: each }

  lemma SumOfEach(jobs: Jobs, each: int)
    ensures Sum(Each(jobs, each)) == each * |jobs|
  {
    SumConstant(Each(jobs, each), each);
    assert Each(jobs, each).Keys == jobs.Keys;
    assert |Each(jobs, each)| == |Each(jobs, each).Keys| && |jobs| == |jobs.Keys|;
  }

  lemma {:induction false} SumOverJobs(jobs: Jobs, claims: map<nat, nat>, deaths: map<nat, nat>, each: nat)
    requires forall j :: j in claims || j in deaths ==> j in jobs
    requires forall j :: j in jobs ==> At(claims, j) <= each + At(deaths, j)
    ensures Sum(Counts(claims)) <= Sum(Each(jobs, each)) + Sum(Counts(deaths))
    decreases |jobs|
  {
    if jobs == map[] {
      assert claims == map[] && deaths == map[];
    } else {
      var j :| j in jobs;
      SumOverRest(jobs, claims, deaths, each, j);
      SumOverJobs(jobs - {j}, claims - {j}, deaths - {j}, each);
      DropCount(claims, j);
      DropCount(deaths, j);
      assert Each(jobs - {j}, each) == Each(jobs, each) - {j};
      SumRemove(Each(jobs, each), j);
    }
  }

  lemma SumOverRest(jobs: Jobs, claims: map<nat, nat>, deaths: map<nat, nat>, each: nat, j: nat)
    requires forall i :: i in claims || i in deaths ==> i in jobs
    requires forall i :: i in jobs ==> At(claims, i) <= each + At(deaths, i)
    requires j in jobs
    ensures forall i :: i in claims - {j} || i in deaths - {j} ==> i in jobs - {j}
    ensures forall i :: i in jobs - {j} ==> At(claims - {j}, i) <= each + At(deaths - {j}, i)
    ensures |jobs - {j}| < |jobs|
  {
    assert jobs == (jobs - {j})[j := jobs[j]];
    forall i | i in jobs - {j}
      ensures At(claims - {j}, i) <= each + At(deaths - {j}, i)
    {
      AtDrop(claims, j, i);
      AtDrop(deaths, j, i);
    }
  }

  lemma AtDrop(m: map<nat, nat>, j: nat, i: nat)
    requires i != j
    ensures At(m - {j}, i) == At(m, i)
  {
  }

  lemma DropCount(m: map<nat, nat>, j: nat)
    ensures Sum(Counts(m)) == Sum(Counts(m - {j})) + At(m, j)
  {
    if j in m {
      assert Counts(m - {j}) == Counts(m) - {j};
      SumRemove(Counts(m), j);
    } else {
      assert m - {j} == m;
    }
  }
}
