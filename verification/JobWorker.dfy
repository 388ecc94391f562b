/** Job workers sharing a queue with SKIP LOCKED: src/job-worker.ts. */
module JobWorker {
  import opened Prelude
  import opened Tables

  const JOB_MAX_ATTEMPTS: nat := 5

  type Jobs = map<nat, Job>

  // WHERE processed = 0 AND kind = $1 AND attempts < 5
  predicate Pending(jobs: Jobs, kind: JobKind, j: nat) {
    j in jobs && jobs[j].processed == 0 && jobs[j].kind == kind && jobs[j].attempts < JOB_MAX_ATTEMPTS
  }

  // ----- any number of workers -----

  // Holding: inside the transaction, the row locked. Committed: the row is
  // committed, the worker has not heard so. Failed: the transaction threw after
  // the claim, the attempt is not counted yet. Checking: nothing was free.
  datatype Phase = Idle | Holding(job: nat) | Committed(job: nat) | Failed(job: nat) | Checking | Returned
  datatype Worker = Worker(kind: JobKind, phase: Phase, done: nat)

  // For stating the properties: claims made and claims cut short by a worker's
  // death, per job; commits no worker heard of; work done by workers now gone.
  datatype History = History(claims: map<nat, nat>, deaths: map<nat, nat>, unheard: nat, gone: nat)

  datatype State = State(jobs: Jobs, workers: map<nat, Worker>, hist: History)

  function At(m: map<nat, nat>, j: nat): nat { if j in m then m[j] else 0 }
  function Bump(m: map<nat, nat>, j: nat): map<nat, nat> { m[j := At(m, j) + 1] }

  ghost predicate Held(workers: map<nat, Worker>, j: nat) {
    exists w :: w in workers && workers[w].phase == Holding(j)
  }

  ghost predicate Free(jobs: Jobs, workers: map<nat, Worker>, kind: JobKind, j: nat) {
    Pending(jobs, kind, j) && !Held(workers, j)
  }

  datatype Action =
    | Enqueue(j: nat, kind: JobKind, orderId: nat)
    | Start(w: nat, kind: JobKind)
    | Claim(w: nat, j: nat)
    | NoneFree(w: nat)
    | Commit(w: nat)
    | Hear(w: nat)
    | Unheard(w: nat)
    | Fail(w: nat)
    | Count(w: nat)
    | Check(w: nat)
    | Die(w: nat)

  predicate InPhase(workers: map<nat, Worker>, w: nat, phase: Phase) {
    w in workers && workers[w].phase == phase
  }

  // At most `limit` workers run at any one time.
  ghost predicate Enabled(limit: nat, s: State, a: Action) {
    match a
    case Enqueue(j, kind, orderId) => j !in s.jobs
    case Start(w, kind) => w !in s.workers && |s.workers| < limit
    case Claim(w, j) =>
      && InPhase(s.workers, w, Idle) && Free(s.jobs, s.workers, s.workers[w].kind, j)
      && forall i :: Free(s.jobs, s.workers, s.workers[w].kind, i) ==> j <= i
    case NoneFree(w) => InPhase(s.workers, w, Idle) && forall i :: !Free(s.jobs, s.workers, s.workers[w].kind, i)
    case Commit(w) => w in s.workers && s.workers[w].phase.Holding? && s.workers[w].phase.job in s.jobs
    case Hear(w) => w in s.workers && s.workers[w].phase.Committed?
    case Unheard(w) => w in s.workers && s.workers[w].phase.Committed?
    case Fail(w) => w in s.workers && s.workers[w].phase.Holding?
    // the UPDATE waits for whoever holds the row
    case Count(w) => w in s.workers && s.workers[w].phase.Failed? && !Held(s.workers, s.workers[w].phase.job)
    case Check(w) => InPhase(s.workers, w, Checking)
    case Die(w) => w in s.workers
  }

  function SetPhase(workers: map<nat, Worker>, w: nat, phase: Phase): map<nat, Worker>
    requires w in workers
  {
    workers[w := workers[w].(phase := phase)]
  }

  // UPDATE jobs SET attempts = attempts + 1 WHERE id = j AND processed = 0
  function Counted(jobs: Jobs, j: nat): Jobs {
    if j in jobs && jobs[j].processed == 0 then jobs[j := jobs[j].(attempts := jobs[j].attempts + 1)] else jobs
  }

  function Processed(jobs: Jobs, j: nat): Jobs
    requires j in jobs
  {
    jobs[j := jobs[j].(processed := jobs[j].processed + 1)]
  }

  // What a dying worker leaves behind in the books.
  function Buried(h: History, worker: Worker): History {
    var h' := h.(gone := h.gone + Work(worker));
    if worker.phase.Holding? || worker.phase.Failed? then h'.(deaths := Bump(h.deaths, worker.phase.job)) else h'
  }

  function Work(worker: Worker): nat { worker.done + if worker.phase.Committed? then 1 else 0 }

  ghost function Do(limit: nat, s: State, a: Action): State
    requires Enabled(limit, s, a)
  {
    match a
    case Enqueue(j, kind, orderId) => s.(jobs := s.jobs[j := Job(kind, orderId, 0, 0)])
    case Start(w, kind) => s.(workers := s.workers[w := Worker(kind, Idle, 0)])
    case Claim(w, j) =>
      s.(workers := SetPhase(s.workers, w, Holding(j)), hist := s.hist.(claims := Bump(s.hist.claims, j)))
    case NoneFree(w) => s.(workers := SetPhase(s.workers, w, Checking))
    case Commit(w) =>
      s.(jobs := Processed(s.jobs, s.workers[w].phase.job),
         workers := SetPhase(s.workers, w, Committed(s.workers[w].phase.job)))
    case Hear(w) => s.(workers := s.workers[w := s.workers[w].(phase := Idle, done := s.workers[w].done + 1)])
    // the commit took, the answer was an error
    case Unheard(w) =>
      s.(workers := SetPhase(s.workers, w, Failed(s.workers[w].phase.job)),
         hist := s.hist.(unheard := s.hist.unheard + 1))
    case Fail(w) => s.(workers := SetPhase(s.workers, w, Failed(s.workers[w].phase.job)))
    case Count(w) =>
      s.(jobs := Counted(s.jobs, s.workers[w].phase.job), workers := SetPhase(s.workers, w, Idle))
    case Check(w) =>
      s.(workers := SetPhase(s.workers, w,
           if forall j :: !Pending(s.jobs, s.workers[w].kind, j) then Returned else Idle))
    case Die(w) => s.(workers := s.workers - {w}, hist := Buried(s.hist, s.workers[w]))
  }

  ghost predicate Executes(limit: nat, s: State, actions: seq<Action>, s': State)
    decreases |actions|
  {
    if actions == [] then s' == s
    else Enabled(limit, s, actions[0]) && Executes(limit, Do(limit, s, actions[0]), actions[1..], s')
  }

  const START := State(map[], map[], History(map[], map[], 0, 0))

  // ----- open claims -----

  predicate Opens(worker: Worker, j: nat) {
    worker.phase == Holding(j) || worker.phase == Committed(j) || worker.phase == Failed(j)
  }

  ghost function OpenBy(workers: map<nat, Worker>, j: nat): map<nat, int> {
    map w | w in workers :: if Opens(workers[w], j) then 1 else 0
  }

  // Workers that have claimed j and not settled the claim.
  ghost function Open(workers: map<nat, Worker>, j: nat): int { Sum(OpenBy(workers, j)) }

  lemma OpenSet(workers: map<nat, Worker>, w: nat, worker: Worker, j: nat)
    ensures Open(workers[w := worker], j)
      == Open(workers, j) + (if Opens(worker, j) then 1 else 0)
       - (if w in workers && Opens(workers[w], j) then 1 else 0)
  {
    assert OpenBy(workers[w := worker], j) == OpenBy(workers, j)[w := if Opens(worker, j) then 1 else 0];
    SumSet(OpenBy(workers, j), w, if Opens(worker, j) then 1 else 0);
  }

  lemma OpenRemove(workers: map<nat, Worker>, w: nat, j: nat)
    requires w in workers
    ensures Open(workers - {w}, j) == Open(workers, j) - (if Opens(workers[w], j) then 1 else 0)
  {
    assert OpenBy(workers - {w}, j) == OpenBy(workers, j) - {w};
    SumRemove(OpenBy(workers, j), w);
  }

  lemma OpenBounded(workers: map<nat, Worker>, j: nat)
    ensures 0 <= Open(workers, j) <= |workers|
  {
    var ones: map<nat, int> := map w | w in workers :: 1;
    var zeros: map<nat, int> := map w | w in workers :: 0;
    SumConstant(ones, 1);
    SumConstant(zeros, 0);
    SumLessEqual(zeros, OpenBy(workers, j));
    SumLessEqual(OpenBy(workers, j), ones);
    assert ones.Keys == workers.Keys;
    assert |ones| == |ones.Keys| == |workers.Keys| == |workers|;
  }

  // ----- the invariant -----

  // A claim in progress is of a job that is still due, and one worker's only.
  ghost predicate LocksInv(jobs: Jobs, workers: map<nat, Worker>) {
    && (forall w :: w in workers && workers[w].phase.Holding? ==> Pending(jobs, workers[w].kind, workers[w].phase.job))
    && (forall v, w :: v in workers && w in workers && v != w && workers[v].phase.Holding? ==>
          workers[w].phase != workers[v].phase)
  }

  ghost predicate DebtsInv(jobs: Jobs, workers: map<nat, Worker>) {
    && (forall w :: w in workers && workers[w].phase.Failed? ==> workers[w].phase.job in jobs)
    && (forall w :: w in workers && workers[w].phase.Committed? ==>
          workers[w].phase.job in jobs && jobs[workers[w].phase.job].processed == 1)
  }

  ghost predicate RowOk(limit: nat, job: Job, open: int, claims: nat, deaths: nat) {
    && job.processed <= 1
    && job.attempts + open <= JOB_MAX_ATTEMPTS - 1 + limit
    && (job.processed == 0 ==> claims == job.attempts + open + deaths)
    && claims <= JOB_MAX_ATTEMPTS - 1 + limit + deaths
  }

  ghost predicate RowsInv(limit: nat, jobs: Jobs, workers: map<nat, Worker>, h: History) {
    && (forall j :: j in jobs ==> RowOk(limit, jobs[j], Open(workers, j), At(h.claims, j), At(h.deaths, j)))
    && (forall j :: j in h.claims || j in h.deaths ==> j in jobs)
  }

  ghost predicate Inv(limit: nat, s: State) {
    && |s.workers| <= limit
    && LocksInv(s.jobs, s.workers) && DebtsInv(s.jobs, s.workers)
    && RowsInv(limit, s.jobs, s.workers, s.hist)
  }

  lemma SetSize(workers: map<nat, Worker>, w: nat, worker: Worker)
    ensures |workers[w := worker]| == |workers| + if w in workers then 0 else 1
  {
    assert workers[w := worker].Keys == workers.Keys + {w};
    assert |workers| == |workers.Keys| && |workers[w := worker]| == |workers[w := worker].Keys|;
  }

  // A worker that moves between phases with no open claim leaves the rows' books alone.
  lemma RowsIdle(limit: nat, jobs: Jobs, workers: map<nat, Worker>, h: History, w: nat, worker: Worker)
    requires RowsInv(limit, jobs, workers, h)
    requires forall j :: Opens(worker, j) <==> w in workers && Opens(workers[w], j)
    ensures RowsInv(limit, jobs, workers[w := worker], h)
  {
    forall j | j in jobs
      ensures RowOk(limit, jobs[j], Open(workers[w := worker], j), At(h.claims, j), At(h.deaths, j))
    {
      OpenSet(workers, w, worker, j);
    }
  }

  // One worker changes phase.
  lemma LocksSet(jobs: Jobs, workers: map<nat, Worker>, w: nat, worker: Worker)
    requires LocksInv(jobs, workers)
    requires worker.phase.Holding? ==>
      Pending(jobs, worker.kind, worker.phase.job) && !Held(workers, worker.phase.job)
    ensures LocksInv(jobs, workers[w := worker])
  {
  }

  predicate DebtOk(jobs: Jobs, worker: Worker) {
    && (worker.phase.Failed? ==> worker.phase.job in jobs)
    && (worker.phase.Committed? ==> worker.phase.job in jobs && jobs[worker.phase.job].processed == 1)
  }

  lemma DebtsSet(jobs: Jobs, workers: map<nat, Worker>, w: nat, worker: Worker)
    requires DebtsInv(jobs, workers) && DebtOk(jobs, worker)
    ensures DebtsInv(jobs, workers[w := worker])
  {
  }

  // One row changes.
  lemma LocksRow(jobs: Jobs, workers: map<nat, Worker>, j: nat, job: Job)
    requires LocksInv(jobs, workers) && (j in jobs ==> !Held(workers, j))
    ensures LocksInv(jobs[j := job], workers)
  {
  }

  lemma DebtsRow(jobs: Jobs, workers: map<nat, Worker>, j: nat, job: Job)
    requires DebtsInv(jobs, workers) && (j in jobs ==> jobs[j].processed == 1 ==> job.processed == 1)
    ensures DebtsInv(jobs[j := job], workers)
  {
  }

  lemma OpenNothing(workers: map<nat, Worker>, j: nat)
    requires forall w :: w in workers ==> !Opens(workers[w], j)
    ensures Open(workers, j) == 0
  {
    SumConstant(OpenBy(workers, j), 0);
  }

  lemma NothingOpen(jobs: Jobs, workers: map<nat, Worker>, j: nat)
    requires LocksInv(jobs, workers) && DebtsInv(jobs, workers) && j !in jobs
    ensures Open(workers, j) == 0
  {
    OpenNothing(workers, j);
  }

  lemma EnqueueRows(limit: nat, jobs: Jobs, workers: map<nat, Worker>, h: History, j: nat, job: Job)
    requires RowsInv(limit, jobs, workers, h) && Open(workers, j) == 0
    requires j !in jobs && job.processed == 0 && job.attempts == 0
    ensures RowsInv(limit, jobs[j := job], workers, h)
  {
    assert At(h.claims, j) == 0 && At(h.deaths, j) == 0;
  }

  lemma ClaimRows(limit: nat, jobs: Jobs, workers: map<nat, Worker>, h: History, w: nat, j: nat)
    requires RowsInv(limit, jobs, workers, h) && |workers| <= limit
    requires InPhase(workers, w, Idle) && Pending(jobs, workers[w].kind, j)
    ensures RowsInv(limit, jobs, SetPhase(workers, w, Holding(j)), h.(claims := Bump(h.claims, j)))
  {
    var workers', claims' := SetPhase(workers, w, Holding(j)), Bump(h.claims, j);
    SetSize(workers, w, workers'[w]);
    forall i | i in jobs
      ensures RowOk(limit, jobs[i], Open(workers', i), At(claims', i), At(h.deaths, i))
    {
      OpenSet(workers, w, workers'[w], i);
      OpenBounded(workers', i);
    }
  }

  lemma CommitRows(limit: nat, jobs: Jobs, workers: map<nat, Worker>, h: History, j: nat)
    requires RowsInv(limit, jobs, workers, h) && j in jobs && jobs[j].processed == 0
    ensures RowsInv(limit, Processed(jobs, j), workers, h)
  {
  }

  lemma CountRows(limit: nat, jobs: Jobs, workers: map<nat, Worker>, h: History, w: nat)
    requires RowsInv(limit, jobs, workers, h) && w in workers && workers[w].phase.Failed?
    ensures RowsInv(limit, Counted(jobs, workers[w].phase.job), SetPhase(workers, w, Idle), h)
  {
    var jobs', workers' := Counted(jobs, workers[w].phase.job), SetPhase(workers, w, Idle);
    forall j | j in jobs'
      ensures RowOk(limit, jobs'[j], Open(workers', j), At(h.claims, j), At(h.deaths, j))
    {
      OpenSet(workers, w, workers'[w], j);
    }
  }

  lemma HearRows(limit: nat, jobs: Jobs, workers: map<nat, Worker>, h: History, w: nat, worker: Worker)
    requires RowsInv(limit, jobs, workers, h) && DebtsInv(jobs, workers)
    requires w in workers && workers[w].phase.Committed? && worker.phase == Idle
    ensures RowsInv(limit, jobs, workers[w := worker], h)
  {
    forall j | j in jobs
      ensures RowOk(limit, jobs[j], Open(workers[w := worker], j), At(h.claims, j), At(h.deaths, j))
    {
      OpenSet(workers, w, worker, j);
    }
  }

  lemma DieRows(limit: nat, jobs: Jobs, workers: map<nat, Worker>, h: History, w: nat)
    requires RowsInv(limit, jobs, workers, h) && DebtsInv(jobs, workers) && LocksInv(jobs, workers) && w in workers
    ensures RowsInv(limit, jobs, workers - {w}, Buried(h, workers[w]))
  {
    var h' := Buried(h, workers[w]);
    forall j | j in jobs
      ensures RowOk(limit, jobs[j], Open(workers - {w}, j), At(h'.claims, j), At(h'.deaths, j))
    {
      OpenRemove(workers, w, j);
    }
  }

  // ----- every step keeps it -----

  lemma EnqueueKeeps(limit: nat, s: State, a: Action)
    requires Inv(limit, s) && Enabled(limit, s, a) && a.Enqueue?
    ensures Inv(limit, Do(limit, s, a))
  {
    var job := Job(a.kind, a.orderId, 0, 0);
    LocksRow(s.jobs, s.workers, a.j, job);
    DebtsRow(s.jobs, s.workers, a.j, job);
    NothingOpen(s.jobs, s.workers, a.j);
    EnqueueRows(limit, s.jobs, s.workers, s.hist, a.j, job);
  }

  lemma ClaimKeeps(limit: nat, s: State, a: Action)
    requires Inv(limit, s) && Enabled(limit, s, a) && a.Claim?
    ensures Inv(limit, Do(limit, s, a))
  {
    var worker := s.workers[a.w].(phase := Holding(a.j));
    SetSize(s.workers, a.w, worker);
    LocksSet(s.jobs, s.workers, a.w, worker);
    DebtsSet(s.jobs, s.workers, a.w, worker);
    ClaimRows(limit, s.jobs, s.workers, s.hist, a.w, a.j);
  }

  lemma CommitLocks(jobs: Jobs, workers: map<nat, Worker>, w: nat, worker: Worker, j: nat)
    requires LocksInv(jobs, workers) && InPhase(workers, w, Holding(j)) && worker.phase == Committed(j)
    ensures j in jobs && jobs[j].processed == 0 && LocksInv(Processed(jobs, j), workers[w := worker])
  {
    assert Pending(jobs, workers[w].kind, j);
    LocksSet(jobs, workers, w, worker);
    LocksRow(jobs, workers[w := worker], j, Processed(jobs, j)[j]);
  }

  lemma CommitDebts(jobs: Jobs, workers: map<nat, Worker>, w: nat, worker: Worker, j: nat)
    requires DebtsInv(jobs, workers) && j in jobs && jobs[j].processed == 0 && worker.phase == Committed(j)
    ensures DebtsInv(Processed(jobs, j), workers[w := worker])
  {
    DebtsRow(jobs, workers, j, Processed(jobs, j)[j]);
    DebtsSet(Processed(jobs, j), workers, w, worker);
  }

  lemma CommitKeeps(limit: nat, s: State, a: Action)
    requires Inv(limit, s) && Enabled(limit, s, a) && a.Commit?
    ensures Inv(limit, Do(limit, s, a))
  {
    var j := s.workers[a.w].phase.job;
    var worker := s.workers[a.w].(phase := Committed(j));
    SetSize(s.workers, a.w, worker);
    CommitLocks(s.jobs, s.workers, a.w, worker, j);
    CommitDebts(s.jobs, s.workers, a.w, worker, j);
    CommitRows(limit, s.jobs, s.workers, s.hist, j);
    RowsIdle(limit, Processed(s.jobs, j), s.workers, s.hist, a.w, worker);
  }

  // A worker keeps its claim open but lets go of the row, or had none.
  lemma PhaseKeeps(limit: nat, s: State, w: nat, worker: Worker)
    requires Inv(limit, s) && DebtOk(s.jobs, worker) && !worker.phase.Holding?
    requires forall j :: Opens(worker, j) <==> w in s.workers && Opens(s.workers[w], j)
    requires w in s.workers || |s.workers| < limit
    ensures Inv(limit, s.(workers := s.workers[w := worker]))
  {
    SetSize(s.workers, w, worker);
    LocksSet(s.jobs, s.workers, w, worker);
    DebtsSet(s.jobs, s.workers, w, worker);
    RowsIdle(limit, s.jobs, s.workers, s.hist, w, worker);
  }

  lemma StartStepKeeps(limit: nat, s: State, w: nat, kind: JobKind)
    requires Inv(limit, s) && Enabled(limit, s, Start(w, kind))
    ensures Inv(limit, Do(limit, s, Start(w, kind)))
  {
    PhaseKeeps(limit, s, w, Worker(kind, Idle, 0));
  }

  lemma FailKeeps(limit: nat, s: State, w: nat)
    requires Inv(limit, s) && Enabled(limit, s, Fail(w))
    ensures Inv(limit, Do(limit, s, Fail(w)))
  {
    PhaseKeeps(limit, s, w, s.workers[w].(phase := Failed(s.workers[w].phase.job)));
  }

  lemma LookKeeps(limit: nat, s: State, a: Action)
    requires Inv(limit, s) && Enabled(limit, s, a) && (a.NoneFree? || a.Check?)
    ensures Inv(limit, Do(limit, s, a))
  {
    PhaseKeeps(limit, s, a.w, Do(limit, s, a).workers[a.w]);
  }

  lemma SettleKeeps(limit: nat, s: State, w: nat, worker: Worker)
    requires Inv(limit, s) && w in s.workers && s.workers[w].phase.Committed? && worker.phase == Idle
    ensures Inv(limit, s.(workers := s.workers[w := worker]))
  {
    SetSize(s.workers, w, worker);
    LocksSet(s.jobs, s.workers, w, worker);
    DebtsSet(s.jobs, s.workers, w, worker);
    HearRows(limit, s.jobs, s.workers, s.hist, w, worker);
  }

  lemma HearKeeps(limit: nat, s: State, a: Action)
    requires Inv(limit, s) && Enabled(limit, s, a) && a.Hear?
    ensures Inv(limit, Do(limit, s, a))
  {
    SettleKeeps(limit, s, a.w, Do(limit, s, a).workers[a.w]);
  }

  lemma UnheardKeeps(limit: nat, s: State, a: Action)
    requires Inv(limit, s) && Enabled(limit, s, a) && a.Unheard?
    ensures Inv(limit, Do(limit, s, a))
  {
    var s1 := s.(hist := s.hist.(unheard := s.hist.unheard + 1));
    RowsHistory(limit, s.jobs, s.workers, s.hist, s1.hist);
    PhaseKeeps(limit, s1, a.w, s.workers[a.w].(phase := Failed(s.workers[a.w].phase.job)));
  }

  lemma CountKeeps(limit: nat, s: State, a: Action)
    requires Inv(limit, s) && Enabled(limit, s, a) && a.Count?
    ensures Inv(limit, Do(limit, s, a))
  {
    var j, worker := s.workers[a.w].phase.job, s.workers[a.w].(phase := Idle);
    var job := Counted(s.jobs, j)[j];
    assert Counted(s.jobs, j) == s.jobs[j := job];
    SetSize(s.workers, a.w, worker);
    LocksRow(s.jobs, s.workers, j, job);
    LocksSet(s.jobs[j := job], s.workers, a.w, worker);
    DebtsRow(s.jobs, s.workers, j, job);
    DebtsSet(s.jobs[j := job], s.workers, a.w, worker);
    CountRows(limit, s.jobs, s.workers, s.hist, a.w);
  }

  lemma DieKeeps(limit: nat, s: State, a: Action)
    requires Inv(limit, s) && Enabled(limit, s, a) && a.Die?
    ensures Inv(limit, Do(limit, s, a))
  {
    DieRows(limit, s.jobs, s.workers, s.hist, a.w);
    assert (s.workers - {a.w}).Keys == s.workers.Keys - {a.w};
    assert |s.workers| == |s.workers.Keys| && |s.workers - {a.w}| == |(s.workers - {a.w}).Keys|;
  }

  lemma StepKeeps(limit: nat, s: State, a: Action)
    requires Inv(limit, s) && Enabled(limit, s, a)
    ensures Inv(limit, Do(limit, s, a))
  {
    match a
    case Enqueue(_, _, _) => EnqueueKeeps(limit, s, a);
    case Claim(_, _) => ClaimKeeps(limit, s, a);
    case Commit(_) => CommitKeeps(limit, s, a);
    case Hear(_) => HearKeeps(limit, s, a);
    case Unheard(_) => UnheardKeeps(limit, s, a);
    case Count(_) => CountKeeps(limit, s, a);
    case Die(_) => DieKeeps(limit, s, a);
    case Start(w, kind) => StartStepKeeps(limit, s, w, kind);
    case Fail(w) => FailKeeps(limit, s, w);
    case _ => LookKeeps(limit, s, a);
  }

  lemma RowsHistory(limit: nat, jobs: Jobs, workers: map<nat, Worker>, h: History, h': History)
    requires RowsInv(limit, jobs, workers, h) && h'.claims == h.claims && h'.deaths == h.deaths
    ensures RowsInv(limit, jobs, workers, h')
  {
  }

  lemma {:induction false} RunKeeps(limit: nat, s: State, actions: seq<Action>, s': State)
    requires Inv(limit, s) && Executes(limit, s, actions, s')
    ensures Inv(limit, s')
    decreases |actions|
  {
    if actions != [] {
      StepKeeps(limit, s, actions[0]);
      RunKeeps(limit, Do(limit, s, actions[0]), actions[1..], s');
    }
  }
}
