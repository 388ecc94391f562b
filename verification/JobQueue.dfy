/** One worker alone with the queue: the loop of src/job-worker.ts:25-64. */
module JobQueue {
  import opened Prelude
  import opened Tables
  import opened JobWorker

  // What becomes of a job when `fails(id, attempts)` says whether processing it throws.
  function Outcome(job: Job, j: nat, fails: (nat, nat) -> bool): Job
    decreases JOB_MAX_ATTEMPTS - job.attempts
  {
    if job.processed != 0 || job.attempts >= JOB_MAX_ATTEMPTS then job
    else if fails(j, job.attempts) then Outcome(job.(attempts := job.attempts + 1), j, fails)
    else job.(processed := 1)
  }

  function Worked(jobs: Jobs, kind: JobKind, fails: (nat, nat) -> bool): Jobs {
    map j | j in jobs :: if jobs[j].kind == kind then Outcome(jobs[j], j, fails) else jobs[j]
  }

  function Served(jobs: Jobs, kind: JobKind, fails: (nat, nat) -> bool): set<nat> {
    set j | j in jobs && jobs[j].processed == 0 && Worked(jobs, kind, fails)[j].processed == 1
  }

  ghost function Tries(jobs: Jobs, kind: JobKind): map<nat, int> {
    map j | j in jobs :: if Pending(jobs, kind, j) then JOB_MAX_ATTEMPTS - jobs[j].attempts else 0
  }

  ghost predicate IsFirst(jobs: Jobs, kind: JobKind, j: nat) {
    Pending(jobs, kind, j) && forall i :: Pending(jobs, kind, i) ==> j <= i
  }

  lemma {:induction false} FirstExists(jobs: Jobs, kind: JobKind, j: nat)
    requires Pending(jobs, kind, j)
    ensures exists i :: i in jobs && IsFirst(jobs, kind, i)
    decreases j
  {
    if i: nat :| i < j && Pending(jobs, kind, i) {
      FirstExists(jobs, kind, i);
    } else {
      assert IsFirst(jobs, kind, j);
    }
  }

  /** The jobs table. */
  class Queue {
    var jobs: Jobs

    constructor (jobs: Jobs)
      ensures this.jobs == jobs
    {
      this.jobs := jobs;
    }

    method ClaimJob(kind: JobKind) returns (job: Option<nat>)
      ensures job.None? ==> forall j :: !Pending(jobs, kind, j)
      ensures job.Some? ==> IsFirst(jobs, kind, job.value)
    {
      if j :| j in jobs && Pending(jobs, kind, j) {
        FirstExists(jobs, kind, j);
        var first :| first in jobs && Pending(jobs, kind, first)
          && forall i :: i in jobs && Pending(jobs, kind, i) ==> first <= i;
        return Some(first);
      }
      return None;
    }

    method RunWorker(kind: JobKind, fails: (nat, nat) -> bool) returns (done: nat)
      modifies this
      ensures jobs == Worked(old(jobs), kind, fails)
      ensures done == |Served(old(jobs), kind, fails)|
      ensures forall j :: !Pending(jobs, kind, j)
    {
      done := 0;
      ghost var start := jobs;
      while true
        invariant jobs.Keys == start.Keys && Worked(jobs, kind, fails) == Worked(start, kind, fails)
        invariant done + |Served(jobs, kind, fails)| == |Served(start, kind, fails)|
        decreases Sum(Tries(jobs, kind))
      {
        TriesBounded(jobs, kind);
        var claimed := ClaimJob(kind);
        if claimed.None? {
          // nothing is locked by anyone else, so nothing free means nothing pending
          NothingPending(jobs, kind, fails);
          return;
        }
        var j := claimed.value;
        if fails(j, jobs[j].attempts) {
          FailStep(jobs, kind, fails, j);
          jobs := Counted(jobs, j);
        } else {
          ServeStep(jobs, kind, fails, j);
          jobs := Processed(jobs, j);
          done := done + 1;
        }
      }
    }
  }

  lemma TriesBounded(jobs: Jobs, kind: JobKind)
    ensures Sum(Tries(jobs, kind)) >= 0
  {
    var zeros: map<nat, int> := map j | j in jobs :: 0;
    SumConstant(zeros, 0);
    SumLessEqual(zeros, Tries(jobs, kind));
  }

  lemma NothingPending(jobs: Jobs, kind: JobKind, fails: (nat, nat) -> bool)
    requires forall j :: !Pending(jobs, kind, j)
    ensures Worked(jobs, kind, fails) == jobs && Served(jobs, kind, fails) == {}
  {
    forall j | j in jobs
      ensures Worked(jobs, kind, fails)[j] == jobs[j]
    {
      assert !Pending(jobs, kind, j);
    }
  }

  lemma TriesSet(jobs: Jobs, kind: JobKind, j: nat, job: Job)
    requires Pending(jobs, kind, j)
    requires job.kind == kind && (job.processed == 1 || job.attempts == jobs[j].attempts + 1)
    ensures Sum(Tries(jobs[j := job], kind)) < Sum(Tries(jobs, kind))
  {
    var left := if Pending(jobs[j := job], kind, j) then JOB_MAX_ATTEMPTS - job.attempts else 0;
    assert Tries(jobs[j := job], kind) == Tries(jobs, kind)[j := left];
    SumSet(Tries(jobs, kind), j, left);
  }

  lemma FailStep(jobs: Jobs, kind: JobKind, fails: (nat, nat) -> bool, j: nat)
    requires Pending(jobs, kind, j) && fails(j, jobs[j].attempts)
    ensures Worked(Counted(jobs, j), kind, fails) == Worked(jobs, kind, fails)
    ensures Served(Counted(jobs, j), kind, fails) == Served(jobs, kind, fails)
    ensures Sum(Tries(Counted(jobs, j), kind)) < Sum(Tries(jobs, kind))
  {
    FailWorked(jobs, kind, fails, j);
    TriesSet(jobs, kind, j, Counted(jobs, j)[j]);
  }

  lemma FailWorked(jobs: Jobs, kind: JobKind, fails: (nat, nat) -> bool, j: nat)
    requires Pending(jobs, kind, j) && fails(j, jobs[j].attempts)
    ensures Worked(Counted(jobs, j), kind, fails) == Worked(jobs, kind, fails)
  {
    var jobs' := Counted(jobs, j);
    forall i | i in jobs
      ensures Worked(jobs', kind, fails)[i] == Worked(jobs, kind, fails)[i]
    {
      if i != j { assert jobs'[i] == jobs[i]; }
    }
  }

  lemma ServeStep(jobs: Jobs, kind: JobKind, fails: (nat, nat) -> bool, j: nat)
    requires Pending(jobs, kind, j) && !fails(j, jobs[j].attempts)
    ensures Worked(Processed(jobs, j), kind, fails) == Worked(jobs, kind, fails)
    ensures |Served(jobs, kind, fails)| == |Served(Processed(jobs, j), kind, fails)| + 1
    ensures Sum(Tries(Processed(jobs, j), kind)) < Sum(Tries(jobs, kind))
  {
    TriesSet(jobs, kind, j, Processed(jobs, j)[j]);
    assert Served(jobs, kind, fails) == Served(Processed(jobs, j), kind, fails) + {j};
  }

  // A pending job ends processed if and only if some attempt it has left does not
  // throw, and then its attempts are the failures before that one; otherwise it
  // ends with all its attempts used.
  lemma {:induction false} OutcomeMeans(job: Job, j: nat, fails: (nat, nat) -> bool)
    requires job.processed == 0 && job.attempts <= JOB_MAX_ATTEMPTS
    ensures var end := Outcome(job, j, fails);
      && (end.processed == 1 <==> exists n :: job.attempts <= n < JOB_MAX_ATTEMPTS && !fails(j, n))
      && (forall n :: job.attempts <= n < end.attempts ==> fails(j, n))
      && (end.processed == 1 ==> end.attempts < JOB_MAX_ATTEMPTS && !fails(j, end.attempts))
      && (end.processed != 1 ==> end.processed == 0 && end.attempts == JOB_MAX_ATTEMPTS)
    decreases JOB_MAX_ATTEMPTS - job.attempts
  {
    if job.attempts < JOB_MAX_ATTEMPTS && fails(j, job.attempts) {
      OutcomeMeans(job.(attempts := job.attempts + 1), j, fails);
    }
  }
}
