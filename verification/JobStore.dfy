/** The table of background jobs: guarded and unguarded updates, and the classes that perform them. */
module JobStore {
  import opened Basics

  type JobId = string

  datatype Status = Queued | Running | Succeeded | Failed | Canceled

  datatype Job = Job(
    status: Status, startedAt: Option<int>, endedAt: Option<int>, artifact: Option<string>, error: Option<string>)

  type Jobs = map<JobId, Job>

  predicate Terminal(s: Status) { s in {Succeeded, Failed, Canceled} }

  /** An end time is recorded exactly in the terminal statuses. */
  predicate EndedRight(job: Job) { job.endedAt.Some? <==> Terminal(job.status) }

  const NewJob := Job(Queued, None, None, None, None)

  // ----- what each operation does to the table -----

  predicate IsCanceled(jobs: Jobs, id: JobId) { id in jobs && jobs[id].status == Canceled }

  /** `update`: no guard on the status it replaces. */
  function Stored(jobs: Jobs, id: JobId, job: Job): Jobs { if id in jobs then jobs[id := job] else jobs }

  predicate Cancelable(jobs: Jobs, id: JobId) { id in jobs && jobs[id].status in {Queued, Running} }

  /** `cancel_if_active`. */
  function CanceledJob(jobs: Jobs, id: JobId, now: int): Jobs {
    if Cancelable(jobs, id)
    then jobs[id := jobs[id].(status := Canceled, endedAt := Some(now), error := Some("Canceled by user"))]
    else jobs
  }

  /** `mark_orphaned_running_as_failed`. */
  function Orphaned(jobs: Jobs, now: int): Jobs {
    map id | id in jobs :: if jobs[id].status != Running then jobs[id]
      else jobs[id].(status := Failed, endedAt := Some(now), error := Some("Server restarted while job was running"))
  }

  // ----- the runner's two segments -----

  /** How the build thread came back. */
  datatype Outcome =
    | Built(artifact: string)
    | NotBuilt(artifact: string, detail: string)
    | CancelRaised(message: string)
    | Raised(message: string)

  function RunningRecord(now: int): Job { Job(Running, Some(now), None, None, None) }

  /** Start of a runner: an already canceled job is left alone, any other is written as running. */
  function Begun(jobs: Jobs, id: JobId, now: int): Jobs {
    if IsCanceled(jobs, id) then jobs else Stored(jobs, id, RunningRecord(now))
  }

  /** End of a runner, `started` being the time its record carries; a raised cancellation is written without looking. */
  function Finished(jobs: Jobs, id: JobId, started: int, o: Outcome, now: int): Jobs {
    match o
    case CancelRaised(message) => Stored(jobs, id, Job(Canceled, Some(started), Some(now), None, Some(message)))
    case Built(artifact) =>
      if IsCanceled(jobs, id) then jobs else Stored(jobs, id, Job(Succeeded, Some(started), Some(now), Some(artifact), None))
    case NotBuilt(artifact, detail) =>
      if IsCanceled(jobs, id) then jobs else Stored(jobs, id, Job(Failed, Some(started), Some(now), Some(artifact), Some(detail)))
    case Raised(message) =>
      if IsCanceled(jobs, id) then jobs else Stored(jobs, id, Job(Failed, Some(started), Some(now), None, Some(message)))
  }

  /** The statuses a runner announces to its subscribers at its start and at its end. */
  function BeginNews(jobs: Jobs, id: JobId): string { if IsCanceled(jobs, id) then "canceled" else "running" }

  function FinishNews(jobs: Jobs, id: JobId, o: Outcome): string {
    if o.CancelRaised? || IsCanceled(jobs, id) then "canceled" else if o.Built? then "succeeded" else "failed"
  }

  // ----- the classes -----

  class Store {
    var jobs: Jobs

    constructor ()
      ensures jobs == map[]
    {
      jobs := map[];
    }

    method Insert(id: JobId)
      requires id !in jobs
      modifies this
      ensures jobs == old(jobs)[id := NewJob]
    {
      jobs := jobs[id := NewJob];
    }

    method Update(id: JobId, job: Job)
      modifies this
      ensures jobs == Stored(old(jobs), id, job)
    {
      if id in jobs { jobs := jobs[id := job]; }
    }

    method CancelIfActive(id: JobId, now: int) returns (accepted: bool)
      modifies this
      ensures jobs == CanceledJob(old(jobs), id, now)
      ensures accepted <==> Cancelable(old(jobs), id)
    {
      accepted := id in jobs && (jobs[id].status == Queued || jobs[id].status == Running);
      if accepted {
        jobs := jobs[id := jobs[id].(status := Canceled, endedAt := Some(now), error := Some("Canceled by user"))];
      }
    }

    method MarkOrphanedRunningAsFailed(now: int) returns (count: nat)
      modifies this
      ensures jobs == Orphaned(old(jobs), now)
      ensures count == |set id | id in old(jobs) && old(jobs)[id].status == Running|
    {
      var running := set id | id in jobs && jobs[id].status == Running;
      count := |running|;
      jobs := jobs + map id | id in running ::
        jobs[id].(status := Failed, endedAt := Some(now), error := Some("Server restarted while job was running"));
    }
  }

  /** Cancel signals, one event per job: present or absent, and set or not. */
  class Manager {
    const store: Store
    var signals: map<JobId, bool>

    predicate Requested(id: JobId)
      reads this
    {
      id in signals && signals[id]
    }

    constructor (store: Store, now: int)
      modifies store
      ensures this.store == store && signals == map[] && store.jobs == Orphaned(old(store.jobs), now)
    {
      this.store, signals := store, map[];
      new;
      var _ := store.MarkOrphanedRunningAsFailed(now);
    }

    method CreateJob(id: JobId)
      requires id !in store.jobs
      modifies this, store
      ensures store.jobs == old(store.jobs)[id := NewJob] && signals == old(signals)[id := false]
    {
      store.Insert(id);
      signals := signals[id := false];
    }

    /** `request_cancel`: the row first, then the signal. */
    method RequestCancel(id: JobId, now: int) returns (accepted: bool)
      modifies this, store
      ensures store.jobs == CanceledJob(old(store.jobs), id, now)
      ensures accepted <==> Cancelable(old(store.jobs), id)
      ensures signals == if accepted then old(signals)[id := true] else old(signals)
    {
      accepted := store.CancelIfActive(id, now);
      if accepted {
        if id !in signals { signals := signals[id := false]; }
        signals := signals[id := true];
      }
    }

    method ClearCancelSignal(id: JobId)
      modifies this
      ensures signals == old(signals) - {id}
    {
      signals := signals - {id};
    }
  }

  /** The record object a runner carries from its start to its end. */
  class Record {
    var job: Job

    constructor ()
      ensures job == NewJob
    {
      job := NewJob;
    }
  }

  /** First segment of `run_ensure_job`, up to starting the build thread. */
  method BeginEnsureJob(m: Manager, id: JobId, record: Record, now: int) returns (started: bool, news: string)
    requires record.job == NewJob
    modifies m, m.store, record
    ensures m.store.jobs == Begun(old(m.store.jobs), id, now)
    ensures started <==> !IsCanceled(old(m.store.jobs), id)
    ensures started ==> record.job == RunningRecord(now) && m.signals == old(m.signals)
    ensures !started ==> m.signals == old(m.signals) - {id}
    ensures news == BeginNews(old(m.store.jobs), id)
  {
    if id in m.store.jobs && m.store.jobs[id].status == Canceled {
      m.ClearCancelSignal(id);
      return false, "canceled";
    }
    record.job := record.job.(status := Running, startedAt := Some(now));
    m.store.Update(id, record.job);
    return true, "running";
  }

  /** Second segment, from the thread's return to the last status written. */
  method FinishEnsureJob(m: Manager, id: JobId, record: Record, started: int, o: Outcome, now: int) returns (news: string)
    requires record.job == RunningRecord(started)
    modifies m.store, record
    ensures m.store.jobs == Finished(old(m.store.jobs), id, started, o, now)
    ensures news == FinishNews(old(m.store.jobs), id, o)
  {
    match o {
      case CancelRaised(message) =>
        record.job := record.job.(status := Canceled, endedAt := Some(now), error := Some(message));
        m.store.Update(id, record.job);
        return "canceled";
      case Built(artifact) =>
        if id in m.store.jobs && m.store.jobs[id].status == Canceled { return "canceled"; }
        record.job := record.job.(status := Succeeded, endedAt := Some(now), artifact := Some(artifact));
        m.store.Update(id, record.job);
        return "succeeded";
      case NotBuilt(artifact, detail) =>
        if id in m.store.jobs && m.store.jobs[id].status == Canceled { return "canceled"; }
        record.job := record.job.(status := Failed, endedAt := Some(now), artifact := Some(artifact), error := Some(detail));
        m.store.Update(id, record.job);
        return "failed";
      case Raised(message) =>
        if id in m.store.jobs && m.store.jobs[id].status == Canceled { return "canceled"; }
        record.job := record.job.(status := Failed, endedAt := Some(now), error := Some(message));
        m.store.Update(id, record.job);
        return "failed";
    }
  }
}
