/** How the end of an execution becomes the end of its job. */
module JobOutcomes {
  import opened Basics
  import opened JobStore
  import opened JobProtocol
  import Catalog
  import Resolver
  import Executor
  import ExecutorTheorems
  import BuildRecords

  /** What the build thread hands back; `message` is the text of the exception, if one is raised. */
  function OutcomeOf(exit: Executor.Exit, message: string): Outcome {
    match exit
    case Returned(r) =>
      if r.core.status == Catalog.Built then Built(r.core.id)
      else NotBuilt(r.core.id, if r.core.errorDetail.GetOr("") != "" then r.core.errorDetail.value else "Build did not finish in built state")
    case Canceled => CancelRaised(message)
    case _ => Raised(message)
  }

  /** An execution whose insert succeeded, run by a job that nobody canceled. */
  ghost predicate RunsBuild(st: State, id: JobId, rows: Catalog.Rows, plan: Resolver.Plan, e: Executor.Effects, artifact: string, time: int) {
    Invariant(st) && LiveRun(st, id) && ExecutorTheorems.Inserts(rows, plan, e, artifact, time)
  }

  /**
   From builder to job row: the job of an uncanceled execution succeeds exactly when the
   builder succeeded, with the id of the built row; failing hooks fail it with the detail
   their row has; any other way out fails it with the exception's text.
   */
  lemma {:induction false} JobEndsAsItsBuild(st: State, id: JobId, now: int, message: string,
                                             rows: Catalog.Rows, plan: Resolver.Plan, e: Executor.Effects, artifact: string, time: int)
    requires RunsBuild(st, id, rows, plan, e, artifact, time)
    requires Enabled(st, Finish(id, OutcomeOf(Executor.Build(rows, plan, e, artifact, time).exit, message), now))
    ensures var exit := Executor.Build(rows, plan, e, artifact, time).exit;
      var job := After(st, Finish(id, OutcomeOf(exit, message), now)).jobs[id];
      && (job.status == Succeeded <==> ExecutorTheorems.Succeeds(plan, e))
      && (job.status == Succeeded ==> job.artifact == Some(artifact) && job.error == None)
      && (exit.Returned? && job.status != Succeeded ==>
            job.status == Failed && job.artifact == Some(artifact) && job.error == BuildRecords.OwnRow(rows, plan, e, artifact, time).errorDetail)
      && (!exit.Returned? ==> job.status == Failed && job.error == Some(message))
  {
    var o := OutcomeOf(Executor.Build(rows, plan, e, artifact, time).exit, message);
    FinishDecides(st, id, o, now);
    assert Fits(st.runners[id].stage, st.jobs[id].status);
    ExitOf(rows, plan, e, artifact, time);
  }

  lemma {:induction false} ExitOf(rows: Catalog.Rows, plan: Resolver.Plan, e: Executor.Effects, artifact: string, time: int)
    requires ExecutorTheorems.Inserts(rows, plan, e, artifact, time)
    ensures var exit, row := Executor.Build(rows, plan, e, artifact, time).exit, BuildRecords.OwnRow(rows, plan, e, artifact, time);
      && (ExecutorTheorems.Succeeds(plan, e) ==> exit.Returned?)
      && (exit.Returned? ==> exit.record.core == row && row.id == artifact && (row.status == Catalog.Built <==> ExecutorTheorems.Succeeds(plan, e)))
      && (exit.Returned? && !ExecutorTheorems.Succeeds(plan, e) ==> row.errorDetail.Some? && row.errorDetail.value != "")
  {
    BuildRecords.OwnRowIs(rows, plan, e, artifact, time);
    ExecutorTheorems.OwnRowSettles(rows, plan, e, artifact, time);
    BuildRecords.InputsRecorded(rows, plan, e, artifact, time);
    if Executor.Build(rows, plan, e, artifact, time).exit.Returned? {
      ExecutorTheorems.ReturnedIsStored(rows, plan, e, artifact, time);
    }
  }
}
