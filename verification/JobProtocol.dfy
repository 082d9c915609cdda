/**
 Every interleaving of creating, running, canceling and restarting jobs. What happens
 between two awaits of the event loop is one action; the build thread only reads signals.
 */
module JobProtocol {
  import opened Basics
  import opened JobStore

  datatype Stage =
    | Pending                                // task created, first segment not run
    | Threading(started: int, saw: bool)     // build thread at work; has it seen the signal?
    | Closing                                // status written, sentinel and signal still to do

  /** A runner keeps the manager it was created with, named by that manager's epoch. */
  datatype Runner = Runner(epoch: nat, stage: Stage)

  datatype State = State(jobs: Jobs, runners: map<JobId, Runner>, signals: set<(nat, JobId)>, epoch: nat)

  const Initial := State(map[], map[], {}, 0)

  datatype Action =
    | Create(id: JobId)
    | Start(id: JobId, now: int)
    | See(id: JobId)
    | Finish(id: JobId, outcome: Outcome, now: int)
    | Close(id: JobId)
    | Vanish(id: JobId)
    | Cancel(id: JobId, now: int)
    | Restart(now: int)
    | RebuildManager(now: int)

  predicate Enabled(st: State, a: Action) {
    match a
    case Create(id) => id !in st.jobs
    case Start(id, _) => id in st.runners && st.runners[id].stage.Pending?
    case See(id) => id in st.runners && st.runners[id].stage.Threading? && (st.runners[id].epoch, id) in st.signals
    case Finish(id, o, _) =>
      && id in st.runners && st.runners[id].stage.Threading?
      && (o.CancelRaised? ==> st.runners[id].stage.saw)
    case Close(id) => id in st.runners && st.runners[id].stage.Closing?
    case Vanish(id) => id in st.runners && st.runners[id].stage.Threading?
    case Cancel(_, _) => true
    case Restart(_) => true
    case RebuildManager(_) => true
  }

  function After(st: State, a: Action): State
    requires Enabled(st, a)
  {
    match a
    case Create(id) => st.(jobs := st.jobs[id := NewJob], runners := st.runners[id := Runner(st.epoch, Pending)])
    case Start(id, now) =>
      var r := st.runners[id];
      if IsCanceled(st.jobs, id) then st.(runners := st.runners - {id}, signals := st.signals - {(r.epoch, id)})
      else st.(jobs := Begun(st.jobs, id, now), runners := st.runners[id := r.(stage := Threading(now, false))])
    case See(id) => st.(runners := st.runners[id := st.runners[id].(stage := st.runners[id].stage.(saw := true))])
    case Finish(id, o, now) =>
      st.(jobs := Finished(st.jobs, id, st.runners[id].stage.started, o, now),
          runners := st.runners[id := st.runners[id].(stage := Closing)])
    case Close(id) => st.(runners := st.runners - {id}, signals := st.signals - {(st.runners[id].epoch, id)})
    case Vanish(id) => st.(runners := st.runners - {id})
    case Cancel(id, now) =>
      st.(jobs := CanceledJob(st.jobs, id, now),
          signals := if Cancelable(st.jobs, id) then st.signals + {(st.epoch, id)} else st.signals)
    case Restart(now) => State(Orphaned(st.jobs, now), map[], {}, st.epoch + 1)
    case RebuildManager(now) => st.(jobs := Orphaned(st.jobs, now), epoch := st.epoch + 1)
  }

  // ----- the invariant -----

  /** What a runner may find in the row of its job. */
  predicate Fits(stage: Stage, status: Status) {
    match stage
    case Pending => status in {Queued, Canceled}
    case Threading(_, saw) => status == Canceled || (status == Running && !saw)
    case Closing => Terminal(status)
  }

  ghost predicate Invariant(st: State) {
    && (forall id :: id in st.jobs ==> EndedRight(st.jobs[id]))
    && (forall id :: id in st.runners ==> id in st.jobs && Fits(st.runners[id].stage, st.jobs[id].status))
    && (forall e, id :: (e, id) in st.signals ==> IsCanceled(st.jobs, id))
  }

  /** A build thread is at work on a job whose row says running. */
  predicate LiveRun(st: State, id: JobId) {
    id in st.runners && st.runners[id].stage.Threading? && id in st.jobs && st.jobs[id].status == Running
  }

  ghost predicate SafeToRebuild(st: State) { forall id :: id in st.runners ==> !LiveRun(st, id) }

  ghost predicate Careful(st: State, a: Action) { a.RebuildManager? ==> SafeToRebuild(st) }

  predicate KeptIn(job: Job, jobs: Jobs, id: JobId) {
    id in jobs && (Terminal(job.status) ==> jobs[id].status == job.status)
  }

  /** No terminal status changes, and no job disappears. */
  ghost predicate TerminalKept(before: State, after: State) {
    forall id :: id in before.jobs ==> KeptIn(before.jobs[id], after.jobs, id)
  }

  lemma {:induction false} JobsAfter(st: State, a: Action, id: JobId)
    requires Invariant(st) && Enabled(st, a) && Careful(st, a) && id in After(st, a).jobs
    ensures EndedRight(After(st, a).jobs[id])
    ensures id in st.jobs && Terminal(st.jobs[id].status) ==> After(st, a).jobs[id].status == st.jobs[id].status
  {
    if id in st.runners { assert Fits(st.runners[id].stage, st.jobs[id].status); }
  }

  lemma {:induction false} RunnersAfter(st: State, a: Action, id: JobId)
    requires Invariant(st) && Enabled(st, a) && Careful(st, a) && id in After(st, a).runners
    ensures id in After(st, a).jobs && Fits(After(st, a).runners[id].stage, After(st, a).jobs[id].status)
  {
    if id in st.runners { assert Fits(st.runners[id].stage, st.jobs[id].status); }
  }

  lemma {:induction false} SignalsAfter(st: State, a: Action, e: nat, id: JobId)
    requires Invariant(st) && Enabled(st, a) && Careful(st, a) && (e, id) in After(st, a).signals
    ensures IsCanceled(After(st, a).jobs, id)
  {
    if (e, id) in st.signals {
      assert IsCanceled(st.jobs, id);
    }
  }

  lemma {:induction false} StepKeepsInvariant(st: State, a: Action)
    requires Invariant(st) && Enabled(st, a) && Careful(st, a)
    ensures Invariant(After(st, a)) && TerminalKept(st, After(st, a))
  {
    forall id | id in After(st, a).jobs
      ensures EndedRight(After(st, a).jobs[id])
      ensures id in st.jobs && Terminal(st.jobs[id].status) ==> After(st, a).jobs[id].status == st.jobs[id].status
    {
      JobsAfter(st, a, id);
    }
    forall id | id in After(st, a).runners ensures id in After(st, a).jobs && Fits(After(st, a).runners[id].stage, After(st, a).jobs[id].status) {
      RunnersAfter(st, a, id);
    }
    forall e, id | (e, id) in After(st, a).signals ensures IsCanceled(After(st, a).jobs, id) {
      SignalsAfter(st, a, e, id);
    }
  }

  // ----- over whole runs -----

  ghost predicate Run(states: seq<State>, actions: seq<Action>) {
    && |states| == |actions| + 1 && states[0] == Initial
    && forall i :: 0 <= i < |actions| ==> Enabled(states[i], actions[i]) && states[i + 1] == After(states[i], actions[i])
  }

  /** Managers are rebuilt only while no live run would lose its row. */
  ghost predicate CarefulRun(states: seq<State>, actions: seq<Action>) {
    Run(states, actions) && forall i :: 0 <= i < |actions| ==> Careful(states[i], actions[i])
  }

  /**
   In every careful run: end times stand exactly in terminal rows, runners find the row
   they expect, and a set signal means a canceled job.
   */
  lemma {:induction false} RunKeepsInvariant(states: seq<State>, actions: seq<Action>, n: nat)
    requires CarefulRun(states, actions) && n < |states|
    ensures Invariant(states[n])
  {
    if n > 0 {
      RunKeepsInvariant(states, actions, n - 1);
      StepKeepsInvariant(states[n - 1], actions[n - 1]);
    }
  }

  /** A succeeded, failed or canceled job keeps that status forever. */
  lemma {:induction false} TerminalForever(states: seq<State>, actions: seq<Action>, m: nat, n: nat, id: JobId)
    requires CarefulRun(states, actions) && m <= n < |states| && id in states[m].jobs && Terminal(states[m].jobs[id].status)
    ensures id in states[n].jobs && states[n].jobs[id].status == states[m].jobs[id].status
    decreases n
  {
    if m < n {
      TerminalForever(states, actions, m, n - 1, id);
      RunKeepsInvariant(states, actions, n - 1);
      StepKeepsInvariant(states[n - 1], actions[n - 1]);
    }
  }

  /** A cancel that was accepted ends canceled, whatever the runner does afterwards. */
  lemma {:induction false} AcceptedCancelStays(states: seq<State>, actions: seq<Action>, m: nat, n: nat, id: JobId, now: int)
    requires CarefulRun(states, actions) && m < |actions| && m < n < |states|
    requires actions[m] == Cancel(id, now) && Cancelable(states[m].jobs, id)
    ensures IsCanceled(states[n].jobs, id)
  {
    assert states[m + 1] == After(states[m], actions[m]);
    TerminalForever(states, actions, m + 1, n, id);
  }

  // ----- what a status means -----

  /** What the runner says of its job when the row it wrote has this status. */
  predicate Announces(news: string, status: Status) {
    && (news == "succeeded" <==> status == Succeeded) && (news == "failed" <==> status == Failed)
    && (news == "canceled" <==> status == Canceled) && (news == "running" <==> status == Running)
  }

  lemma {:induction false} WordsDiffer()
    ensures "succeeded"[0] != "failed"[0] && "succeeded"[0] != "canceled"[0] && "succeeded"[0] != "running"[0]
    ensures "failed"[0] != "canceled"[0] && "failed"[0] != "running"[0] && "canceled"[0] != "running"[0]
  {
  }

  /** A started job is running from that time on, or was canceled before; the news says which. */
  lemma {:induction false} StartDecides(st: State, id: JobId, now: int)
    requires Invariant(st) && Enabled(st, Start(id, now))
    ensures var job := After(st, Start(id, now)).jobs[id];
      && (job.status == Canceled <==> st.jobs[id].status == Canceled) && (job.status == Canceled ==> job == st.jobs[id])
      && (job.status != Canceled ==> job == Job(Running, Some(now), None, None, None))
      && Announces(BeginNews(st.jobs, id), job.status)
  {
    assert Fits(st.runners[id].stage, st.jobs[id].status);
    WordsDiffer();
  }

  /**
   How a finished job ends: succeeded exactly when a build that was not canceled came back
   built, failed exactly when it came back otherwise or raised, else canceled; with the
   artifact and the error of that outcome and the times of start and end. The news names
   the same status.
   */
  lemma {:induction false} FinishDecides(st: State, id: JobId, o: Outcome, now: int)
    requires Invariant(st) && Enabled(st, Finish(id, o, now))
    ensures var job, started := After(st, Finish(id, o, now)).jobs[id], st.runners[id].stage.started;
      && (job.status == Succeeded <==> LiveRun(st, id) && o.Built?)
      && (job.status == Failed <==> LiveRun(st, id) && (o.NotBuilt? || o.Raised?))
      && (job.status == Canceled <==> !LiveRun(st, id))
      && (!LiveRun(st, id) && !o.CancelRaised? ==> job == st.jobs[id])
      && (LiveRun(st, id) || o.CancelRaised? ==> job.startedAt == Some(started) && job.endedAt == Some(now))
      && (LiveRun(st, id) && o.Built? ==> job.artifact == Some(o.artifact) && job.error == None)
      && (LiveRun(st, id) && o.NotBuilt? ==> job.artifact == Some(o.artifact) && job.error == Some(o.detail))
      && (LiveRun(st, id) && o.Raised? ==> job.artifact == None && job.error == Some(o.message))
      && (o.CancelRaised? ==> job.artifact == None && job.error == Some(o.message))
      && Announces(FinishNews(st.jobs, id, o), job.status)
  {
    assert Fits(st.runners[id].stage, st.jobs[id].status);
    WordsDiffer();
  }

  /** A build thread may raise the cancellation exactly from when it has seen the signal of an accepted cancel. */
  lemma {:induction false} SeenMayRaise(st: State, id: JobId, message: string, now: int)
    requires Enabled(st, See(id))
    ensures Enabled(After(st, See(id)), Finish(id, CancelRaised(message), now)) && After(st, See(id)).jobs == st.jobs
    ensures !st.runners[id].stage.saw ==> !Enabled(st, Finish(id, CancelRaised(message), now))
  {
  }

  /** An accepted cancel and a restart leave their reason and time; nobody else's row changes. */
  lemma {:induction false} EndedFromOutside(st: State, id: JobId, other: JobId, now: int)
    requires id in st.jobs && other in st.jobs && other != id
    ensures st.jobs[id].status in {Queued, Running} ==>
      var job := After(st, Cancel(id, now)).jobs[id];
      job.status == Canceled && job.endedAt == Some(now) && job.error == Some("Canceled by user") && job.startedAt == st.jobs[id].startedAt
    ensures Terminal(st.jobs[id].status) ==> After(st, Cancel(id, now)).jobs[id] == st.jobs[id]
    ensures st.jobs[id].status == Running ==>
      var job := After(st, Restart(now)).jobs[id];
      job.status == Failed && job.endedAt == Some(now) && job.error == Some("Server restarted while job was running") && job.startedAt == st.jobs[id].startedAt
    ensures st.jobs[id].status != Running ==> After(st, Restart(now)).jobs[id] == st.jobs[id]
    ensures After(st, Cancel(id, now)).jobs[other] == st.jobs[other]
  {
  }

  /** The action that can have given a job this terminal status. */
  ghost predicate Causes(st: State, a: Action, id: JobId, job: Job) {
    Enabled(st, a) &&
    match job.status
    case Succeeded => a.Finish? && a.id == id && a.outcome.Built? && job.artifact == Some(a.outcome.artifact)
    case Failed =>
      || (a.Finish? && a.id == id && a.outcome.NotBuilt? && job.artifact == Some(a.outcome.artifact) && job.error == Some(a.outcome.detail))
      || (a.Finish? && a.id == id && a.outcome.Raised? && job.error == Some(a.outcome.message))
      || ((a.Restart? || a.RebuildManager?) && id in st.jobs && st.jobs[id].status == Running)
    case Canceled =>
      || (a.Finish? && a.id == id && a.outcome.CancelRaised? && job.error == Some(a.outcome.message))
      || (a.Cancel? && a.id == id && Cancelable(st.jobs, id))
    case _ => false
  }

  lemma {:induction false} ChangedByItsCause(st: State, a: Action, id: JobId)
    requires Enabled(st, a) && id in After(st, a).jobs && Terminal(After(st, a).jobs[id].status)
    ensures (id in st.jobs && After(st, a).jobs[id] == st.jobs[id]) || Causes(st, a, id, After(st, a).jobs[id])
  {
  }

  /**
   In every run, careful or not, a terminal row was written by its cause: a succeeded job
   by a build that came back built with its artifact, a failed one by a build that did not,
   an exception or a restart, a canceled one by an accepted cancel or a raised cancellation.
   */
  lemma {:induction false} TerminalHasItsCause(states: seq<State>, actions: seq<Action>, n: nat, id: JobId) returns (i: nat)
    requires Run(states, actions) && n < |states| && id in states[n].jobs && Terminal(states[n].jobs[id].status)
    ensures i < n && Causes(states[i], actions[i], id, states[n].jobs[id])
  {
    assert n > 0;
    ChangedByItsCause(states[n - 1], actions[n - 1], id);
    if Causes(states[n - 1], actions[n - 1], id, states[n].jobs[id]) {
      i := n - 1;
    } else {
      i := TerminalHasItsCause(states, actions, n - 1, id);
    }
  }

  // ----- rebuilding the manager -----

  /** Rebuilding the manager keeps the invariant exactly when no build thread has a running row. */
  lemma {:induction false} RebuildSafeIff(st: State, now: int)
    requires Invariant(st)
    ensures Invariant(After(st, RebuildManager(now))) <==> SafeToRebuild(st)
  {
    if SafeToRebuild(st) {
      StepKeepsInvariant(st, RebuildManager(now));
    } else {
      var id :| id in st.runners && LiveRun(st, id);
      var st' := After(st, RebuildManager(now));
      assert st'.jobs[id].status == Failed && !Fits(st'.runners[id].stage, st'.jobs[id].status);
    }
  }

  /** Otherwise the job is first failed and then, when its build ends well, succeeded. */
  lemma {:induction false} UnsafeRebuildResurrects(st: State, id: JobId, artifact: string, now: int, later: int)
    requires Invariant(st) && LiveRun(st, id)
    ensures var failed := After(st, RebuildManager(now));
      && failed.jobs[id].status == Failed && Enabled(failed, Finish(id, Built(artifact), later))
      && After(failed, Finish(id, Built(artifact), later)).jobs[id].status == Succeeded
  {
  }

  /** And such a state is reached: create, start, rebuild, finish. */
  lemma {:induction false} ResurrectionRun(id: JobId, artifact: string) returns (states: seq<State>, actions: seq<Action>)
    ensures Run(states, actions) && |states| == 5
    ensures id in states[3].jobs && states[3].jobs[id].status == Failed
    ensures id in states[4].jobs && states[4].jobs[id].status == Succeeded
  {
    var s1 := After(Initial, Create(id));
    var s2 := After(s1, Start(id, 1));
    var s3 := After(s2, RebuildManager(2));
    var s4 := After(s3, Finish(id, Built(artifact), 3));
    states := [Initial, s1, s2, s3, s4];
    actions := [Create(id), Start(id, 1), RebuildManager(2), Finish(id, Built(artifact), 3)];
  }

  /** Restarting the process is always safe: the runners are gone with it. */
  lemma {:induction false} RestartIsSafe(st: State, now: int)
    requires Invariant(st)
    ensures Invariant(After(st, Restart(now))) && TerminalKept(st, After(st, Restart(now)))
    ensures forall id :: id in st.jobs ==> After(st, Restart(now)).jobs[id].status != Running
  {
    StepKeepsInvariant(st, Restart(now));
  }
}
