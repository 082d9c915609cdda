/** Admitting builds by the memory they reserve. Memory is counted in hundredths of a GB. */
module Admission {
  import opened Basics

  const FALLBACK_MAX_CONCURRENCY := 4
  const SYSTEM_HEADROOM := 200
  const MIN_BUDGET := 200
  const DEFAULT_REQUEST := 200
  const MIN_REQUEST := 100

  type TaskId = nat

  /** Reservations of the tasks in flight. */
  type Active = map<TaskId, nat>

  /** Unknown and zero host memory are treated alike. */
  predicate IsKnown(total: Option<nat>) { total.Some? && total.value != 0 }

  function Budget(total: Option<nat>): nat
    requires IsKnown(total)
  {
    if total.value < MIN_BUDGET + SYSTEM_HEADROOM then MIN_BUDGET else total.value - SYSTEM_HEADROOM
  }

  /** `decide_admission`. */
  predicate Admits(total: Option<nat>, requested: nat, reserved: nat, active: nat) {
    if IsKnown(total) then reserved + requested <= Budget(total) else active < FALLBACK_MAX_CONCURRENCY
  }

  /** The reservation of a build whose optimization may carry an estimate. */
  function Request(estimate: Option<nat>): nat {
    if estimate.GetOr(0) == 0 then DEFAULT_REQUEST
    else if estimate.value < MIN_REQUEST then MIN_REQUEST
    else estimate.value
  }

  ghost function Sum(active: Active): nat
    decreases |active|
  {
    if active == map[] then 0
    else
      var t :| t in active;
      active[t] + Sum(active - {t})
  }

  lemma {:induction false} SumTake(active: Active, t: TaskId)
    requires t in active
    ensures Sum(active) == active[t] + Sum(active - {t})
    decreases |active|
  {
    var u :| u in active && Sum(active) == active[u] + Sum(active - {u});
    if u != t {
      SumTake(active - {u}, t);
      SumTake(active - {t}, u);
      assert active - {u} - {t} == active - {t} - {u};
    }
  }

  lemma {:induction false} SumPut(active: Active, t: TaskId, requested: nat)
    requires t !in active
    ensures Sum(active[t := requested]) == Sum(active) + requested
    ensures |active[t := requested]| == |active| + 1
  {
    SumTake(active[t := requested], t);
    assert active[t := requested] - {t} == active;
  }

  lemma {:induction false} SumDrop(active: Active, t: TaskId)
    ensures Sum(active - {t}) <= Sum(active) && |active - {t}| <= |active|
  {
    if t in active {
      SumTake(active, t);
      assert |active - {t}| == |active.Keys - {t}|;
    } else {
      assert active - {t} == active;
    }
  }

  /** In hundredths of a GB: unknown memory admits three builds beside a new one, known memory what leaves 2 GB free, and always 2 GB. */
  lemma {:induction false} AdmissionInNumbers(total: nat, requested: nat, reserved: nat, active: nat)
    ensures Admits(None, requested, reserved, active) <==> active <= 3
    ensures total == 0 ==> (Admits(Some(total), requested, reserved, active) <==> active <= 3)
    ensures 0 < total < 400 ==> (Admits(Some(total), requested, reserved, active) <==> reserved + requested <= 200)
    ensures total >= 400 ==> (Admits(Some(total), requested, reserved, active) <==> reserved + requested <= total - 200)
  {
  }

  /** A build without an estimate reserves 2 GB, one with an estimate that much but at least 1 GB. */
  lemma {:induction false} RequestInNumbers(estimate: nat)
    ensures Request(None) == 200 && Request(Some(0)) == 200
    ensures 0 < estimate < 100 ==> Request(Some(estimate)) == 100
    ensures estimate >= 100 ==> Request(Some(estimate)) == estimate
  {
  }

  // ----- runs -----

  /** What a job record keeps for a retry. */
  datatype Job = Job(estimate: Option<nat>, failed: bool)

  /** A retry starts a new job with the parameters of a failed one. */
  datatype Action =
    | Ensure(task: TaskId, total: Option<nat>, estimate: Option<nat>)
    | Retry(task: TaskId, of: TaskId)
    | Fail(task: TaskId)
    | Done(task: TaskId)

  /** The reservations, the host memory of the last build this process admitted, and the job records. */
  datatype State = State(active: Active, last: Option<Option<nat>>, jobs: map<TaskId, Job>)

  /** A process starts without reservations; its job table may hold jobs of earlier processes. */
  function Start(jobs: map<TaskId, Job>): State { State(map[], None, jobs) }

  predicate Enabled(st: State, a: Action) {
    match a
    case Ensure(t, _, _) => t !in st.active && t !in st.jobs
    case Retry(t, of) => t !in st.active && t !in st.jobs && of in st.jobs && st.jobs[of].failed
    case Fail(t) => t in st.jobs && !st.jobs[t].failed
    case Done(_) => true
  }

  function Reserve(st: State, t: TaskId, estimate: Option<nat>): State {
    st.(active := st.active[t := Request(estimate)], jobs := st.jobs[t := Job(estimate, false)])
  }

  ghost function After(st: State, a: Action): State
    requires Enabled(st, a)
  {
    match a
    case Ensure(t, total, estimate) =>
      if Admits(total, Request(estimate), Sum(st.active), |st.active|) then Reserve(st, t, estimate).(last := Some(total)) else st
    case Retry(t, of) => Reserve(st, t, st.jobs[of].estimate)
    case Fail(t) => st.(jobs := st.jobs[t := st.jobs[t].(failed := true)])
    case Done(t) => st.(active := st.active - {t})
  }

  /** Within what the last admission allowed: its budget, or four builds when it knew no memory; nothing before the first. */
  ghost predicate Within(st: State) {
    match st.last
    case None => st.active == map[]
    case Some(total) =>
      if IsKnown(total) then Sum(st.active) <= Budget(total) else |st.active| <= FALLBACK_MAX_CONCURRENCY
  }

  ghost predicate Run(states: seq<State>, actions: seq<Action>) {
    && |states| == |actions| + 1 && states[0] == Start(states[0].jobs)
    && forall i :: 0 <= i < |actions| ==> Enabled(states[i], actions[i]) && states[i + 1] == After(states[i], actions[i])
  }

  lemma {:induction false} StepStaysWithin(st: State, a: Action)
    requires Within(st) && Enabled(st, a) && !a.Retry?
    ensures Within(After(st, a))
  {
    match a
    case Ensure(t, total, estimate) => SumPut(st.active, t, Request(estimate));
    case Fail(t) =>
    case Done(t) => SumDrop(st.active, t);
  }

  /**
   As long as builds start only through ensure, the reservations never exceed the budget
   of the last admitted profile, and at most four run when that profile knew no memory.
   */
  lemma {:induction false} EnsureOnlyRunsStayWithin(states: seq<State>, actions: seq<Action>, n: nat)
    requires Run(states, actions) && n < |states| && forall a :: a in actions ==> !a.Retry?
    ensures Within(states[n])
  {
    if n > 0 {
      EnsureOnlyRunsStayWithin(states, actions, n - 1);
      assert actions[n - 1] in actions;
      StepStaysWithin(states[n - 1], actions[n - 1]);
    }
  }

  /** In every run each reservation is that of its job's estimate, so never below it. */
  lemma {:induction false} ReservedAsEstimated(states: seq<State>, actions: seq<Action>, n: nat, t: TaskId)
    requires Run(states, actions) && n < |states| && t in states[n].active
    ensures t in states[n].jobs && states[n].active[t] == Request(states[n].jobs[t].estimate)
    ensures states[n].jobs[t].estimate.Some? ==> states[n].active[t] >= states[n].jobs[t].estimate.value
  {
    if n > 0 && t in states[n - 1].active {
      ReservedAsEstimated(states, actions, n - 1, t);
    }
  }

  /** A retry stays within exactly when a build was admitted before and admission would grant the retry too. */
  lemma {:induction false} RetryStaysWithinIff(st: State, t: TaskId, of: TaskId)
    requires Within(st) && Enabled(st, Retry(t, of))
    ensures Within(After(st, Retry(t, of))) <==>
      st.last.Some? && Admits(st.last.value, Request(st.jobs[of].estimate), Sum(st.active), |st.active|)
  {
    SumPut(st.active, t, Request(st.jobs[of].estimate));
    assert t in After(st, Retry(t, of)).active;
  }

  /** A build of 2 GB on a host of 4 GB. */
  function Two(t: TaskId): Action { Ensure(t, Some(400), Some(200)) }

  const FOUR_GB := Some(Some(400))
  const FailedJob := map[0 := Job(Some(200), true)]
  const SecondJob := FailedJob[1 := Job(Some(200), false)]

  lemma {:induction false} FirstJobFails()
    ensures var s1 := State(map[0 := 200], FOUR_GB, map[0 := Job(Some(200), false)]);
      && Enabled(Start(map[]), Two(0)) && After(Start(map[]), Two(0)) == s1
      && Enabled(s1, Fail(0)) && After(s1, Fail(0)) == State(map[0 := 200], FOUR_GB, FailedJob)
      && After(State(map[0 := 200], FOUR_GB, FailedJob), Done(0)) == State(map[], FOUR_GB, FailedJob)
  {
    assert map[0 := 200] - {0} == map[];
  }

  lemma {:induction false} SecondJobFillsTheBudget()
    ensures var s3, s4 := State(map[], FOUR_GB, FailedJob), State(map[1 := 200], FOUR_GB, SecondJob);
      && Enabled(s3, Two(1)) && After(s3, Two(1)) == s4
      && Enabled(s4, Two(2)) && After(s4, Two(2)) == s4 && Within(s4)
  {
    SumPut(map[], 1, 200);
    assert map[][1 := 200] == map[1 := 200];
  }

  lemma {:induction false} RetryExceedsTheBudget()
    ensures var s4 := State(map[1 := 200], FOUR_GB, SecondJob);
      Enabled(s4, Retry(3, 0)) && !Within(After(s4, Retry(3, 0)))
  {
    SumPut(map[], 1, 200);
    assert map[][1 := 200] == map[1 := 200];
    SumPut(map[1 := 200], 3, 200);
  }

  /** A job fails; while another runs, a third is refused, but the failed one is retried beyond the budget. */
  lemma {:induction false} RetryBreaksTheBudget() returns (states: seq<State>)
    ensures Run(states, [Two(0), Fail(0), Done(0), Two(1), Two(2), Retry(3, 0)])
    ensures |states| == 7 && states[0] == Start(map[]) && states[5] == states[4]
    ensures Within(states[5]) && !Within(states[6])
  {
    FirstJobFails();
    SecondJobFillsTheBudget();
    RetryExceedsTheBudget();
    var s4 := State(map[1 := 200], FOUR_GB, SecondJob);
    states := [Start(map[]), State(map[0 := 200], FOUR_GB, map[0 := Job(Some(200), false)]), State(map[0 := 200], FOUR_GB, FailedJob),
               State(map[], FOUR_GB, FailedJob), s4, s4, After(s4, Retry(3, 0))];
  }

  /** With unknown memory a fifth build is refused by ensure and started by the retry of a failed job. */
  lemma {:induction false} RetryBreaksTheLimit(st: State, t: TaskId, of: TaskId)
    requires st.last == Some(None) && |st.active| == FALLBACK_MAX_CONCURRENCY && Enabled(st, Retry(t, of))
    ensures Within(st) && After(st, Ensure(t, None, st.jobs[of].estimate)) == st
    ensures !Within(After(st, Retry(t, of)))
  {
    SumPut(st.active, t, Request(st.jobs[of].estimate));
  }

  /** A build too large for the budget is refused even on an idle host. */
  lemma {:induction false} OversizedIsRefused(total: Option<nat>, requested: nat)
    requires IsKnown(total)
    ensures Admits(total, requested, Sum(map[]), 0) <==> requested <= Budget(total)
    ensures Budget(total) >= MIN_BUDGET && (Budget(total) > total.value <==> total.value < MIN_BUDGET)
  {
  }

  // ----- the desk -----

  /** The two module-level tables of the job routes. */
  class Desk {
    var memory: Active

    constructor ()
      ensures memory == map[]
    {
      memory := map[];
    }

    method Reserved() returns (total: nat)
      ensures total == Sum(memory)
    {
      var rest := memory;
      total := 0;
      while rest != map[]
        invariant total + Sum(rest) == Sum(memory)
        decreases |rest|
      {
        var t :| t in rest;
        SumTake(rest, t);
        total := total + rest[t];
        rest := rest - {t};
      }
    }

    method Enqueue(t: TaskId, requested: nat)
      modifies this
      ensures memory == old(memory)[t := requested]
    {
      memory := memory[t := requested];
    }

    /** The admission section of `ensure_build`. */
    method TryEnsure(t: TaskId, total: Option<nat>, estimate: Option<nat>, ghost st: State) returns (admitted: bool)
      requires memory == st.active && Enabled(st, Ensure(t, total, estimate))
      modifies this
      ensures admitted <==> Admits(total, Request(estimate), Sum(old(memory)), |old(memory)|)
      ensures memory == After(st, Ensure(t, total, estimate)).active
    {
      var requested := Request(estimate);
      var reserved := Reserved();
      if !IsKnown(total) {
        admitted := |memory| < FALLBACK_MAX_CONCURRENCY;
      } else {
        admitted := reserved + requested <= Budget(total);
      }
      if admitted { Enqueue(t, requested); }
    }

    /** `retry_job` and `retry_with_fix`: only the record of a failed job is asked for, no admission. */
    method StartRetry(t: TaskId, record: Option<Job>, of: TaskId, ghost st: State) returns (started: bool)
      requires memory == st.active && t !in st.active && t !in st.jobs
      requires record == if of in st.jobs then Some(st.jobs[of]) else None
      modifies this
      ensures started <==> Enabled(st, Retry(t, of))
      ensures memory == if started then After(st, Retry(t, of)).active else old(memory)
    {
      if record.None? || !record.value.failed { return false; }
      Enqueue(t, Request(record.value.estimate));
      started := true;
    }

    method TaskDone(t: TaskId)
      modifies this
      ensures memory == old(memory) - {t}
    {
      memory := memory - {t};
    }
  }
}
