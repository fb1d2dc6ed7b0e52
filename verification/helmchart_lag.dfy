/** Convergence of the HelmChart controller from lagging caches: reconciles run from whatever the caches show,
    with Job events between their calls. With a fixed spec and no failing calls, every write lowers a rank, and
    a turn in which nobody is passed over writes something unless the outcome is already recorded. */
module HelmChartLag {
  import opened Options
  import opened HelmChart
  import opened HelmChartConvergence

  /** Nobody edits or deletes the chart, and no call fails. */
  predicate Quiet(e: Event) {
    !e.Edit? && !e.Delete? && !e.TeardownFinishes? && (e.Proceed? ==> !e.fails)
  }

  predicate LiveVersion(c: Option<Chart>, gen: nat) {
    c.Some? && !c.value.deleting && c.value.gen == gen
  }

  /** The chart cache shows the last generation; it may lag behind in everything else. */
  predicate Caught(s: State, gen: nat) {
    Shaped(s) && forall i | s.chartSeen <= i < |s.charts| :: LiveVersion(s.charts[i], gen)
  }

  /** A Job of the current epoch and of this generation ended as the condition says. */
  predicate BackedBy(jobs: Jobs, epoch: nat, gen: nat, ready: Ready) {
    && jobs.epoch == epoch && jobs.install.Some? && jobs.install.value.forGen == gen == ready.gen
    && Finished(jobs.install.value) && ready.ok == (jobs.install.value.phase == Complete)
  }

  ghost predicate Backed(s: State, gen: nat, ready: Ready)
    requires Shaped(s)
  {
    exists i :: 0 <= i < |s.jobs| && BackedBy(s.jobs[i], CurrentJobs(s).epoch, gen, ready)
  }

  /** What the worker holds is of the last generation, and is the version it read. */
  predicate Holds(s: State, rv: nat, c: Chart, gen: nat) {
    rv < |s.charts| && s.charts[rv] == Some(c) && LiveVersion(Some(c), gen)
  }

  ghost predicate WorkerFits(s: State, gen: nat)
    requires Shaped(s)
  {
    match s.worker
    case Idle => true
    case AddingFinalizer(rv, c) => Holds(s, rv, c, gen) && !c.finalizer
    case EnsuringRBAC(rv, c) => Holds(s, rv, c, gen) && c.finalizer
    case GettingJob(rv, c) => Holds(s, rv, c, gen) && c.finalizer
    case Creating(c) => c.gen == gen
    case DeletingStale(_, j) => j.forGen != gen
    case UpdatingStatus(rv, c, ready) => Holds(s, rv, c, gen) && c.ready != Some(ready) && Backed(s, gen, ready)
    case _ => false
  }

  ghost predicate LagInv(s: State, gen: nat) {
    CacheInv(s) && Caught(s, gen) && WorkerFits(s, gen)
  }

  /** What the API server holds. */
  function Store(s: State, gen: nat): Cluster
    requires Caught(s, gen)
  {
    var c := CurrentChart(s).value;
    Cluster(gen, c.finalizer, CurrentJobs(s).install, c.ready)
  }

  ghost predicate RecordedSince(s: State, gen: nat)
    requires Caught(s, gen)
  {
    CurrentChart(s).value.ready.Some? && Backed(s, gen, CurrentChart(s).value.ready.value)
  }

  /** How much is left to write. */
  ghost function LagRank(s: State, gen: nat): (r: nat)
    requires Caught(s, gen)
    ensures 4 <= r <= 18
  {
    var c := Store(s, gen);
    (if c.finalizer then 0 else 1) + 2 * JobRank(c) + (if RecordedSince(s, gen) then 0 else 1)
  }

  predicate SameStore(s: State, s': State) {
    s'.charts == s.charts && s'.jobs == s.jobs
  }

  /** A step keeps the invariant and writes nothing, or lowers the rank. */
  ghost predicate Advances(s: State, s': State, gen: nat) {
    LagInv(s, gen) && LagInv(s', gen) && (SameStore(s, s') || LagRank(s', gen) < LagRank(s, gen))
  }

  /* ---------- conditions backed by Jobs ---------- */

  lemma {:induction false} BackedGrows(s: State, s': State, gen: nat, ready: Ready)
    requires Shaped(s) && Shaped(s') && Backed(s, gen, ready)
    requires s.jobs <= s'.jobs && CurrentJobs(s').epoch == CurrentJobs(s).epoch
    ensures Backed(s', gen, ready)
  {
    var i :| 0 <= i < |s.jobs| && BackedBy(s.jobs[i], CurrentJobs(s).epoch, gen, ready);
    assert s'.jobs[i] == s.jobs[i];
  }

  /** Within an epoch, a Job ends in one way only. */
  lemma {:induction false} BackedUnique(s: State, gen: nat, a: Ready, b: Ready)
    requires CacheInv(s) && Backed(s, gen, a) && Backed(s, gen, b)
    ensures a == b
  {
    var e := CurrentJobs(s).epoch;
    var i :| 0 <= i < |s.jobs| && BackedBy(s.jobs[i], e, gen, a);
    var j :| 0 <= j < |s.jobs| && BackedBy(s.jobs[j], e, gen, b);
    if i <= j {
      assert Before(s.jobs[i], s.jobs[j]);
    } else {
      assert Before(s.jobs[j], s.jobs[i]);
    }
  }

  /** The rank is least exactly when the outcome is recorded. */
  lemma {:induction false} LeastIsSettled(s: State, gen: nat)
    requires LagInv(s, gen)
    ensures LagRank(s, gen) == 4 <==> Settled(Store(s, gen))
  {
    var c := Store(s, gen);
    if c.job.Some? && c.job.value.forGen == gen && Finished(c.job.value) {
      var ready := Ready(c.job.value.phase == Complete, gen);
      assert BackedBy(s.jobs[|s.jobs| - 1], CurrentJobs(s).epoch, gen, ready);
      if RecordedSince(s, gen) {
        BackedUnique(s, gen, ready, c.ready.value);
      }
    }
  }

  /* ---------- each step ---------- */

  lemma {:induction false} BeginAdvances(s: State, gen: nat)
    requires LagInv(s, gen) && Enabled(s, Begin)
    ensures Advances(s, Apply(s, Begin), gen)
  {
    CacheStepKept(s, Begin);
    assert LiveVersion(s.charts[s.chartSeen], gen);
  }

  lemma {:induction false} CacheAdvances(s: State, gen: nat, e: Event)
    requires LagInv(s, gen) && Enabled(s, e) && (e.ChartCacheReaches? || e.JobsCacheReaches?)
    ensures Advances(s, Apply(s, e), gen)
  {
    CacheStepKept(s, e);
    if s.worker.UpdatingStatus? {
      BackedGrows(s, Apply(s, e), gen, s.worker.ready);
    }
  }

  lemma {:induction false} JobEventAdvances(s: State, gen: nat, e: Event)
    requires LagInv(s, gen) && Enabled(s, e) && (e.InstallFinishes? || e.InstallVanishes?)
    ensures Advances(s, Apply(s, e), gen)
  {
    var s' := Apply(s, e);
    CacheStepKept(s, e);
    assert s.jobs <= s'.jobs && CurrentJobs(s').epoch == CurrentJobs(s).epoch;
    if s.worker.UpdatingStatus? {
      BackedGrows(s, s', gen, s.worker.ready);
    }
    if RecordedSince(s, gen) {
      BackedGrows(s, s', gen, CurrentChart(s).value.ready.value);
    }
  }

  lemma {:induction false} FinalizerAdvances(s: State, gen: nat)
    requires LagInv(s, gen) && s.worker.AddingFinalizer?
    ensures Advances(s, ProceedWorker(s, false), gen)
  {
    CacheStepKept(s, Proceed(false));
    var s' := ProceedWorker(s, false);
    if !Conflict(s, s.worker.rv) && RecordedSince(s, gen) {
      BackedGrows(s, s', gen, CurrentChart(s).value.ready.value);
    }
  }

  lemma {:induction false} ReadAdvances(s: State, gen: nat)
    requires LagInv(s, gen) && (s.worker.EnsuringRBAC? || s.worker.GettingJob?)
    ensures Advances(s, ProceedWorker(s, false), gen)
  {
    CacheStepKept(s, Proceed(false));
    var s' := ProceedWorker(s, false);
    if s'.worker.UpdatingStatus? {
      assert BackedBy(CachedJobs(s), CurrentJobs(s).epoch, gen, s'.worker.ready);
      assert s'.jobs[s.jobsSeen] == CachedJobs(s);
    }
  }

  lemma {:induction false} CreateAdvances(s: State, gen: nat)
    requires LagInv(s, gen) && s.worker.Creating?
    ensures Advances(s, ProceedWorker(s, false), gen)
  {
    CacheStepKept(s, Proceed(false));
  }

  lemma {:induction false} DeleteAdvances(s: State, gen: nat)
    requires LagInv(s, gen) && s.worker.DeletingStale?
    ensures Advances(s, ProceedWorker(s, false), gen)
  {
    CacheStepKept(s, Proceed(false));
    var s' := ProceedWorker(s, false);
    if RecordedSince(s, gen) {
      BackedGrows(s, s', gen, CurrentChart(s).value.ready.value);
    }
  }

  lemma {:induction false} StatusAdvances(s: State, gen: nat)
    requires LagInv(s, gen) && s.worker.UpdatingStatus?
    ensures Advances(s, ProceedWorker(s, false), gen)
  {
    CacheStepKept(s, Proceed(false));
    var s' := ProceedWorker(s, false);
    if !Conflict(s, s.worker.rv) {
      BackedGrows(s, s', gen, s.worker.ready);
      if RecordedSince(s, gen) {
        BackedUnique(s, gen, s.worker.ready, CurrentChart(s).value.ready.value);
      }
    }
  }

  lemma {:induction false} QuietAdvances(s: State, e: Event, gen: nat)
    requires LagInv(s, gen) && Enabled(s, e) && Quiet(e)
    ensures Advances(s, Apply(s, e), gen)
  {
    match e {
      case Begin => BeginAdvances(s, gen);
      case InstallFinishes(_) => JobEventAdvances(s, gen, e);
      case InstallVanishes => JobEventAdvances(s, gen, e);
      case ChartCacheReaches(_) => CacheAdvances(s, gen, e);
      case JobsCacheReaches(_) => CacheAdvances(s, gen, e);
      case Proceed(_) =>
        if s.worker.AddingFinalizer? {
          FinalizerAdvances(s, gen);
        } else if s.worker.EnsuringRBAC? || s.worker.GettingJob? {
          ReadAdvances(s, gen);
        } else if s.worker.Creating? {
          CreateAdvances(s, gen);
        } else if s.worker.DeletingStale? {
          DeleteAdvances(s, gen);
        } else {
          StatusAdvances(s, gen);
        }
    }
  }

  /* ---------- runs without edits, deletion and failing calls ---------- */

  predicate QuietSteps(states: seq<State>, events: seq<Event>) {
    Steps(states, events) && forall k | 0 <= k < |events| :: Quiet(events[k])
  }

  lemma {:induction false} LagKept(states: seq<State>, events: seq<Event>, gen: nat, k: nat)
    requires QuietSteps(states, events) && LagInv(states[0], gen) && k < |states|
    ensures LagInv(states[k], gen)
  {
    if k > 0 {
      LagKept(states, events, gen, k - 1);
      QuietAdvances(states[k - 1], events[k - 1], gen);
    }
  }

  lemma {:induction false} SameRank(s: State, s': State, gen: nat)
    requires Caught(s, gen) && Caught(s', gen) && SameStore(s, s')
    ensures LagRank(s', gen) == LagRank(s, gen)
  {
  }

  ghost predicate Progress(s: State, s': State, gen: nat) {
    Caught(s, gen) && Caught(s', gen) && (SameStore(s, s') || LagRank(s', gen) < LagRank(s, gen))
  }

  lemma {:induction false} ProgressOn(s: State, t: State, u: State, gen: nat)
    requires Progress(s, t, gen) && Progress(t, u, gen)
    ensures Progress(s, u, gen)
  {
    if SameStore(s, t) {
      SameRank(s, t, gen);
    }
    if SameStore(t, u) {
      SameRank(t, u, gen);
    }
  }

  lemma {:induction false} StepProgress(states: seq<State>, events: seq<Event>, gen: nat, k: nat)
    requires QuietSteps(states, events) && LagInv(states[0], gen) && k < |events|
    ensures Progress(states[k], states[k + 1], gen)
  {
    LagKept(states, events, gen, k);
    QuietAdvances(states[k], events[k], gen);
  }

  ghost predicate Stepwise(states: seq<State>, gen: nat) {
    forall k | 0 <= k < |states| - 1 :: ProgressAt(states, gen, k)
  }

  ghost predicate ProgressAt(states: seq<State>, gen: nat, k: nat)
    requires k < |states| - 1
  {
    Progress(states[k], states[k + 1], gen)
  }

  /** From j to k nothing is written, or the rank is lowered. */
  lemma {:induction false} StepwiseProgress(states: seq<State>, gen: nat, j: nat, k: nat)
    requires Stepwise(states, gen) && j <= k < |states| && Caught(states[j], gen)
    ensures Progress(states[j], states[k], gen)
  {
    if j < k {
      StepwiseProgress(states, gen, j, k - 1);
      assert ProgressAt(states, gen, k - 1);
      ProgressOn(states[j], states[k - 1], states[k], gen);
    }
  }

  lemma {:induction false} RunProgress(states: seq<State>, events: seq<Event>, gen: nat, j: nat, k: nat)
    requires QuietSteps(states, events) && LagInv(states[0], gen) && j <= k < |states|
    ensures Progress(states[j], states[k], gen)
  {
    LagKept(states, events, gen, j);
    forall i | 0 <= i < |states| - 1 ensures ProgressAt(states, gen, i) {
      StepProgress(states, events, gen, i);
    }
    StepwiseProgress(states, gen, j, k);
  }

  function Versions(s: State): nat {
    |s.charts| + |s.jobs|
  }

  lemma {:induction false} OneWrite(s: State, e: Event)
    requires Enabled(s, e)
    ensures Versions(Apply(s, e)) <= Versions(s) + 1
    ensures SameStore(s, Apply(s, e)) ==> Versions(Apply(s, e)) == Versions(s)
  {
  }

  /** However the steps interleave and the caches lag, the controller and the Jobs write at most as often as
      the rank of the start allows. */
  lemma {:induction false} WritesBounded(states: seq<State>, events: seq<Event>, gen: nat, k: nat)
    requires QuietSteps(states, events) && LagInv(states[0], gen) && k < |states|
    ensures LagInv(states[k], gen)
    ensures Versions(states[k]) + LagRank(states[k], gen) <= Versions(states[0]) + LagRank(states[0], gen)
  {
    LagKept(states, events, gen, k);
    if k > 0 {
      WritesBounded(states, events, gen, k - 1);
      QuietAdvances(states[k - 1], events[k - 1], gen);
      OneWrite(states[k - 1], events[k - 1]);
    }
  }

  /* ---------- turns ---------- */

  predicate Fresh(s: State) {
    s.chartSeen == |s.charts| - 1 && s.jobsSeen == |s.jobs| - 1
  }

  predicate JobRuns(s: State)
    requires Shaped(s)
  {
    CurrentJobs(s).install.Some? && !Finished(CurrentJobs(s).install.value)
  }

  predicate JobTerminates(s: State)
    requires Shaped(s)
  {
    CurrentJobs(s).install.Some? && CurrentJobs(s).install.value.terminating
  }

  /** The reconcile that began at b is over at k. */
  predicate Reconcile(states: seq<State>, events: seq<Event>, b: nat, k: nat)
    requires |states| == |events| + 1
  {
    b < k <= |events| && events[b] == Begin && Fresh(states[b]) && states[k].worker.Idle?
  }

  /** A stretch of steps that passes nobody over: some reconcile begins when the caches have caught up and
      comes to its end, whatever happens meanwhile; a Job that runs finishes, and one that is being deleted
      disappears. */
  ghost predicate IsTurn(states: seq<State>, events: seq<Event>) {
    && QuietSteps(states, events) && Shaped(states[0])
    && (exists b, k :: Reconcile(states, events, b, k))
    && (JobRuns(states[0]) ==> exists k :: 0 <= k < |events| && events[k].InstallFinishes?)
    && (JobTerminates(states[0]) ==> exists k :: 0 <= k < |events| && events[k] == InstallVanishes)
  }

  /** A reconcile from fresh caches that is bound to write something before it ends. */
  predicate BoundToWrite(s: State)
    requires Shaped(s)
  {
    match s.worker
    case AddingFinalizer(rv, _) => rv == |s.charts| - 1
    case EnsuringRBAC(rv, c) => rv == |s.charts| - 1
    case GettingJob(rv, c) => rv == |s.charts| - 1
    case Creating(_) => CurrentJobs(s).install.None?
    case DeletingStale(_, _) => CurrentJobs(s).install.Some?
    case UpdatingStatus(rv, _, _) => rv == |s.charts| - 1
    case _ => false
  }

  /** Something is left to do, and it is the controller's turn. */
  predicate ControllersTurn(s: State, gen: nat)
    requires Caught(s, gen)
  {
    !Settled(Store(s, gen)) && !JobRuns(s) && !JobTerminates(s)
  }

  lemma {:induction false} BeginBinds(s: State, gen: nat)
    requires LagInv(s, gen) && Enabled(s, Begin) && Fresh(s)
    ensures BoundToWrite(BeginReconcile(s))
  {
    assert LiveVersion(s.charts[s.chartSeen], gen);
  }

  lemma {:induction false} StaysBound(s: State, e: Event, gen: nat)
    requires LagInv(s, gen) && Enabled(s, e) && Quiet(e) && Fresh(s) && ControllersTurn(s, gen) && BoundToWrite(s)
    requires SameStore(s, Apply(s, e))
    ensures Fresh(Apply(s, e)) && BoundToWrite(Apply(s, e))
  {
  }

  ghost predicate Unwritten(states: seq<State>) {
    states != [] && forall i | 0 <= i < |states| :: SameStore(states[0], states[i])
  }

  lemma {:induction false} SameTurn(s: State, s': State, gen: nat)
    requires Caught(s, gen) && Caught(s', gen) && SameStore(s, s')
    ensures ControllersTurn(s, gen) <==> ControllersTurn(s', gen)
  {
  }

  lemma {:induction false} BoundNext(first: State, s: State, e: Event, gen: nat)
    requires LagInv(s, gen) && Enabled(s, e) && Quiet(e) && Fresh(s) && (e == Begin || BoundToWrite(s))
    requires Caught(first, gen) && ControllersTurn(first, gen) && SameStore(first, s) && SameStore(first, Apply(s, e))
    ensures Shaped(Apply(s, e)) && Fresh(Apply(s, e)) && BoundToWrite(Apply(s, e))
  {
    if e == Begin {
      BeginBinds(s, gen);
    } else {
      SameTurn(first, s, gen);
      StaysBound(s, e, gen);
    }
  }

  ghost predicate BoundAt(states: seq<State>, k: nat)
    requires k < |states|
  {
    Shaped(states[k]) && Fresh(states[k]) && BoundToWrite(states[k])
  }

  lemma {:induction false} BoundStep(states: seq<State>, events: seq<Event>, gen: nat, k: nat)
    requires QuietSteps(states, events) && LagInv(states[0], gen) && k < |events| && Unwritten(states)
    requires ControllersTurn(states[0], gen) && Fresh(states[k]) && (events[k] == Begin || BoundAt(states, k))
    ensures BoundAt(states, k + 1)
  {
    LagKept(states, events, gen, k);
    assert SameStore(states[0], states[k]) && SameStore(states[0], states[k + 1]);
    BoundNext(states[0], states[k], events[k], gen);
  }

  /** While nothing is written, a reconcile that is bound to write does not end. */
  lemma {:induction false} BoundUntil(states: seq<State>, events: seq<Event>, gen: nat, b: nat, k: nat)
    requires QuietSteps(states, events) && LagInv(states[0], gen) && b < k < |states| && Unwritten(states)
    requires events[b] == Begin && Fresh(states[b]) && ControllersTurn(states[0], gen)
    ensures BoundAt(states, k)
  {
    if b + 1 < k {
      BoundUntil(states, events, gen, b, k - 1);
    }
    BoundStep(states, events, gen, k - 1);
  }

  /** Job events write. */
  lemma {:induction false} NoJobEvents(states: seq<State>, events: seq<Event>, k: nat)
    requires QuietSteps(states, events) && Unwritten(states) && k < |events|
    ensures !events[k].InstallFinishes? && events[k] != InstallVanishes
  {
    assert SameStore(states[0], states[k]) && SameStore(states[0], states[k + 1]);
    assert |states[k + 1].jobs| == |states[k].jobs|;
  }

  /** A turn lowers the rank, unless the outcome is already recorded. */
  lemma {:induction false} TurnProgress(states: seq<State>, events: seq<Event>, gen: nat)
    requires IsTurn(states, events) && LagInv(states[0], gen)
    ensures LagInv(states[|events|], gen)
    ensures LagRank(states[|events|], gen) < LagRank(states[0], gen)
            || (SameStore(states[0], states[|events|]) && LagRank(states[0], gen) == 4)
  {
    var n := |events|;
    RunProgress(states, events, gen, 0, n);
    LagKept(states, events, gen, n);
    if LagRank(states[n], gen) >= LagRank(states[0], gen) {
      forall i | 0 <= i < |states| ensures SameStore(states[0], states[i]) {
        RunProgress(states, events, gen, 0, i);
        RunProgress(states, events, gen, i, n);
        if !SameStore(states[0], states[i]) && SameStore(states[i], states[n]) {
          SameRank(states[i], states[n], gen);
        }
      }
      NothingWritten(states, events, gen);
      LeastIsSettled(states[0], gen);
    }
  }

  lemma {:induction false} NothingWritten(states: seq<State>, events: seq<Event>, gen: nat)
    requires IsTurn(states, events) && LagInv(states[0], gen) && Unwritten(states)
    ensures Settled(Store(states[0], gen))
  {
    forall k | 0 <= k < |events| ensures !events[k].InstallFinishes? && events[k] != InstallVanishes {
      NoJobEvents(states, events, k);
    }
    var b, k :| Reconcile(states, events, b, k);
    if ControllersTurn(states[0], gen) {
      BoundUntil(states, events, gen, b, k);
    }
  }

  /* ---------- convergence ---------- */

  datatype Turn = Turn(states: seq<State>, events: seq<Event>)

  /** Turns that follow on one another, from s on. */
  ghost predicate Turns(s: State, turns: seq<Turn>)
    decreases |turns|
  {
    turns == [] ||
    (&& IsTurn(turns[0].states, turns[0].events) && turns[0].states[0] == s
     && Turns(turns[0].states[|turns[0].events|], turns[1..]))
  }

  ghost function After(s: State, turns: seq<Turn>): State
    requires Turns(s, turns)
    decreases |turns|
  {
    if turns == [] then s else After(turns[0].states[|turns[0].events|], turns[1..])
  }

  /** From any state in which the chart cache shows the last generation, however far it lags otherwise and
      wherever in a reconcile the worker is, as many turns as the rank end with the outcome for that
      generation recorded at the API server. */
  lemma {:induction false} LaggingConverges(s: State, turns: seq<Turn>, gen: nat)
    requires LagInv(s, gen) && Turns(s, turns) && |turns| >= LagRank(s, gen) - 4
    ensures LagInv(After(s, turns), gen) && Settled(Store(After(s, turns), gen))
    decreases |turns|
  {
    LeastIsSettled(s, gen);
    if turns != [] {
      var states, events := turns[0].states, turns[0].events;
      TurnProgress(states, events, gen);
      LaggingConverges(states[|events|], turns[1..], gen);
    }
  }

  /** Once the outcome is recorded, nothing more is written. */
  lemma {:induction false} RecordedStays(states: seq<State>, events: seq<Event>, gen: nat, k: nat)
    requires QuietSteps(states, events) && LagInv(states[0], gen) && k < |states| && Settled(Store(states[0], gen))
    ensures SameStore(states[0], states[k])
  {
    LeastIsSettled(states[0], gen);
    RunProgress(states, events, gen, 0, k);
  }

  /** Every state of a run is such a state, once the worker is idle and the chart cache shows the last
      generation of a chart that is not being deleted. */
  lemma {:induction false} RunReaches(states: seq<State>, events: seq<Event>, k: nat, gen: nat)
    requires IsRun(states, events) && k < |states| && states[k].worker.Idle? && Caught(states[k], gen)
    ensures LagInv(states[k], gen)
  {
    RunKept(states, events, k);
  }
}
