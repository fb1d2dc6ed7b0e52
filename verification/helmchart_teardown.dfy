/** A teardown Job needs its RBAC objects until it is over (internal/controller/clusteragent/helmchart_controller.go).
    Over all runs with lagging caches: exactly when it keeps them. */
module HelmChartTeardown {
  import opened Options
  import opened HelmChart
  import opened HelmChartConvergence
  import D = HelmChartDeletion

  /** A teardown Job that runs has its RBAC objects. */
  predicate Powered(s: State) {
    Shaped(s) && (CurrentJobs(s).teardown.Some? && !Finished(CurrentJobs(s).teardown.value) ==> s.rbac)
  }

  /** The step that creates the teardown Job. */
  predicate Creates(s: State, e: Event) {
    Shaped(s) && s.worker.CreatingTeardown? && e == Proceed(false) && CurrentJobs(s).teardown.None?
  }

  /** The RBAC objects are there, and so is the install Job, with no deletion under way; or the cache shows
      already that the chart is gone. */
  predicate Firm(s: State)
    requires Shaped(s)
  {
    s.rbac && (s.charts[s.chartSeen].None? || (CurrentJobs(s).install.Some? && !CurrentJobs(s).install.value.terminating))
  }

  predicate FailedCreation(s: State, e: Event) {
    s.worker.CreatingTeardown? && e == Proceed(true)
  }

  predicate NoFailedCreation(states: seq<State>, events: seq<Event>) {
    forall k | 0 <= k < |events| && k < |states| :: !FailedCreation(states[k], events[k])
  }

  /** Whatever happens from s on, unless the creation of a teardown Job fails, it keeps its RBAC objects. */
  ghost predicate KeepsRBAC(s: State) {
    forall states: seq<State>, events: seq<Event> |
      Steps(states, events) && states[0] == s && NoFailedCreation(states, events) :: Powered(states[|events|])
  }

  /* ---------- what every run keeps about charts ---------- */

  predicate Leaves(c: Option<Chart>) {
    c.Some? ==> c.value.deleting && c.value.finalizer
  }

  /** Deletion is for good, and holds a finalizer. */
  predicate DeletingStays(charts: seq<Option<Chart>>) {
    forall i, j | 0 <= i <= j < |charts| && charts[i].Some? && charts[i].value.deleting :: Leaves(charts[j])
  }

  predicate Deleting(w: Worker) {
    w.GettingTeardown? || w.CheckingInstall? || w.CreatingTeardown? || w.Cleaning? || w.RemovingFinalizer?
  }

  predicate Installing(w: Worker) {
    w.AddingFinalizer? || w.EnsuringRBAC? || w.GettingJob? || w.UpdatingStatus?
  }

  /** The worker holds a version that the cache has shown. */
  predicate HoldsVersion(s: State) {
    && (Installing(s.worker) || Deleting(s.worker) ==>
          s.worker.rv <= s.chartSeen < |s.charts| && s.charts[s.worker.rv] == Some(s.worker.chart))
    && (Installing(s.worker) ==> !s.worker.chart.deleting)
    && (Deleting(s.worker) ==> s.worker.chart.deleting)
  }

  /** A chart that is gone does not come back. */
  predicate GoneLast(charts: seq<Option<Chart>>) {
    forall i | 0 <= i < |charts| - 1 :: charts[i].Some?
  }

  predicate ChartsInv(s: State) {
    Shaped(s) && DeletingStays(s.charts) && GoneLast(s.charts) && HoldsVersion(s)
  }

  lemma {:induction false} ChartAdded(charts: seq<Option<Chart>>, c: Option<Chart>)
    requires charts != [] && DeletingStays(charts) && GoneLast(charts) && charts[|charts| - 1].Some?
    requires c.Some? && c.value.deleting ==> c.value.finalizer
    requires charts[|charts| - 1].value.deleting ==> Leaves(c)
    ensures DeletingStays(charts + [c]) && GoneLast(charts + [c])
  {
    forall i | 0 <= i < |charts| && charts[i].Some? && charts[i].value.deleting ensures Leaves(c) {
      assert Leaves(charts[|charts| - 1]);
    }
  }

  lemma {:induction false} VersionHeld(s: State, fails: bool)
    requires Shaped(s) && HoldsVersion(s)
    ensures HoldsVersion(ProceedWorker(s, fails))
  {
  }

  lemma {:induction false} ChartsByUpdate(s: State, fails: bool)
    requires ChartsInv(s) && D.Updating(s.worker)
    ensures ChartsInv(ProceedWorker(s, fails))
  {
    if !fails && !Conflict(s, s.worker.rv) {
      ChartAdded(s.charts, ProceedWorker(s, fails).charts[|s.charts|]);
    }
  }

  lemma {:induction false} ChartsByWorker(s: State, fails: bool)
    requires ChartsInv(s)
    ensures ChartsInv(ProceedWorker(s, fails))
  {
    if D.Updating(s.worker) {
      ChartsByUpdate(s, fails);
    } else {
      VersionHeld(s, fails);
      assert ProceedWorker(s, fails).charts == s.charts && ProceedWorker(s, fails).chartSeen == s.chartSeen;
    }
  }

  lemma {:induction false} ChartsByUser(s: State, e: Event)
    requires ChartsInv(s) && Enabled(s, e) && (e.Edit? || e.Delete?)
    ensures ChartsInv(Apply(s, e))
  {
    assert s.charts[|s.charts| - 1].value.deleting ==> Leaves(s.charts[|s.charts| - 1]);
    ChartAdded(s.charts, Apply(s, e).charts[|s.charts|]);
  }

  lemma {:induction false} ChartsByOthers(s: State, e: Event)
    requires ChartsInv(s) && Enabled(s, e) && !e.Edit? && !e.Delete? && !e.Proceed?
    ensures ChartsInv(Apply(s, e))
  {
  }

  lemma {:induction false} ChartsKept(s: State, e: Event)
    requires ChartsInv(s) && Enabled(s, e)
    ensures ChartsInv(Apply(s, e))
  {
    match e
    case Proceed(fails) => ChartsByWorker(s, fails);
    case Edit => ChartsByUser(s, e);
    case Delete => ChartsByUser(s, e);
    case _ => ChartsByOthers(s, e);
  }

  /* ---------- what every run keeps about Jobs ---------- */

  /** A teardown Job stays, and stays finished. */
  predicate TeardownGrows(a: Jobs, b: Jobs) {
    a.teardown.Some? ==> b.teardown.Some? && (Finished(a.teardown.value) ==> Finished(b.teardown.value))
  }

  predicate TeardownsGrow(jobs: seq<Jobs>) {
    forall i, j | 0 <= i <= j < |jobs| :: TeardownGrows(jobs[i], jobs[j])
  }

  predicate Installed(j: Jobs) {
    j.install.Some? && j.install.value.phase == Complete
  }

  /** All that the cache will show of the Jobs up to now has the install Job complete. */
  predicate ShowsInstalled(s: State) {
    forall j | s.jobsSeen <= j < |s.jobs| :: Installed(s.jobs[j])
  }

  /** About to create the teardown Job, the worker has seen the install Job that is current, if any, complete. */
  predicate SawInstalled(s: State)
    requires Shaped(s)
  {
    s.worker.CreatingTeardown? && CurrentJobs(s).install.Some? ==> ShowsInstalled(s)
  }

  predicate JobsInv(s: State) {
    Shaped(s) && TeardownsGrow(s.jobs) && SawInstalled(s)
  }

  lemma {:induction false} JobsAdded(jobs: seq<Jobs>, j: Jobs)
    requires jobs != [] && TeardownsGrow(jobs) && TeardownGrows(jobs[|jobs| - 1], j)
    ensures TeardownsGrow(jobs + [j])
  {
    forall i | 0 <= i < |jobs| ensures TeardownGrows(jobs[i], j) {
      assert TeardownGrows(jobs[i], jobs[|jobs| - 1]);
    }
  }

  lemma {:induction false} InstalledSeen(s: State)
    requires CacheInv(s) && Installed(CachedJobs(s)) && CurrentJobs(s).install.Some?
    ensures ShowsInstalled(s)
  {
    forall j | s.jobsSeen <= j < |s.jobs| ensures Installed(s.jobs[j]) {
      assert Before(CachedJobs(s), s.jobs[j]) && Before(s.jobs[j], CurrentJobs(s));
    }
  }

  lemma {:induction false} JobsByWorker(s: State, fails: bool)
    requires CacheInv(s) && JobsInv(s)
    ensures JobsInv(ProceedWorker(s, fails))
  {
    var s' := ProceedWorker(s, fails);
    if s'.jobs != s.jobs {
      JobsAdded(s.jobs, s'.jobs[|s.jobs|]);
    }
    if s'.worker.CreatingTeardown? && CurrentJobs(s).install.Some? {
      InstalledSeen(s);
    }
  }

  lemma {:induction false} JobsByOthers(s: State, e: Event)
    requires JobsInv(s) && Enabled(s, e) && !e.Proceed?
    ensures JobsInv(Apply(s, e))
  {
    var s' := Apply(s, e);
    if s'.jobs != s.jobs {
      JobsAdded(s.jobs, s'.jobs[|s.jobs|]);
    }
  }

  ghost predicate Known(s: State) {
    CacheInv(s) && ChartsInv(s) && JobsInv(s)
  }

  lemma {:induction false} KnownKept(s: State, e: Event)
    requires Known(s) && Enabled(s, e)
    ensures Known(Apply(s, e))
  {
    CacheStepKept(s, e);
    ChartsKept(s, e);
    if e.Proceed? {
      JobsByWorker(s, e.fails);
    } else {
      JobsByOthers(s, e);
    }
  }

  lemma {:induction false} AlwaysKnown(states: seq<State>, events: seq<Event>, i: nat)
    requires IsRun(states, events) && i <= |events|
    ensures Known(states[i])
  {
    if i > 0 {
      AlwaysKnown(states, events, i - 1);
      KnownKept(states[i - 1], events[i - 1]);
    }
  }

  /* ---------- where the objects are safe ---------- */

  predicate Over(s: State)
    requires Shaped(s)
  {
    CurrentJobs(s).teardown.Some? && Finished(CurrentJobs(s).teardown.value)
  }

  /** Only deletion reconciles are to come, the install Job stays complete in every version they can read, and
      the clean-up has begun only if the teardown Job is over. */
  predicate Guarded(s: State) {
    && Shaped(s) && ShowsInstalled(s) && !CurrentJobs(s).install.value.terminating
    && (forall i | s.chartSeen <= i < |s.charts| :: Leaves(s.charts[i]))
    && (s.worker.Idle? || Deleting(s.worker))
    && CurrentJobs(s).teardown.Some? && TeardownsGrow(s.jobs)
    && (s.worker.Cleaning? || s.worker.RemovingFinalizer? ==> Over(s))
  }

  /** No reconcile is to come at all. */
  predicate Quiet(s: State) {
    && Shaped(s) && GoneLast(s.charts) && s.charts[s.chartSeen].None? && s.worker.Idle?
    && CurrentJobs(s).teardown.Some?
  }

  predicate Safe(s: State) {
    Powered(s) && (Guarded(s) || Quiet(s))
  }

  lemma {:induction false} GuardedByWorker(s: State, fails: bool)
    requires Guarded(s) && Powered(s) && !FailedCreation(s, Proceed(fails))
    ensures Guarded(ProceedWorker(s, fails)) && Powered(ProceedWorker(s, fails))
  {
    assert TeardownGrows(CachedJobs(s), CurrentJobs(s));
    assert Installed(CachedJobs(s));
  }

  lemma {:induction false} GuardedByOthers(s: State, e: Event)
    requires Guarded(s) && Powered(s) && Enabled(s, e) && !e.Proceed?
    ensures Guarded(Apply(s, e)) && Powered(Apply(s, e))
  {
    var s' := Apply(s, e);
    assert Installed(CurrentJobs(s));
    if s'.jobs != s.jobs {
      JobsAdded(s.jobs, s'.jobs[|s.jobs|]);
    }
  }

  lemma {:induction false} QuietKept(s: State, e: Event)
    requires Quiet(s) && Powered(s) && Enabled(s, e)
    ensures Quiet(Apply(s, e)) && Powered(Apply(s, e))
  {
  }

  lemma {:induction false} SafeKept(s: State, e: Event)
    requires Safe(s) && Enabled(s, e) && !FailedCreation(s, e)
    ensures Safe(Apply(s, e))
  {
    if Quiet(s) {
      QuietKept(s, e);
    } else if e.Proceed? {
      GuardedByWorker(s, e.fails);
    } else {
      GuardedByOthers(s, e);
    }
  }

  lemma {:induction false} StaysSafe(states: seq<State>, events: seq<Event>, k: nat)
    requires Steps(states, events) && Safe(states[0]) && NoFailedCreation(states, events) && k <= |events|
    ensures Safe(states[k])
  {
    if k > 0 {
      StaysSafe(states, events, k - 1);
      SafeKept(states[k - 1], events[k - 1]);
    }
  }

  lemma {:induction false} FirmIsSafe(s: State)
    requires Known(s) && Creates(s, Proceed(false)) && Firm(s)
    ensures Safe(ProceedWorker(s, false))
  {
    var s' := ProceedWorker(s, false);
    JobsByWorker(s, false);
    if s.charts[s.chartSeen].Some? {
      assert ShowsInstalled(s);
      forall i | s.chartSeen <= i < |s.charts| ensures Leaves(s.charts[i]) {
        assert s.charts[s.worker.rv].value.deleting;
      }
      assert Installed(CurrentJobs(s));
      assert Guarded(s');
    }
  }

  /* ---------- where they are not ---------- */

  /** The next reconcile reads the teardown Job before the cache shows it, and the install Job after the
      cache shows it gone: it takes the release for never installed. */
  lemma {:induction false} Misled(s: State) returns (states: seq<State>, events: seq<Event>)
    requires Shaped(s) && s.worker.Idle? && s.charts[s.chartSeen].Some? && Leaves(s.charts[s.chartSeen])
    requires CachedJobs(s).teardown.None? && CurrentJobs(s).teardown.Some? && !Over(s)
    requires CurrentJobs(s).install.Some? ==> CurrentJobs(s).install.value.terminating
    ensures Steps(states, events) && states[0] == s && NoFailedCreation(states, events) && !Powered(states[|events|])
  {
    var s1 := BeginReconcile(s);
    var s2 := ProceedWorker(s1, false);
    assert s2 == s.(worker := CheckingInstall(s.chartSeen, s.charts[s.chartSeen].value));
    states, events := [s, s1, s2], [Begin, Proceed(false)];
    var s3 := s2;
    if CurrentJobs(s).install.Some? {
      s3 := Apply(s2, InstallVanishes);
      states, events := states + [s3], events + [InstallVanishes];
    }
    var states', events' := CleansUp(s3);
    states, events := Appended(states, events, states', events');
  }

  lemma {:induction false} CleansUp(s: State) returns (states: seq<State>, events: seq<Event>)
    requires Shaped(s) && s.worker.CheckingInstall? && CurrentJobs(s).install.None?
    requires CurrentJobs(s).teardown.Some? && !Over(s)
    ensures Steps(states, events) && states[0] == s && NoFailedCreation(states, events) && !Powered(states[|events|])
  {
    var rv, c := s.worker.rv, s.worker.chart;
    var s1 := s.(jobsSeen := |s.jobs| - 1);
    var s2 := s1.(worker := Cleaning(rv, c));
    var s3 := s2.(rbac := false, worker := RemovingFinalizer(rv, c));
    states, events := [s, s1, s2, s3], [JobsCacheReaches(|s.jobs| - 1), Proceed(false), Proceed(false)];
  }

  lemma {:induction false} Appended(states: seq<State>, events: seq<Event>, states': seq<State>, events': seq<Event>)
    returns (all: seq<State>, done: seq<Event>)
    requires Steps(states, events) && Steps(states', events') && states'[0] == states[|events|]
    requires NoFailedCreation(states, events) && NoFailedCreation(states', events')
    ensures Steps(all, done) && NoFailedCreation(all, done) && all[0] == states[0] && all[|done|] == states'[|events'|]
  {
    all, done := states + states'[1..], events + events';
    forall k | 0 <= k < |done|
      ensures Enabled(all[k], done[k]) && all[k + 1] == Apply(all[k], done[k]) && !FailedCreation(all[k], done[k])
    {
      if k < |events| {
        assert all[k] == states[k] && all[k + 1] == states[k + 1];
      } else {
        assert all[k] == states'[k - |events|] && all[k + 1] == states'[k - |events| + 1];
      }
    }
  }

  lemma {:induction false} NotFirmIsNotSafe(s: State)
    requires Known(s) && Creates(s, Proceed(false)) && !Firm(s)
    ensures !KeepsRBAC(ProceedWorker(s, false))
  {
    var s' := ProceedWorker(s, false);
    if !s.rbac {
      var states, events := [s'], [];
      assert Steps(states, events) && NoFailedCreation(states, events) && !Powered(states[|events|]);
    } else {
      assert Leaves(s.charts[s.chartSeen]);
      assert TeardownGrows(CachedJobs(s), CurrentJobs(s));
      var states, events := Misled(s');
    }
  }

  /* ---------- exactly ---------- */

  /** In every run, a teardown Job that is created keeps its RBAC objects while it runs, in all continuations
      in which no creation of a teardown Job fails, if and only if it is created while they are there and
      the install Job is neither gone nor being deleted, or with the chart already seen gone. */
  lemma {:induction false} TeardownKeepsRBACExactly(states: seq<State>, events: seq<Event>, i: nat)
    requires IsRun(states, events) && i < |events| && Creates(states[i], events[i])
    ensures KeepsRBAC(states[i + 1]) <==> Firm(states[i])
  {
    AlwaysKnown(states, events, i);
    var s := states[i];
    if Firm(s) {
      FirmIsSafe(s);
      forall after: seq<State>, more: seq<Event> |
        Steps(after, more) && after[0] == states[i + 1] && NoFailedCreation(after, more)
        ensures Powered(after[|more|])
      {
        StaysSafe(after, more, |more|);
      }
    } else {
      NotFirmIsNotSafe(s);
    }
  }

  /** Hence over every run in which teardown Jobs are created in such states only and without failure. */
  lemma {:induction false} AlwaysPowered(states: seq<State>, events: seq<Event>, i: nat)
    requires IsRun(states, events) && i <= |events| && NoFailedCreation(states, events)
    requires forall k | 0 <= k < |events| && Creates(states[k], events[k]) :: Firm(states[k])
    ensures Powered(states[i]) && (Safe(states[i]) || CurrentJobs(states[i]).teardown.None?)
  {
    if i > 0 {
      AlwaysPowered(states, events, i - 1);
      AlwaysKnown(states, events, i - 1);
      var s, e := states[i - 1], events[i - 1];
      if Safe(s) {
        SafeKept(s, e);
      } else if Creates(s, e) {
        FirmIsSafe(s);
      } else {
        NotCreated(s, e);
      }
    }
  }

  lemma {:induction false} NotCreated(s: State, e: Event)
    requires Enabled(s, e) && CurrentJobs(s).teardown.None? && !Creates(s, e)
    ensures Shaped(Apply(s, e)) && CurrentJobs(Apply(s, e)).teardown.None?
  {
  }

  /* ---------- it happens ---------- */

  const BARE := Chart(0, false, false, None)
  const HELD := Chart(0, false, true, None)
  const EDITED := Chart(1, false, true, None)
  const LEFT := Chart(1, true, true, None)
  const COMPLETE := Job(0, Complete, false)

  /** A chart is installed. */
  lemma {:induction false} FirstInstall() returns (states: seq<State>, events: seq<Event>)
    ensures Steps(states, events) && NoFailedCreation(states, events) && states[0] == Init(0)
    ensures states[|events|] ==
      State([Some(BARE), Some(HELD)], 1, [Jobs(0, None, None), Jobs(1, Some(Job(0, Running, false)), None)], 0, true, Idle, {})
  {
    var none := [Jobs(0, None, None)];
    var s2 := State([Some(BARE), Some(HELD)], 0, none, 0, false, Idle, {});
    var s3 := s2.(chartSeen := 1);
    var s5 := s3.(rbac := true, worker := GettingJob(1, HELD));
    states := [Init(0), Init(0).(worker := AddingFinalizer(0, BARE)), s2, s3, s3.(worker := EnsuringRBAC(1, HELD)), s5,
               s5.(worker := Creating(HELD)),
               s5.(jobs := none + [Jobs(1, Some(Job(0, Running, false)), None)], worker := Idle)];
    events := [Begin, Proceed(false), ChartCacheReaches(1), Begin, Proceed(false), Proceed(false), Proceed(false)];
  }

  function Edited(jobs: seq<Jobs>, jobsSeen: nat): State {
    State([Some(BARE), Some(HELD), Some(EDITED)], 2, jobs, jobsSeen, true, Idle, {0})
  }

  /** It is edited when the install Job is complete. */
  lemma {:induction false} EditedLater(s: State) returns (states: seq<State>, events: seq<Event>)
    requires s == State([Some(BARE), Some(HELD)], 1, [Jobs(0, None, None), Jobs(1, Some(Job(0, Running, false)), None)], 0, true, Idle, {})
    ensures Steps(states, events) && NoFailedCreation(states, events) && states[0] == s
    ensures states[|events|] == Edited(s.jobs + [Jobs(1, Some(COMPLETE), None)], 2)
  {
    var s1 := s.(jobs := s.jobs + [Jobs(1, Some(COMPLETE), None)], completed := {0});
    var s2 := s1.(jobsSeen := 2);
    var s3 := s2.(charts := s.charts + [Some(EDITED)]);
    states := [s, s1, s2, s3, s3.(chartSeen := 2)];
    events := [InstallFinishes(true), JobsCacheReaches(2), Edit, ChartCacheReaches(2)];
  }

  /** So this Job is stale and is deleted. */
  lemma {:induction false} StaleDeleted(s: State) returns (states: seq<State>, events: seq<Event>)
    requires |s.jobs| == 3 && s == Edited(s.jobs, 2) && s.jobs[2] == Jobs(1, Some(COMPLETE), None)
    ensures Steps(states, events) && NoFailedCreation(states, events) && states[0] == s
    ensures states[|events|] == Edited(s.jobs + [Jobs(1, Some(COMPLETE.(terminating := true)), None)], 2)
  {
    states := [s, s.(worker := EnsuringRBAC(2, EDITED)), s.(worker := GettingJob(2, EDITED)),
               s.(worker := DeletingStale(1, COMPLETE)),
               Edited(s.jobs + [Jobs(1, Some(COMPLETE.(terminating := true)), None)], 2)];
    events := [Begin, Proceed(false), Proceed(false), Proceed(false)];
  }

  /** It is deleted. */
  lemma {:induction false} DeletedNext(s: State) returns (states: seq<State>, events: seq<Event>)
    requires |s.jobs| == 4 && s == Edited(s.jobs, 2)
    ensures Steps(states, events) && NoFailedCreation(states, events) && states[0] == s
    ensures states[|events|] == s.(charts := s.charts + [Some(LEFT)], chartSeen := 3)
  {
    var s1 := s.(charts := s.charts + [Some(LEFT)]);
    states, events := [s, s1, s1.(chartSeen := 3)], [Delete, ChartCacheReaches(3)];
  }

  /** A teardown Job is created before the cache shows that the install Job is being deleted. */
  lemma {:induction false} TornDown(s: State) returns (states: seq<State>, events: seq<Event>)
    requires Shaped(s) && s.worker.Idle? && s.charts[s.chartSeen] == Some(LEFT)
    requires Installed(CachedJobs(s)) && CachedJobs(s).teardown.None? && CurrentJobs(s).teardown.None?
    ensures Steps(states, events) && NoFailedCreation(states, events) && states[0] == s
    ensures states[|events|] == s.(jobs := s.jobs + [CurrentJobs(s).(teardown := Some(Job(1, Running, false)))])
  {
    states := [s, s.(worker := GettingTeardown(s.chartSeen, LEFT)), s.(worker := CheckingInstall(s.chartSeen, LEFT)),
               s.(worker := CreatingTeardown(s.chartSeen, LEFT)),
               s.(jobs := s.jobs + [CurrentJobs(s).(teardown := Some(Job(1, Running, false)))])];
    events := [Begin, Proceed(false), Proceed(false), Proceed(false)];
  }

  /** There is a run without a failing creation in which a running teardown Job loses its RBAC objects. */
  lemma {:induction false} TeardownLosesRBAC() returns (states: seq<State>, events: seq<Event>)
    ensures IsRun(states, events) && NoFailedCreation(states, events) && !Powered(states[|events|])
  {
    states, events := FirstInstall();
    var states', events' := EditedLater(states[|events|]);
    states, events := Appended(states, events, states', events');
    states', events' := StaleDeleted(states[|events|]);
    states, events := Appended(states, events, states', events');
    states', events' := DeletedNext(states[|events|]);
    states, events := Appended(states, events, states', events');
    states', events' := TornDown(states[|events|]);
    states, events := Appended(states, events, states', events');
    states', events' := Misled(states[|events|]);
    states, events := Appended(states, events, states', events');
  }
}
