/** The HelmChart controller (internal/controller/clusteragent/helmchart_controller.go) as a machine over
    an API store: one worker whose API calls may fail, informer caches that lag but never go backwards,
    a user who edits and deletes, and Jobs that finish. */
module HelmChart {
  import opened Options

  datatype Phase = Running | Complete | Failed

  /** An install or teardown Job: the generation label it was created with, how far it got, and whether
      its deletion is under way. */
  datatype Job = Job(forGen: nat, phase: Phase, terminating: bool)

  predicate Finished(j: Job) {
    j.phase != Running
  }

  /** The Ready condition: its status and the generation it was observed for. */
  datatype Ready = Ready(ok: bool, gen: nat)

  datatype Chart = Chart(gen: nat, deleting: bool, finalizer: bool, ready: Option<Ready>)

  /** The Jobs of the chart. `epoch` counts the install Jobs created so far, so it names the current one;
      both Jobs come from one watch and are seen in one order. */
  datatype Jobs = Jobs(epoch: nat, install: Option<Job>, teardown: Option<Job>)

  /** The worker between two API calls of a reconcile, with the object versions it read. */
  datatype Worker =
    | Idle
    | AddingFinalizer(rv: nat, chart: Chart)
    | EnsuringRBAC(rv: nat, chart: Chart)
    | GettingJob(rv: nat, chart: Chart)
    | Creating(chart: Chart)
    | DeletingStale(epoch: nat, job: Job)
    | UpdatingStatus(rv: nat, chart: Chart, ready: Ready)
    | GettingTeardown(rv: nat, chart: Chart)
    | CheckingInstall(rv: nat, chart: Chart)
    | CreatingTeardown(rv: nat, chart: Chart)
    | Cleaning(rv: nat, chart: Chart)
    | RemovingFinalizer(rv: nat, chart: Chart)

  /** Every version the API server ever held, oldest first; the last one is current, and the caches show
      the one they have reached. A version's position is its resource version. `completed` collects the
      labels of install Jobs that reached Complete. */
  datatype State = State(
    charts: seq<Option<Chart>>,
    chartSeen: nat,
    jobs: seq<Jobs>,
    jobsSeen: nat,
    rbac: bool,
    worker: Worker,
    completed: set<nat>)

  predicate Shaped(s: State) {
    s.chartSeen < |s.charts| && s.jobsSeen < |s.jobs|
  }

  function CurrentChart(s: State): Option<Chart>
    requires Shaped(s)
  {
    s.charts[|s.charts| - 1]
  }

  function CurrentJobs(s: State): Jobs
    requires Shaped(s)
  {
    s.jobs[|s.jobs| - 1]
  }

  function CachedJobs(s: State): Jobs
    requires Shaped(s)
  {
    s.jobs[s.jobsSeen]
  }

  function Init(gen: nat): State {
    State([Some(Chart(gen, false, false, None))], 0, [Jobs(0, None, None)], 0, false, Idle, {})
  }

  datatype Event =
    | Begin
    | Proceed(fails: bool)
    | Edit
    | Delete
    | InstallFinishes(ok: bool)
    | InstallVanishes
    | TeardownFinishes(ok: bool)
    | ChartCacheReaches(to: nat)
    | JobsCacheReaches(to: nat)

  /* ---------- the controller ---------- */

  function WriteChart(s: State, c: Option<Chart>): State {
    s.(charts := s.charts + [c], worker := Idle)
  }

  function WriteJobs(s: State, j: Jobs): State {
    s.(jobs := s.jobs + [j])
  }

  /** An Update or a status Update is refused unless it was made from the current version. */
  predicate Conflict(s: State, rv: nat) {
    rv != |s.charts| - 1
  }

  function GoIdle(s: State): State {
    s.(worker := Idle)
  }

  /** Reconcile's first read, from the cache. */
  function BeginReconcile(s: State): State
    requires Shaped(s)
  {
    match s.charts[s.chartSeen]
    case None => GoIdle(s)
    case Some(c) =>
      var rv := s.chartSeen;
      if c.deleting then
        if c.finalizer then s.(worker := GettingTeardown(rv, c)) else GoIdle(s)
      else if !c.finalizer then s.(worker := AddingFinalizer(rv, c))
      else s.(worker := EnsuringRBAC(rv, c))
  }

  /** What the install Job read from the cache calls for. */
  function AfterGetJob(s: State, rv: nat, c: Chart): State
    requires Shaped(s)
  {
    var seen := CachedJobs(s);
    match seen.install
    case None => s.(worker := Creating(c))
    case Some(j) =>
      if j.forGen != c.gen then
        if Finished(j) then s.(worker := DeletingStale(seen.epoch, j)) else GoIdle(s)
      else if !Finished(j) then GoIdle(s)
      else
        var ready := Ready(j.phase == Complete, c.gen);
        if c.ready == Some(ready) then GoIdle(s) else s.(worker := UpdatingStatus(rv, c, ready))
  }

  /** The stale Job is deleted by name: whatever install Job is current starts terminating. */
  function DeleteInstall(s: State): State
    requires Shaped(s)
  {
    var cur := CurrentJobs(s);
    if cur.install.None? || cur.install.value.terminating then GoIdle(s)
    else WriteJobs(GoIdle(s), cur.(install := Some(cur.install.value.(terminating := true))))
  }

  function CreateInstall(s: State, gen: nat): State
    requires Shaped(s)
  {
    var cur := CurrentJobs(s);
    if cur.install.Some? then GoIdle(s)
    else WriteJobs(GoIdle(s), Jobs(cur.epoch + 1, Some(Job(gen, Running, false)), cur.teardown))
  }

  function AfterGetTeardown(s: State, rv: nat, c: Chart): State
    requires Shaped(s)
  {
    match CachedJobs(s).teardown
    case None => s.(worker := CheckingInstall(rv, c))
    case Some(t) => if Finished(t) then s.(worker := Cleaning(rv, c)) else GoIdle(s)
  }

  /** The next API call of the worker. `fails` is an API error other than the ones the controller treats
      as success. */
  function ProceedWorker(s: State, fails: bool): State
    requires Shaped(s)
  {
    match s.worker
    case Idle => s
    case AddingFinalizer(rv, c) =>
      if fails || Conflict(s, rv) then GoIdle(s) else WriteChart(s, Some(c.(finalizer := true)))
    case EnsuringRBAC(rv, c) =>
      if fails then GoIdle(s) else s.(rbac := true, worker := GettingJob(rv, c))
    case GettingJob(rv, c) =>
      if fails then GoIdle(s) else AfterGetJob(s, rv, c)
    case Creating(c) =>
      if fails then GoIdle(s) else CreateInstall(s, c.gen)
    case DeletingStale(_, _) =>
      if fails then GoIdle(s) else DeleteInstall(s)
    case UpdatingStatus(rv, c, ready) =>
      if fails || Conflict(s, rv) then GoIdle(s) else WriteChart(s, Some(c.(ready := Some(ready))))
    case GettingTeardown(rv, c) =>
      if fails then GoIdle(s) else AfterGetTeardown(s, rv, c)
    case CheckingInstall(rv, c) =>
      if fails then GoIdle(s)
      else
        var j := CachedJobs(s).install;
        if j.Some? && j.value.phase == Complete then s.(worker := CreatingTeardown(rv, c))
        else s.(worker := Cleaning(rv, c))
    case CreatingTeardown(rv, c) =>
      if fails then s.(worker := Cleaning(rv, c))
      else
        var cur := CurrentJobs(s);
        if cur.teardown.Some? then GoIdle(s)
        else WriteJobs(GoIdle(s), cur.(teardown := Some(Job(c.gen, Running, false))))
    case Cleaning(rv, c) =>
      s.(rbac := s.rbac && fails, worker := RemovingFinalizer(rv, c))
    case RemovingFinalizer(rv, c) =>
      if fails || Conflict(s, rv) then GoIdle(s) else WriteChart(s, None)
  }

  /* ---------- the surroundings ---------- */

  predicate Enabled(s: State, e: Event) {
    Shaped(s) &&
    match e
    case Begin => s.worker.Idle?
    case Proceed(_) => !s.worker.Idle?
    case Edit => CurrentChart(s).Some?
    case Delete => CurrentChart(s).Some? && !CurrentChart(s).value.deleting
    case InstallFinishes(_) => CurrentJobs(s).install.Some? && !Finished(CurrentJobs(s).install.value)
    case InstallVanishes => CurrentJobs(s).install.Some? && CurrentJobs(s).install.value.terminating
    case TeardownFinishes(_) => CurrentJobs(s).teardown.Some? && !Finished(CurrentJobs(s).teardown.value)
    case ChartCacheReaches(to) => s.chartSeen <= to < |s.charts|
    case JobsCacheReaches(to) => s.jobsSeen <= to < |s.jobs|
  }

  function Outcome(ok: bool): Phase {
    if ok then Complete else Failed
  }

  function Apply(s: State, e: Event): State
    requires Enabled(s, e)
  {
    match e
    case Begin => BeginReconcile(s)
    case Proceed(fails) => ProceedWorker(s, fails)
    case Edit =>
      var c := CurrentChart(s).value;
      s.(charts := s.charts + [Some(c.(gen := c.gen + 1))])
    case Delete =>
      var c := CurrentChart(s).value;
      s.(charts := s.charts + [if c.finalizer then Some(c.(deleting := true)) else None])
    case InstallFinishes(ok) =>
      var cur := CurrentJobs(s);
      WriteJobs(s, cur.(install := Some(cur.install.value.(phase := Outcome(ok))))).(
        completed := if ok then s.completed + {cur.install.value.forGen} else s.completed)
    case InstallVanishes => WriteJobs(s, CurrentJobs(s).(install := None))
    case TeardownFinishes(ok) =>
      var cur := CurrentJobs(s);
      WriteJobs(s, cur.(teardown := Some(cur.teardown.value.(phase := Outcome(ok)))))
    case ChartCacheReaches(to) => s.(chartSeen := to)
    case JobsCacheReaches(to) => s.(jobsSeen := to)
  }

  /* ---------- invariants ---------- */

  /** How one install Job can change within its epoch. */
  predicate JobGrows(a: Option<Job>, b: Option<Job>) {
    b.Some? ==>
      && a.Some? && b.value.forGen == a.value.forGen
      && (Finished(a.value) ==> b.value.phase == a.value.phase)
      && (a.value.terminating ==> b.value.terminating)
  }

  predicate Before(a: Jobs, b: Jobs) {
    a.epoch < b.epoch || (a.epoch == b.epoch && JobGrows(a.install, b.install))
  }

  /** The cache is in the epoch of the store; or it is one behind, has seen the previous Job gone, and
      nothing has asked to delete the new one yet. */
  predicate CacheClose(seen: Jobs, cur: Jobs) {
    || seen.epoch == cur.epoch
    || (seen.epoch + 1 == cur.epoch && seen.install.None? && cur.install.Some? && !cur.install.value.terminating)
  }

  /** What the worker remembers agrees with what the cache still shows. */
  predicate WorkerKnows(s: State)
    requires Shaped(s)
  {
    match s.worker
    case Creating(_) =>
      || CachedJobs(s).install.None?
      || (CurrentJobs(s).install.Some? && !CurrentJobs(s).install.value.terminating)
    case DeletingStale(epoch, j) =>
      && Finished(j) && CachedJobs(s).epoch == CurrentJobs(s).epoch == epoch
      && JobGrows(Some(j), CurrentJobs(s).install)
    case _ => true
  }

  ghost predicate Ordered(jobs: seq<Jobs>) {
    forall i, j | 0 <= i <= j < |jobs| :: Before(jobs[i], jobs[j])
  }

  /** The part of the invariant about Jobs and caches. */
  ghost predicate CacheInv(s: State) {
    Shaped(s) && Ordered(s.jobs) && CacheClose(CachedJobs(s), CurrentJobs(s)) && WorkerKnows(s)
  }

  /** Labels of Complete Jobs, and of Ready=True conditions written or about to be, are in `completed`. */
  ghost predicate ReadySound(s: State) {
    && (forall i | 0 <= i < |s.jobs| && s.jobs[i].install.Some? && s.jobs[i].install.value.phase == Complete ::
          s.jobs[i].install.value.forGen in s.completed)
    && (forall i | 0 <= i < |s.charts| && s.charts[i].Some? && s.charts[i].value.ready.Some? ::
          s.charts[i].value.ready.value.ok ==> s.charts[i].value.ready.value.gen in s.completed)
    && ReadyHeld(s)
  }

  /** The same for the copies the worker holds. */
  predicate ReadyHeld(s: State) {
    match s.worker
    case Idle => true
    case Creating(_) => true
    case DeletingStale(_, _) => true
    case UpdatingStatus(_, _, ready) => ready.ok ==> ready.gen in s.completed
    case _ => s.worker.chart.ready.Some? && s.worker.chart.ready.value.ok ==> s.worker.chart.ready.value.gen in s.completed
  }

  /* ---------- each step keeps the cache invariant ---------- */

  lemma OrderedAppend(jobs: seq<Jobs>, j: Jobs)
    requires jobs != [] && Ordered(jobs) && Before(jobs[|jobs| - 1], j)
    ensures Ordered(jobs + [j])
  {
    forall i | 0 <= i < |jobs| ensures Before(jobs[i], j) {
      assert Before(jobs[i], jobs[|jobs| - 1]);
    }
  }

  lemma CacheReachKept(s: State, to: nat)
    requires CacheInv(s) && Enabled(s, JobsCacheReaches(to))
    ensures CacheInv(Apply(s, JobsCacheReaches(to)))
  {
    assert Before(CachedJobs(s), s.jobs[to]) && Before(s.jobs[to], CurrentJobs(s));
  }

  lemma CreateKept(s: State, gen: nat)
    requires CacheInv(s) && s.worker.Creating?
    ensures CacheInv(CreateInstall(s, gen))
  {
    var cur := CurrentJobs(s);
    if cur.install.None? {
      OrderedAppend(s.jobs, Jobs(cur.epoch + 1, Some(Job(gen, Running, false)), cur.teardown));
    }
  }

  lemma DeleteKept(s: State)
    requires CacheInv(s) && s.worker.DeletingStale?
    ensures CacheInv(DeleteInstall(s))
  {
    var cur := CurrentJobs(s);
    if cur.install.Some? && !cur.install.value.terminating {
      OrderedAppend(s.jobs, cur.(install := Some(cur.install.value.(terminating := true))));
    }
  }

  lemma GetJobKept(s: State, rv: nat, c: Chart)
    requires CacheInv(s)
    ensures CacheInv(AfterGetJob(s, rv, c))
  {
    assert Before(CachedJobs(s), CurrentJobs(s));
  }

  lemma TeardownKept(s: State, c: Chart)
    requires CacheInv(s)
    ensures
      var cur := CurrentJobs(s);
      CacheInv(WriteJobs(GoIdle(s), cur.(teardown := Some(Job(c.gen, Running, false)))))
  {
    OrderedAppend(s.jobs, CurrentJobs(s).(teardown := Some(Job(c.gen, Running, false))));
  }

  /** Steps that leave the Jobs and their cache alone, and end at a worker that need not remember any. */
  lemma SameJobsKept(s: State, s': State)
    requires CacheInv(s) && s'.jobs == s.jobs && s'.jobsSeen == s.jobsSeen && s'.chartSeen < |s'.charts|
    requires !s'.worker.Creating? && !s'.worker.DeletingStale?
    ensures CacheInv(s')
  {
  }

  lemma ProceedKept(s: State, fails: bool)
    requires CacheInv(s)
    ensures CacheInv(ProceedWorker(s, fails))
  {
    if s.worker.GettingJob? && !fails {
      GetJobKept(s, s.worker.rv, s.worker.chart);
    } else if s.worker.Creating? && !fails {
      CreateKept(s, s.worker.chart.gen);
    } else if s.worker.DeletingStale? && !fails {
      DeleteKept(s);
    } else if s.worker.CreatingTeardown? && !fails && CurrentJobs(s).teardown.None? {
      TeardownKept(s, s.worker.chart);
    } else {
      SameJobsKept(s, ProceedWorker(s, fails));
    }
  }

  lemma CacheStepKept(s: State, e: Event)
    requires CacheInv(s) && Enabled(s, e)
    ensures CacheInv(Apply(s, e))
  {
    match e
    case Proceed(fails) => ProceedKept(s, fails);
    case JobsCacheReaches(to) => CacheReachKept(s, to);
    case InstallFinishes(ok) =>
      var cur := CurrentJobs(s);
      OrderedAppend(s.jobs, cur.(install := Some(cur.install.value.(phase := Outcome(ok)))));
    case InstallVanishes =>
      OrderedAppend(s.jobs, CurrentJobs(s).(install := None));
    case TeardownFinishes(ok) =>
      var cur := CurrentJobs(s);
      OrderedAppend(s.jobs, cur.(teardown := Some(cur.teardown.value.(phase := Outcome(ok)))));
    case _ =>
  }

  /* ---------- only finished Jobs are deleted ---------- */

  predicate DeletedFinished(jobs: seq<Jobs>) {
    forall i | 0 <= i < |jobs| && jobs[i].install.Some? && jobs[i].install.value.terminating :: Finished(jobs[i].install.value)
  }

  lemma DeletedStepKept(s: State, e: Event)
    requires CacheInv(s) && DeletedFinished(s.jobs) && Enabled(s, e)
    ensures DeletedFinished(Apply(s, e).jobs)
  {
    var s' := Apply(s, e);
    if s'.jobs != s.jobs {
      assert s'.jobs[..|s.jobs|] == s.jobs && |s'.jobs| == |s.jobs| + 1;
      assert CurrentJobs(s).install.Some? && CurrentJobs(s).install.value.terminating ==> Finished(CurrentJobs(s).install.value);
    }
  }

  /* ---------- Ready conditions are sound ---------- */

  lemma ReadyGetKept(s: State, rv: nat, c: Chart)
    requires Shaped(s) && ReadySound(s) && s.worker == GettingJob(rv, c)
    ensures ReadySound(AfterGetJob(s, rv, c))
  {
    assert CachedJobs(s).install.Some? && CachedJobs(s).install.value.phase == Complete ==>
      CachedJobs(s).install.value.forGen in s.completed;
  }

  /** Calls that only move the worker on. */
  lemma ReadyMoveKept(s: State, fails: bool)
    requires Shaped(s) && ReadySound(s) && !s.worker.GettingJob?
    requires ProceedWorker(s, fails).charts == s.charts && ProceedWorker(s, fails).jobs == s.jobs
    ensures ReadySound(ProceedWorker(s, fails))
  {
  }

  lemma ReadyProceedKept(s: State, fails: bool)
    requires Shaped(s) && ReadySound(s)
    ensures ReadySound(ProceedWorker(s, fails))
  {
    var s' := ProceedWorker(s, fails);
    if s.worker.GettingJob? && !fails {
      ReadyGetKept(s, s.worker.rv, s.worker.chart);
    } else if s.worker.GettingJob? {
      assert s' == GoIdle(s);
    } else if s'.charts == s.charts && s'.jobs == s.jobs {
      ReadyMoveKept(s, fails);
    }
  }

  lemma ReadyStepKept(s: State, e: Event)
    requires CacheInv(s) && ReadySound(s) && Enabled(s, e)
    ensures ReadySound(Apply(s, e))
  {
    if e.Proceed? {
      ReadyProceedKept(s, e.fails);
    }
  }

  /* ---------- whole runs ---------- */

  ghost predicate Inv(s: State) {
    CacheInv(s) && DeletedFinished(s.jobs) && ReadySound(s)
  }

  ghost predicate IsRun(states: seq<State>, events: seq<Event>) {
    && |states| == |events| + 1 && (exists gen :: states[0] == Init(gen))
    && forall i | 0 <= i < |events| :: Enabled(states[i], events[i]) && states[i + 1] == Apply(states[i], events[i])
  }

  lemma {:induction false} RunKept(states: seq<State>, events: seq<Event>, i: nat)
    requires IsRun(states, events) && i <= |events|
    ensures Inv(states[i])
  {
    if i > 0 {
      RunKept(states, events, i - 1);
      CacheStepKept(states[i - 1], events[i - 1]);
      DeletedStepKept(states[i - 1], events[i - 1]);
      ReadyStepKept(states[i - 1], events[i - 1]);
    }
  }

  /** When the stale-job delete is sent, the Job that is current under that name is the very one that was
      read, and it has finished, although the delete names no UID and the cache may lag. */
  lemma StaleDeleteHitsWhatItRead(states: seq<State>, events: seq<Event>, i: nat)
    requires IsRun(states, events) && i <= |events| && states[i].worker.DeletingStale?
    ensures
      var s := states[i];
      && Shaped(s) && CurrentJobs(s).epoch == s.worker.epoch
      && (CurrentJobs(s).install.Some? ==>
            Finished(CurrentJobs(s).install.value) && CurrentJobs(s).install.value.phase == s.worker.job.phase)
  {
    RunKept(states, events, i);
  }

  /** No running install Job is ever deleted. */
  lemma NoRunningJobDeleted(states: seq<State>, events: seq<Event>, i: nat)
    requires IsRun(states, events) && i <= |events|
    requires Shaped(states[i]) && CurrentJobs(states[i]).install.Some?
    requires CurrentJobs(states[i]).install.value.terminating
    ensures Finished(CurrentJobs(states[i]).install.value)
  {
    RunKept(states, events, i);
  }

  /** The install Job labelled g completes. */
  predicate CompletedAt(s: State, e: Event, g: nat) {
    && Shaped(s) && e == InstallFinishes(true)
    && CurrentJobs(s).install.Some? && CurrentJobs(s).install.value.forGen == g
  }

  lemma {:induction false} CompletedStep(s: State, e: Event, g: nat)
    requires Enabled(s, e) && g in Apply(s, e).completed
    ensures g in s.completed || CompletedAt(s, e, g)
  {
  }

  lemma {:induction false} CompletedGrows(states: seq<State>, events: seq<Event>, i: nat, g: nat)
    requires IsRun(states, events) && i <= |events| && g in states[i].completed
    ensures exists k :: 0 <= k < i && CompletedAt(states[k], events[k], g)
  {
    if i > 0 {
      CompletedStep(states[i - 1], events[i - 1], g);
      if g in states[i - 1].completed {
        CompletedGrows(states, events, i - 1, g);
      }
    }
  }

  /** A Ready=True condition for generation g, in any version ever stored, means that an install Job
      labelled g has completed before. */
  lemma ReadyMeansCompleted(states: seq<State>, events: seq<Event>, i: nat, v: nat, g: nat)
    requires IsRun(states, events) && i <= |events| && v < |states[i].charts| && states[i].charts[v].Some?
    requires states[i].charts[v].value.ready == Some(Ready(true, g))
    ensures exists k :: 0 <= k < i && CompletedAt(states[k], events[k], g)
  {
    RunKept(states, events, i);
    CompletedGrows(states, events, i, g);
  }
}
