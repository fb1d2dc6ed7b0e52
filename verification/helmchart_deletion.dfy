/** Deletion of a HelmChart: what a reconcile of a chart that is being deleted does with the chart, its RBAC
    objects and its Jobs, and that the chart goes in the end. */
module HelmChartDeletion {
  import opened Options
  import opened HelmChart
  import opened HelmChartConvergence

  /** Between reconciles, with a chart that is being deleted and still has its finalizer, or is gone. */
  predicate Leaving(s: State) {
    && Shaped(s) && s.worker.Idle?
    && (CurrentChart(s).Some? ==> CurrentChart(s).value.deleting && CurrentChart(s).value.finalizer)
  }

  predicate Gone(s: State)
    requires Shaped(s)
  {
    CurrentChart(s).None?
  }

  /** The caches catch up, and one reconcile runs without failing calls. */
  function FreshDeletion(s: State): State
    requires Leaving(s)
  {
    Finish(BeginReconcile(CaughtUp(s)), 5)
  }

  /** What there is to do about the release, from the Jobs alone. */
  datatype Uninstall = NotNeeded | Needed | Under | Over

  function Stage(j: Jobs): Uninstall {
    if j.teardown.Some? then (if Finished(j.teardown.value) then Over else Under)
    else if j.install.Some? && j.install.value.phase == Complete then Needed
    else NotNeeded
  }

  /** Nothing is written. */
  predicate Untouched(s: State, t: State) {
    t.charts == s.charts && t.jobs == s.jobs && t.rbac == s.rbac
  }

  /** The chart is let go, without its RBAC objects, and the Jobs are left alone. */
  predicate LetGo(s: State, t: State)
    requires Shaped(t)
  {
    Gone(t) && !t.rbac && t.jobs == s.jobs
  }

  /** A teardown Job is started, and everything else stays as it is. */
  predicate TeardownStarted(s: State, t: State)
    requires Shaped(s) && Shaped(t) && CurrentChart(s).Some?
  {
    && t.charts == s.charts && t.rbac == s.rbac
    && CurrentJobs(t) == CurrentJobs(s).(teardown := Some(Job(CurrentChart(s).value.gen, Running, false)))
  }

  lemma {:induction false} FinishOnce(a: State, b: State, n: nat)
    requires Shaped(a) && Shaped(b) && !a.worker.Idle? && n > 0 && b == ProceedWorker(a, false)
    ensures Finish(a, n) == Finish(b, n - 1)
  {
  }

  function AtTeardown(s: State): State
    requires Leaving(s) && !Gone(s)
  {
    CaughtUp(s).(worker := GettingTeardown(|s.charts| - 1, CurrentChart(s).value))
  }

  lemma {:induction false} TeardownRead(s: State)
    requires Leaving(s) && !Gone(s)
    ensures
      var u := AtTeardown(s);
      FreshDeletion(s) == Finish(AfterGetTeardown(u, u.worker.rv, u.worker.chart), 4)
  {
    var u := AtTeardown(s);
    assert BeginReconcile(CaughtUp(s)) == u;
    FinishOnce(u, AfterGetTeardown(u, u.worker.rv, u.worker.chart), 5);
  }

  /** From the clean-up on, the reconcile lets the chart go. */
  lemma {:induction false} CleaningLetsGo(u: State, n: nat)
    requires Shaped(u) && u.worker.Cleaning? && u.worker.rv == |u.charts| - 1 && n >= 2
    ensures Shaped(Finish(u, n)) && Finish(u, n).worker.Idle? && LetGo(u, Finish(u, n))
  {
    var a := ProceedWorker(u, false);
    assert a == u.(rbac := false, worker := RemovingFinalizer(u.worker.rv, u.worker.chart));
    var b := ProceedWorker(a, false);
    assert Finish(u, n) == Finish(a, n - 1) == Finish(b, n - 2) == b;
  }

  lemma {:induction false} TeardownThere(s: State)
    requires Leaving(s) && !Gone(s) && CurrentJobs(s).teardown.Some?
    ensures Leaving(FreshDeletion(s))
    ensures if Finished(CurrentJobs(s).teardown.value) then LetGo(s, FreshDeletion(s)) else Untouched(s, FreshDeletion(s))
  {
    var u := AtTeardown(s);
    TeardownRead(s);
    var v := AfterGetTeardown(u, u.worker.rv, u.worker.chart);
    if Finished(CurrentJobs(s).teardown.value) {
      CleaningLetsGo(v, 4);
    } else {
      assert Finish(v, 4) == v;
    }
  }

  /** The worker after the read of the install Job. */
  function AfterInstallRead(s: State): State
    requires Leaving(s) && !Gone(s)
  {
    var rv, c := |s.charts| - 1, CurrentChart(s).value;
    CaughtUp(s).(worker := if Stage(CurrentJobs(s)) == Needed then CreatingTeardown(rv, c) else Cleaning(rv, c))
  }

  lemma {:induction false} InstallCheck(s: State)
    requires Leaving(s) && !Gone(s) && CurrentJobs(s).teardown.None?
    ensures
      var u := AtTeardown(s);
      var a := AfterGetTeardown(u, u.worker.rv, u.worker.chart);
      a == CaughtUp(s).(worker := CheckingInstall(u.worker.rv, u.worker.chart)) && ProceedWorker(a, false) == AfterInstallRead(s)
  {
  }

  lemma {:induction false} InstallRead(s: State)
    requires Leaving(s) && !Gone(s) && CurrentJobs(s).teardown.None?
    ensures FreshDeletion(s) == Finish(AfterInstallRead(s), 3)
  {
    var u := AtTeardown(s);
    TeardownRead(s);
    InstallCheck(s);
    FinishOnce(AfterGetTeardown(u, u.worker.rv, u.worker.chart), AfterInstallRead(s), 4);
  }

  /** The creation of a teardown Job ends the reconcile. */
  lemma {:induction false} StartTeardown(u: State, n: nat)
    requires Shaped(u) && u.worker.CreatingTeardown? && CurrentChart(u) == Some(u.worker.chart)
    requires CurrentJobs(u).teardown.None? && n > 0
    ensures Shaped(Finish(u, n)) && Finish(u, n).worker.Idle? && TeardownStarted(u, Finish(u, n))
  {
    FinishOnce(u, ProceedWorker(u, false), n);
  }

  lemma {:induction false} TeardownMissing(s: State)
    requires Leaving(s) && !Gone(s) && CurrentJobs(s).teardown.None?
    ensures Leaving(FreshDeletion(s))
    ensures if Stage(CurrentJobs(s)) == Needed then TeardownStarted(s, FreshDeletion(s)) else LetGo(s, FreshDeletion(s))
  {
    InstallRead(s);
    if Stage(CurrentJobs(s)) == Needed {
      StartTeardown(AfterInstallRead(s), 3);
    } else {
      CleaningLetsGo(AfterInstallRead(s), 3);
    }
  }

  /** A deletion reconcile from caches that caught up, without failing calls: it waits for a teardown Job that
      runs; it lets the chart go when the teardown Job is over, or when nothing was installed; and it starts
      a teardown Job when the release is installed. */
  lemma {:induction false} DeletionDecides(s: State)
    requires Leaving(s) && !Gone(s)
    ensures Leaving(FreshDeletion(s))
    ensures match Stage(CurrentJobs(s))
            case Under => Untouched(s, FreshDeletion(s))
            case Over => LetGo(s, FreshDeletion(s))
            case Needed => TeardownStarted(s, FreshDeletion(s))
            case NotNeeded => LetGo(s, FreshDeletion(s))
  {
    if CurrentJobs(s).teardown.Some? {
      TeardownThere(s);
    } else {
      TeardownMissing(s);
    }
  }

  /** It is made of steps of the machine. */
  lemma {:induction false} FreshDeletionSteps(s: State) returns (states: seq<State>, events: seq<Event>)
    requires Leaving(s) && !Gone(s)
    ensures Steps(states, events) && states[0] == s && states[|events|] == FreshDeletion(s)
  {
    DeletionDecides(s);
    var s1 := s.(chartSeen := |s.charts| - 1);
    var s2 := CaughtUp(s);
    states := [s, s1, s2, BeginReconcile(s2)];
    events := [ChartCacheReaches(|s.charts| - 1), JobsCacheReaches(|s.jobs| - 1), Begin];
    assert Shaped(BeginReconcile(s2));
    states, events := WorkerFinishes(states, events, 5);
  }

  /* ---------- failing calls ---------- */

  /** A call that fails writes neither chart nor Job and ends the reconcile, except in the clean-up of a chart
      that is being deleted, which is best effort. */
  lemma {:induction false} FailureEndsReconcile(s: State)
    requires Shaped(s)
    ensures ProceedWorker(s, true).charts == s.charts && ProceedWorker(s, true).jobs == s.jobs
    ensures ProceedWorker(s, true).rbac == s.rbac
    ensures s.worker.CreatingTeardown? || s.worker.Cleaning? || ProceedWorker(s, true).worker.Idle?
  {
  }

  predicate Updating(w: Worker) {
    w.AddingFinalizer? || w.UpdatingStatus? || w.RemovingFinalizer?
  }

  /** An update of the chart is stored exactly when it is made from the current version and does not fail. */
  lemma {:induction false} UpdatesFromCurrentOnly(s: State, fails: bool)
    requires Shaped(s) && Updating(s.worker)
    ensures
      var s' := ProceedWorker(s, fails);
      s'.worker.Idle? && (s'.charts != s.charts <==> !fails && s.worker.rv == |s.charts| - 1)
  {
    assert forall c :: |s.charts + [c]| != |s.charts|;
  }

  /** A teardown Job that the cache did not show yet is waited for, not started again. */
  lemma {:induction false} ExistingTeardownWaits(s: State)
    requires Shaped(s) && s.worker.CreatingTeardown? && CurrentJobs(s).teardown.Some?
    ensures ProceedWorker(s, false).worker.Idle? && Untouched(s, ProceedWorker(s, false))
  {
  }

  /** Failing calls do not hold a chart back: where the teardown Job cannot be created, the same reconcile
      lets the chart go, with its RBAC objects or, if their removal fails as well, without removing them. */
  lemma {:induction false} FailedTeardownLetsGo(u: State, cleaningFails: bool)
    requires Shaped(u) && u.worker.CreatingTeardown? && u.worker.rv == |u.charts| - 1
    ensures
      var cleaned := ProceedWorker(ProceedWorker(u, true), cleaningFails);
      var t := ProceedWorker(cleaned, false);
      Shaped(t) && t.worker.Idle? && Gone(t) && t.jobs == u.jobs && t.rbac == (u.rbac && cleaningFails)
  {
    var rv, c := u.worker.rv, u.worker.chart;
    var a := ProceedWorker(u, true);
    assert a == u.(worker := Cleaning(rv, c));
    var b := ProceedWorker(a, cleaningFails);
    assert b == u.(rbac := u.rbac && cleaningFails, worker := RemovingFinalizer(rv, c));
  }

  /* ---------- the chart goes ---------- */

  datatype Turn = Deletes | Happens(e: Event)

  /** Anything may happen to the Jobs. */
  predicate JobEvent(e: Event) {
    e.InstallFinishes? || e.InstallVanishes? || e.TeardownFinishes?
  }

  predicate IsTurn(m: Turn) {
    m.Happens? ==> JobEvent(m.e)
  }

  /** A turn; an event that is not enabled does nothing, and neither does a reconcile of a chart that is gone. */
  function Take(s: State, m: Turn): State
    requires Leaving(s) && IsTurn(m)
  {
    match m
    case Deletes => if Gone(s) then s else FreshDeletion(s)
    case Happens(e) => if Enabled(s, e) then Apply(s, e) else s
  }

  function Left(s: State): nat
    requires Leaving(s)
  {
    if Gone(s) then 0
    else match Stage(CurrentJobs(s))
      case NotNeeded => 3
      case Needed => 3
      case Under => 2
      case Over => 1
  }

  lemma {:induction false} HappensKeeps(s: State, e: Event)
    requires Leaving(s) && IsTurn(Happens(e))
    ensures Leaving(Take(s, Happens(e))) && Left(Take(s, Happens(e))) <= Left(s)
    ensures e.TeardownFinishes? && Left(s) == 2 ==> Left(Take(s, Happens(e))) < Left(s)
  {
  }

  lemma {:induction false} TakeKeeps(s: State, m: Turn)
    requires Leaving(s) && IsTurn(m)
    ensures Leaving(Take(s, m)) && Left(Take(s, m)) <= Left(s)
    ensures m == Deletes && Left(s) != 2 && Left(s) != 0 ==> Left(Take(s, m)) < Left(s)
    ensures m.Happens? && m.e.TeardownFinishes? && Left(s) == 2 ==> Left(Take(s, m)) < Left(s)
  {
    if m.Happens? {
      HappensKeeps(s, m.e);
    } else if !Gone(s) {
      DeletionDecides(s);
    }
  }

  predicate Turns(ms: seq<Turn>) {
    forall i | 0 <= i < |ms| :: IsTurn(ms[i])
  }

  function TakeAll(s: State, ms: seq<Turn>): State
    requires Leaving(s) && Turns(ms)
    decreases |ms|
  {
    if ms == [] then s else (TakeKeeps(s, ms[0]); TakeAll(Take(s, ms[0]), ms[1..]))
  }

  /** The sequence gives both a turn: a reconcile, and a teardown Job. */
  predicate Round(ms: seq<Turn>) {
    && Turns(ms) && Deletes in ms
    && (Happens(TeardownFinishes(true)) in ms || Happens(TeardownFinishes(false)) in ms)
  }

  lemma {:induction false} TakeAllKeeps(s: State, ms: seq<Turn>)
    requires Leaving(s) && Turns(ms)
    ensures Leaving(TakeAll(s, ms)) && Left(TakeAll(s, ms)) <= Left(s)
    ensures Deletes in ms && Left(s) != 2 && Left(s) != 0 ==> Left(TakeAll(s, ms)) < Left(s)
    ensures (exists ok :: Happens(TeardownFinishes(ok)) in ms) && Left(s) == 2 ==> Left(TakeAll(s, ms)) < Left(s)
    decreases |ms|
  {
    if ms != [] {
      TakeKeeps(s, ms[0]);
      TakeAllKeeps(Take(s, ms[0]), ms[1..]);
      assert ms == [ms[0]] + ms[1..];
    }
  }

  lemma {:induction false} RoundLowers(s: State, ms: seq<Turn>)
    requires Leaving(s) && Round(ms)
    ensures Leaving(TakeAll(s, ms)) && (Left(TakeAll(s, ms)) < Left(s) || Left(s) == 0 == Left(TakeAll(s, ms)))
  {
    TakeAllKeeps(s, ms);
  }

  predicate Rounds(rounds: seq<seq<Turn>>) {
    forall i | 0 <= i < |rounds| :: Round(rounds[i])
  }

  function TakeRounds(s: State, rounds: seq<seq<Turn>>): State
    requires Leaving(s) && Rounds(rounds)
    decreases |rounds|
  {
    if rounds == [] then s else (RoundLowers(s, rounds[0]); TakeRounds(TakeAll(s, rounds[0]), rounds[1..]))
  }

  /** Whatever the Jobs were and however they end, three rounds of reconciles and Job events let the chart go,
      and it stays gone. */
  lemma {:induction false} DeletionEnds(s: State, rounds: seq<seq<Turn>>)
    requires Leaving(s) && Rounds(rounds) && |rounds| >= Left(s)
    ensures Left(s) <= 3 && Leaving(TakeRounds(s, rounds)) && Gone(TakeRounds(s, rounds))
    decreases |rounds|
  {
    if rounds != [] {
      RoundLowers(s, rounds[0]);
      DeletionEnds(TakeAll(s, rounds[0]), rounds[1..]);
    }
  }
}
