/** Convergence of the HelmChart controller: with a fixed spec, no deletion and no API errors, reconciles
    bring every starting state to a recorded Ready condition for the current generation. */
module HelmChartConvergence {
  import opened Options
  import opened HelmChart

  /** A chart that is not being deleted, at generation gen, with its install Job. */
  datatype Cluster = Cluster(gen: nat, finalizer: bool, job: Option<Job>, ready: Option<Ready>)

  /** One reconcile of Reconcile's non-deleting path, reading current objects. */
  function Reconciled(c: Cluster): Cluster {
    if !c.finalizer then c.(finalizer := true)
    else match c.job
      case None => c.(job := Some(Job(c.gen, Running, false)))
      case Some(j) =>
        if j.forGen != c.gen then
          if Finished(j) then c.(job := Some(j.(terminating := true))) else c
        else if Finished(j) then c.(ready := Some(Ready(j.phase == Complete, c.gen)))
        else c
  }

  datatype ConditionType = JobComplete | JobFailed | OtherCondition
  datatype Condition = Condition(kind: ConditionType, holds: bool)

  /** jobCondition: is there a condition of this type with status True? */
  method JobCondition(conditions: seq<Condition>, kind: ConditionType) returns (found: bool)
    ensures found <==> Condition(kind, true) in conditions
  {
    for i := 0 to |conditions|
      invariant forall k | 0 <= k < i :: conditions[k] != Condition(kind, true)
    {
      if conditions[i].kind == kind && conditions[i].holds {
        return true;
      }
    }
    found := false;
  }

  /** A Job's conditions say how far it got. */
  ghost predicate Reports(conditions: seq<Condition>, phase: Phase) {
    && (Condition(JobComplete, true) in conditions <==> phase == Complete)
    && (Condition(JobFailed, true) in conditions <==> phase == Failed)
  }

  /** The API objects the reconcile reads and writes. */
  class ClusterObject {
    var gen: nat
    var finalizer: bool
    var job: Option<Job>
    var ready: Option<Ready>

    constructor (c: Cluster)
      ensures View() == c
    {
      gen, finalizer, job, ready := c.gen, c.finalizer, c.job, c.ready;
    }

    function View(): Cluster
      reads this
    {
      Cluster(gen, finalizer, job, ready)
    }

    method Reconcile(conditions: seq<Condition>)
      requires job.Some? ==> Reports(conditions, job.value.phase)
      modifies this
      ensures View() == Reconciled(old(View()))
    {
      if !finalizer {
        finalizer := true;
        return;
      }
      if job.None? {
        job := Some(Job(gen, Running, false));
        return;
      }
      var complete := JobCondition(conditions, JobComplete);
      var failed := JobCondition(conditions, JobFailed);
      if job.value.forGen != gen {
        if complete || failed {
          job := Some(job.value.(terminating := true));
        }
        return;
      }
      if complete {
        ready := Some(Ready(true, gen));
      } else if failed {
        ready := Some(Ready(false, gen));
      }
    }
  }

  /* ---------- what can happen ---------- */

  datatype Move = Reconciles | JobFinishes(ok: bool) | JobVanishes

  /** A Job finishes if one is running, a deleted Job disappears if there is one; otherwise nothing. */
  function Do(c: Cluster, m: Move): Cluster {
    match m
    case Reconciles => Reconciled(c)
    case JobFinishes(ok) =>
      if c.job.Some? && !Finished(c.job.value) then c.(job := Some(c.job.value.(phase := Outcome(ok)))) else c
    case JobVanishes => if c.job.Some? && c.job.value.terminating then c.(job := None) else c
  }

  function DoAll(c: Cluster, ms: seq<Move>): Cluster
    decreases |ms|
  {
    if ms == [] then c else DoAll(Do(c, ms[0]), ms[1..])
  }

  /** The outcome of the install Job of the current generation is recorded. */
  predicate Settled(c: Cluster) {
    && c.finalizer && c.job.Some? && c.job.value.forGen == c.gen && !c.job.value.terminating
    && Finished(c.job.value) && c.ready == Some(Ready(c.job.value.phase == Complete, c.gen))
  }

  function JobRank(c: Cluster): nat {
    match c.job
    case None => 4
    case Some(j) =>
      if j.terminating then (if Finished(j) then 5 else 6)
      else if j.forGen != c.gen then (if Finished(j) then 7 else 8)
      else if Finished(j) then 2 else 3
  }

  predicate Recorded(c: Cluster) {
    c.job.Some? && c.job.value.forGen == c.gen && Finished(c.job.value)
    && c.ready == Some(Ready(c.job.value.phase == Complete, c.gen))
  }

  /** How much is left to do. */
  function Rank(c: Cluster): (r: nat)
    ensures 0 < r <= 18
  {
    (if c.finalizer then 0 else 1) + 2 * JobRank(c) + (if Recorded(c) then 0 else 1)
  }

  /** Every move leaves the state alone or strictly lowers the rank. */
  lemma MoveLowersRank(c: Cluster, m: Move)
    ensures Do(c, m) == c || Rank(Do(c, m)) < Rank(c)
  {
  }

  lemma SettledStays(c: Cluster, m: Move)
    requires Settled(c)
    ensures Do(c, m) == c
  {
  }

  /** As long as the outcome is not recorded, some move still does something. */
  lemma UnsettledMoves(c: Cluster, ok: bool)
    requires !Settled(c)
    ensures Do(c, Reconciles) != c || Do(c, JobFinishes(ok)) != c || Do(c, JobVanishes) != c
  {
  }

  /** The sequence gives everyone a turn: a reconcile, a running Job, a deleted Job. */
  predicate Round(ms: seq<Move>) {
    Reconciles in ms && JobVanishes in ms && (JobFinishes(true) in ms || JobFinishes(false) in ms)
  }

  /** A sequence of moves either did nothing at all or lowered the rank. */
  lemma {:induction false} MovesLowerRank(c: Cluster, ms: seq<Move>)
    ensures (DoAll(c, ms) == c && forall m | m in ms :: Do(c, m) == c) || Rank(DoAll(c, ms)) < Rank(c)
    decreases |ms|
  {
    if ms != [] {
      MoveLowersRank(c, ms[0]);
      MovesLowerRank(Do(c, ms[0]), ms[1..]);
    }
  }

  lemma {:induction false} SettledForever(c: Cluster, ms: seq<Move>)
    requires Settled(c)
    ensures DoAll(c, ms) == c
    decreases |ms|
  {
    if ms != [] {
      SettledStays(c, ms[0]);
      SettledForever(c, ms[1..]);
    }
  }

  lemma RoundProgress(c: Cluster, ms: seq<Move>)
    requires Round(ms)
    ensures Settled(DoAll(c, ms)) || Rank(DoAll(c, ms)) < Rank(c)
  {
    MovesLowerRank(c, ms);
    if !Settled(c) {
      UnsettledMoves(c, JobFinishes(true) in ms);
    } else {
      SettledForever(c, ms);
    }
  }

  function DoRounds(c: Cluster, rounds: seq<seq<Move>>): Cluster
    decreases |rounds|
  {
    if rounds == [] then c else DoRounds(DoAll(c, rounds[0]), rounds[1..])
  }

  /** Convergence: from any combination of finalizer, stale, fresh or deleted Job and recorded condition,
      after at most Rank(c) rounds in any order of moves the outcome for the current generation is
      recorded; it then stays. */
  lemma {:induction false} Converges(c: Cluster, rounds: seq<seq<Move>>)
    requires (forall i | 0 <= i < |rounds| :: Round(rounds[i])) && |rounds| >= Rank(c)
    ensures Settled(DoRounds(c, rounds))
    decreases |rounds|
  {
    var c' := DoAll(c, rounds[0]);
    RoundProgress(c, rounds[0]);
    if Settled(c') {
      RoundsSettled(c', rounds[1..]);
    } else {
      Converges(c', rounds[1..]);
    }
  }

  lemma {:induction false} RoundsSettled(c: Cluster, rounds: seq<seq<Move>>)
    requires Settled(c)
    ensures DoRounds(c, rounds) == c
    decreases |rounds|
  {
    if rounds != [] {
      SettledForever(c, rounds[0]);
      RoundsSettled(c, rounds[1..]);
    }
  }

  /* ---------- the same on the machine of module HelmChart ---------- */

  /** Between reconciles, with a chart that is there and not being deleted. */
  predicate AtRest(s: State) {
    Shaped(s) && s.worker.Idle? && CurrentChart(s).Some? && !CurrentChart(s).value.deleting
  }

  /** What the API server holds, whatever the caches show. */
  function Held(s: State): Cluster
    requires AtRest(s)
  {
    var c := CurrentChart(s).value;
    Cluster(c.gen, c.finalizer, CurrentJobs(s).install, c.ready)
  }

  predicate Steps(states: seq<State>, events: seq<Event>) {
    && |states| == |events| + 1
    && forall i | 0 <= i < |events| :: Enabled(states[i], events[i]) && states[i + 1] == Apply(states[i], events[i])
  }

  lemma {:induction false} StepsExtended(states: seq<State>, events: seq<Event>, e: Event)
    requires Steps(states, events) && Enabled(states[|events|], e)
    ensures Steps(states + [Apply(states[|events|], e)], events + [e])
  {
  }

  /** The worker runs on without failing calls until it is idle. */
  lemma {:induction false} WorkerFinishes(states: seq<State>, events: seq<Event>, n: nat)
      returns (states': seq<State>, events': seq<Event>)
    requires Steps(states, events) && Shaped(states[|events|]) && Finish(states[|events|], n).worker.Idle?
    ensures Steps(states', events') && states'[0] == states[0] && states'[|events'|] == Finish(states[|events|], n)
    decreases n
  {
    states', events' := states, events;
    var s := states[|events|];
    if !s.worker.Idle? && n > 0 {
      StepsExtended(states, events, Proceed(false));
      ProceedShaped(s);
      states', events' := WorkerFinishes(states + [ProceedWorker(s, false)], events + [Proceed(false)], n - 1);
    }
  }

  lemma {:induction false} ProceedShaped(s: State)
    requires Shaped(s)
    ensures Shaped(ProceedWorker(s, false))
  {
  }

  function Finish(s: State, n: nat): State
    requires Shaped(s)
    decreases n
  {
    if s.worker.Idle? || n == 0 then s else (ProceedShaped(s); Finish(ProceedWorker(s, false), n - 1))
  }

  function CaughtUp(s: State): State
    requires Shaped(s)
  {
    s.(chartSeen := |s.charts| - 1, jobsSeen := |s.jobs| - 1)
  }

  /** The caches catch up, and one reconcile runs without failing calls. */
  function FreshReconcile(s: State): State
    requires AtRest(s)
  {
    Finish(BeginReconcile(CaughtUp(s)), 4)
  }

  lemma {:induction false} FreshFinalizer(s: State)
    requires AtRest(s) && !CurrentChart(s).value.finalizer
    ensures AtRest(FreshReconcile(s)) && Held(FreshReconcile(s)) == Reconciled(Held(s))
    ensures FreshReconcile(s).rbac == s.rbac
  {
    var a := BeginReconcile(CaughtUp(s));
    assert Finish(a, 4) == ProceedWorker(a, false);
  }

  function FreshRead(s: State): (u: State)
    requires AtRest(s) && CurrentChart(s).value.finalizer
    ensures Reading(u) && CurrentChart(u) == CurrentChart(s) && CurrentJobs(u) == CurrentJobs(s) && u.rbac
  {
    CaughtUp(s).(rbac := true, worker := GettingJob(|s.charts| - 1, CurrentChart(s).value))
  }

  /** Two calls in, it has made sure of the RBAC objects and read the install Job. */
  lemma {:induction false} FreshReads(s: State)
    requires AtRest(s) && CurrentChart(s).value.finalizer
    ensures var u := FreshRead(s); FreshReconcile(s) == Finish(AfterGetJob(u, u.chartSeen, CurrentChart(u).value), 2)
  {
    var rv, c, u := |s.charts| - 1, CurrentChart(s).value, CaughtUp(s);
    var a := BeginReconcile(u);
    assert a == u.(worker := EnsuringRBAC(rv, c));
    var b := ProceedWorker(a, false);
    assert b == u.(rbac := true, worker := GettingJob(rv, c));
    assert Finish(a, 4) == Finish(b, 3);
  }

  predicate Reading(u: State) {
    && Shaped(u) && u.chartSeen == |u.charts| - 1 && u.jobsSeen == |u.jobs| - 1
    && CurrentChart(u).Some? && !CurrentChart(u).value.deleting && CurrentChart(u).value.finalizer
    && u.worker == GettingJob(u.chartSeen, CurrentChart(u).value)
  }

  lemma {:induction false} JobRead(u: State)
    requires Reading(u)
    ensures
      var c := CurrentChart(u).value;
      var t := Finish(AfterGetJob(u, u.chartSeen, c), 2);
      AtRest(t) && Held(t) == Reconciled(Cluster(c.gen, true, CurrentJobs(u).install, c.ready)) && t.rbac == u.rbac
  {
    var c := CurrentChart(u).value;
    var t := AfterGetJob(u, u.chartSeen, c);
    if !t.worker.Idle? {
      assert Finish(t, 2) == Finish(ProceedWorker(t, false), 1);
      assert ProceedWorker(t, false).worker.Idle?;
    }
  }

  /** Such a reconcile is the one that convergence is about. */
  lemma {:induction false} FreshReconcileReconciles(s: State)
    requires AtRest(s)
    ensures AtRest(FreshReconcile(s)) && Held(FreshReconcile(s)) == Reconciled(Held(s))
    ensures FreshReconcile(s).rbac == (s.rbac || CurrentChart(s).value.finalizer)
  {
    if CurrentChart(s).value.finalizer {
      FreshReads(s);
      JobRead(FreshRead(s));
    } else {
      FreshFinalizer(s);
    }
  }

  /** It is made of steps of the machine. */
  lemma {:induction false} FreshReconcileSteps(s: State) returns (states: seq<State>, events: seq<Event>)
    requires AtRest(s)
    ensures Steps(states, events) && states[0] == s && states[|events|] == FreshReconcile(s)
  {
    FreshReconcileReconciles(s);
    var s1 := s.(chartSeen := |s.charts| - 1);
    var s2 := CaughtUp(s);
    states := [s, s1, s2, BeginReconcile(s2)];
    events := [ChartCacheReaches(|s.charts| - 1), JobsCacheReaches(|s.jobs| - 1), Begin];
    assert Shaped(BeginReconcile(s2));
    states, events := WorkerFinishes(states, events, 4);
  }

  /** A move on the machine; an event that is not enabled does nothing. */
  function MachineDo(s: State, m: Move): State
    requires AtRest(s)
  {
    match m
    case Reconciles => FreshReconcile(s)
    case JobFinishes(ok) => if Enabled(s, InstallFinishes(ok)) then Apply(s, InstallFinishes(ok)) else s
    case JobVanishes => if Enabled(s, InstallVanishes) then Apply(s, InstallVanishes) else s
  }

  lemma {:induction false} MachineMoves(s: State, m: Move)
    requires AtRest(s) && m != Reconciles
    ensures AtRest(MachineDo(s, m)) && Held(MachineDo(s, m)) == Do(Held(s), m)
  {
  }

  lemma {:induction false} MachineDoes(s: State, m: Move)
    requires AtRest(s)
    ensures AtRest(MachineDo(s, m)) && Held(MachineDo(s, m)) == Do(Held(s), m)
  {
    if m == Reconciles {
      FreshReconcileReconciles(s);
    } else {
      MachineMoves(s, m);
    }
  }

  function MachineDoAll(s: State, ms: seq<Move>): State
    requires AtRest(s)
    decreases |ms|
  {
    if ms == [] then s else (MachineDoes(s, ms[0]); MachineDoAll(MachineDo(s, ms[0]), ms[1..]))
  }

  lemma {:induction false} MachineDoesAll(s: State, ms: seq<Move>)
    requires AtRest(s)
    ensures AtRest(MachineDoAll(s, ms)) && Held(MachineDoAll(s, ms)) == DoAll(Held(s), ms)
    decreases |ms|
  {
    if ms != [] {
      MachineDoes(s, ms[0]);
      MachineDoesAll(MachineDo(s, ms[0]), ms[1..]);
    }
  }

  function MachineRounds(s: State, rounds: seq<seq<Move>>): State
    requires AtRest(s)
    decreases |rounds|
  {
    if rounds == [] then s
    else (MachineDoesAll(s, rounds[0]); MachineRounds(MachineDoAll(s, rounds[0]), rounds[1..]))
  }

  lemma {:induction false} MachineDoesRounds(s: State, rounds: seq<seq<Move>>)
    requires AtRest(s)
    ensures AtRest(MachineRounds(s, rounds)) && Held(MachineRounds(s, rounds)) == DoRounds(Held(s), rounds)
    decreases |rounds|
  {
    if rounds != [] {
      MachineDoesAll(s, rounds[0]);
      MachineDoesRounds(MachineDoAll(s, rounds[0]), rounds[1..]);
    }
  }

  /** Convergence on the machine: from any state between reconciles of a chart that is not being deleted,
      however far its caches lag, rounds in which the caches catch up before each reconcile end with the
      outcome for the current generation recorded at the API server. */
  lemma {:induction false} MachineConverges(s: State, rounds: seq<seq<Move>>)
    requires AtRest(s)
    requires (forall i | 0 <= i < |rounds| :: Round(rounds[i])) && |rounds| >= Rank(Held(s))
    ensures AtRest(MachineRounds(s, rounds)) && Settled(Held(MachineRounds(s, rounds)))
  {
    MachineDoesRounds(s, rounds);
    Converges(Held(s), rounds);
  }
}
