/** The tunnel agent gets all its connections: from every state of every run, whatever was lost before, steps
    that go well are finitely many and end with the manager waiting, enough connections, and all of them up. */
module AgentConvergence {
  import opened Agent
  import opened Options

  /* ---------- steps that go well ---------- */

  /** No failure, no cancellation, no newly dying tunnel and no refresh; the servers say that they are n,
      and a dial reaches one that is not connected yet. */
  predicate Good(s: State, e: Step, n: int) {
    match e
    case Cancel => false
    case TunnelDies(_) => false
    case StopWaiting => false
    case Tick => false
    case FetchFails => false
    case FetchReturns(m) => m == n
    case DialFails(_) => false
    case IdentityFails(_) => false
    case IdentityReturns(id, m) => id !in s.conn.tracker && m == n
    case ServeEnds(t) => t in s.closed
    case _ => true
  }

  predicate Connects(m: Manager) {
    m.Connecting? || m.Identifying? || m.Holding?
  }

  /** Only tunnels that were created are closed. */
  predicate ClosedCreated(s: State) {
    forall t | t in s.closed :: t < s.created
  }

  /** The manager connects for the target that stands, and has returned only when cancelled. */
  predicate Steered(s: State) {
    (s.manager.Stopped? ==> s.cancelled) && (Connects(s.manager) ==> s.manager.bound == s.conn.target)
  }

  /** What holds in every state of a run. */
  ghost predicate Sound(s: State) {
    Inv(s) && ClosedCreated(s) && Steered(s)
  }

  ghost predicate Going(s: State) {
    Sound(s) && !s.cancelled
  }

  lemma {:induction false} ClosedKept(s: State, e: Step)
    requires ClosedCreated(s) && Enabled(s, e)
    requires s.manager.Identifying? || s.manager.Holding? ==> s.manager.held < s.created
    requires forall t | t in s.goroutines :: t < s.created
    ensures ClosedCreated(Apply(s, e))
  {
  }

  lemma {:induction false} SteeredKept(s: State, e: Step)
    requires Steered(s) && Enabled(s, e)
    ensures Steered(Apply(s, e))
  {
  }

  lemma {:induction false} SoundKept(s: State, e: Step)
    requires Sound(s) && Enabled(s, e)
    ensures Sound(Apply(s, e))
  {
    StepKept(s, e);
    ClosedKept(s, e);
    SteeredKept(s, e);
  }

  lemma {:induction false} AlwaysSound(states: seq<State>, steps: seq<Step>, i: nat)
    requires IsRun(states, steps) && i <= |steps|
    ensures Sound(states[i])
  {
    if i > 0 {
      AlwaysSound(states, steps, i - 1);
      SoundKept(states[i - 1], steps[i - 1]);
    } else {
      RunKept(states, steps, 0);
    }
  }

  /* ---------- the rank ---------- */

  function Max(a: int, b: int): int {
    if a > b then a else b
  }

  /** The connections that may still be asked for. */
  function Goal(s: State, n: int): int {
    var told := Max(s.conn.target, n);
    if s.manager.Writing? || s.manager.Holding? then Max(told, s.manager.instances) else told
  }

  function Need(s: State, n: int): nat {
    if Goal(s, n) > |s.conn.tracker| then Goal(s, n) - |s.conn.tracker| else 0
  }

  /** The steps before the manager looks at the tracker again, at most. */
  function Distance(s: State): nat {
    match s.manager
    case Waiting(_) => 0
    case Holding(held, id, _, _, _) => (if id in s.conn.tracker then 5 else 1) + Doomed(s, held)
    case Identifying(held, _, _) => 2 + Doomed(s, held)
    case Connecting(_, _) => 3
    case Top => 4
    case Writing(_) => 5
    case Fetching(_) => 6
    case Refreshing => 7
    case Stopped => 0
  }

  /** A tunnel that is dead before it is tracked will be lost again. */
  function Doomed(s: State, held: nat): nat {
    if held in s.closed then 13 else 0
  }

  function In(s: State, phase: Phase): set<nat> {
    set t | t in s.goroutines && s.goroutines[t].phase == phase
  }

  function Dead(s: State): set<nat> {
    set t | t in s.goroutines && s.goroutines[t].phase == Serving && t in s.closed
  }

  function Toil(s: State): nat {
    6 * |s.conn.disconnected| + 7 * |In(s, Deleted)| + 12 * |In(s, Closing)| + 13 * |Dead(s)|
  }

  function Rank(s: State, n: int): nat {
    4 * Need(s, n) + Distance(s) + Toil(s)
  }

  /* ---------- every good step lowers it ---------- */

  lemma {:induction false} ToilSame(s: State, s': State)
    requires s'.goroutines == s.goroutines && s'.closed == s.closed
    ensures Toil(s') - 6 * |s'.conn.disconnected| == Toil(s) - 6 * |s.conn.disconnected|
  {
    assert In(s', Deleted) == In(s, Deleted) && In(s', Closing) == In(s, Closing) && Dead(s') == Dead(s);
  }

  lemma {:induction false} ManagerLowers(s: State, e: Step, n: int)
    requires Going(s) && Enabled(s, e) && Good(s, e, n)
    requires !e.Track? && !e.ServeEnds? && !e.DeleteEntry? && !e.SendSignal?
    ensures Rank(Apply(s, e), n) < Rank(s, n)
  {
    ToilSame(s, Apply(s, e));
  }

  lemma {:induction false} ToilTrack(s: State, e: Step)
    requires Enabled(s, e) && e.Track? && s.manager.held !in s.goroutines
    ensures
      Toil(Apply(s, e)) <= Toil(s) + if s.manager.id in s.conn.tracker then 0 else Doomed(s, s.manager.held)
  {
    var s', t := Apply(s, e), s.manager.held;
    assert In(s', Deleted) == In(s, Deleted) && In(s', Closing) == In(s, Closing);
    assert Dead(s') == if s.manager.id !in s.conn.tracker && t in s.closed then Dead(s) + {t} else Dead(s);
  }

  lemma {:induction false} NeedTrack(s: State, e: Step, n: int)
    requires Enabled(s, e) && e.Track? && s.manager.id !in s.conn.tracker && |s.conn.tracker| < s.conn.target
    ensures Need(Apply(s, e), n) + 1 <= Need(s, n)
  {
    var s' := Apply(s, e);
    assert s'.conn.tracker.Keys == s.conn.tracker.Keys + {s.manager.id};
    assert |s'.conn.tracker| == |s.conn.tracker| + 1;
  }

  lemma {:induction false} TrackLowers(s: State, e: Step, n: int)
    requires Going(s) && Enabled(s, e) && e.Track?
    ensures Rank(Apply(s, e), n) < Rank(s, n)
  {
    ToilTrack(s, e);
    if s.manager.id !in s.conn.tracker {
      NeedTrack(s, e, n);
    }
  }

  lemma {:induction false} ToilServe(s: State, t: nat)
    requires Enabled(s, ServeEnds(t)) && t in s.closed
    ensures Toil(Apply(s, ServeEnds(t))) == Toil(s) - 1
  {
    var s' := Apply(s, ServeEnds(t));
    assert s'.closed == s.closed;
    assert In(s', Deleted) == In(s, Deleted);
    assert In(s', Closing) == In(s, Closing) + {t} && t !in In(s, Closing);
    assert Dead(s') == Dead(s) - {t} && t in Dead(s);
  }

  lemma {:induction false} ServeLowers(s: State, t: nat, n: int)
    requires Enabled(s, ServeEnds(t)) && t in s.closed
    ensures Rank(Apply(s, ServeEnds(t)), n) < Rank(s, n)
  {
    assert s.closed + {t} == s.closed;
    ToilServe(s, t);
  }

  lemma {:induction false} ToilDelete(s: State, t: nat)
    requires Enabled(s, DeleteEntry(t))
    ensures Toil(Apply(s, DeleteEntry(t))) == Toil(s) - 5
  {
    var s' := Apply(s, DeleteEntry(t));
    assert In(s', Deleted) == In(s, Deleted) + {t} && t !in In(s, Deleted);
    assert In(s', Closing) == In(s, Closing) - {t} && t in In(s, Closing);
    assert Dead(s') == Dead(s);
  }

  lemma {:induction false} NeedDelete(s: State, t: nat, n: int)
    requires Enabled(s, DeleteEntry(t))
    ensures Need(Apply(s, DeleteEntry(t)), n) <= Need(s, n) + 1
  {
    var id, after := s.goroutines[t].id, Apply(s, DeleteEntry(t)).conn.tracker;
    assert after.Keys == s.conn.tracker.Keys - {id};
    assert |s.conn.tracker.Keys| <= |after.Keys| + 1;
  }

  lemma {:induction false} DeleteLowers(s: State, t: nat, n: int)
    requires Enabled(s, DeleteEntry(t))
    ensures Rank(Apply(s, DeleteEntry(t)), n) < Rank(s, n)
  {
    ToilDelete(s, t);
    NeedDelete(s, t, n);
    assert Distance(Apply(s, DeleteEntry(t))) <= Distance(s);
  }

  lemma {:induction false} SendLowers(s: State, t: nat, n: int)
    requires Enabled(s, SendSignal(t))
    ensures Rank(Apply(s, SendSignal(t)), n) < Rank(s, n)
  {
    var s' := Apply(s, SendSignal(t));
    assert In(s', Deleted) == In(s, Deleted) - {t} && t in In(s, Deleted);
    assert In(s', Closing) == In(s, Closing) && Dead(s') == Dead(s);
  }

  lemma {:induction false} GoodLowers(s: State, e: Step, n: int)
    requires Going(s) && Enabled(s, e) && Good(s, e, n)
    ensures Going(Apply(s, e)) && Rank(Apply(s, e), n) < Rank(s, n)
  {
    SoundKept(s, e);
    match e
    case Track(_) => TrackLowers(s, e, n);
    case ServeEnds(t) => ServeLowers(s, t, n);
    case DeleteEntry(t) => DeleteLowers(s, t, n);
    case SendSignal(t) => SendLowers(s, t, n);
    case _ => ManagerLowers(s, e, n);
  }

  /* ---------- and there is one until all is well ---------- */

  predicate Up(s: State, t: nat)
    requires t in s.goroutines
  {
    s.goroutines[t].phase == Done || (s.goroutines[t].phase == Serving && t !in s.closed)
  }

  /** The manager waits, nothing is queued, there are enough connections, and all that are tracked are open. */
  predicate Settled(s: State) {
    && s.manager.Waiting? && s.conn.disconnected == [] && |s.conn.tracker| >= s.conn.target
    && (forall t | t in s.goroutines :: Up(s, t))
    && (forall id | id in s.conn.tracker :: s.conn.tracker[id] !in s.closed)
  }

  lemma {:induction false} NewId(ids: set<string>) returns (id: string)
    ensures forall x | x in ids :: |x| < |id|
    decreases |ids|
  {
    id := "a";
    if ids != {} {
      var y :| y in ids;
      var rest := NewId(ids - {y});
      id := if |rest| > |y| then rest else y + "a";
      assert forall x | x in ids :: x == y || x in ids - {y};
    }
  }

  lemma {:induction false} GoroutineMoves(s: State, t: nat, n: int) returns (e: Step)
    requires t in s.goroutines && !Up(s, t)
    ensures Enabled(s, e) && Good(s, e, n)
  {
    match s.goroutines[t].phase
    case Serving => e := ServeEnds(t);
    case Closing => e := DeleteEntry(t);
    case Deleted => e := SendSignal(t);
  }

  lemma {:induction false} ManagerMoves(s: State, n: int) returns (e: Step)
    requires Going(s) && !s.manager.Waiting?
    ensures Enabled(s, e) && Good(s, e, n)
  {
    match s.manager
    case Top => e := ReadState;
    case Refreshing =>
      if s.conn.tracker == map[] {
        e := CopyTracker(None);
      } else {
        var id :| id in s.conn.tracker;
        e := CopyTracker(Some(s.conn.tracker[id]));
      }
    case Fetching(_) => e := FetchReturns(n);
    case Writing(_) => e := WriteTarget;
    case Connecting(_, _) => e := DialReturns;
    case Identifying(_, _, _) =>
      var id := NewId(s.conn.tracker.Keys);
      e := IdentityReturns(id, n);
    case Holding(_, _, _, attempt, _) => e := Track(attempt + 1 >= ATTEMPTS);
  }

  lemma {:induction false} CalmIsSettled(s: State)
    requires Going(s) && s.manager.Waiting? && s.conn.disconnected == []
    requires forall t | t in s.goroutines :: Up(s, t)
    ensures Settled(s)
  {
    assert forall t :: !Pending(s, t);
    forall id | id in s.conn.tracker ensures s.conn.tracker[id] !in s.closed {
      assert Alive(s, s.conn.tracker[id]);
    }
  }

  lemma {:induction false} NotUp(s: State) returns (t: nat)
    requires Going(s) && s.manager.Waiting? && s.conn.disconnected == [] && !Settled(s)
    ensures t in s.goroutines && !Up(s, t)
  {
    if forall t | t in s.goroutines :: Up(s, t) {
      CalmIsSettled(s);
    }
    t :| t in s.goroutines && !Up(s, t);
  }

  /** Short of a settled state, some step that goes well can be made. */
  lemma {:induction false} Progress(s: State, n: int) returns (e: Step)
    requires Going(s) && !Settled(s)
    ensures Enabled(s, e) && Good(s, e, n)
  {
    if !s.manager.Waiting? {
      e := ManagerMoves(s, n);
    } else if s.conn.disconnected != [] {
      e := Receive;
    } else {
      var t := NotUp(s);
      e := GoroutineMoves(s, t, n);
    }
  }

  lemma {:induction false} RankFalls(states: seq<State>, steps: seq<Step>, i: nat, j: nat, n: int)
    requires IsRun(states, steps) && i <= j <= |steps| && !states[i].cancelled
    requires forall k | i <= k < j :: Good(states[k], steps[k], n)
    ensures Going(states[j]) && j - i + Rank(states[j], n) <= Rank(states[i], n)
    decreases j
  {
    if i < j {
      RankFalls(states, steps, i, j - 1, n);
      GoodLowers(states[j - 1], steps[j - 1], n);
    } else {
      AlwaysSound(states, steps, i);
    }
  }

  ghost predicate Stuck(s: State, n: int) {
    forall e :: !(Enabled(s, e) && Good(s, e, n))
  }

  /** From state i of any run on, steps that go well are at most as many as the rank; and where no more can
      be made, the agent is settled. */
  lemma {:induction false} Converges(states: seq<State>, steps: seq<Step>, i: nat, j: nat, n: int)
    requires IsRun(states, steps) && i <= j <= |steps| && !states[i].cancelled
    requires forall k | i <= k < j :: Good(states[k], steps[k], n)
    ensures Going(states[j]) && j - i + Rank(states[j], n) <= Rank(states[i], n)
    ensures Stuck(states[j], n) ==> Settled(states[j])
  {
    RankFalls(states, steps, i, j, n);
    if !Settled(states[j]) {
      var e := Progress(states[j], n);
    }
  }

  /* ---------- a refresh ---------- */

  /** Where an agent is whose next look at the target will find n. */
  predicate Toward(s: State, n: int) {
    && s.conn.tracker != map[]
    && (s.manager.Refreshing? || s.manager.Fetching? || s.manager.Writing? || s.conn.target == n)
    && (s.manager.Writing? || s.manager.Holding? ==> s.manager.instances == n)
  }

  /** No connection goes, no refresh fails, and the servers say that they are n. */
  predicate Told(e: Step, n: int) {
    && !e.DeleteEntry? && !e.FetchFails?
    && (e.FetchReturns? || e.IdentityReturns? ==> e.instances == n)
  }

  lemma {:induction false} TowardKept(s: State, e: Step, n: int)
    requires Toward(s, n) && Enabled(s, e) && Told(e, n)
    ensures Toward(Apply(s, e), n)
  {
    if e.Track? {
      assert s.manager.id in s.conn.tracker[s.manager.id := s.manager.held];
    }
  }

  /** After a tick of the refresh timer, the manager waits again only with the number that it was told. */
  lemma {:induction false} RefreshTakesEffect(states: seq<State>, steps: seq<Step>, i: nat, j: nat, n: int)
    requires IsRun(states, steps) && i < j <= |steps| && steps[i] == Tick && states[i].conn.tracker != map[]
    requires forall k | i < k < j :: Told(steps[k], n)
    ensures Toward(states[j], n) && (states[j].manager.Waiting? ==> states[j].conn.target == n)
  {
    if j > i + 1 {
      RefreshTakesEffect(states, steps, i, j - 1, n);
      TowardKept(states[j - 1], steps[j - 1], n);
    }
  }

  /* ---------- attempts and the end ---------- */

  /** An attempt to connect fails: no tunnel, no identity, or an instance that is connected already. */
  predicate Fails(s: State, e: Step) {
    e.DialFails? || e.IdentityFails? || (e.Track? && s.manager.Holding? && s.manager.id in s.conn.tracker)
  }

  /** The failed attempts since the manager last looked at the tracker. */
  function Failures(states: seq<State>, steps: seq<Step>, i: nat): nat
    requires i <= |steps| < |states|
  {
    if i == 0 || steps[i - 1] == ReadState then 0
    else Failures(states, steps, i - 1) + if Fails(states[i - 1], steps[i - 1]) then 1 else 0
  }

  lemma {:induction false} AttemptStep(s: State, e: Step, failures: nat)
    requires Enabled(s, e) && (Connects(s.manager) ==> s.manager.attempt == failures < ATTEMPTS)
    ensures
      var m := Apply(s, e).manager;
      var failures' := if e == ReadState then 0 else failures + if Fails(s, e) then 1 else 0;
      Connects(m) ==> m.attempt == failures' < ATTEMPTS
  {
  }

  lemma {:induction false} AttemptsCounted(states: seq<State>, steps: seq<Step>, i: nat)
    requires IsRun(states, steps) && i <= |steps|
    ensures Connects(states[i].manager) ==> states[i].manager.attempt == Failures(states, steps, i) < ATTEMPTS
  {
    if i > 0 {
      AttemptsCounted(states, steps, i - 1);
      AttemptStep(states[i - 1], steps[i - 1], Failures(states, steps, i - 1));
    }
  }

  /** The manager tries again after the first three failures in a row; it gives up at the fourth, and before
      that only when cancelled. */
  lemma {:induction false} GivesUpAtFourth(states: seq<State>, steps: seq<Step>, i: nat)
    requires IsRun(states, steps) && i < |steps| && Fails(states[i], steps[i])
    ensures Failures(states, steps, i) <= 3
    ensures states[i + 1].manager.Connecting? ==> Failures(states, steps, i) < 3
    ensures !states[i].cancelled ==> (states[i + 1].manager.Connecting? <==> Failures(states, steps, i) < 3)
    ensures !states[i].cancelled && Failures(states, steps, i) == 3 ==> states[i + 1].manager.Top?
  {
    AttemptsCounted(states, steps, i);
  }

  /** The loop returns when it waits, or gives up connecting, while the context is done. */
  predicate Ends(s: State, e: Step) {
    s.cancelled && (e.StopWaiting? || (Fails(s, e) && e.giveUp))
  }

  lemma {:induction false} EndStep(s: State, e: Step)
    requires Enabled(s, e)
    ensures Apply(s, e).manager.Stopped? <==> s.manager.Stopped? || Ends(s, e)
  {
  }

  /** It has returned exactly when it did so at some step. */
  lemma {:induction false} StoppedExactly(states: seq<State>, steps: seq<Step>, i: nat)
    requires IsRun(states, steps) && i <= |steps|
    ensures states[i].manager.Stopped? <==> exists k :: 0 <= k < i && Ends(states[k], steps[k])
  {
    if i > 0 {
      StoppedExactly(states, steps, i - 1);
      EndStep(states[i - 1], steps[i - 1]);
    }
  }

  lemma {:induction false} CancelStep(s: State, e: Step)
    requires Enabled(s, e)
    ensures Apply(s, e).cancelled <==> s.cancelled || e == Cancel
  {
  }

  /** And the context is done exactly when it was cancelled at some step. */
  lemma {:induction false} CancelledExactly(states: seq<State>, steps: seq<Step>, i: nat)
    requires IsRun(states, steps) && i <= |steps|
    ensures states[i].cancelled <==> exists k :: 0 <= k < i && steps[k] == Cancel
  {
    if i > 0 {
      CancelledExactly(states, steps, i - 1);
      CancelStep(states[i - 1], steps[i - 1]);
    }
  }
}
