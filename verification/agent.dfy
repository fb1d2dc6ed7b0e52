/** The tunnel agent's connection manager (pkg/tunnel/agent/agent.go): the manager loop and the serve
    goroutines share the tracker, the target and a bounded channel. Every lock-protected section, channel
    operation and tunnel close is one atomic step; properties hold over every interleaving. */
module Agent {
  import opened Options

  const CHANNEL_CAPACITY: nat := 16
  const ATTEMPTS: nat := 4

  /* ---------- the shared state and its critical sections ---------- */

  /** connState: tracked tunnels by instance id, the disconnected channel, the wanted number. Tunnels are
      numbered in the order connect creates them. */
  datatype Conn = Conn(tracker: map<string, nat>, disconnected: seq<string>, target: int)

  function TrackIn(c: Conn, id: string, tunnel: nat, instances: int): Conn {
    if id in c.tracker then c else c.(tracker := c.tracker[id := tunnel], target := instances)
  }

  function DeleteIn(c: Conn, id: string): Conn {
    c.(tracker := c.tracker - {id})
  }

  /** A send that is dropped when the channel is full. */
  function SignalIn(c: Conn, id: string): Conn {
    if |c.disconnected| < CHANNEL_CAPACITY then c.(disconnected := c.disconnected + [id]) else c
  }

  /** The same sections on the object whose fields the goroutines update under its mutex. */
  class ConnState {
    var tracker: map<string, nat>
    var disconnected: seq<string>
    var target: int

    constructor ()
      ensures View() == Conn(map[], [], 1)
    {
      tracker, disconnected, target := map[], [], 1;
    }

    function View(): Conn
      reads this
    {
      Conn(tracker, disconnected, target)
    }

    method Track(id: string, tunnel: nat, instances: int) returns (ok: bool)
      modifies this
      ensures View() == TrackIn(old(View()), id, tunnel, instances)
      ensures ok <==> id !in old(tracker)
      ensures ok ==> tracker == old(tracker)[id := tunnel]
    {
      if id in tracker {
        return false;
      }
      tracker := tracker[id := tunnel];
      target := instances;
      ok := true;
    }

    method Delete(id: string)
      modifies this
      ensures View() == DeleteIn(old(View()), id)
    {
      tracker := tracker - {id};
    }

    method Signal(id: string)
      modifies this
      ensures View() == SignalIn(old(View()), id)
    {
      if |disconnected| < CHANNEL_CAPACITY {
        disconnected := disconnected + [id];
      }
    }
  }

  /* ---------- threads ---------- */

  /** A serve goroutine: serving, tunnel closed, entry deleted (send pending), finished. */
  datatype Phase = Serving | Closing | Deleted | Done
  datatype Goroutine = Goroutine(id: string, phase: Phase)

  /** Where the manager is. `lost` are the tunnels whose entries were deleted since the manager read that
      it has enough connections; `bound` is the target it read when it decided to connect. */
  datatype Manager =
    | Top
    | Waiting(lost: set<nat>)
    | Refreshing
    | Fetching(tunnel: nat)
    | Writing(instances: int)
    | Connecting(attempt: nat, bound: int)
    | Identifying(held: nat, attempt: nat, bound: int)
    | Holding(held: nat, id: string, instances: int, attempt: nat, bound: int)
    | Stopped

  datatype State = State(
    conn: Conn,
    goroutines: map<nat, Goroutine>,
    closed: set<nat>,
    created: nat,
    manager: Manager,
    cancelled: bool,
    maxTarget: int)

  function Init(): State {
    State(Conn(map[], [], 1), map[], {}, 0, Top, false, 1)
  }

  datatype Step =
    | Cancel
    | TunnelDies(tunnel: nat)
    | ReadState
    | StopWaiting
    | Receive
    | Tick
    | CopyTracker(pick: Option<nat>)
    | FetchFails
    | FetchReturns(instances: int)
    | WriteTarget
    | DialFails(giveUp: bool)
    | DialReturns
    | IdentityFails(giveUp: bool)
    | IdentityReturns(id: string, instances: int)
    | Track(giveUp: bool)
    | ServeEnds(tunnel: nat)
    | DeleteEntry(tunnel: nat)
    | SendSignal(tunnel: nat)

  /** retry.Do gives up after the last attempt, or early when the context is done. */
  predicate MayGiveUp(s: State, attempt: nat, giveUp: bool) {
    if giveUp then attempt + 1 >= ATTEMPTS || s.cancelled else attempt + 1 < ATTEMPTS
  }

  predicate Enabled(s: State, e: Step) {
    match e
    case Cancel => true
    case TunnelDies(t) => t < s.created
    case ReadState => s.manager.Top?
    case StopWaiting => s.manager.Waiting? && s.cancelled
    case Receive => s.manager.Waiting? && s.conn.disconnected != []
    case Tick => s.manager.Waiting?
    case CopyTracker(pick) =>
      s.manager.Refreshing? &&
      (if pick.None? then s.conn.tracker == map[]
       else exists id :: id in s.conn.tracker && s.conn.tracker[id] == pick.value)
    case FetchFails => s.manager.Fetching?
    case FetchReturns(_) => s.manager.Fetching?
    case WriteTarget => s.manager.Writing?
    case DialFails(giveUp) => s.manager.Connecting? && MayGiveUp(s, s.manager.attempt, giveUp)
    case DialReturns => s.manager.Connecting?
    case IdentityFails(giveUp) => s.manager.Identifying? && MayGiveUp(s, s.manager.attempt, giveUp)
    case IdentityReturns(_, _) => s.manager.Identifying?
    case Track(giveUp) => s.manager.Holding? && (s.manager.id in s.conn.tracker ==> MayGiveUp(s, s.manager.attempt, giveUp))
    case ServeEnds(t) =>
      t in s.goroutines && s.goroutines[t].phase.Serving? && (t in s.closed || s.cancelled)
    case DeleteEntry(t) => t in s.goroutines && s.goroutines[t].phase.Closing?
    case SendSignal(t) => t in s.goroutines && s.goroutines[t].phase.Deleted?
  }

  function AfterFailure(s: State, attempt: nat, bound: int, giveUp: bool): Manager {
    if !giveUp then Connecting(attempt + 1, bound) else if s.cancelled then Stopped else Top
  }

  function SetTarget(s: State, instances: int): State {
    s.(conn := s.conn.(target := instances), maxTarget := if instances > s.maxTarget then instances else s.maxTarget)
  }

  function Apply(s: State, e: Step): State
    requires Enabled(s, e)
  {
    match e
    case Cancel => s.(cancelled := true)
    case TunnelDies(t) => s.(closed := s.closed + {t})
    case ReadState =>
      if |s.conn.tracker| >= s.conn.target then s.(manager := Waiting({}))
      else s.(manager := Connecting(0, s.conn.target))
    case StopWaiting => s.(manager := Stopped)
    case Receive => s.(conn := s.conn.(disconnected := s.conn.disconnected[1..]), manager := Top)
    case Tick => s.(manager := Refreshing)
    case CopyTracker(pick) => s.(manager := if pick.None? then Top else Fetching(pick.value))
    case FetchFails => s.(manager := Top)
    case FetchReturns(n) => s.(manager := Writing(n))
    case WriteTarget => SetTarget(s, s.manager.instances).(manager := Top)
    case DialFails(giveUp) => s.(manager := AfterFailure(s, s.manager.attempt, s.manager.bound, giveUp))
    case DialReturns =>
      s.(created := s.created + 1, manager := Identifying(s.created, s.manager.attempt, s.manager.bound))
    case IdentityFails(giveUp) =>
      s.(closed := s.closed + {s.manager.held},
         manager := AfterFailure(s, s.manager.attempt, s.manager.bound, giveUp))
    case IdentityReturns(id, n) =>
      s.(manager := Holding(s.manager.held, id, n, s.manager.attempt, s.manager.bound))
    case Track(giveUp) =>
      var m := s.manager;
      if m.id in s.conn.tracker then
        s.(closed := s.closed + {m.held}, manager := AfterFailure(s, m.attempt, m.bound, giveUp))
      else
        SetTarget(s, m.instances).(
          conn := TrackIn(s.conn, m.id, m.held, m.instances),
          goroutines := s.goroutines[m.held := Goroutine(m.id, Serving)],
          manager := Top)
    case ServeEnds(t) =>
      s.(closed := s.closed + {t}, goroutines := s.goroutines[t := s.goroutines[t].(phase := Closing)])
    case DeleteEntry(t) =>
      s.(conn := DeleteIn(s.conn, s.goroutines[t].id),
         goroutines := s.goroutines[t := s.goroutines[t].(phase := Deleted)],
         manager := if s.manager.Waiting? then Waiting(s.manager.lost + {t}) else s.manager)
    case SendSignal(t) =>
      s.(conn := SignalIn(s.conn, s.goroutines[t].id),
         goroutines := s.goroutines[t := s.goroutines[t].(phase := Done)])
  }

  /* ---------- invariants ---------- */

  predicate Alive(s: State, t: nat) {
    t in s.goroutines && (s.goroutines[t].phase.Serving? || s.goroutines[t].phase.Closing?)
  }

  /** Tracked entries and goroutines that have not yet deleted theirs are in one-to-one correspondence. */
  ghost predicate Owned(s: State) {
    && (forall id | id in s.conn.tracker :: Alive(s, s.conn.tracker[id]) && s.goroutines[s.conn.tracker[id]].id == id)
    && (forall t | Alive(s, t) ::
          s.goroutines[t].id in s.conn.tracker && s.conn.tracker[s.goroutines[t].id] == t)
  }

  predicate Held(m: Manager, t: nat) {
    (m.Identifying? || m.Holding?) && m.held == t
  }

  /** Every tunnel that was created is tracked, closed, or in the manager's hands. */
  ghost predicate Accounted(s: State) {
    && (forall t | t in s.goroutines :: t < s.created)
    && (forall t | t in s.goroutines && !s.goroutines[t].phase.Serving? :: t in s.closed)
    && ((s.manager.Identifying? || s.manager.Holding?) ==> s.manager.held < s.created && s.manager.held !in s.goroutines)
    && (forall t: nat | t < s.created :: t in s.closed || Alive(s, t) || Held(s.manager, t))
  }

  /** The tracker never outgrows the largest target seen, and has room while the manager connects. */
  ghost predicate Within(s: State) {
    && s.conn.target <= s.maxTarget && |s.conn.tracker| <= s.maxTarget
    && ((s.manager.Connecting? || s.manager.Identifying? || s.manager.Holding?) ==>
          |s.conn.tracker| < s.manager.bound <= s.maxTarget)
  }

  predicate Pending(s: State, t: nat) {
    t in s.goroutines && s.goroutines[t].phase.Deleted?
  }

  /** While the manager waits: if nothing was lost it still has enough connections; if something was, a
      wake-up is in the channel or a goroutine that lost it is still about to send one. */
  ghost predicate WakeUpComing(s: State) {
    && |s.conn.disconnected| <= CHANNEL_CAPACITY
    && (s.manager.Waiting? ==>
          if s.manager.lost == {} then |s.conn.tracker| >= s.conn.target
          else s.conn.disconnected != [] || exists t :: t in s.manager.lost && Pending(s, t))
  }

  ghost predicate Inv(s: State) {
    Owned(s) && Accounted(s) && Within(s) && WakeUpComing(s)
  }

  lemma OwnedByTrack(s: State, giveUp: bool)
    requires Owned(s) && Accounted(s) && Enabled(s, Track(giveUp))
    ensures Owned(Apply(s, Track(giveUp)))
  {
  }

  lemma OwnedByServe(s: State, t: nat)
    requires Owned(s) && Enabled(s, ServeEnds(t))
    ensures Owned(Apply(s, ServeEnds(t)))
  {
  }

  lemma OwnedByDelete(s: State, t: nat)
    requires Owned(s) && Enabled(s, DeleteEntry(t))
    ensures Owned(Apply(s, DeleteEntry(t)))
    ensures s.goroutines[t].id in s.conn.tracker && s.conn.tracker[s.goroutines[t].id] == t
  {
    assert Alive(s, t);
  }

  lemma OwnedBySend(s: State, t: nat)
    requires Owned(s) && Enabled(s, SendSignal(t))
    ensures Owned(Apply(s, SendSignal(t)))
  {
  }

  /** The other steps touch neither the tracker nor a goroutine. */
  lemma OwnedByOthers(s: State, e: Step)
    requires Owned(s) && Enabled(s, e) && !e.Track? && !e.ServeEnds? && !e.DeleteEntry? && !e.SendSignal?
    ensures Owned(Apply(s, e))
  {
    var s' := Apply(s, e);
    assert s'.conn.tracker == s.conn.tracker && s'.goroutines == s.goroutines;
    assert forall t :: Alive(s', t) <==> Alive(s, t);
  }

  lemma OwnedKept(s: State, e: Step)
    requires Owned(s) && Accounted(s) && Enabled(s, e)
    ensures Owned(Apply(s, e))
  {
    match e
    case Track(giveUp) => OwnedByTrack(s, giveUp);
    case ServeEnds(t) => OwnedByServe(s, t);
    case DeleteEntry(t) => OwnedByDelete(s, t);
    case SendSignal(t) => OwnedBySend(s, t);
    case _ => OwnedByOthers(s, e);
  }

  lemma AccountedByManager(s: State, e: Step)
    requires Owned(s) && Accounted(s) && Enabled(s, e) && !e.ServeEnds? && !e.DeleteEntry? && !e.SendSignal?
    ensures Accounted(Apply(s, e))
  {
  }

  lemma AccountedByServe(s: State, e: Step)
    requires Accounted(s) && Enabled(s, e) && (e.ServeEnds? || e.DeleteEntry? || e.SendSignal?)
    ensures Accounted(Apply(s, e))
  {
  }

  lemma AccountedKept(s: State, e: Step)
    requires Owned(s) && Accounted(s) && Enabled(s, e)
    ensures Accounted(Apply(s, e))
  {
    if e.ServeEnds? || e.DeleteEntry? || e.SendSignal? {
      AccountedByServe(s, e);
    } else {
      AccountedByManager(s, e);
    }
  }

  lemma WithinKept(s: State, e: Step)
    requires Within(s) && Enabled(s, e)
    ensures Within(Apply(s, e))
  {
    if e.DeleteEntry? {
      var id := s.goroutines[e.tunnel].id;
      assert (s.conn.tracker - {id}).Keys == s.conn.tracker.Keys - {id};
      assert |s.conn.tracker - {id}| <= |s.conn.tracker|;
    } else if e.Track? {
      assert s.conn.tracker[s.manager.id := s.manager.held].Keys == s.conn.tracker.Keys + {s.manager.id};
    }
  }

  lemma WakeUpKept(s: State, e: Step)
    requires WakeUpComing(s) && Enabled(s, e)
    ensures WakeUpComing(Apply(s, e))
  {
    var s' := Apply(s, e);
    if e.DeleteEntry? && s'.manager.Waiting? {
      assert e.tunnel in s'.manager.lost && Pending(s', e.tunnel);
    }
  }

  lemma StepKept(s: State, e: Step)
    requires Inv(s) && Enabled(s, e)
    ensures Inv(Apply(s, e))
  {
    OwnedKept(s, e);
    AccountedKept(s, e);
    WithinKept(s, e);
    WakeUpKept(s, e);
  }

  /* ---------- whole runs ---------- */

  /** The states after each step of an interleaving. */
  ghost predicate IsRun(states: seq<State>, steps: seq<Step>) {
    && |states| == |steps| + 1 && states[0] == Init()
    && forall i | 0 <= i < |steps| :: Enabled(states[i], steps[i]) && states[i + 1] == Apply(states[i], steps[i])
  }

  lemma {:induction false} RunKept(states: seq<State>, steps: seq<Step>, i: nat)
    requires IsRun(states, steps) && i <= |steps|
    ensures Inv(states[i])
  {
    if i > 0 {
      RunKept(states, steps, i - 1);
      StepKept(states[i - 1], steps[i - 1]);
    }
  }

  /** No lost wake-up: in every reachable state in which the manager waits although it lacks connections,
      the channel holds a message or a goroutine is about to send one, dropped sends notwithstanding. */
  lemma NoLostWakeUp(states: seq<State>, steps: seq<Step>, i: nat)
    requires IsRun(states, steps) && i <= |steps| && states[i].manager.Waiting?
    ensures
      var s := states[i];
      && (s.manager.lost != {} ==> s.conn.disconnected != [] || exists t :: t in s.manager.lost && Pending(s, t))
      && (|s.conn.tracker| < s.conn.target ==> s.conn.disconnected != [] || exists t :: Pending(s, t))
  {
    RunKept(states, steps, i);
  }

  /** Each tracked instance is served by exactly one goroutine that has not yet deleted its entry. */
  lemma OneServerPerInstance(states: seq<State>, steps: seq<Step>, i: nat, id: string, t: nat)
    requires IsRun(states, steps) && i <= |steps| && id in states[i].conn.tracker
    ensures
      var s := states[i];
      Alive(s, t) && s.goroutines[t].id == id <==> s.conn.tracker[id] == t
  {
    RunKept(states, steps, i);
  }

  /** A goroutine that deletes by key always deletes its own entry. */
  lemma DeletesOwnEntry(states: seq<State>, steps: seq<Step>, i: nat, t: nat)
    requires IsRun(states, steps) && i <= |steps| && Enabled(states[i], DeleteEntry(t))
    ensures
      var s := states[i];
      s.goroutines[t].id in s.conn.tracker && s.conn.tracker[s.goroutines[t].id] == t
  {
    RunKept(states, steps, i);
    OwnedByDelete(states[i], t);
  }

  /** No tunnel leaks: each one ever created is tracked under its id, closed, or held by the manager. */
  lemma NoLeakedTunnel(states: seq<State>, steps: seq<Step>, i: nat, t: nat)
    requires IsRun(states, steps) && i <= |steps| && t < states[i].created
    ensures
      var s := states[i];
      t in s.closed || Held(s.manager, t) || exists id :: id in s.conn.tracker && s.conn.tracker[id] == t
  {
    RunKept(states, steps, i);
    var s := states[i];
    if Alive(s, t) {
      assert s.goroutines[t].id in s.conn.tracker;
    }
  }

  /** The largest target the agent has been given up to state i. */
  ghost function LargestTarget(states: seq<State>, i: nat): int
    requires i < |states|
  {
    if i == 0 then states[0].conn.target
    else
      var m := LargestTarget(states, i - 1);
      if states[i].conn.target > m then states[i].conn.target else m
  }

  lemma MaxTargetStep(s: State, e: Step)
    requires Within(s) && Enabled(s, e)
    ensures
      var s' := Apply(s, e);
      s'.maxTarget == if s'.conn.target > s.maxTarget then s'.conn.target else s.maxTarget
  {
  }

  lemma {:induction false} MaxTargetIsLargest(states: seq<State>, steps: seq<Step>, i: nat)
    requires IsRun(states, steps) && i <= |steps|
    ensures states[i].maxTarget == LargestTarget(states, i)
  {
    if i > 0 {
      MaxTargetIsLargest(states, steps, i - 1);
      RunKept(states, steps, i - 1);
      MaxTargetStep(states[i - 1], steps[i - 1]);
    }
  }

  /** The tracker never holds more connections than the largest target seen so far. */
  lemma NeverTooMany(states: seq<State>, steps: seq<Step>, i: nat)
    requires IsRun(states, steps) && i <= |steps|
    ensures |states[i].conn.tracker| <= LargestTarget(states, i)
  {
    RunKept(states, steps, i);
    MaxTargetIsLargest(states, steps, i);
  }

  /* ---------- what the steps alone say ---------- */

  datatype Identity = Identity(id: string, instances: int)

  /** The last answer to a refresh, and the last identity, among the first i steps. */
  function LastFetched(steps: seq<Step>, i: nat): int
    requires i <= |steps|
  {
    if i == 0 then 0 else if steps[i - 1].FetchReturns? then steps[i - 1].instances else LastFetched(steps, i - 1)
  }

  function LastIdentity(steps: seq<Step>, i: nat): Identity
    requires i <= |steps|
  {
    if i == 0 then Identity([], 0)
    else if steps[i - 1].IdentityReturns? then Identity(steps[i - 1].id, steps[i - 1].instances)
    else LastIdentity(steps, i - 1)
  }

  /** The books of an observer of the steps: how many dials returned, which instance is connected by which
      of them, and how many instances were reported last. */
  datatype Ledger = Ledger(dialled: nat, connected: map<string, nat>, reported: int)

  function Books(steps: seq<Step>, i: nat): Ledger
    requires i <= |steps|
  {
    if i == 0 then Ledger(0, map[], 1)
    else
      Booking(Books(steps, i - 1), steps[i - 1], LastFetched(steps, i - 1), LastIdentity(steps, i - 1))
  }

  function Booking(b: Ledger, e: Step, fetched: int, who: Identity): Ledger {
    match e
    case DialReturns => b.(dialled := b.dialled + 1)
    case WriteTarget => b.(reported := fetched)
    case Track(_) => Entered(b, who)
    case DeleteEntry(t) => b.(connected := map id | id in b.connected && b.connected[id] != t :: b.connected[id])
    case _ => b
  }

  /** The tunnel dialled last connects its instance, unless that instance is connected already. */
  function Entered(b: Ledger, who: Identity): Ledger {
    if who.id in b.connected || b.dialled == 0 then b
    else b.(connected := b.connected[who.id := b.dialled - 1], reported := who.instances)
  }

  /** The manager works on what was answered last. */
  predicate ManagerFits(m: Manager, b: Ledger, fetched: int, who: Identity) {
    && (m.Writing? ==> m.instances == fetched)
    && (m.Identifying? || m.Holding? ==> b.dialled > 0 && m.held == b.dialled - 1)
    && (m.Holding? ==> Identity(m.id, m.instances) == who)
  }

  ghost predicate Booked(s: State, b: Ledger, fetched: int, who: Identity) {
    && s.created == b.dialled && s.conn.tracker == b.connected && s.conn.target == b.reported
    && ManagerFits(s.manager, b, fetched, who)
  }

  lemma {:induction false} BookedDelete(s: State, t: nat)
    requires Owned(s) && Enabled(s, DeleteEntry(t))
    ensures Apply(s, DeleteEntry(t)).conn.tracker == map id | id in s.conn.tracker && s.conn.tracker[id] != t :: s.conn.tracker[id]
  {
    assert Alive(s, t);
  }

  lemma {:induction false} BookedTrack(s: State, e: Step, b: Ledger, fetched: int, who: Identity)
    requires Enabled(s, e) && Booked(s, b, fetched, who) && e.Track?
    ensures Booked(Apply(s, e), Booking(b, e, fetched, who), fetched, who)
  {
  }

  lemma {:induction false} BookedServe(s: State, e: Step, b: Ledger, fetched: int, who: Identity)
    requires Owned(s) && Enabled(s, e) && Booked(s, b, fetched, who) && (e.ServeEnds? || e.DeleteEntry? || e.SendSignal?)
    ensures Booked(Apply(s, e), Booking(b, e, fetched, who), fetched, who)
  {
    if e.DeleteEntry? {
      BookedDelete(s, e.tunnel);
    }
  }

  lemma {:induction false} BookedOther(s: State, e: Step, b: Ledger, fetched: int, who: Identity)
    requires Enabled(s, e) && Booked(s, b, fetched, who)
    requires !e.Track? && !e.ServeEnds? && !e.DeleteEntry? && !e.SendSignal?
    ensures Booked(Apply(s, e), Booking(b, e, fetched, who), if e.FetchReturns? then e.instances else fetched,
                   if e.IdentityReturns? then Identity(e.id, e.instances) else who)
  {
  }

  lemma {:induction false} BookedStep(s: State, e: Step, b: Ledger, fetched: int, who: Identity)
    requires Owned(s) && Enabled(s, e) && Booked(s, b, fetched, who)
    ensures Booked(Apply(s, e), Booking(b, e, fetched, who), if e.FetchReturns? then e.instances else fetched,
                   if e.IdentityReturns? then Identity(e.id, e.instances) else who)
  {
    if e.Track? {
      BookedTrack(s, e, b, fetched, who);
    } else if e.ServeEnds? || e.DeleteEntry? || e.SendSignal? {
      BookedServe(s, e, b, fetched, who);
    } else {
      BookedOther(s, e, b, fetched, who);
    }
  }

  /** In every state, the tracker holds the connections and the target is the number of instances that the
      steps so far say: the one reported last, or 1 if none was. */
  lemma {:induction false} TargetIsLastReported(states: seq<State>, steps: seq<Step>, i: nat)
    requires IsRun(states, steps) && i <= |steps|
    ensures states[i].conn.target == Books(steps, i).reported
    ensures states[i].conn.tracker == Books(steps, i).connected
    ensures Booked(states[i], Books(steps, i), LastFetched(steps, i), LastIdentity(steps, i))
  {
    if i > 0 {
      TargetIsLastReported(states, steps, i - 1);
      RunKept(states, steps, i - 1);
      BookedStep(states[i - 1], steps[i - 1], Books(steps, i - 1), LastFetched(steps, i - 1), LastIdentity(steps, i - 1));
    }
  }

  /** The manager goes to wait exactly when as many instances are connected as were reported last, and
      connects otherwise. */
  lemma {:induction false} WaitsExactlyWhenEnough(states: seq<State>, steps: seq<Step>, i: nat)
    requires IsRun(states, steps) && i < |steps| && steps[i] == ReadState
    ensures states[i + 1].manager.Waiting? <==> |Books(steps, i).connected| >= Books(steps, i).reported
    ensures states[i + 1].manager.Waiting? || states[i + 1].manager.Connecting?
  {
    TargetIsLastReported(states, steps, i);
  }
}
