/** The worker proxy registry (pkg/provision/worker/proxy/manager.go) with the upstream pointer of
    pkg/provision/worker/proxy/downstream.go: its critical sections as steps of one machine, between
    which running links, removers and Close interleave in any order. */
module Proxy {
  import opened Options

  /** Objects are numbered in the order of their creation: upstreams, downstreams and handles. */
  datatype Upstream = Upstream(name: string, endpoints: seq<string>)

  /** A Link call that got a handle: it runs, has closed its done channel, or has returned. */
  datatype Phase = Running | Stopped | Returned

  datatype Run = Run(name: string, downstream: nat, phase: Phase, cancelled: bool)

  /** `links` is the upstream pointer of every downstream object; a Link call and its handle share an
      index into `runs`. `removing` and `closing` are the handles that RemoveDownstream calls and Close
      wait for; `cancelled` is the manager's context and `closed` says that Close took the handles. */
  datatype State = State(
    ups: seq<Upstream>,
    links: seq<Option<nat>>,
    runs: seq<Run>,
    upstreams: map<string, nat>,
    downstreams: map<string, nat>,
    handles: map<string, nat>,
    removing: set<nat>,
    closing: set<nat>,
    cancelled: bool,
    closed: bool)

  function Init(): State {
    State([], [], [], map[], map[], map[], {}, {}, false, false)
  }

  datatype Event =
    | AddUpstream(name: string, endpoints: seq<string>)
    | RemoveUpstream(name: string)
    | AddDownstream(name: string)
    | RemoveDownstream(name: string)
    | RemoverReturns(handle: nat)
    | Link(downstream: string, upstream: string)
    | RunStops(handle: nat)
    | LinkReturns(handle: nat)
    | Unlink(name: string)
    | CloseCancels
    | CloseTakesHandles
    | CloseAwaited(handle: nat)

  /* ---------- shape ---------- */

  predicate NamesWithin(m: map<string, nat>, bound: nat) {
    forall n | n in m :: m[n] < bound
  }

  predicate Within(hs: set<nat>, bound: nat) {
    forall h | h in hs :: h < bound
  }

  predicate LinksWithin(links: seq<Option<nat>>, bound: nat) {
    forall i | 0 <= i < |links| && links[i].Some? :: links[i].value < bound
  }

  predicate LinksShaped(s: State) {
    && NamesWithin(s.upstreams, |s.ups|) && NamesWithin(s.downstreams, |s.links|)
    && LinksWithin(s.links, |s.ups|)
  }

  predicate RunsShaped(s: State) {
    NamesWithin(s.handles, |s.runs|) && Within(s.removing, |s.runs|) && Within(s.closing, |s.runs|)
  }

  predicate Shaped(s: State) {
    LinksShaped(s) && RunsShaped(s)
  }

  /* ---------- the critical sections ---------- */

  function UpstreamAdded(s: State, name: string, endpoints: seq<string>): State
    requires LinksShaped(s)
  {
    if name in s.upstreams then
      s.(ups := s.ups[s.upstreams[name] := s.ups[s.upstreams[name]].(endpoints := endpoints)])
    else
      s.(ups := s.ups + [Upstream(name, endpoints)], upstreams := s.upstreams[name := |s.ups|])
  }

  /** The registered downstream objects whose upstream bears the name. */
  predicate LinkedTo(s: State, i: nat, name: string)
    requires LinksShaped(s) && i < |s.links|
  {
    i in s.downstreams.Values && s.links[i].Some? && s.ups[s.links[i].value].name == name
  }

  function UnlinkedFrom(s: State, name: string): seq<Option<nat>>
    requires LinksShaped(s)
  {
    seq(|s.links|, i requires 0 <= i < |s.links| => if LinkedTo(s, i, name) then None else s.links[i])
  }

  function UpstreamRemoved(s: State, name: string): State
    requires LinksShaped(s)
  {
    if name in s.upstreams then s.(upstreams := s.upstreams - {name}, links := UnlinkedFrom(s, name)) else s
  }

  function DownstreamAdded(s: State, name: string): State {
    if name in s.downstreams then s
    else s.(links := s.links + [None], downstreams := s.downstreams[name := |s.links|])
  }

  function DownstreamRemoved(s: State, name: string): State
    requires RunsShaped(s)
  {
    var gone := s.(handles := s.handles - {name}, downstreams := s.downstreams - {name});
    if name in s.handles then
      var h := s.handles[name];
      gone.(runs := s.runs[h := s.runs[h].(cancelled := true)], removing := s.removing + {h})
    else gone
  }

  datatype LinkOutcome = NoDownstream | NoUpstream | AlreadyRunning | Started

  function Outcome(s: State, downstream: string, upstream: string): LinkOutcome {
    if downstream !in s.downstreams then NoDownstream
    else if upstream !in s.upstreams then NoUpstream
    else if downstream in s.handles then AlreadyRunning
    else Started
  }

  /** The first critical section of Link; the upstream is swapped even where the call then fails
      because the downstream is already running. */
  function Linked(s: State, downstream: string, upstream: string): State
    requires LinksShaped(s)
  {
    var outcome := Outcome(s, downstream, upstream);
    if outcome == NoDownstream || outcome == NoUpstream then s else
    var swapped := s.(links := s.links[s.downstreams[downstream] := Some(s.upstreams[upstream])]);
    if outcome == AlreadyRunning then swapped
    else swapped.(runs := s.runs + [Run(downstream, s.downstreams[downstream], Running, false)],
                  handles := s.handles[downstream := |s.runs|])
  }

  function PhaseSet(s: State, h: nat, phase: Phase): State
    requires h < |s.runs|
  {
    s.(runs := s.runs[h := s.runs[h].(phase := phase)])
  }

  /** The last critical section of Link drops whatever handle stands under its name. */
  function LinkReturned(s: State, h: nat): State
    requires h < |s.runs|
  {
    PhaseSet(s, h, Returned).(handles := s.handles - {s.runs[h].name})
  }

  function Unlinked(s: State, name: string): State
    requires LinksShaped(s)
  {
    if name in s.downstreams then s.(links := s.links[s.downstreams[name] := None]) else s
  }

  function HandlesTaken(s: State): State {
    s.(closing := s.closing + s.handles.Values, handles := map[], closed := true)
  }

  predicate Enabled(s: State, e: Event) {
    Shaped(s) &&
    match e
    case RemoverReturns(h) => h in s.removing && !s.runs[h].phase.Running?
    case RunStops(h) => h < |s.runs| && s.runs[h].phase.Running?
    case LinkReturns(h) => h < |s.runs| && s.runs[h].phase.Stopped?
    case CloseTakesHandles => s.cancelled
    case CloseAwaited(h) => h in s.closing && !s.runs[h].phase.Running?
    case _ => true
  }

  function Apply(s: State, e: Event): State
    requires Enabled(s, e)
  {
    match e
    case AddUpstream(name, endpoints) => UpstreamAdded(s, name, endpoints)
    case RemoveUpstream(name) => UpstreamRemoved(s, name)
    case AddDownstream(name) => DownstreamAdded(s, name)
    case RemoveDownstream(name) => DownstreamRemoved(s, name)
    case RemoverReturns(h) => s.(removing := s.removing - {h})
    case Link(downstream, upstream) => Linked(s, downstream, upstream)
    case RunStops(h) => PhaseSet(s, h, Stopped)
    case LinkReturns(h) => LinkReturned(s, h)
    case Unlink(name) => Unlinked(s, name)
    case CloseCancels => s.(cancelled := true)
    case CloseTakesHandles => HandlesTaken(s)
    case CloseAwaited(h) => s.(closing := s.closing - {h})
  }

  /* ---------- what every step keeps ---------- */

  predicate Active(r: Run) {
    !r.phase.Returned?
  }

  /** A handle stands under the name of its own run, which has not returned. */
  predicate HandlesSound(s: State)
    requires RunsShaped(s)
  {
    forall n | n in s.handles :: s.runs[s.handles[n]].name == n && Active(s.runs[s.handles[n]])
  }

  predicate InTable(s: State, h: nat)
    requires h < |s.runs|
  {
    s.runs[h].name in s.handles && s.handles[s.runs[h].name] == h
  }

  /** A run is in the table, or a remover or Close waits for it until it stops. */
  predicate Tracked(s: State) {
    forall h | 0 <= h < |s.runs| && s.runs[h].phase.Running? ::
      InTable(s, h) || h in s.removing || h in s.closing
  }

  predicate OnePerName(runs: seq<Run>) {
    forall g, h | 0 <= g < h < |runs| && Active(runs[g]) && Active(runs[h]) :: runs[g].name != runs[h].name
  }

  /** Whatever is waited for has been told to stop. */
  predicate AwaitedCancelled(s: State)
    requires RunsShaped(s)
  {
    && (forall h | h in s.removing :: s.runs[h].cancelled || s.cancelled)
    && (s.closed ==> s.cancelled && s.handles == map[])
    && (s.closing != {} ==> s.closed)
  }

  /** An upstream is registered under its own name. */
  predicate UpstreamsNamed(ups: seq<Upstream>, upstreams: map<string, nat>)
    requires NamesWithin(upstreams, |ups|)
  {
    forall n | n in upstreams :: ups[upstreams[n]].name == n
  }

  predicate Registered(ups: seq<Upstream>, upstreams: map<string, nat>, link: Option<nat>) {
    link.Some? ==>
      link.value < |ups| && ups[link.value].name in upstreams && upstreams[ups[link.value].name] == link.value
  }

  /** The upstream of a registered downstream is none, or the object registered under that upstream's
      name. */
  predicate LinksRegistered(s: State)
    requires LinksShaped(s)
  {
    forall n | n in s.downstreams :: Registered(s.ups, s.upstreams, s.links[s.downstreams[n]])
  }

  predicate RunsCore(s: State) {
    RunsShaped(s) && HandlesSound(s) && Tracked(s) && OnePerName(s.runs)
  }

  predicate RunsInv(s: State) {
    RunsCore(s) && AwaitedCancelled(s)
  }

  predicate LinksInv(s: State) {
    LinksShaped(s) && UpstreamsNamed(s.ups, s.upstreams) && LinksRegistered(s)
  }

  /** Every earlier Link of the name has returned, or is still in the table. */
  predicate NoLeftover(s: State, name: string) {
    forall h | 0 <= h < |s.runs| && Active(s.runs[h]) && s.runs[h].name == name :: InTable(s, h)
  }

  /** What the callers must keep to: no Link of a name whose earlier Link still lives on after a removal,
      and no Link after Close. */
  predicate Disciplined(s: State, e: Event) {
    e.Link? ==> NoLeftover(s, e.downstream) && !s.closed
  }

  lemma {:induction false} LinkKept(s: State, downstream: string, upstream: string)
    requires LinksShaped(s) && RunsCore(s) && NoLeftover(s, downstream)
    ensures RunsCore(Linked(s, downstream, upstream))
  {
    LinkApart(s, downstream, upstream);
    var s' := Linked(s, downstream, upstream);
    assert forall h | 0 <= h < |s.runs| :: s'.runs[h] == s.runs[h];
  }

  lemma {:induction false} LinkApart(s: State, downstream: string, upstream: string)
    requires LinksShaped(s) && RunsCore(s) && NoLeftover(s, downstream)
    ensures OnePerName(Linked(s, downstream, upstream).runs)
  {
    var s' := Linked(s, downstream, upstream);
    assert forall h | 0 <= h < |s.runs| :: s'.runs[h] == s.runs[h];
  }

  lemma {:induction false} RemoveTracked(s: State, name: string)
    requires RunsCore(s)
    ensures Tracked(DownstreamRemoved(s, name))
  {
    var s' := DownstreamRemoved(s, name);
    assert forall h | 0 <= h < |s.runs| :: s'.runs[h].name == s.runs[h].name && s'.runs[h].phase == s.runs[h].phase;
  }

  lemma {:induction false} RemoveSound(s: State, name: string)
    requires RunsCore(s)
    ensures RunsShaped(DownstreamRemoved(s, name)) && HandlesSound(DownstreamRemoved(s, name))
  {
  }

  lemma {:induction false} RemoveApart(s: State, name: string)
    requires RunsCore(s)
    ensures OnePerName(DownstreamRemoved(s, name).runs)
  {
    var s' := DownstreamRemoved(s, name);
    assert forall h | 0 <= h < |s.runs| :: s'.runs[h].name == s.runs[h].name && s'.runs[h].phase == s.runs[h].phase;
  }

  lemma {:induction false} StopKept(s: State, h: nat)
    requires RunsCore(s) && h < |s.runs| && s.runs[h].phase.Running?
    ensures RunsCore(PhaseSet(s, h, Stopped))
  {
  }

  lemma {:induction false} ReturnKept(s: State, h: nat)
    requires RunsCore(s) && h < |s.runs| && s.runs[h].phase.Stopped?
    ensures RunsCore(LinkReturned(s, h))
  {
  }

  lemma {:induction false} CloseKept(s: State)
    requires RunsCore(s)
    ensures RunsCore(HandlesTaken(s))
  {
  }

  /** Every step keeps runs apart and tracked, as long as no Link starts beside a leftover of its name. */
  lemma {:induction false} CoreKept(s: State, e: Event)
    requires RunsCore(s) && Enabled(s, e) && (e.Link? ==> NoLeftover(s, e.downstream))
    ensures RunsCore(Apply(s, e))
  {
    match e {
      case RemoveDownstream(name) =>
        RemoveTracked(s, name);
        RemoveSound(s, name);
        RemoveApart(s, name);
      case Link(d, u) => LinkKept(s, d, u);
      case RunStops(h) => StopKept(s, h);
      case LinkReturns(h) => ReturnKept(s, h);
      case CloseTakesHandles => CloseKept(s);
      case _ =>
    }
  }

  lemma {:induction false} AwaitedKept(s: State, e: Event)
    requires Shaped(s) && AwaitedCancelled(s) && Enabled(s, e) && (e.Link? ==> !s.closed)
    ensures RunsShaped(Apply(s, e)) && AwaitedCancelled(Apply(s, e))
  {
  }

  lemma {:induction false} RunsKept(s: State, e: Event)
    requires RunsInv(s) && Enabled(s, e) && Disciplined(s, e)
    ensures RunsInv(Apply(s, e))
  {
    CoreKept(s, e);
    AwaitedKept(s, e);
  }

  lemma {:induction false} AddUpstreamNamed(s: State, name: string, endpoints: seq<string>)
    requires LinksInv(s)
    ensures LinksShaped(UpstreamAdded(s, name, endpoints))
    ensures UpstreamsNamed(UpstreamAdded(s, name, endpoints).ups, UpstreamAdded(s, name, endpoints).upstreams)
  {
  }

  lemma {:induction false} AddUpstreamKept(s: State, name: string, endpoints: seq<string>)
    requires LinksInv(s)
    ensures LinksInv(UpstreamAdded(s, name, endpoints))
  {
    var s' := UpstreamAdded(s, name, endpoints);
    AddUpstreamNamed(s, name, endpoints);
    forall n | n in s.downstreams
      ensures Registered(s'.ups, s'.upstreams, s.links[s.downstreams[n]])
    {
      assert Registered(s.ups, s.upstreams, s.links[s.downstreams[n]]);
    }
  }

  lemma {:induction false} AddDownstreamKept(s: State, name: string)
    requires LinksInv(s)
    ensures LinksInv(DownstreamAdded(s, name))
  {
    assert forall n | n in s.downstreams :: DownstreamAdded(s, name).links[s.downstreams[n]] == s.links[s.downstreams[n]];
  }

  lemma {:induction false} RemoveUpstreamKept(s: State, name: string)
    requires LinksInv(s)
    ensures LinksInv(UpstreamRemoved(s, name))
  {
    var s' := UpstreamRemoved(s, name);
    forall n | n in s.downstreams
      ensures Registered(s'.ups, s'.upstreams, s'.links[s.downstreams[n]])
    {
      assert s.downstreams[n] in s.downstreams.Values;
      assert Registered(s.ups, s.upstreams, s.links[s.downstreams[n]]);
    }
  }

  lemma {:induction false} LinkSwapKept(s: State, downstream: string, upstream: string)
    requires LinksInv(s)
    ensures LinksInv(Linked(s, downstream, upstream))
  {
  }

  lemma {:induction false} LinksKept(s: State, e: Event)
    requires LinksInv(s) && Enabled(s, e)
    ensures LinksInv(Apply(s, e))
  {
    match e {
      case AddUpstream(name, endpoints) => AddUpstreamKept(s, name, endpoints);
      case RemoveUpstream(name) => RemoveUpstreamKept(s, name);
      case AddDownstream(name) => AddDownstreamKept(s, name);
      case Link(d, u) => LinkSwapKept(s, d, u);
      case _ =>
    }
  }

  /* ---------- whole runs ---------- */

  predicate IsRun(states: seq<State>, events: seq<Event>) {
    && |states| == |events| + 1
    && states[0] == Init()
    && forall k | 0 <= k < |events| :: Enabled(states[k], events[k]) && states[k + 1] == Apply(states[k], events[k])
  }

  predicate IsDisciplinedRun(states: seq<State>, events: seq<Event>) {
    IsRun(states, events) && forall k | 0 <= k < |events| :: Disciplined(states[k], events[k])
  }

  lemma {:induction false} RunsInvAlways(states: seq<State>, events: seq<Event>, k: nat)
    requires IsDisciplinedRun(states, events) && k < |states|
    ensures RunsInv(states[k])
  {
    if k > 0 {
      RunsInvAlways(states, events, k - 1);
      RunsKept(states[k - 1], events[k - 1]);
    }
  }

  lemma {:induction false} LinksInvAlways(states: seq<State>, events: seq<Event>, k: nat)
    requires IsRun(states, events) && k < |states|
    ensures LinksInv(states[k])
  {
    if k > 0 {
      LinksInvAlways(states, events, k - 1);
      LinksKept(states[k - 1], events[k - 1]);
    }
  }

  predicate RunsOnce(runs: seq<Run>) {
    forall g, h | 0 <= g < h < |runs| && runs[g].phase.Running? && runs[h].phase.Running? ::
      runs[g].name != runs[h].name
  }

  /** No downstream name runs twice at once, and every run is in the table or being waited for. */
  lemma {:induction false} RunsOnceAndTracked(states: seq<State>, events: seq<Event>, k: nat)
    requires IsDisciplinedRun(states, events) && k < |states|
    ensures RunsOnce(states[k].runs) && Tracked(states[k])
  {
    RunsInvAlways(states, events, k);
  }

  /** Whatever a remover or Close waits for has been told to stop. */
  lemma {:induction false} AwaitedToldToStop(states: seq<State>, events: seq<Event>, k: nat, h: nat)
    requires IsDisciplinedRun(states, events) && k < |states|
    requires h in states[k].removing || h in states[k].closing
    ensures h < |states[k].runs| && (states[k].runs[h].cancelled || states[k].cancelled)
  {
    RunsInvAlways(states, events, k);
  }

  /** Once Close has nothing more to wait for, whatever still runs has been cancelled and is being waited
      for by a RemoveDownstream call that has not returned. */
  lemma {:induction false} CloseStopsRuns(states: seq<State>, events: seq<Event>, k: nat, h: nat)
    requires IsDisciplinedRun(states, events) && k < |states|
    requires states[k].closed && states[k].closing == {}
    requires h < |states[k].runs| && states[k].runs[h].phase.Running?
    ensures states[k].cancelled && h in states[k].removing
  {
    RunsInvAlways(states, events, k);
  }

  /** In every run, disciplined or not, a registered downstream forwards to nothing or to the very object
      registered under its upstream's name. */
  lemma {:induction false} ForwardsToRegistered(states: seq<State>, events: seq<Event>, k: nat, name: string)
    requires IsRun(states, events) && k < |states| && name in states[k].downstreams
    ensures LinksShaped(states[k])
    ensures var link := states[k].links[states[k].downstreams[name]];
            link.None? || exists u :: u in states[k].upstreams && link == Some(states[k].upstreams[u])
  {
    LinksInvAlways(states, events, k);
    var s := states[k];
    assert Registered(s.ups, s.upstreams, s.links[s.downstreams[name]]);
  }

  /* ---------- what a downstream dials ---------- */

  /** The endpoints a registered downstream tries for a new connection. */
  function Dials(s: State, name: string): Option<seq<string>>
    requires LinksShaped(s) && name in s.downstreams
  {
    var link := s.links[s.downstreams[name]];
    if link.None? then None else Some(s.ups[link.value].endpoints)
  }

  function UpstreamOf(s: State, name: string): Option<string>
    requires LinksShaped(s) && name in s.downstreams
  {
    var link := s.links[s.downstreams[name]];
    if link.None? then None else Some(s.ups[link.value].name)
  }

  /** Updating a registered upstream reaches exactly the downstreams linked to its name. */
  lemma {:induction false} UpdateReachesLinked(s: State, upstream: string, endpoints: seq<string>, name: string)
    requires LinksInv(s) && upstream in s.upstreams && name in s.downstreams
    ensures LinksShaped(UpstreamAdded(s, upstream, endpoints))
    ensures Dials(UpstreamAdded(s, upstream, endpoints), name) ==
              if UpstreamOf(s, name) == Some(upstream) then Some(endpoints) else Dials(s, name)
  {
    AddUpstreamKept(s, upstream, endpoints);
    assert Registered(s.ups, s.upstreams, s.links[s.downstreams[name]]);
  }

  /** Removing an upstream cuts off exactly the downstreams linked to its name. */
  lemma {:induction false} RemovalCutsOffLinked(s: State, upstream: string, name: string)
    requires LinksInv(s) && name in s.downstreams
    ensures LinksShaped(UpstreamRemoved(s, upstream))
    ensures Dials(UpstreamRemoved(s, upstream), name) ==
              if UpstreamOf(s, name) == Some(upstream) then None else Dials(s, name)
  {
    RemoveUpstreamKept(s, upstream);
    assert s.downstreams[name] in s.downstreams.Values;
    assert Registered(s.ups, s.upstreams, s.links[s.downstreams[name]]);
  }

  /** Unlinking a registered downstream cuts it off, and no other. */
  lemma {:induction false} UnlinkCutsOff(s: State, unlinked: string, name: string)
    requires LinksInv(s) && name in s.downstreams && Apart(s.downstreams)
    ensures LinksShaped(Unlinked(s, unlinked))
    ensures Dials(Unlinked(s, unlinked), name) == if name == unlinked then None else Dials(s, name)
  {
    LinksKeptByUnlink(s, unlinked);
  }

  lemma {:induction false} LinksKeptByUnlink(s: State, name: string)
    requires LinksInv(s)
    ensures LinksInv(Unlinked(s, name))
  {
  }

  /** Linking a registered downstream to a registered upstream makes it dial that one, whether or not it is
      already running, and no other downstream changes; a Link that names something unknown changes nothing. */
  lemma {:induction false} LinkSwitches(s: State, downstream: string, upstream: string, name: string)
    requires LinksInv(s) && name in s.downstreams && Apart(s.downstreams)
    ensures LinksShaped(Linked(s, downstream, upstream)) && name in Linked(s, downstream, upstream).downstreams
    ensures
      var known := downstream in s.downstreams && upstream in s.upstreams;
      Dials(Linked(s, downstream, upstream), name) ==
        if known && name == downstream then Some(s.ups[s.upstreams[upstream]].endpoints) else Dials(s, name)
  {
    LinkSwapKept(s, downstream, upstream);
  }

  /** A downstream linked to an upstream dials the endpoints it was last added with. */
  lemma {:induction false} LinkDialsAdded(s: State, upstream: string, endpoints: seq<string>, name: string)
    requires LinksInv(s) && name in s.downstreams
    ensures
      var added := UpstreamAdded(s, upstream, endpoints);
      && LinksInv(added) && name in added.downstreams
      && LinksShaped(Linked(added, name, upstream)) && name in Linked(added, name, upstream).downstreams
      && Dials(Linked(added, name, upstream), name) == Some(endpoints)
  {
    AddUpstreamKept(s, upstream, endpoints);
    LinkSwapKept(UpstreamAdded(s, upstream, endpoints), name, upstream);
  }

  /** Nothing can be linked to a removed upstream. */
  lemma {:induction false} RemovedUpstreamIsUnknown(s: State, upstream: string, name: string)
    requires LinksShaped(s) && name in s.downstreams
    ensures Outcome(UpstreamRemoved(s, upstream), name, upstream) == NoUpstream
  {
  }

  /** Adding a downstream registers it without an upstream, unless it is registered already, and removing it
      makes it unknown; neither concerns another downstream. */
  lemma {:induction false} DownstreamComesAndGoes(s: State, added: string, name: string)
    requires Shaped(s) && LinksInv(s)
    ensures
      var s', s'' := DownstreamAdded(s, added), DownstreamRemoved(s, added);
      && LinksShaped(s') && LinksShaped(s'') && added in s'.downstreams && added !in s''.downstreams
      && (added !in s.downstreams ==> Dials(s', added) == None)
      && (name in s.downstreams ==> name in s'.downstreams && Dials(s', name) == Dials(s, name))
      && (name in s.downstreams && name != added ==> name in s''.downstreams && Dials(s'', name) == Dials(s, name))
  {
  }

  /** Distinct names are registered with distinct downstream objects. */
  predicate Apart(downstreams: map<string, nat>) {
    forall m, n | m in downstreams && n in downstreams && m != n :: downstreams[m] != downstreams[n]
  }

  lemma {:induction false} ApartKept(s: State, e: Event)
    requires LinksShaped(s) && Apart(s.downstreams) && Enabled(s, e)
    ensures Apart(Apply(s, e).downstreams)
  {
  }

  lemma {:induction false} ApartAlways(states: seq<State>, events: seq<Event>, k: nat)
    requires IsRun(states, events) && k < |states|
    ensures Apart(states[k].downstreams)
  {
    if k > 0 {
      ApartAlways(states, events, k - 1);
      LinksInvAlways(states, events, k - 1);
      ApartKept(states[k - 1], events[k - 1]);
    }
  }

  /* ---------- the discipline is needed ---------- */

  /** A Link keeps names running once exactly when it is refused or nothing of that name runs. */
  lemma {:induction false} LinkOnceExactly(s: State, downstream: string, upstream: string)
    requires LinksShaped(s) && RunsOnce(s.runs)
    ensures RunsOnce(Linked(s, downstream, upstream).runs) <==>
              || Outcome(s, downstream, upstream) != Started
              || forall h | 0 <= h < |s.runs| && s.runs[h].phase.Running? :: s.runs[h].name != downstream
  {
    var runs := Linked(s, downstream, upstream).runs;
    assert forall h | 0 <= h < |s.runs| :: runs[h] == s.runs[h];
    if Outcome(s, downstream, upstream) == Started {
      assert runs[|s.runs|] == Run(downstream, s.downstreams[downstream], Running, false);
    }
  }

  function Finished(s: State, h: nat): State
    requires RunsShaped(s) && h < |s.runs|
  {
    LinkReturned(if s.runs[h].phase.Running? then PhaseSet(s, h, Stopped) else s, h)
  }

  /** Wherever a Link starts beside a leftover of its name, the return of that leftover drops the new
      handle: the new run goes on in no table and with nobody waiting for it. */
  lemma {:induction false} LeftoverDropsHandle(s: State, downstream: string, upstream: string, h: nat)
    requires LinksShaped(s) && RunsShaped(s) && Outcome(s, downstream, upstream) == Started
    requires h < |s.runs| && s.runs[h].name == downstream
    ensures RunsShaped(Linked(s, downstream, upstream)) && h < |Linked(s, downstream, upstream).runs|
    ensures !Tracked(Finished(Linked(s, downstream, upstream), h))
  {
    var s' := Finished(Linked(s, downstream, upstream), h);
    assert s'.runs[|s.runs|].phase.Running? && !InTable(s', |s.runs|);
  }

  /** The run goes on from s, and no later Link starts beside a leftover of its name. */
  predicate Continues(s: State, states: seq<State>, events: seq<Event>) {
    && |states| == |events| + 1
    && states[0] == s
    && (forall k | 0 <= k < |events| :: Enabled(states[k], events[k]) && states[k + 1] == Apply(states[k], events[k]))
    && (forall k | 0 <= k < |events| && events[k].Link? :: NoLeftover(states[k], events[k].downstream))
  }

  ghost predicate AlwaysTracked(s: State) {
    forall states, events | Continues(s, states, events) :: Tracked(states[|events|])
  }

  lemma {:induction false} CoreAlways(s: State, states: seq<State>, events: seq<Event>, k: nat)
    requires RunsCore(s) && Continues(s, states, events) && k < |states|
    ensures RunsCore(states[k])
  {
    if k > 0 {
      CoreAlways(s, states, events, k - 1);
      CoreKept(states[k - 1], events[k - 1]);
    }
  }

  lemma {:induction false} LinkShaped(s: State, downstream: string, upstream: string)
    requires Shaped(s)
    ensures Shaped(Linked(s, downstream, upstream))
    ensures forall h | 0 <= h < |s.runs| ::
              h < |Linked(s, downstream, upstream).runs| && Linked(s, downstream, upstream).runs[h] == s.runs[h]
  {
  }

  lemma {:induction false} FinishContinues(s: State, h: nat)
    requires Shaped(s) && h < |s.runs| && Active(s.runs[h]) && !Tracked(Finished(s, h))
    ensures !AlwaysTracked(s)
  {
    if s.runs[h].phase.Running? {
      var s1 := PhaseSet(s, h, Stopped);
      var states, events := [s, s1, LinkReturned(s1, h)], [RunStops(h), LinkReturns(h)];
      assert Continues(s, states, events);
    } else {
      var states, events := [s, LinkReturned(s, h)], [LinkReturns(h)];
      assert Continues(s, states, events);
    }
  }

  /** A Link that starts leaves every run tracked for good, however things go on, if and only if there is
      no leftover of its name. */
  lemma {:induction false} LinkTrackedExactly(s: State, downstream: string, upstream: string)
    requires LinksShaped(s) && RunsCore(s) && Outcome(s, downstream, upstream) == Started
    ensures AlwaysTracked(Linked(s, downstream, upstream)) <==> NoLeftover(s, downstream)
  {
    if NoLeftover(s, downstream) {
      var s1 := Linked(s, downstream, upstream);
      LinkKept(s, downstream, upstream);
      forall states, events | Continues(s1, states, events) ensures Tracked(states[|events|]) {
        CoreAlways(s1, states, events, |events|);
      }
    } else {
      var h :| 0 <= h < |s.runs| && Active(s.runs[h]) && s.runs[h].name == downstream && !InTable(s, h);
      LeftoverDropsHandle(s, downstream, upstream, h);
      LinkShaped(s, downstream, upstream);
      FinishContinues(Linked(s, downstream, upstream), h);
    }
  }

  lemma {:induction false} RunExtended(states: seq<State>, events: seq<Event>, e: Event)
    requires IsRun(states, events) && Enabled(states[|events|], e)
    ensures IsRun(states + [Apply(states[|events|], e)], events + [e])
  {
  }

  /** The first Link of "d" has stopped but not returned, its remover has returned, and "d" is new. */
  const RELINKING :=
    State([Upstream("u", [])], [Some(0), None], [Run("d", 0, Stopped, true)], map["u" := 0], map["d" := 1], map[],
          {}, {}, false, false)

  const REMOVING :=
    State([Upstream("u", [])], [Some(0)], [Run("d", 0, Running, true)], map["u" := 0], map[], map[], {0}, {},
          false, false)

  const LINKED :=
    State([Upstream("u", [])], [Some(0)], [Run("d", 0, Running, false)], map["u" := 0], map["d" := 0], map["d" := 0],
          {}, {}, false, false)

  lemma {:induction false} LinkBegun() returns (states: seq<State>, events: seq<Event>)
    ensures IsRun(states, events) && states[|events|] == LINKED
  {
    var up, u, d := Upstream("u", []), map["u" := 0], map["d" := 0];
    events := [AddUpstream("u", []), AddDownstream("d"), Link("d", "u")];
    states := [
      Init(),
      Init().(ups := [up], upstreams := u),
      State([up], [None], [], u, d, map[], {}, {}, false, false),
      LINKED
    ];
  }

  lemma {:induction false} RemovalBegun() returns (states: seq<State>, events: seq<Event>)
    ensures IsRun(states, events) && states[|events|] == REMOVING
  {
    states, events := LinkBegun();
    RunExtended(states, events, RemoveDownstream("d"));
    states, events := states + [DownstreamRemoved(LINKED, "d")], events + [RemoveDownstream("d")];
  }

  lemma {:induction false} RelinkBegun() returns (states: seq<State>, events: seq<Event>)
    ensures IsRun(states, events) && states[|events|] == RELINKING
  {
    states, events := RemovalBegun();
    var s1 := PhaseSet(REMOVING, 0, Stopped);
    RunExtended(states, events, RunStops(0));
    states, events := states + [s1], events + [RunStops(0)];
    var s2 := s1.(removing := s1.removing - {0});
    RunExtended(states, events, RemoverReturns(0));
    states, events := states + [s2], events + [RemoverReturns(0)];
    RunExtended(states, events, AddDownstream("d"));
    states, events := states + [DownstreamAdded(s2, "d")], events + [AddDownstream("d")];
  }

  const LOST :=
    State([Upstream("u", [])], [Some(0), Some(0)], [Run("d", 0, Returned, true), Run("d", 1, Running, false)],
          map["u" := 0], map["d" := 1], map[], {}, {}, false, false)

  lemma {:induction false} HandleLost() returns (states: seq<State>, events: seq<Event>)
    ensures IsRun(states, events) && states[|events|] == LOST
  {
    states, events := RelinkBegun();
    var s := Linked(RELINKING, "d", "u");
    RunExtended(states, events, Link("d", "u"));
    states, events := states + [s], events + [Link("d", "u")];
    RunExtended(states, events, LinkReturns(0));
    states, events := states + [LinkReturned(s, 0)], events + [LinkReturns(0)];
  }

  /** Removing a downstream, waiting for that to return, and adding and linking the name again is enough:
      the first Link has yet to clean up, the new run is lost from the table, and a third Link makes the
      name run twice. */
  lemma {:induction false} RelinkRunsTwice() returns (states: seq<State>, events: seq<Event>)
    ensures IsRun(states, events) && !RunsOnce(states[|events|].runs)
  {
    states, events := HandleLost();
    assert LOST.runs[1] == Run("d", 1, Running, false);
    LinkOnceExactly(LOST, "d", "u");
    RunExtended(states, events, Link("d", "u"));
    states, events := states + [Linked(LOST, "d", "u")], events + [Link("d", "u")];
  }

  /* ---------- the registry as an object ---------- */

  lemma {:induction false} KeptIfDisciplined(s: State, e: Event)
    requires Enabled(s, e)
    ensures RunsInv(s) && Disciplined(s, e) ==> RunsInv(Apply(s, e))
  {
    if RunsInv(s) && Disciplined(s, e) {
      RunsKept(s, e);
    }
  }

  class Manager {
    var ups: seq<Upstream>
    var links: seq<Option<nat>>
    var runs: seq<Run>
    var upstreams: map<string, nat>
    var downstreams: map<string, nat>
    var handles: map<string, nat>
    ghost var removing: set<nat>
    var closing: set<nat>
    var cancelled: bool
    var closed: bool

    ghost function View(): State
      reads this
    {
      State(ups, links, runs, upstreams, downstreams, handles, removing, closing, cancelled, closed)
    }

    constructor ()
      ensures View() == Init()
    {
      ups, links, runs := [], [], [];
      upstreams, downstreams, handles := map[], map[], map[];
      removing, closing, cancelled, closed := {}, {}, false, false;
    }

    method AddUpstream(name: string, endpoints: seq<string>) returns (u: nat)
      requires LinksInv(View())
      modifies this
      ensures View() == UpstreamAdded(old(View()), name, endpoints)
      ensures LinksInv(View()) && upstreams[name] == u && ups[u] == Upstream(name, endpoints)
    {
      AddUpstreamKept(View(), name, endpoints);
      if name in upstreams {
        u := upstreams[name];
        ups := ups[u := ups[u].(endpoints := endpoints)];
        return;
      }
      u := |ups|;
      ups := ups + [Upstream(name, endpoints)];
      upstreams := upstreams[name := u];
    }

    /** Unlinks the registered downstreams one by one, in any order. */
    method UnlinkAll(name: string)
      requires LinksShaped(View())
      modifies this`links
      ensures links == UnlinkedFrom(old(View()), name)
    {
      var rest := downstreams.Keys;
      ghost var was, done := View(), {};
      while rest != {}
        invariant rest <= downstreams.Keys && done <= downstreams.Values && |links| == |was.links|
        invariant forall n | n in downstreams :: n in rest || downstreams[n] in done
        invariant forall i | 0 <= i < |links| ::
                    links[i] == if i in done && LinkedTo(was, i, name) then None else was.links[i]
        decreases rest
      {
        var n :| n in rest;
        var d := downstreams[n];
        if links[d].Some? && ups[links[d].value].name == name {
          links := links[d := None];
        }
        rest := rest - {n};
        done := done + {d};
      }
    }

    method RemoveUpstream(name: string)
      requires LinksInv(View())
      modifies this
      ensures View() == UpstreamRemoved(old(View()), name) && LinksInv(View())
    {
      RemoveUpstreamKept(View(), name);
      if name !in upstreams {
        return;
      }
      upstreams := upstreams - {name};
      ghost var was := View();
      UnlinkAll(name);
      assert UnlinkedFrom(was, name) == UnlinkedFrom(old(View()), name);
    }

    method AddDownstream(name: string) returns (d: nat)
      requires LinksInv(View())
      modifies this
      ensures View() == DownstreamAdded(old(View()), name)
      ensures LinksInv(View()) && downstreams[name] == d
    {
      AddDownstreamKept(View(), name);
      if name in downstreams {
        return downstreams[name];
      }
      d := |links|;
      links := links + [None];
      downstreams := downstreams[name := d];
    }

    /** The locked part of RemoveDownstream; it returns the handle to wait for. */
    method RemoveDownstream(name: string) returns (wait: Option<nat>)
      requires Shaped(View())
      modifies this
      ensures View() == DownstreamRemoved(old(View()), name) && (old(RunsInv(View())) ==> RunsInv(View()))
      ensures wait == if name in old(handles) then Some(old(handles[name])) else None
    {
      KeptIfDisciplined(View(), Event.RemoveDownstream(name));
      wait := None;
      if name in handles {
        wait := Some(handles[name]);
        runs := runs[handles[name] := runs[handles[name]].(cancelled := true)];
        removing := removing + {handles[name]};
      }
      handles := handles - {name};
      downstreams := downstreams - {name};
    }

    /** The first locked part of Link; `started` is the handle of the new run. */
    method Link(downstream: string, upstream: string) returns (outcome: LinkOutcome, started: Option<nat>)
      requires LinksInv(View()) && RunsShaped(View())
      modifies this
      ensures View() == Linked(old(View()), downstream, upstream)
      ensures LinksInv(View()) && outcome == Outcome(old(View()), downstream, upstream)
      ensures old(RunsInv(View()) && Disciplined(View(), Event.Link(downstream, upstream))) ==> RunsInv(View())
      ensures started == if outcome == Started then Some(|old(runs)|) else None
    {
      LinkSwapKept(View(), downstream, upstream);
      KeptIfDisciplined(View(), Event.Link(downstream, upstream));
      if downstream !in downstreams {
        return NoDownstream, None;
      }
      if upstream !in upstreams {
        return NoUpstream, None;
      }
      links := links[downstreams[downstream] := Some(upstreams[upstream])];
      if downstream in handles {
        return AlreadyRunning, None;
      }
      outcome, started := Started, Some(|runs|);
      handles := handles[downstream := |runs|];
      runs := runs + [Run(downstream, downstreams[downstream], Running, false)];
    }

    /** The last locked part of Link. */
    method LinkReturns(h: nat)
      requires Shaped(View()) && h < |runs| && runs[h].phase.Stopped?
      modifies this
      ensures View() == LinkReturned(old(View()), h) && (old(RunsInv(View())) ==> RunsInv(View()))
    {
      KeptIfDisciplined(View(), Event.LinkReturns(h));
      handles := handles - {runs[h].name};
      runs := runs[h := runs[h].(phase := Returned)];
    }

    method Unlink(name: string) returns (found: bool)
      requires LinksInv(View())
      modifies this
      ensures View() == Unlinked(old(View()), name) && LinksInv(View()) && found == (name in old(downstreams))
    {
      found := name in downstreams;
      if found {
        links := links[downstreams[name] := None];
      }
    }

    method ActiveHandles() returns (active: seq<nat>)
      ensures forall h :: h in active <==> h in handles.Values
    {
      active := [];
      var rest := handles.Keys;
      while rest != {}
        invariant rest <= handles.Keys
        invariant forall n | n in handles :: n in rest || handles[n] in active
        invariant forall h | h in active :: h in handles.Values
        decreases rest
      {
        var n :| n in rest;
        active := active + [handles[n]];
        rest := rest - {n};
      }
    }

    /** The locked part of Close; it collects the handles to wait for. */
    method TakeHandles() returns (active: seq<nat>)
      requires Shaped(View()) && cancelled
      modifies this
      ensures View() == HandlesTaken(old(View())) && (old(RunsInv(View())) ==> RunsInv(View()))
      ensures forall h :: h in active <==> h in old(handles).Values
    {
      KeptIfDisciplined(View(), Event.CloseTakesHandles);
      active := ActiveHandles();
      closing := closing + set h | h in active;
      handles, closed := map[], true;
    }
  }
}
