/** The WorkerJoinToken controller (internal/controller/clusteragent/workerjointoken_controller.go) with
    the token issuing of pkg/token/create.go: a worker whose API calls may fail or conflict, a lagging
    cache, tampering, expiry and deletion, and the bootstrap tokens that are live meanwhile. */
module JoinToken {
  import opened Options

  /** What a join-token Secret holds: the kubeconfig of a token, or something else. The checksum in the
      status is taken as injective, so it is the content it was taken of. */
  datatype Content = Kubeconfig(id: nat) | Tampered(text: string)

  datatype Issued = Issued(id: nat, expiresAt: nat, checksum: Content)

  datatype Condition = Unset | TokenIssued | Expired | Degraded

  /** The custom resource; token id, expiry, secret reference and checksum are recorded together. */
  datatype Resource = Resource(deleting: bool, finalizer: bool, issued: Option<Issued>, ready: Condition)

  /** The API call that a worker makes next. */
  datatype Step =
    | AddFinalizer
    | CheckSecret
    | IssueToken
    | WriteSecret
    | RevokePrevious
    | RecordStatus
    | Degrade
    | Expire
    | RevokeLast
    | RemoveFinalizer

  /** A busy worker holds the version of the resource it read, in a mint the new token, and after a
      revocation whether that failed. */
  datatype Worker =
    | Idle
    | Busy(rv: nat, res: Resource, step: Step, token: Option<nat>, failed: bool)

  /** Every version of the resource, oldest first; None once it is gone. `live` are the bootstrap tokens
      that exist, with ids below `next`, which are handed out once each. */
  datatype State = State(
    versions: seq<Option<Resource>>,
    seen: nat,
    live: set<nat>,
    next: nat,
    worker: Worker,
    failedMints: nat,
    failedRevokes: nat)

  predicate Shaped(s: State) {
    s.seen < |s.versions|
  }

  function Current(s: State): Option<Resource>
    requires Shaped(s)
  {
    s.versions[|s.versions| - 1]
  }

  function Init(): State {
    State([Some(Resource(false, false, None, Unset))], 0, {}, 0, Idle, 0, 0)
  }

  /** How an API call turned out. `partly` is a token that was created although issuing it failed;
      `secret` is what reading the join-token Secret returned; `now` is the clock. */
  datatype Reply = Reply(ok: bool, partly: bool, secret: Option<Content>, now: nat)

  datatype Event =
    | Begin
    | Proceed(reply: Reply)
    | UserDeletes
    | TokenCleaned(id: nat)
    | CacheReaches(to: nat)

  /* ---------- the controller ---------- */

  function GoIdle(s: State): State {
    s.(worker := Idle)
  }

  function Go(s: State, rv: nat, r: Resource, step: Step): State {
    s.(worker := Busy(rv, r, step, None, false))
  }

  /** An update made from an old version conflicts. */
  predicate Accepted(s: State, rv: nat, ok: bool) {
    ok && rv == |s.versions| - 1
  }

  function Update(s: State, rv: nat, ok: bool, r: Option<Resource>): State {
    if Accepted(s, rv, ok) then s.(versions := s.versions + [r], worker := Idle) else GoIdle(s)
  }

  function FirstStep(r: Resource): Option<Step> {
    if r.deleting then (if r.finalizer then Some(RevokeLast) else None)
    else if !r.finalizer then Some(AddFinalizer)
    else if r.issued.None? then Some(IssueToken)
    else Some(CheckSecret)
  }

  function BeginReconcile(s: State): State
    requires Shaped(s)
  {
    match s.versions[s.seen]
    case None => GoIdle(s)
    case Some(r) => if FirstStep(r).None? then GoIdle(s) else Go(s, s.seen, r, FirstStep(r).value)
  }

  predicate Drifted(issued: Issued, secret: Option<Content>) {
    secret != Some(issued.checksum)
  }

  function Checked(s: State, rv: nat, r: Resource, issued: Issued, reply: Reply): State {
    if Drifted(issued, reply.secret) then Go(s, rv, r, IssueToken)
    else if reply.now < issued.expiresAt || r.ready == Expired then GoIdle(s)
    else Go(s, rv, r, Expire)
  }

  function Mint(s: State, id: nat): State {
    s.(live := s.live + {id}, next := s.next + 1)
  }

  function FailMint(s: State, rv: nat, r: Resource): State {
    Go(s, rv, r, Degrade).(failedMints := s.failedMints + 1)
  }

  function IssuedToken(s: State, rv: nat, r: Resource, reply: Reply): State {
    if reply.ok then Mint(s, s.next).(worker := Busy(rv, r, WriteSecret, Some(s.next), false))
    else if reply.partly then FailMint(Mint(s, s.next), rv, r)
    else FailMint(s, rv, r)
  }

  function WroteSecret(s: State, rv: nat, r: Resource, id: nat, ok: bool): State {
    if ok then s.(worker := Busy(rv, r, RevokePrevious, Some(id), false)) else FailMint(s, rv, r)
  }

  function RevokedPrevious(s: State, rv: nat, r: Resource, id: nat, ok: bool): State {
    if ok || r.issued.None? then
      s.(live := s.live - Recorded(Some(r)), worker := Busy(rv, r, RecordStatus, Some(id), false))
    else
      s.(failedMints := s.failedMints + 1, worker := Busy(rv, r, RecordStatus, Some(id), true))
  }

  function RecordedStatus(s: State, rv: nat, r: Resource, id: nat, failed: bool, reply: Reply, ttl: nat): State {
    var minted := r.(issued := Some(Issued(id, reply.now + ttl, Kubeconfig(id))), ready := TokenIssued);
    if Accepted(s, rv, reply.ok) || failed then Update(s, rv, reply.ok, Some(minted))
    else GoIdle(s).(failedMints := s.failedMints + 1)
  }

  function RevokedLast(s: State, rv: nat, r: Resource, ok: bool): State {
    if ok || r.issued.None? then
      s.(live := s.live - Recorded(Some(r)), worker := Busy(rv, r, RemoveFinalizer, None, false))
    else
      s.(failedRevokes := s.failedRevokes + 1, worker := Busy(rv, r, RemoveFinalizer, None, true))
  }

  /** The next API call of the worker. */
  function ProceedWorker(s: State, reply: Reply, ttl: nat): State
    requires s.worker.Busy? && (s.worker.token.Some? <==> Minting(s.worker.step))
    requires s.worker.step.CheckSecret? ==> s.worker.res.issued.Some?
  {
    var Busy(rv, r, step, token, failed) := s.worker;
    match step
    case AddFinalizer => Update(s, rv, reply.ok, Some(r.(finalizer := true)))
    case CheckSecret => if reply.ok then Checked(s, rv, r, r.issued.value, reply) else GoIdle(s)
    case IssueToken => IssuedToken(s, rv, r, reply)
    case WriteSecret => WroteSecret(s, rv, r, token.value, reply.ok)
    case RevokePrevious => RevokedPrevious(s, rv, r, token.value, reply.ok)
    case RecordStatus => RecordedStatus(s, rv, r, token.value, failed, reply, ttl)
    case Degrade => Update(s, rv, reply.ok, Some(r.(ready := Degraded)))
    case Expire => Update(s, rv, reply.ok, Some(r.(ready := Expired)))
    case RevokeLast => RevokedLast(s, rv, r, reply.ok)
    case RemoveFinalizer => Update(s, rv, reply.ok, None)
  }

  predicate Minting(step: Step) {
    step.WriteSecret? || step.RevokePrevious? || step.RecordStatus?
  }

  predicate Enabled(s: State, e: Event) {
    Shaped(s) && SoundWorker(s) &&
    match e
    case Begin => s.worker.Idle?
    case Proceed(_) => s.worker.Busy?
    case UserDeletes => Current(s).Some? && !Current(s).value.deleting
    case TokenCleaned(id) => id in s.live
    case CacheReaches(to) => s.seen <= to < |s.versions|
  }

  function Apply(s: State, e: Event, ttl: nat): State
    requires Enabled(s, e)
  {
    match e
    case Begin => BeginReconcile(s)
    case Proceed(reply) => ProceedWorker(s, reply, ttl)
    case UserDeletes => s.(versions := s.versions + [Deleted(Current(s).value)])
    case TokenCleaned(id) => s.(live := s.live - {id})
    case CacheReaches(to) => s.(seen := to)
  }

  /** Deleting a resource waits for its finalizer. */
  function Deleted(r: Resource): Option<Resource> {
    if r.finalizer then Some(r.(deleting := true)) else None
  }

  /* ---------- the accounting ---------- */

  /** The token that a version of the resource names, if any. */
  function Recorded(r: Option<Resource>): set<nat> {
    if r.Some? && r.value.issued.Some? then {r.value.issued.value.id} else {}
  }

  /** The token of a mint in progress. */
  function InFlight(w: Worker): set<nat> {
    if w.Busy? && w.token.Some? then {w.token.value} else {}
  }

  /** Live tokens that no status names and no mint is about to record. */
  function Orphans(s: State): set<nat>
    requires Shaped(s)
  {
    set id | id in s.live && id !in Recorded(Current(s)) && id !in InFlight(s.worker)
  }

  /** 1 in a mint that has already counted as failed. */
  function Counted(w: Worker): nat {
    if w.Busy? && w.step.RecordStatus? && w.failed then 1 else 0
  }

  /** The orphans are covered by failed mints other than the one in progress and, once the resource is
      gone, by failed revocations. */
  predicate Balanced(s: State)
    requires Shaped(s)
  {
    |Orphans(s)| + Counted(s.worker) <= s.failedMints + if Current(s).None? then s.failedRevokes else 0
  }

  /** A recorded token has an older id, the checksum of its own kubeconfig and a finalizer beside it. */
  predicate SoundVersion(r: Option<Resource>, next: nat) {
    r.Some? && r.value.issued.Some? ==>
      && r.value.finalizer
      && r.value.issued.value.id < next
      && r.value.issued.value.checksum == Kubeconfig(r.value.issued.value.id)
  }

  predicate SoundVersions(s: State) {
    forall i | 0 <= i < |s.versions| :: SoundVersion(s.versions[i], s.next)
  }

  /** What the worker holds is the version it read; it mints only beside a finalizer. */
  predicate SoundWorker(s: State) {
    s.worker.Busy? ==>
      && s.worker.rv < |s.versions|
      && s.versions[s.worker.rv] == Some(s.worker.res)
      && (s.worker.res.finalizer || s.worker.step.AddFinalizer?)
      && (s.worker.step.CheckSecret? ==> s.worker.res.issued.Some?)
      && (s.worker.token.Some? <==> Minting(s.worker.step))
  }

  predicate SoundTokens(s: State) {
    && (forall id | id in s.live :: id < s.next)
    && (s.worker.Busy? && s.worker.token.Some? ==> s.worker.token.value < s.next)
  }

  predicate AfterRevoking(w: Worker) {
    w.Busy? && (w.step.RecordStatus? || w.step.RemoveFinalizer?)
  }

  /** After revoking the recorded token without an error, it is dead. */
  predicate RevokedDead(s: State) {
    AfterRevoking(s.worker) ==>
      if s.worker.failed then s.worker.step.RemoveFinalizer? ==> s.failedRevokes > 0
      else Recorded(Some(s.worker.res)) !! s.live
  }

  predicate Sound(s: State) {
    Shaped(s) && SoundVersions(s) && SoundWorker(s) && SoundTokens(s) && RevokedDead(s)
  }

  predicate Inv(s: State) {
    Sound(s) && Balanced(s)
  }

  lemma {:induction false} SubsetCount(a: set<nat>, b: set<nat>)
    requires a <= b
    ensures |a| <= |b|
  {
    assert b == a + (b - a);
  }

  lemma {:induction false} OneMore(a: set<nat>, b: set<nat>, c: set<nat>)
    requires a <= b + c && |c| <= 1
    ensures |a| <= |b| + 1
  {
    SubsetCount(a, b + c);
    assert |b + c| <= |b| + |c|;
  }

  /* ---------- what each step keeps ---------- */

  lemma {:induction false} GoKept(s: State, rv: nat, r: Resource, step: Step)
    requires Inv(s) && InFlight(s.worker) == {}
    requires !Minting(step) && !step.RemoveFinalizer? && SoundWorker(Go(s, rv, r, step))
    ensures Inv(Go(s, rv, r, step))
  {
    assert Orphans(Go(s, rv, r, step)) == Orphans(s);
  }

  lemma {:induction false} IdleKept(s: State)
    requires Inv(s) && InFlight(s.worker) == {}
    ensures Inv(GoIdle(s))
  {
    assert Orphans(GoIdle(s)) == Orphans(s);
  }

  lemma {:induction false} VersionAdded(s: State, r: Option<Resource>, next: nat)
    requires SoundVersions(s) && SoundVersion(r, next) && s.next <= next
    ensures SoundVersions(s.(versions := s.versions + [r], next := next))
  {
  }

  lemma {:induction false} UpdateSound(s: State, rv: nat, ok: bool, r: Option<Resource>)
    requires Sound(s) && SoundVersion(r, s.next)
    ensures Sound(Update(s, rv, ok, r))
  {
    VersionAdded(s, r, s.next);
  }

  lemma {:induction false} UpdateKept(s: State, rv: nat, ok: bool, r: Resource)
    requires Inv(s) && s.worker.Busy? && s.worker.token.None? && rv == s.worker.rv
    requires SoundVersion(Some(r), s.next) && r.issued == s.worker.res.issued
    ensures Inv(Update(s, rv, ok, Some(r)))
  {
    UpdateSound(s, rv, ok, Some(r));
    var s' := Update(s, rv, ok, Some(r));
    assert Recorded(Current(s')) == Recorded(Current(s));
    assert Orphans(s') == Orphans(s);
  }

  lemma {:induction false} CheckStep(s: State, reply: Reply, ttl: nat)
    requires Inv(s) && s.worker.Busy? && s.worker.step == CheckSecret
    ensures Inv(ProceedWorker(s, reply, ttl))
  {
    var s' := ProceedWorker(s, reply, ttl);
    if s'.worker.Idle? {
      IdleKept(s);
    } else {
      GoKept(s, s.worker.rv, s.worker.res, s'.worker.step);
    }
  }

  /** A mint that fails early leaves at most its own token behind. */
  lemma {:induction false} FailMintSound(s: State, rv: nat, r: Resource)
    requires Sound(s) && SoundWorker(Go(s, rv, r, Degrade))
    ensures Sound(FailMint(s, rv, r))
  {
  }

  lemma {:induction false} FailMintBalanced(s: State, from: State, rv: nat, r: Resource, id: nat)
    requires Shaped(s) && Shaped(from) && Balanced(s) && Current(from) == Current(s)
    requires from.failedMints == s.failedMints && from.failedRevokes == s.failedRevokes
    requires from.live <= s.live + {id} && InFlight(s.worker) <= {id}
    ensures Balanced(FailMint(from, rv, r))
  {
    OneMore(Orphans(FailMint(from, rv, r)), Orphans(s), {id});
  }

  lemma {:induction false} MintSound(s: State)
    requires Sound(s) && !AfterRevoking(s.worker)
    ensures Sound(Mint(s, s.next))
  {
  }

  lemma {:induction false} WriteStep(s: State, reply: Reply, ttl: nat)
    requires Inv(s) && s.worker.Busy? && s.worker.step == WriteSecret
    ensures Inv(ProceedWorker(s, reply, ttl))
  {
    if reply.ok {
      assert Orphans(ProceedWorker(s, reply, ttl)) == Orphans(s);
    } else {
      FailMintSound(s, s.worker.rv, s.worker.res);
      FailMintBalanced(s, s, s.worker.rv, s.worker.res, s.worker.token.value);
    }
  }

  lemma {:induction false} RevokeStep(s: State, reply: Reply, ttl: nat)
    requires Inv(s) && s.worker.Busy? && s.worker.step == RevokePrevious
    ensures Inv(ProceedWorker(s, reply, ttl))
  {
    SubsetCount(Orphans(ProceedWorker(s, reply, ttl)), Orphans(s));
  }

  lemma {:induction false} RecordSound(s: State, reply: Reply, ttl: nat)
    requires Sound(s) && s.worker.Busy? && s.worker.step == RecordStatus
    ensures Sound(ProceedWorker(s, reply, ttl))
  {
    var id := s.worker.token.value;
    UpdateSound(s, s.worker.rv, reply.ok,
      Some(s.worker.res.(issued := Some(Issued(id, reply.now + ttl, Kubeconfig(id))), ready := TokenIssued)));
  }

  lemma {:induction false} RevokeLastStep(s: State, reply: Reply, ttl: nat)
    requires Inv(s) && s.worker.Busy? && s.worker.step == RevokeLast
    ensures Inv(ProceedWorker(s, reply, ttl))
  {
    SubsetCount(Orphans(ProceedWorker(s, reply, ttl)), Orphans(s));
  }

  lemma {:induction false} RemoveStep(s: State, reply: Reply, ttl: nat)
    requires Inv(s) && s.worker.Busy? && s.worker.step == RemoveFinalizer
    ensures Inv(ProceedWorker(s, reply, ttl))
  {
    var s' := ProceedWorker(s, reply, ttl);
    UpdateSound(s, s.worker.rv, reply.ok, None);
    if Accepted(s, s.worker.rv, reply.ok) && s.worker.failed {
      OneMore(Orphans(s'), Orphans(s), Recorded(Some(s.worker.res)));
    } else {
      SubsetCount(Orphans(s'), Orphans(s));
    }
  }

  lemma {:induction false} IssueStep(s: State, reply: Reply, ttl: nat)
    requires Inv(s) && s.worker.Busy? && s.worker.step == IssueToken
    ensures Inv(ProceedWorker(s, reply, ttl))
  {
    MintSound(s);
    if reply.ok {
      assert Orphans(ProceedWorker(s, reply, ttl)) == Orphans(s);
    } else {
      var from := if reply.partly then Mint(s, s.next) else s;
      FailMintSound(from, s.worker.rv, s.worker.res);
      FailMintBalanced(s, from, s.worker.rv, s.worker.res, s.next);
    }
  }

  lemma {:induction false} RecordAccepted(s: State, reply: Reply, ttl: nat)
    requires Inv(s) && s.worker.Busy? && s.worker.step == RecordStatus && Accepted(s, s.worker.rv, reply.ok)
    ensures Shaped(ProceedWorker(s, reply, ttl)) && Balanced(ProceedWorker(s, reply, ttl))
  {
    var s' := ProceedWorker(s, reply, ttl);
    if s.worker.failed {
      OneMore(Orphans(s'), Orphans(s), Recorded(Some(s.worker.res)));
    } else {
      SubsetCount(Orphans(s'), Orphans(s));
    }
  }

  lemma {:induction false} RecordStep(s: State, reply: Reply, ttl: nat)
    requires Inv(s) && s.worker.Busy? && s.worker.step == RecordStatus
    ensures Inv(ProceedWorker(s, reply, ttl))
  {
    var s' := ProceedWorker(s, reply, ttl);
    RecordSound(s, reply, ttl);
    if Accepted(s, s.worker.rv, reply.ok) {
      RecordAccepted(s, reply, ttl);
    } else {
      OneMore(Orphans(s'), Orphans(s), InFlight(s.worker));
    }
  }

  lemma {:induction false} ProceedKept(s: State, reply: Reply, ttl: nat)
    requires Inv(s) && s.worker.Busy?
    ensures Inv(ProceedWorker(s, reply, ttl))
  {
    match s.worker.step {
      case AddFinalizer => UpdateKept(s, s.worker.rv, reply.ok, s.worker.res.(finalizer := true));
      case CheckSecret => CheckStep(s, reply, ttl);
      case IssueToken => IssueStep(s, reply, ttl);
      case WriteSecret => WriteStep(s, reply, ttl);
      case RevokePrevious => RevokeStep(s, reply, ttl);
      case RecordStatus => RecordStep(s, reply, ttl);
      case Degrade => UpdateKept(s, s.worker.rv, reply.ok, s.worker.res.(ready := Degraded));
      case Expire => UpdateKept(s, s.worker.rv, reply.ok, s.worker.res.(ready := Expired));
      case RevokeLast => RevokeLastStep(s, reply, ttl);
      case RemoveFinalizer => RemoveStep(s, reply, ttl);
    }
  }

  lemma {:induction false} BeginKept(s: State)
    requires Inv(s) && s.worker.Idle?
    ensures Inv(BeginReconcile(s))
  {
    match s.versions[s.seen] {
      case None => IdleKept(s);
      case Some(r) =>
        if FirstStep(r).None? {
          IdleKept(s);
        } else {
          GoKept(s, s.seen, r, FirstStep(r).value);
        }
    }
  }

  lemma {:induction false} DeleteKept(s: State, ttl: nat)
    requires Inv(s) && Enabled(s, UserDeletes)
    ensures Inv(Apply(s, UserDeletes, ttl))
  {
    var s' := Apply(s, UserDeletes, ttl);
    VersionAdded(s, Deleted(Current(s).value), s.next);
    assert Recorded(Current(s')) == Recorded(Current(s));
    assert Orphans(s') == Orphans(s);
  }

  lemma {:induction false} CleanKept(s: State, id: nat)
    requires Inv(s)
    ensures Inv(s.(live := s.live - {id}))
  {
    SubsetCount(Orphans(s.(live := s.live - {id})), Orphans(s));
  }

  lemma {:induction false} StepKept(s: State, e: Event, ttl: nat)
    requires Inv(s) && Enabled(s, e)
    ensures Inv(Apply(s, e, ttl))
  {
    match e {
      case Begin => BeginKept(s);
      case Proceed(reply) => ProceedKept(s, reply, ttl);
      case UserDeletes => DeleteKept(s, ttl);
      case TokenCleaned(id) => CleanKept(s, id);
      case CacheReaches(to) => assert Orphans(s.(seen := to)) == Orphans(s);
    }
  }

  /* ---------- whole runs ---------- */

  predicate Steps(states: seq<State>, events: seq<Event>, ttl: nat) {
    && |states| == |events| + 1
    && forall k | 0 <= k < |events| ::
         Enabled(states[k], events[k]) && states[k + 1] == Apply(states[k], events[k], ttl)
  }

  predicate IsRun(states: seq<State>, events: seq<Event>, ttl: nat) {
    Steps(states, events, ttl) && states[0] == Init()
  }

  lemma {:induction false} RunKept(states: seq<State>, events: seq<Event>, ttl: nat, k: nat)
    requires IsRun(states, events, ttl) && k < |states|
    ensures Inv(states[k])
  {
    if k == 0 {
      assert Orphans(Init()) == {};
    } else {
      RunKept(states, events, ttl, k - 1);
      StepKept(states[k - 1], events[k - 1], ttl);
    }
  }

  /** In every state, the live tokens that neither the status nor a mint in progress accounts for number at
      most the mints in which some step failed and, once the resource is gone, the failed revocations of
      its last token. Between reconciles those are the live tokens other than the recorded one. */
  lemma {:induction false} TokensConserved(states: seq<State>, events: seq<Event>, ttl: nat, k: nat)
    requires IsRun(states, events, ttl) && k < |states|
    ensures Shaped(states[k])
    ensures |Orphans(states[k])| <=
              states[k].failedMints + if Current(states[k]).None? then states[k].failedRevokes else 0
    ensures states[k].worker.Idle? ==> Orphans(states[k]) == states[k].live - Recorded(Current(states[k]))
  {
    RunKept(states, events, ttl, k);
  }

  /** Without failures at most the recorded token is live, and deletion leaves none. */
  lemma {:induction false} DeletionRevokes(states: seq<State>, events: seq<Event>, ttl: nat, k: nat)
    requires IsRun(states, events, ttl) && k < |states| && states[k].worker.Idle?
    requires states[k].failedMints == 0
    ensures Shaped(states[k])
    ensures Current(states[k]).Some? ==> states[k].live <= Recorded(Current(states[k]))
    ensures Current(states[k]).None? && states[k].failedRevokes == 0 ==> states[k].live == {}
  {
    TokensConserved(states, events, ttl, k);
    assert Current(states[k]).None? ==> Orphans(states[k]) == states[k].live;
  }

  /** A reconcile that sees no drift has read the kubeconfig of the token that the status names. */
  lemma {:induction false} NoDriftMeansRecordedToken(states: seq<State>, events: seq<Event>, ttl: nat, k: nat, secret: Option<Content>)
    requires IsRun(states, events, ttl) && k < |states|
    requires states[k].worker.Busy? && states[k].worker.step == CheckSecret
    ensures states[k].worker.res.issued.Some?
    ensures !Drifted(states[k].worker.res.issued.value, secret) <==>
              secret == Some(Kubeconfig(states[k].worker.res.issued.value.id))
  {
    RunKept(states, events, ttl, k);
    assert SoundVersion(states[k].versions[states[k].worker.rv], states[k].next);
  }

  /* ---------- what a reconcile decides ---------- */

  /** The reply to the first call between b and j. */
  function FirstReply(events: seq<Event>, b: nat, j: nat): Option<Reply>
    requires j <= |events|
  {
    if j <= b + 1 then None
    else
      var f := FirstReply(events, b, j - 1);
      if f.Some? then f else if events[j - 1].Proceed? then Some(events[j - 1].reply) else None
  }

  /** There is no token yet, or the Secret that the first call read is not the kubeconfig of the recorded
      one. */
  predicate MustMint(r: Resource, first: Option<Reply>) {
    r.issued.Some? ==> first.Some? && first.value.secret != Some(Kubeconfig(r.issued.value.id))
  }

  /** The Secret is intact, and the token has expired without that being recorded. */
  predicate MustExpire(r: Resource, first: Option<Reply>) {
    && r.issued.Some? && first.Some? && first.value.secret == Some(Kubeconfig(r.issued.value.id))
    && first.value.now >= r.issued.value.expiresAt && r.ready != Expired
  }

  /** A reconcile from the current version runs from b to k: it is busy in between, no call of it fails and
      nobody deletes the resource; tokens may be cleaned up and caches may move. */
  predicate Undisturbed(states: seq<State>, events: seq<Event>, b: nat, k: nat)
    requires |states| == |events| + 1
  {
    && b < k <= |events| && events[b] == Begin
    && Shaped(states[b]) && states[b].seen == |states[b].versions| - 1
    && (forall j | b < j < k :: states[j].worker.Busy? && events[j] != UserDeletes && (events[j].Proceed? ==> events[j].reply.ok))
  }

  /** Where such a reconcile of r can be, given what its first call read. */
  predicate OnPath(start: State, s: State, r: Resource, first: Option<Reply>) {
    && s.versions == start.versions && s.worker.Busy?
    && s.worker.rv == |s.versions| - 1 && s.worker.res == r
    && match s.worker.step
       case CheckSecret => first.None? && s.next == start.next && r.issued.Some?
       case IssueToken => MustMint(r, first) && s.next == start.next
       case WriteSecret => MustMint(r, first) && s.worker.token == Some(start.next)
       case RevokePrevious => MustMint(r, first) && s.worker.token == Some(start.next)
       case RecordStatus => MustMint(r, first) && s.worker.token == Some(start.next)
       case Expire => MustExpire(r, first)
       case _ => false
  }

  /** A resource to mint for or to check. */
  predicate Serviced(s: State) {
    Shaped(s) && Current(s).Some? && !Current(s).value.deleting && Current(s).value.finalizer
  }

  /** What it has written when it is over. */
  predicate Decided(start: State, s: State, r: Resource, first: Option<Reply>, recordedAt: nat, ttl: nat) {
    s.versions == start.versions +
      if MustMint(r, first) then
        [Some(r.(issued := Some(Issued(start.next, recordedAt + ttl, Kubeconfig(start.next))), ready := TokenIssued))]
      else if MustExpire(r, first) then [Some(r.(ready := Expired))]
      else []
  }

  lemma {:induction false} PathBegins(s: State)
    requires Inv(s) && s.worker.Idle? && Serviced(s) && s.seen == |s.versions| - 1
    ensures OnPath(s, BeginReconcile(s), Current(s).value, None)
  {
  }

  lemma {:induction false} PathWaits(start: State, s: State, e: Event, r: Resource, first: Option<Reply>, ttl: nat)
    requires OnPath(start, s, r, first) && Enabled(s, e) && (e.TokenCleaned? || e.CacheReaches?)
    ensures OnPath(start, Apply(s, e, ttl), r, first)
  {
  }

  lemma {:induction false} PathGoesOn(start: State, s: State, reply: Reply, r: Resource, first: Option<Reply>, ttl: nat)
    requires OnPath(start, s, r, first) && Enabled(s, Proceed(reply)) && reply.ok && SoundVersion(Some(r), s.next)
    ensures
      var s', now := ProceedWorker(s, reply, ttl), if first.Some? || r.issued.None? then first else Some(reply);
      if s'.worker.Busy? then OnPath(start, s', r, now) else Decided(start, s', r, now, reply.now, ttl)
  {
    assert start.versions + [] == start.versions;
  }

  /** What the first call read, where there is a token to check. */
  function Read(events: seq<Event>, b: nat, j: nat, r: Resource): Option<Reply>
    requires j <= |events|
  {
    if r.issued.None? then None else FirstReply(events, b, j)
  }

  ghost predicate PathAt(states: seq<State>, events: seq<Event>, b: nat, j: nat)
    requires |states| == |events| + 1 && b <= j <= |events| && Serviced(states[b])
  {
    OnPath(states[b], states[j], Current(states[b]).value, Read(events, b, j, Current(states[b]).value))
  }

  /** One step on: still on the path, or over and decided. */
  lemma {:induction false} PathStep(states: seq<State>, events: seq<Event>, ttl: nat, b: nat, k: nat, j: nat)
    requires IsRun(states, events, ttl) && Undisturbed(states, events, b, k) && Serviced(states[b]) && b < j < k
    requires PathAt(states, events, b, j)
    ensures states[j + 1].worker.Busy? ==> PathAt(states, events, b, j + 1)
    ensures states[j + 1].worker.Idle? ==>
      var r := Current(states[b]).value;
      events[j].Proceed? && Decided(states[b], states[j + 1], r, Read(events, b, j + 1, r), events[j].reply.now, ttl)
  {
    var s, e, r := states[j], events[j], Current(states[b]).value;
    RunKept(states, events, ttl, j);
    assert Enabled(s, e) && states[j + 1] == Apply(s, e, ttl) && e != UserDeletes;
    if e.Proceed? {
      assert SoundVersion(s.versions[s.worker.rv], s.next);
      PathGoesOn(states[b], s, e.reply, r, Read(events, b, j, r), ttl);
    } else {
      PathWaits(states[b], s, e, r, Read(events, b, j, r), ttl);
    }
  }

  lemma {:induction false} PathStarts(states: seq<State>, events: seq<Event>, ttl: nat, b: nat, k: nat)
    requires IsRun(states, events, ttl) && Undisturbed(states, events, b, k) && Serviced(states[b])
    ensures PathAt(states, events, b, b + 1)
  {
    RunKept(states, events, ttl, b);
    PathBegins(states[b]);
  }

  lemma {:induction false} StaysOnPath(states: seq<State>, events: seq<Event>, ttl: nat, b: nat, k: nat, j: nat)
    requires IsRun(states, events, ttl) && Undisturbed(states, events, b, k) && Serviced(states[b]) && b < j < k
    ensures PathAt(states, events, b, j)
  {
    if j == b + 1 {
      PathStarts(states, events, ttl, b, k);
    } else {
      StaysOnPath(states, events, ttl, b, k, j - 1);
      PathStep(states, events, ttl, b, k, j - 1);
    }
  }

  /** A reconcile of a resource that is not being deleted, from its current version, undisturbed and without
      failing calls: it records a new token, expiring ttl after it was recorded, if there was none or the
      Secret is not the kubeconfig of the recorded one; it marks the token expired if the Secret is intact
      and the time has come; and otherwise it writes nothing. */
  lemma {:induction false} ReconcileDecides(states: seq<State>, events: seq<Event>, ttl: nat, b: nat, k: nat)
    requires IsRun(states, events, ttl) && Undisturbed(states, events, b, k) && Serviced(states[b])
    requires states[k].worker.Idle?
    ensures k > b + 1 && events[k - 1].Proceed?
    ensures
      var r := Current(states[b]).value;
      Decided(states[b], states[k], r, Read(events, b, k, r), events[k - 1].reply.now, ttl)
  {
    PathStarts(states, events, ttl, b, k);
    assert k > b + 1;
    StaysOnPath(states, events, ttl, b, k, k - 1);
    PathStep(states, events, ttl, b, k, k - 1);
  }

  /** Put the other way round: the recorded token changes exactly when it must be minted, Expired is newly
      recorded exactly when it must be, and nothing is written exactly when neither is so. */
  lemma {:induction false} ReconcileDecidesExactly(states: seq<State>, events: seq<Event>, ttl: nat, b: nat, k: nat)
    requires IsRun(states, events, ttl) && Undisturbed(states, events, b, k) && Serviced(states[b])
    requires states[k].worker.Idle?
    ensures Serviced(states[k])
    ensures
      var r, r', first := Current(states[b]).value, Current(states[k]).value, Read(events, b, k, Current(states[b]).value);
      && (r'.issued != r.issued <==> MustMint(r, first))
      && (r.ready != Expired && r'.ready == Expired <==> MustExpire(r, first))
      && (states[k].versions == states[b].versions <==> !MustMint(r, first) && !MustExpire(r, first))
  {
    RunKept(states, events, ttl, b);
    RunKept(states, events, ttl, k);
    ReconcileDecides(states, events, ttl, b, k);
    assert SoundVersion(Current(states[b]), states[b].next);
  }

  /* ---------- deletion, the finalizer and failed mints ---------- */

  /** Where an undisturbed reconcile of a resource that is being deleted can be. */
  predicate OnDeletePath(start: State, s: State, r: Resource) {
    && s.versions == start.versions && s.worker.Busy?
    && s.worker.rv == |s.versions| - 1 && s.worker.res == r
    && (s.worker.step == RevokeLast || (s.worker.step == RemoveFinalizer && Recorded(Some(r)) !! s.live))
  }

  predicate Departing(s: State) {
    Shaped(s) && Current(s).Some? && Current(s).value.deleting && Current(s).value.finalizer
  }

  predicate LetGo(start: State, s: State, r: Resource) {
    s.versions == start.versions + [None] && Recorded(Some(r)) !! s.live
  }

  lemma {:induction false} DeletePathStep(start: State, s: State, e: Event, r: Resource, ttl: nat)
    requires OnDeletePath(start, s, r) && Enabled(s, e) && e != UserDeletes && (e.Proceed? ==> e.reply.ok)
    ensures
      var s' := Apply(s, e, ttl);
      if s'.worker.Busy? then OnDeletePath(start, s', r) else LetGo(start, s', r)
  {
  }

  lemma {:induction false} StaysOnDeletePath(states: seq<State>, events: seq<Event>, ttl: nat, b: nat, k: nat, j: nat)
    requires IsRun(states, events, ttl) && Undisturbed(states, events, b, k) && Departing(states[b]) && b < j < k
    ensures OnDeletePath(states[b], states[j], Current(states[b]).value)
  {
    if j > b + 1 {
      StaysOnDeletePath(states, events, ttl, b, k, j - 1);
      assert Enabled(states[j - 1], events[j - 1]) && states[j] == Apply(states[j - 1], events[j - 1], ttl);
      DeletePathStep(states[b], states[j - 1], events[j - 1], Current(states[b]).value, ttl);
    } else {
      assert Enabled(states[b], events[b]) && states[j] == Apply(states[b], events[b], ttl);
    }
  }

  /** A reconcile of a resource that is being deleted, from its current version, undisturbed and without
      failing calls, lets it go with its recorded token dead. */
  lemma {:induction false} DeletionReconciled(states: seq<State>, events: seq<Event>, ttl: nat, b: nat, k: nat)
    requires IsRun(states, events, ttl) && Undisturbed(states, events, b, k) && Departing(states[b])
    requires states[k].worker.Idle?
    ensures LetGo(states[b], states[k], Current(states[b]).value)
  {
    assert Enabled(states[b], events[b]) && states[b + 1] == Apply(states[b], events[b], ttl);
    assert k > b + 1;
    StaysOnDeletePath(states, events, ttl, b, k, k - 1);
    assert Enabled(states[k - 1], events[k - 1]) && states[k] == Apply(states[k - 1], events[k - 1], ttl);
    DeletePathStep(states[b], states[k - 1], events[k - 1], Current(states[b]).value, ttl);
  }

  /** A resource without a finalizer gets one, and nothing else, before anything is minted for it. */
  lemma {:induction false} FinalizerFirst(s: State, reply: Reply, ttl: nat)
    requires Shaped(s) && s.worker.Idle? && s.seen == |s.versions| - 1 && reply.ok
    requires Current(s).Some? && !Current(s).value.deleting && !Current(s).value.finalizer
    ensures
      var begun := BeginReconcile(s);
      && begun.worker.Busy? && begun.worker.step == AddFinalizer && begun.worker.token.None?
      && ProceedWorker(begun, reply, ttl) == s.(versions := s.versions + [Some(Current(s).value.(finalizer := true))])
  {
  }

  /** A Secret that cannot be read decides nothing. */
  lemma {:induction false} FailedReadWaits(s: State, reply: Reply, ttl: nat)
    requires SoundWorker(s) && s.worker.Busy? && s.worker.step == CheckSecret && !reply.ok
    ensures ProceedWorker(s, reply, ttl) == GoIdle(s)
  {
  }

  /** A revocation that fails does not hold the resource back: it goes, and its token stays. */
  lemma {:induction false} FailedRevokeLetsGo(s: State, revoke: Reply, update: Reply, ttl: nat)
    requires Sound(s) && s.worker.Busy? && s.worker.step == RevokeLast && s.worker.rv == |s.versions| - 1
    requires s.worker.res.issued.Some? && !revoke.ok && update.ok
    ensures
      var t := ProceedWorker(ProceedWorker(s, revoke, ttl), update, ttl);
      t.versions == s.versions + [None] && t.live == s.live && t.failedRevokes == s.failedRevokes + 1
  {
  }

  /** A mint that fails before the status update records Degraded, with the token as it was, if that update
      goes through. */
  lemma {:induction false} FailedMintDegrades(s: State, issue: Reply, write: Reply, revoke: Reply, status: Reply, ttl: nat)
    requires Inv(s) && s.worker.Busy? && s.worker.step == IssueToken && (!issue.ok || !write.ok)
    ensures
      var t := MintFrom(s, issue, write, revoke, status, ttl);
      && t.worker.Idle? && t.failedMints == s.failedMints + 1
      && t.versions == s.versions +
           (if Accepted(s, s.worker.rv, status.ok) then [Some(s.worker.res.(ready := Degraded))] else [])
  {
    assert s.versions + [] == s.versions;
  }

  /* ---------- exactly when a token outlives its resource ---------- */

  predicate Unrecorded(s: State, id: nat) {
    forall i | 0 <= i < |s.versions| :: id !in Recorded(s.versions[i])
  }

  /** While nothing cleans up tokens, the token of a mint in progress is live and nowhere recorded. */
  predicate FlightNew(s: State) {
    s.worker.Busy? && s.worker.token.Some? ==> s.worker.token.value in s.live && Unrecorded(s, s.worker.token.value)
  }

  /** A live token that nothing will ever revoke. */
  predicate Lost(s: State, id: nat) {
    id in s.live && id < s.next && id !in InFlight(s.worker) && Unrecorded(s, id)
  }

  /** The step leaves a token behind that nothing records: issuing fails after creating it, the Secret is
      not written, or the status update is refused or conflicts. */
  predicate Strands(s: State, e: Event) {
    e.Proceed? && s.worker.Busy? &&
    match s.worker.step
    case IssueToken => !e.reply.ok && e.reply.partly
    case WriteSecret => !e.reply.ok
    case RecordStatus => !Accepted(s, s.worker.rv, e.reply.ok)
    case _ => false
  }

  lemma {:induction false} UnrecordedAppend(s: State, r: Option<Resource>, id: nat)
    requires Unrecorded(s, id) && id !in Recorded(r)
    ensures Unrecorded(s.(versions := s.versions + [r]), id)
  {
  }

  /** The new version of the resource that a step may write names what the step before named, or the token
      in flight. */
  lemma {:induction false} WritesKnown(s: State, e: Event, ttl: nat, id: nat)
    requires Inv(s) && Enabled(s, e) && Unrecorded(s, id) && id !in InFlight(s.worker)
    ensures Unrecorded(Apply(s, e, ttl), id)
  {
    var s' := Apply(s, e, ttl);
    if s'.versions != s.versions {
      assert s'.versions == s.versions + [Current(s')];
      UnrecordedAppend(s, Current(s'), id);
    }
  }

  lemma {:induction false} LostKept(s: State, e: Event, ttl: nat, id: nat)
    requires Inv(s) && Enabled(s, e) && Lost(s, id) && !e.TokenCleaned?
    ensures Lost(Apply(s, e, ttl), id)
  {
    WritesKnown(s, e, ttl, id);
    if s.worker.Busy? {
      assert id !in Recorded(s.versions[s.worker.rv]);
    }
  }

  lemma {:induction false} FlightKept(s: State, e: Event, ttl: nat)
    requires Inv(s) && Enabled(s, e) && FlightNew(s) && !e.TokenCleaned?
    ensures FlightNew(Apply(s, e, ttl))
  {
    var s' := Apply(s, e, ttl);
    if s'.worker.Busy? && s'.worker.token.Some? {
      var id := s'.worker.token.value;
      if s.worker.Busy? && s.worker.token == Some(id) {
        assert s'.versions == s.versions || e == UserDeletes;
        assert id !in Recorded(s.versions[s.worker.rv]);
        if e == UserDeletes {
          assert id !in Recorded(Current(s));
          UnrecordedAppend(s, Deleted(Current(s).value), id);
        }
      } else {
        assert forall i | 0 <= i < |s.versions| :: SoundVersion(s.versions[i], s.next);
      }
    }
  }

  lemma {:induction false} StrandedLost(s: State, e: Event, ttl: nat)
    requires Inv(s) && Enabled(s, e) && FlightNew(s) && Strands(s, e)
    ensures exists id :: Lost(Apply(s, e, ttl), id)
  {
    var s' := Apply(s, e, ttl);
    if s.worker.step == IssueToken {
      assert forall i | 0 <= i < |s.versions| :: SoundVersion(s.versions[i], s.next);
      assert Lost(s', s.next);
    } else {
      assert Lost(s', s.worker.token.value);
    }
  }

  predicate NothingCleaned(events: seq<Event>) {
    forall k | 0 <= k < |events| :: !events[k].TokenCleaned?
  }

  lemma {:induction false} FlightAlways(states: seq<State>, events: seq<Event>, ttl: nat, k: nat)
    requires IsRun(states, events, ttl) && NothingCleaned(events) && k < |states|
    ensures FlightNew(states[k])
  {
    if k > 0 {
      FlightAlways(states, events, ttl, k - 1);
      RunKept(states, events, ttl, k - 1);
      FlightKept(states[k - 1], events[k - 1], ttl);
    }
  }

  /** A token left behind stays, however the run goes on. */
  lemma {:induction false} StrandedForever(states: seq<State>, events: seq<Event>, ttl: nat, j: nat, k: nat)
    requires IsRun(states, events, ttl) && NothingCleaned(events) && j < k < |states|
    requires Strands(states[j], events[j])
    ensures exists id :: Lost(states[k], id)
  {
    if k == j + 1 {
      FlightAlways(states, events, ttl, j);
      RunKept(states, events, ttl, j);
      StrandedLost(states[j], events[j], ttl);
    } else {
      StrandedForever(states, events, ttl, j, k - 1);
      var id :| Lost(states[k - 1], id);
      RunKept(states, events, ttl, k - 1);
      LostKept(states[k - 1], events[k - 1], ttl, id);
      assert Lost(states[k], id);
    }
  }

  predicate NoCallFails(events: seq<Event>) {
    forall k | 0 <= k < |events| && events[k].Proceed? :: events[k].reply.ok
  }

  /** Every status update of a mint so far was made from the current version of the resource. */
  predicate RecordsCurrent(states: seq<State>, events: seq<Event>, k: nat)
    requires |states| == |events| + 1 && k <= |events|
  {
    forall j | 0 <= j < k && events[j].Proceed? && states[j].worker.Busy? && states[j].worker.step == RecordStatus ::
      states[j].worker.rv == |states[j].versions| - 1
  }

  predicate Unfailed(s: State) {
    s.failedMints == 0 && s.failedRevokes == 0 && (s.worker.Busy? ==> !s.worker.failed)
  }

  lemma {:induction false} UnfailedAlways(states: seq<State>, events: seq<Event>, ttl: nat, k: nat)
    requires IsRun(states, events, ttl) && NoCallFails(events) && k < |states| && RecordsCurrent(states, events, k)
    ensures Unfailed(states[k])
  {
    if k > 0 {
      UnfailedAlways(states, events, ttl, k - 1);
      assert Enabled(states[k - 1], events[k - 1]);
    }
  }

  /** When no call fails on its own and nothing cleans up tokens, between reconciles no token but the recorded
      one is live if and only if every status update of a mint was made from the current version of the
      resource. */
  lemma {:induction false} OnlyRecordedLivesExactly(states: seq<State>, events: seq<Event>, ttl: nat, k: nat)
    requires IsRun(states, events, ttl) && NoCallFails(events) && NothingCleaned(events)
    requires k < |states| && states[k].worker.Idle? && Shaped(states[k])
    ensures states[k].live <= Recorded(Current(states[k])) <==> RecordsCurrent(states, events, k)
  {
    if RecordsCurrent(states, events, k) {
      UnfailedAlways(states, events, ttl, k);
      DeletionRevokes(states, events, ttl, k);
    } else {
      var j :| 0 <= j < k && events[j].Proceed? && states[j].worker.Busy? && states[j].worker.step == RecordStatus
               && states[j].worker.rv != |states[j].versions| - 1;
      assert Strands(states[j], events[j]);
      StrandedForever(states, events, ttl, j, k);
    }
  }

  /** In particular a deleted resource leaves no live token if and only if that is so. */
  lemma {:induction false} DeletionLeavesNoneExactly(states: seq<State>, events: seq<Event>, ttl: nat, k: nat)
    requires IsRun(states, events, ttl) && NoCallFails(events) && NothingCleaned(events)
    requires k < |states| && states[k].worker.Idle? && Shaped(states[k]) && Current(states[k]).None?
    ensures states[k].live == {} <==> RecordsCurrent(states, events, k)
  {
    OnlyRecordedLivesExactly(states, events, ttl, k);
  }

  /* ---------- one mint, without interleaving ---------- */

  function MintFrom(s: State, issue: Reply, write: Reply, revoke: Reply, status: Reply, ttl: nat): State
    requires SoundWorker(s) && s.worker.Busy? && s.worker.step == IssueToken
  {
    var issued := ProceedWorker(s, issue, ttl);
    if !issue.ok then ProceedWorker(issued, status, ttl) else
    var written := ProceedWorker(issued, write, ttl);
    if !write.ok then ProceedWorker(written, status, ttl) else
    ProceedWorker(ProceedWorker(written, revoke, ttl), status, ttl)
  }

  /** A mint leaves no new orphan exactly when it creates no token at all, or every step of it succeeds:
      the revocation counts as a success when there is nothing live to revoke, and the status update
      only when the version read is still the current one. */
  lemma {:induction false} MintOrphansExactly(s: State, issue: Reply, write: Reply, revoke: Reply, status: Reply, ttl: nat)
    requires Inv(s) && s.worker.Busy? && s.worker.step == IssueToken
    ensures Shaped(MintFrom(s, issue, write, revoke, status, ttl))
    ensures Orphans(MintFrom(s, issue, write, revoke, status, ttl)) <= Orphans(s) <==>
              || (!issue.ok && !issue.partly)
              || (&& issue.ok && write.ok && Accepted(s, s.worker.rv, status.ok)
                  && (revoke.ok || Recorded(Some(s.worker.res)) !! s.live))
  {
    var s' := MintFrom(s, issue, write, revoke, status, ttl);
    var id := s.next;
    assert id !in Orphans(s);
    if issue.ok && write.ok {
      if Accepted(s, s.worker.rv, status.ok) {
        assert Recorded(Current(s)) == Recorded(Some(s.worker.res));
        assert Recorded(Current(s')) == {id};
        if !revoke.ok && !(Recorded(Some(s.worker.res)) !! s.live) {
          assert s.worker.res.issued.value.id in Orphans(s');
        }
      } else {
        assert id in Orphans(s');
      }
    } else if issue.ok || issue.partly {
      assert id in Orphans(s');
    } else {
      assert Orphans(s') == Orphans(s);
    }
  }

  lemma {:induction false} StepsJoin(s: seq<State>, e: seq<Event>, s': seq<State>, e': seq<Event>, ttl: nat)
    requires Steps(s, e, ttl) && Steps(s', e', ttl) && s[|e|] == s'[0]
    ensures Steps(s + s'[1..], e + e', ttl)
    ensures (s + s'[1..])[|e + e'|] == s'[|e'|] && (s + s'[1..])[0] == s[0]
  {
    var both, events := s + s'[1..], e + e';
    forall k | 0 <= k < |events|
      ensures Enabled(both[k], events[k]) && both[k + 1] == Apply(both[k], events[k], ttl)
    {
      if k >= |e| {
        assert both[k] == s'[k - |e|] && both[k + 1] == s'[k - |e| + 1] && events[k] == e'[k - |e|];
      }
    }
  }

  const FINALIZED := Resource(false, true, None, Unset)
  const DELETING := Resource(true, true, None, Unset)
  const MINTING := State([Some(Resource(false, false, None, Unset)), Some(FINALIZED)], 1, {0}, 1,
                         Busy(1, FINALIZED, RevokePrevious, Some(0), false), 0, 0)

  const FINALIZED_SEEN := State([Some(Resource(false, false, None, Unset)), Some(FINALIZED)], 1, {}, 0, Idle, 0, 0)

  lemma {:induction false} FinalizerAdded() returns (states: seq<State>, events: seq<Event>)
    ensures IsRun(states, events, 0) && NoCallFails(events) && states[|events|] == FINALIZED_SEEN
  {
    var r := Resource(false, false, None, Unset);
    events := [Begin, Proceed(Reply(true, false, None, 0)), CacheReaches(1)];
    states := [
      Init(),
      State([Some(r)], 0, {}, 0, Busy(0, r, AddFinalizer, None, false), 0, 0),
      FINALIZED_SEEN.(seen := 0),
      FINALIZED_SEEN
    ];
  }

  lemma {:induction false} MintGoesOn() returns (states: seq<State>, events: seq<Event>)
    ensures Steps(states, events, 0) && NoCallFails(events) && states[0] == FINALIZED_SEEN
    ensures states[|events|] == MINTING
  {
    var ok := Proceed(Reply(true, false, None, 0));
    events := [Begin, ok, ok];
    states := [
      FINALIZED_SEEN,
      FINALIZED_SEEN.(worker := Busy(1, FINALIZED, IssueToken, None, false)),
      MINTING.(worker := Busy(1, FINALIZED, WriteSecret, Some(0), false)),
      MINTING
    ];
  }

  lemma {:induction false} MintBegun() returns (states: seq<State>, events: seq<Event>)
    ensures IsRun(states, events, 0) && NoCallFails(events) && states[|events|] == MINTING
  {
    var s, e := FinalizerAdded();
    var s', e' := MintGoesOn();
    StepsJoin(s, e, s', e', 0);
    states, events := s + s'[1..], e + e';
  }

  const STRANDED := State(MINTING.versions + [Some(DELETING)], 1, {0}, 1, Idle, 1, 0)

  lemma {:induction false} DeletionConflicts() returns (states: seq<State>, events: seq<Event>)
    ensures Steps(states, events, 0) && NoCallFails(events) && states[0] == MINTING
    ensures states[|events|] == STRANDED
  {
    var ok := Proceed(Reply(true, false, None, 0));
    var v := MINTING.versions + [Some(DELETING)];
    events := [UserDeletes, ok, ok];
    states := [
      MINTING,
      MINTING.(versions := v),
      State(v, 1, {0}, 1, Busy(1, FINALIZED, RecordStatus, Some(0), false), 0, 0),
      STRANDED
    ];
  }

  lemma {:induction false} DeletionFinishes() returns (states: seq<State>, events: seq<Event>)
    ensures Steps(states, events, 0) && NoCallFails(events) && states[0] == STRANDED
    ensures states[|events|] == STRANDED.(versions := STRANDED.versions + [None], seen := 2)
  {
    var ok := Proceed(Reply(true, false, None, 0));
    var s := STRANDED.(seen := 2);
    events := [CacheReaches(2), Begin, ok, ok];
    states := [
      STRANDED,
      s,
      s.(worker := Busy(2, DELETING, RevokeLast, None, false)),
      s.(worker := Busy(2, DELETING, RemoveFinalizer, None, false)),
      s.(versions := STRANDED.versions + [None])
    ];
  }

  lemma {:induction false} DeletionOutlived(s: seq<State>, e: seq<Event>) returns (states: seq<State>, events: seq<Event>)
    requires IsRun(s, e, 0) && NoCallFails(e) && s[|e|] == STRANDED
    ensures IsRun(states, events, 0) && NoCallFails(events) && e <= events && s <= states
    ensures Shaped(states[|events|]) && states[|events|].worker.Idle?
    ensures Current(states[|events|]).None? && states[|events|].live != {}
  {
    var s', e' := DeletionFinishes();
    StepsJoin(s, e, s', e', 0);
    states, events := s + s'[1..], e + e';
  }

  /** Deleting a resource does not always revoke its token: when the deletion comes in the middle of a
      mint, the status update conflicts and the new token outlives the resource, although no call
      failed on its own. */
  lemma {:induction false} DeletedMidMint() returns (states: seq<State>, events: seq<Event>)
    ensures IsRun(states, events, 0) && NoCallFails(events)
    ensures Shaped(states[|events|]) && states[|events|].worker.Idle?
    ensures Current(states[|events|]).None? && states[|events|].live != {}
  {
    var s, e := MintBegun();
    var s', e' := DeletionConflicts();
    StepsJoin(s, e, s', e', 0);
    states, events := DeletionOutlived(s + s'[1..], e + e');
  }

  const STALE_MINT := State(MINTING.versions + [Some(DELETING)], 1, {0}, 1,
                            Busy(1, FINALIZED, WriteSecret, Some(0), false), 0, 0)

  lemma {:induction false} StaleMintBegun() returns (states: seq<State>, events: seq<Event>)
    ensures Steps(states, events, 0) && NoCallFails(events) && states[0] == FINALIZED_SEEN
    ensures states[|events|] == STALE_MINT && events[0] == UserDeletes
  {
    var v := MINTING.versions + [Some(DELETING)];
    events := [UserDeletes, Begin, Proceed(Reply(true, false, None, 0))];
    states := [
      FINALIZED_SEEN,
      FINALIZED_SEEN.(versions := v),
      State(v, 1, {}, 0, Busy(1, FINALIZED, IssueToken, None, false), 0, 0),
      STALE_MINT
    ];
  }

  lemma {:induction false} StaleMintConflicts() returns (states: seq<State>, events: seq<Event>)
    ensures Steps(states, events, 0) && NoCallFails(events) && states[0] == STALE_MINT
    ensures states[|events|] == STRANDED
  {
    var ok := Proceed(Reply(true, false, None, 0));
    events := [ok, ok, ok];
    states := [
      STALE_MINT,
      STALE_MINT.(worker := Busy(1, FINALIZED, RevokePrevious, Some(0), false)),
      STALE_MINT.(worker := Busy(1, FINALIZED, RecordStatus, Some(0), false)),
      STRANDED
    ];
  }

  /** Nor need the deletion come in the middle of a mint: here the worker is idle when the user deletes, and
      its next reconcile mints from a cached version of before. */
  lemma {:induction false} DeletedBeforeStaleMint() returns (states: seq<State>, events: seq<Event>)
    ensures IsRun(states, events, 0) && NoCallFails(events)
    ensures exists k :: 0 <= k < |events| && events[k] == UserDeletes && states[k].worker.Idle?
    ensures Shaped(states[|events|]) && states[|events|].worker.Idle?
    ensures Current(states[|events|]).None? && states[|events|].live != {}
  {
    var s, e := FinalizerAdded();
    var s', e' := StaleMintBegun();
    StepsJoin(s, e, s', e', 0);
    var at := |e|;
    s, e := s + s'[1..], e + e';
    s', e' := StaleMintConflicts();
    StepsJoin(s, e, s', e', 0);
    states, events := DeletionOutlived(s + s'[1..], e + e');
    assert events[at] == UserDeletes;
  }

  /** The cluster that the controller writes to. */
  class Cluster {
    var versions: seq<Option<Resource>>
    var seen: nat
    var live: set<nat>
    var next: nat
    var failedMints: nat
    var failedRevokes: nat

    constructor ()
      ensures View(Idle) == Init()
    {
      versions, seen, live, next := [Some(Resource(false, false, None, Unset))], 0, {}, 0;
      failedMints, failedRevokes := 0, 0;
    }

    ghost function View(w: Worker): State
      reads this
    {
      State(versions, seen, live, next, w, failedMints, failedRevokes)
    }

    method UpdateResource(rv: nat, ok: bool, r: Option<Resource>) returns (done: bool)
      modifies this`versions
      ensures forall w :: View(Idle) == Update(old(View(w)), rv, ok, r)
      ensures done == Accepted(old(View(Idle)), rv, ok)
    {
      done := ok && rv == |versions| - 1;
      if done {
        versions := versions + [r];
      }
    }

    /** Issues, publishes and records a new token and revokes the previous one. */
    method Mint(rv: nat, res: Resource, issue: Reply, write: Reply, revoke: Reply, status: Reply, ttl: nat)
      requires SoundWorker(View(Busy(rv, res, IssueToken, None, false)))
      modifies this
      ensures View(Idle) == MintFrom(old(View(Busy(rv, res, IssueToken, None, false))), issue, write, revoke, status, ttl)
    {
      var id := next;
      if issue.ok || issue.partly {
        live, next := live + {id}, next + 1;
      }
      if !issue.ok || !write.ok {
        failedMints := failedMints + 1;
        var _ := UpdateResource(rv, status.ok, Some(res.(ready := Degraded)));
        return;
      }
      var failed := false;
      if res.issued.Some? {
        if revoke.ok {
          live := live - {res.issued.value.id};
        } else {
          failed := true;
        }
      }
      var minted := res.(issued := Some(Issued(id, status.now + ttl, Kubeconfig(id))), ready := TokenIssued);
      var recorded := UpdateResource(rv, status.ok, Some(minted));
      if failed || !recorded {
        failedMints := failedMints + 1;
      }
    }

    /** Revokes the recorded token and lets the resource go. */
    method ReconcileDelete(rv: nat, res: Resource, revoke: Reply, update: Reply, ttl: nat)
      requires SoundWorker(View(Busy(rv, res, RevokeLast, None, false)))
      modifies this
      ensures View(Idle) ==
                ProceedWorker(ProceedWorker(old(View(Busy(rv, res, RevokeLast, None, false))), revoke, ttl), update, ttl)
    {
      if res.issued.Some? {
        if revoke.ok {
          live := live - {res.issued.value.id};
        } else {
          failedRevokes := failedRevokes + 1;
        }
      }
      var _ := UpdateResource(rv, update.ok, None);
    }
  }
}
