/** The tunnel broker of pkg/tunnel/server/broker/broker.go: connections per node, kept by append and
    swap-remove, and picked round robin. */
module Broker {
  import opened Options

  const WRAP: nat := 0x1_0000_0000_0000_0000

  /** A node's connections. A slot is nil or holds a connection, known by its id; rr is a uint64. */
  datatype TunnelSet = TunnelSet(conns: seq<Option<string>>, rr: nat)

  type Nodes = map<string, TunnelSet>

  /* ---------- the operations on values ---------- */

  function RegisterIn(nodes: Nodes, node: string, id: string): Nodes {
    var s := if node in nodes then nodes[node] else TunnelSet([], 0);
    nodes[node := s.(conns := s.conns + [Some(id)])]
  }

  /** The first slot from i on that holds id, or the number of slots. */
  function Find(conns: seq<Option<string>>, id: string, i: nat): (r: nat)
    requires i <= |conns|
    ensures i <= r <= |conns|
    ensures r < |conns| ==> conns[r] == Some(id)
    ensures forall j | i <= j < r :: conns[j] != Some(id)
    decreases |conns| - i
  {
    if i == |conns| || conns[i] == Some(id) then i else Find(conns, id, i + 1)
  }

  /** Swap-remove. */
  function Remove(conns: seq<Option<string>>, id: string): seq<Option<string>> {
    var i := Find(conns, id, 0);
    if i == |conns| then conns else conns[i := conns[|conns| - 1]][..|conns| - 1]
  }

  function UnregisterIn(nodes: Nodes, node: string, id: string): Nodes {
    if node !in nodes then nodes
    else
      var conns := Remove(nodes[node].conns, id);
      if conns == [] then nodes - {node} else nodes[node := nodes[node].(conns := conns)]
  }

  /** The slot looked at by the i-th probe of a pick whose cursor value is start: uint64 arithmetic. */
  function ProbeIndex(start: nat, i: nat, n: nat): (j: nat)
    requires n > 0
    ensures j < n
  {
    ((start + i) % WRAP) % n
  }

  /** The probes from the i-th on; closed(i) is the set of connections found closed at the i-th probe. */
  function Probe(conns: seq<Option<string>>, start: nat, i: nat, closed: nat -> set<string>): Option<string>
    requires i <= |conns|
    decreases |conns| - i
  {
    if i == |conns| then None
    else
      var slot := conns[ProbeIndex(start, i, |conns|)];
      if slot.Some? && slot.value !in closed(i) then slot else Probe(conns, start, i + 1, closed)
  }

  /** One pick from a node's set: the cursor advances and the id found is returned. */
  function Advance(s: TunnelSet): TunnelSet {
    s.(rr := (s.rr + 1) % WRAP)
  }

  function Answer(s: TunnelSet, closed: nat -> set<string>): Option<string> {
    Probe(s.conns, Advance(s).rr, 0, closed)
  }

  datatype Picked = Picked(nodes: Nodes, id: Option<string>)

  function PickIn(nodes: Nodes, node: string, closed: nat -> set<string>): Picked {
    if node !in nodes || nodes[node].conns == [] then Picked(nodes, None)
    else Picked(nodes[node := Advance(nodes[node])], Answer(nodes[node], closed))
  }

  /* ---------- the broker as an object ---------- */

  class BrokerObject {
    var nodes: Nodes

    constructor ()
      ensures nodes == map[]
    {
      nodes := map[];
    }

    method Register(node: string, id: string)
      modifies this
      ensures nodes == RegisterIn(old(nodes), node, id)
    {
      var s := TunnelSet([], 0);
      if node in nodes {
        s := nodes[node];
      }
      nodes := nodes[node := s.(conns := s.conns + [Some(id)])];
    }

    method Unregister(node: string, id: string)
      modifies this
      ensures nodes == UnregisterIn(old(nodes), node, id)
    {
      if node !in nodes {
        return;
      }
      var conns := nodes[node].conns;
      var i := 0;
      while i < |conns|
        invariant i <= |conns| && conns == old(nodes)[node].conns
        invariant nodes == old(nodes) && Find(conns, id, 0) == Find(conns, id, i)
      {
        if conns[i] == Some(id) {
          var last := |conns| - 1;
          conns := conns[i := conns[last]];
          conns := conns[last := None];
          conns := conns[..last];
          assert conns == Remove(old(nodes)[node].conns, id);
          break;
        }
        i := i + 1;
      }
      nodes := nodes[node := nodes[node].(conns := conns)];
      if conns == [] {
        nodes := nodes - {node};
      }
    }

    method Pick(node: string, closed: nat -> set<string>) returns (t: Option<string>)
      modifies this
      ensures Picked(nodes, t) == PickIn(old(nodes), node, closed)
    {
      if node !in nodes || nodes[node].conns == [] {
        return None;
      }
      var conns := nodes[node].conns;
      var start := (nodes[node].rr + 1) % WRAP;
      nodes := nodes[node := nodes[node].(rr := start)];
      for i := 0 to |conns|
        invariant Probe(conns, start, 0, closed) == Probe(conns, start, i, closed)
      {
        var slot := conns[ProbeIndex(start, i, |conns|)];
        if slot.Some? && slot.value !in closed(i) {
          return slot;
        }
      }
      t := None;
    }
  }

  /* ---------- what the table represents ---------- */

  /** The registrations: which connection ids are registered under which node. */
  ghost function Registered(nodes: Nodes): set<(string, string)> {
    set n, i | n in nodes && 0 <= i < |nodes[n].conns| && nodes[n].conns[i].Some? :: (n, nodes[n].conns[i].value)
  }

  ghost predicate Holds(nodes: Nodes, node: string, id: string) {
    node in nodes && Some(id) in nodes[node].conns
  }

  lemma {:induction false} RegisteredMeans(nodes: Nodes, node: string, id: string)
    ensures (node, id) in Registered(nodes) <==> Holds(nodes, node, id)
  {
    if Holds(nodes, node, id) {
      var i :| 0 <= i < |nodes[node].conns| && nodes[node].conns[i] == Some(id);
    }
  }

  predicate Distinct(conns: seq<Option<string>>) {
    forall i, j | 0 <= i < j < |conns| :: conns[i] != conns[j]
  }

  /** No nil slot, no duplicate, no empty set; cursors are uint64 values. */
  predicate WellFormed(nodes: Nodes) {
    forall n | n in nodes :: WellFormedSet(nodes[n])
  }

  predicate WellFormedSet(s: TunnelSet) {
    s.conns != [] && Distinct(s.conns) && None !in s.conns && s.rr < WRAP
  }

  lemma {:induction false} RemoveKeeps(conns: seq<Option<string>>, id: string, x: Option<string>)
    requires Distinct(conns)
    ensures Distinct(Remove(conns, id)) && (None !in conns ==> None !in Remove(conns, id))
    ensures x in Remove(conns, id) <==> x in conns && x != Some(id)
  {
    var i, last := Find(conns, id, 0), |conns| - 1;
    if i < |conns| {
      var r := Remove(conns, id);
      assert forall j | 0 <= j < last :: r[j] == if j == i then conns[last] else conns[j];
      if x in conns && x != Some(id) {
        var j :| 0 <= j < |conns| && conns[j] == x;
        assert r[if j == last then i else j] == x;
      }
    }
  }

  /* ---------- runs ---------- */

  datatype Event =
    | Register(node: string, id: string)
    | Unregister(node: string, id: string)
    | Pick(node: string, closed: nat -> set<string>)

  function Step(nodes: Nodes, e: Event): Nodes {
    match e
    case Register(node, id) => RegisterIn(nodes, node, id)
    case Unregister(node, id) => UnregisterIn(nodes, node, id)
    case Pick(node, closed) => PickIn(nodes, node, closed).nodes
  }

  /** The reference: a set of registrations. */
  function Effect(reg: set<(string, string)>, e: Event): set<(string, string)> {
    match e
    case Register(node, id) => reg + {(node, id)}
    case Unregister(node, id) => reg - {(node, id)}
    case Pick(_, _) => reg
  }

  /** Each critical section, from any well-formed table, does exactly its effect on the registrations. */
  lemma {:induction false} StepRefines(nodes: Nodes, e: Event)
    requires WellFormed(nodes)
    requires e.Register? ==> (e.node, e.id) !in Registered(nodes)
    ensures WellFormed(Step(nodes, e))
    ensures Registered(Step(nodes, e)) == Effect(Registered(nodes), e)
  {
    var nodes' := Step(nodes, e);
    if e.Register? {
      RegisteredMeans(nodes, e.node, e.id);
    } else if e.Unregister? && e.node in nodes {
      RemoveKeeps(nodes[e.node].conns, e.id, None);
    }
    forall p ensures p in Registered(nodes') <==> p in Effect(Registered(nodes), e) {
      var (n, id) := p;
      RegisteredMeans(nodes, n, id);
      RegisteredMeans(nodes', n, id);
      if e.Unregister? && e.node in nodes {
        RemoveKeeps(nodes[e.node].conns, e.id, Some(id));
      }
    }
  }

  function Run(nodes: Nodes, es: seq<Event>): Nodes
    decreases |es|
  {
    if es == [] then nodes else Run(Step(nodes, es[0]), es[1..])
  }

  function Effects(reg: set<(string, string)>, es: seq<Event>): set<(string, string)>
    decreases |es|
  {
    if es == [] then reg else Effects(Effect(reg, es[0]), es[1..])
  }

  /** Connection ids are fresh: no two registrations share one. */
  predicate FreshIds(es: seq<Event>) {
    forall i, j | 0 <= i < j < |es| && es[i].Register? && es[j].Register? :: es[i].id != es[j].id
  }

  lemma {:induction false} RunRefinesFrom(nodes: Nodes, es: seq<Event>)
    requires WellFormed(nodes) && FreshIds(es)
    requires forall i, n | 0 <= i < |es| && es[i].Register? :: (n, es[i].id) !in Registered(nodes)
    ensures WellFormed(Run(nodes, es)) && Registered(Run(nodes, es)) == Effects(Registered(nodes), es)
    decreases |es|
  {
    if es != [] {
      var e, rest := es[0], es[1..];
      StepRefines(nodes, e);
      assert forall i | 0 <= i < |rest| :: rest[i] == es[i + 1];
      RunRefinesFrom(Step(nodes, e), rest);
    }
  }

  /** Under every interleaving of registrations with fresh ids, unregistrations and picks, the table
      stays well formed and represents exactly the registered and not yet unregistered connections. */
  lemma {:induction false} RunRefines(es: seq<Event>)
    requires FreshIds(es)
    ensures WellFormed(Run(map[], es)) && Registered(Run(map[], es)) == Effects({}, es)
  {
    assert Registered(map[]) == {};
    RunRefinesFrom(map[], es);
  }

  /** Every connection stays in its slot, except that an unregistration takes its own away and moves the last. */
  lemma {:induction false} SlotsKept(nodes: Nodes, e: Event, node: string, j: nat)
    requires WellFormed(nodes) && node in nodes && j < |nodes[node].conns|
    requires e.Unregister? && e.node == node ==> nodes[node].conns[j] != Some(e.id) && j < |nodes[node].conns| - 1
    ensures
      var nodes' := Step(nodes, e);
      node in nodes' && j < |nodes'[node].conns| && nodes'[node].conns[j] == nodes[node].conns[j]
  {
  }

  lemma {:induction false} RunAppend(nodes: Nodes, es: seq<Event>, e: Event)
    ensures Run(nodes, es + [e]) == Step(Run(nodes, es), e)
    decreases |es|
  {
    if es != [] {
      assert (es + [e])[1..] == es[1..] + [e];
      RunAppend(Step(nodes, es[0]), es[1..], e);
    } else {
      assert (es + [e])[1..] == [];
    }
  }

  /** Whether some connection is registered under the node after the first i events. */
  ghost predicate Served(es: seq<Event>, node: string, i: nat)
    requires i <= |es|
  {
    exists id :: (node, id) in Effects({}, es[..i])
  }

  /** The picks of a node since it was last without connections. */
  ghost function Turns(es: seq<Event>, node: string, i: nat): nat
    requires i <= |es|
  {
    if i == 0 || !Served(es, node, i) then 0
    else Turns(es, node, i - 1) + if es[i - 1].Pick? && es[i - 1].node == node then 1 else 0
  }

  lemma {:induction false} ServedMeans(es: seq<Event>, node: string, i: nat)
    requires FreshIds(es) && i <= |es|
    ensures WellFormed(Run(map[], es[..i]))
    ensures node in Run(map[], es[..i]) <==> Served(es, node, i)
  {
    var nodes := Run(map[], es[..i]);
    RunRefines(es[..i]);
    if node in nodes {
      assert nodes[node].conns[0] in nodes[node].conns && nodes[node].conns[0] != None;
      RegisteredMeans(nodes, node, nodes[node].conns[0].value);
    }
    if id :| (node, id) in Effects({}, es[..i]) {
      RegisteredMeans(nodes, node, id);
    }
  }

  lemma {:induction false} CursorStep(nodes: Nodes, e: Event, node: string, turns: nat)
    requires node in Step(nodes, e) && WellFormed(nodes)
    requires if node in nodes then nodes[node].rr == turns % WRAP else turns == 0
    ensures Step(nodes, e)[node].rr == (turns + if e.Pick? && e.node == node then 1 else 0) % WRAP
  {
  }

  /** Over every run with fresh ids, the cursor of a node counts its picks since it was last without
      connections, modulo 2^64: registrations and other unregistrations do not move it. */
  lemma {:induction false} CursorCounts(es: seq<Event>, node: string, i: nat)
    requires FreshIds(es) && i <= |es|
    ensures node in Run(map[], es[..i]) <==> Served(es, node, i)
    ensures node in Run(map[], es[..i]) ==> Run(map[], es[..i])[node].rr == Turns(es, node, i) % WRAP
  {
    ServedMeans(es, node, i);
    if i > 0 && Served(es, node, i) {
      CursorCounts(es, node, i - 1);
      ServedMeans(es, node, i - 1);
      assert es[..i] == es[..i - 1] + [es[i - 1]];
      RunAppend(map[], es[..i - 1], es[i - 1]);
      CursorStep(Run(map[], es[..i - 1]), es[i - 1], node, Turns(es, node, i - 1));
    }
  }

  /* ---------- picking ---------- */

  /** The k-th probe looked at this connection and found it open. */
  ghost predicate FoundAt(conns: seq<Option<string>>, start: nat, k: nat, closed: nat -> set<string>, id: string)
    requires k < |conns|
  {
    conns[ProbeIndex(start, k, |conns|)] == Some(id) && id !in closed(k)
  }

  lemma {:induction false} ProbeFinds(conns: seq<Option<string>>, start: nat, i: nat, closed: nat -> set<string>)
    requires i <= |conns| && None !in conns
    ensures
      var r := Probe(conns, start, i, closed);
      && (r.Some? ==> r in conns && exists k :: i <= k < |conns| && FoundAt(conns, start, k, closed, r.value))
      && (r.None? ==> forall k | i <= k < |conns| :: conns[ProbeIndex(start, k, |conns|)].value in closed(k))
    decreases |conns| - i
  {
    if i < |conns| {
      var slot := conns[ProbeIndex(start, i, |conns|)];
      assert slot in conns;
      ProbeFinds(conns, start, i + 1, closed);
      if slot.value !in closed(i) {
        assert FoundAt(conns, start, i, closed, slot.value);
      }
    }
  }

  /** A dial only reaches a connection registered under the requested node and open when probed. */
  lemma {:induction false} PickRegistered(nodes: Nodes, node: string, closed: nat -> set<string>)
    requires WellFormed(nodes) && PickIn(nodes, node, closed).id.Some?
    ensures (node, PickIn(nodes, node, closed).id.value) in Registered(nodes)
    ensures
      var conns, start := nodes[node].conns, (nodes[node].rr + 1) % WRAP;
      exists k :: 0 <= k < |conns| && FoundAt(conns, start, k, closed, PickIn(nodes, node, closed).id.value)
  {
    var s := nodes[node];
    ProbeFinds(s.conns, (s.rr + 1) % WRAP, 0, closed);
    RegisteredMeans(nodes, node, PickIn(nodes, node, closed).id.value);
  }

  /* ---------- which slots a pick looks at ---------- */

  ghost predicate Probed(start: nat, n: nat, j: nat)
    requires n > 0
  {
    exists i :: 0 <= i < n && ProbeIndex(start, i, n) == j
  }

  /** n consecutive probes from start look at every slot. */
  ghost predicate LooksEverywhere(start: nat, n: nat)
    requires n > 0
  {
    forall j | 0 <= j < n :: Probed(start, n, j)
  }

  lemma {:induction false} MultipleBound(k: int, n: nat)
    ensures k >= 1 ==> k * n >= n
    ensures k <= -1 ==> k * n + n <= 0
  {
    if k >= 1 {
      assert k * n == n + (k - 1) * n;
    } else if k <= -1 {
      assert k * n + n == (k + 1) * n;
      assert (-k - 1) * n >= 0;
    }
  }

  lemma {:induction false} Distribute(x: int, y: int, n: int)
    ensures (x + y) * n == x * n + y * n
  {
  }

  lemma {:induction false} EuclidUnique(n: nat, q: int, d: nat, e: int, r: nat)
    requires q * n + d == e * n + r && d < n && r < n
    ensures e == q && r == d
  {
    assert (e - q) * n == d - r;
    MultipleBound(e - q, n);
  }

  lemma {:induction false} DivMod(x: int, q: int, n: nat, d: nat)
    requires x == q * n + d && d < n
    ensures x / n == q && x % n == d
  {
    EuclidUnique(n, q, d, x / n, x % n);
  }

  /** n consecutive numbers hit every remainder. */
  lemma {:induction false} HitsRemainder(start: nat, n: nat, j: nat) returns (i: nat)
    requires j < n
    ensures i < n && (start + i) % n == j
  {
    var q, r := start / n, start % n;
    if r <= j {
      i := j - r;
      DivMod(start + i, q, n, j);
    } else {
      i := j + n - r;
      Distribute(q, 1, n);
      DivMod(start + i, q + 1, n, j);
    }
  }

  lemma {:induction false} MultipleWraps(x: nat, n: nat)
    requires n > 0 && WRAP % n == 0
    ensures (x % WRAP) % n == x % n
  {
    var c, y, m := x / WRAP, x % WRAP, WRAP / n;
    var q, r := y / n, y % n;
    assert x == c * (m * n) + (q * n + r);
    assert c * (m * n) == (c * m) * n;
    Distribute(c * m, q, n);
    DivMod(x, c * m + q, n, r);
  }

  lemma {:induction false} Everywhere(start: nat, n: nat)
    requires 0 < n <= WRAP && start < WRAP && (start + n <= WRAP || WRAP % n == 0)
    ensures LooksEverywhere(start, n)
  {
    forall j | 0 <= j < n ensures Probed(start, n, j) {
      var i := HitsRemainder(start, n, j);
      if start + i >= WRAP {
        MultipleWraps(start + i, n);
      }
      assert ProbeIndex(start, i, n) == j;
    }
  }

  /** When the cursor wraps inside the probes and n does not divide 2^64, this slot is skipped. */
  function Skipped(start: nat, n: nat): (j: nat)
    requires 0 < n <= WRAP && start < WRAP < start + n && WRAP % n != 0
    ensures j < n
  {
    var m, w := WRAP % n, WRAP - start;
    if w <= m then n - 1 else n + m - w - 1
  }

  lemma {:induction false} SkippedNotProbed(start: nat, n: nat, i: nat)
    requires 0 < n <= WRAP && start < WRAP < start + n && WRAP % n != 0 && i < n
    ensures ProbeIndex(start, i, n) != Skipped(start, n)
  {
    var m, w, q := WRAP % n, WRAP - start, WRAP / n;
    assert WRAP == q * n + m;
    if i < w {
      var d := m - w + i;
      if d >= 0 {
        DivMod(start + i, q, n, d);
      } else {
        Distribute(q - 1, 1, n);
        DivMod(start + i, q - 1, n, d + n);
      }
    } else {
      assert (start + i) % WRAP == i - w;
      DivMod(i - w, 0, n, i - w);
    }
  }

  /** Exactly when n consecutive probes look at every slot. */
  lemma {:induction false} LooksEverywhereExactly(start: nat, n: nat)
    requires 0 < n <= WRAP && start < WRAP
    ensures LooksEverywhere(start, n) <==> start + n <= WRAP || WRAP % n == 0
  {
    if start + n <= WRAP || WRAP % n == 0 {
      Everywhere(start, n);
    } else {
      var j := Skipped(start, n);
      forall i | 0 <= i < n ensures ProbeIndex(start, i, n) != j {
        SkippedNotProbed(start, n, i);
      }
      assert !Probed(start, n, j);
    }
  }

  ghost predicate AllClosed(conns: seq<Option<string>>, closed: set<string>) {
    forall j | 0 <= j < |conns| && conns[j].Some? :: conns[j].value in closed
  }

  ghost predicate FindsOpen(conns: seq<Option<string>>, start: nat) {
    forall closed: set<string> :: Probe(conns, start, 0, _ => closed).None? <==> AllClosed(conns, closed)
  }

  /** A pick finds an open connection whenever there is one, if and only if its probes do not run over
      2^64 or the number of connections divides 2^64. */
  lemma {:induction false} PickFindsOpenExactly(s: TunnelSet)
    requires WellFormedSet(s) && |s.conns| <= WRAP
    ensures
      var start := (s.rr + 1) % WRAP;
      FindsOpen(s.conns, start) <==> start + |s.conns| <= WRAP || WRAP % |s.conns| == 0
  {
    var start := (s.rr + 1) % WRAP;
    LooksEverywhereExactly(start, |s.conns|);
    if LooksEverywhere(start, |s.conns|) {
      forall closed: set<string> ensures Probe(s.conns, start, 0, _ => closed).None? <==> AllClosed(s.conns, closed) {
        EverywhereFindsOpen(s.conns, start, closed);
      }
    } else {
      SkippingMissesOpen(s.conns, start);
    }
  }

  lemma {:induction false} EverywhereFindsOpen(conns: seq<Option<string>>, start: nat, closed: set<string>)
    requires conns != [] && None !in conns && LooksEverywhere(start, |conns|)
    ensures Probe(conns, start, 0, _ => closed).None? <==> AllClosed(conns, closed)
  {
    ProbeFinds(conns, start, 0, _ => closed);
    if Probe(conns, start, 0, _ => closed).None? {
      forall j | 0 <= j < |conns| && conns[j].Some? ensures conns[j].value in closed {
        assert Probed(start, |conns|, j);
        var i :| 0 <= i < |conns| && ProbeIndex(start, i, |conns|) == j;
      }
    }
  }

  /** Connections may close between probes but do not reopen: a pick that finds none has seen each one
      closed, so all are closed when it returns. */
  lemma {:induction false} NoneMeansAllClosed(conns: seq<Option<string>>, start: nat, closed: nat -> set<string>)
    requires conns != [] && None !in conns && LooksEverywhere(start, |conns|)
    requires forall i, j | 0 <= i <= j < |conns| :: closed(i) <= closed(j)
    requires Probe(conns, start, 0, closed).None?
    ensures AllClosed(conns, closed(|conns| - 1))
  {
    ProbeFinds(conns, start, 0, closed);
    forall j | 0 <= j < |conns| && conns[j].Some? ensures conns[j].value in closed(|conns| - 1) {
      assert Probed(start, |conns|, j);
      var i :| 0 <= i < |conns| && ProbeIndex(start, i, |conns|) == j;
    }
  }

  /** If the only open connection sits in the skipped slot, the pick finds none. */
  lemma {:induction false} SkippingMissesOpen(conns: seq<Option<string>>, start: nat)
    requires conns != [] && None !in conns && Distinct(conns)
    requires |conns| <= WRAP && start < WRAP < start + |conns| && WRAP % |conns| != 0
    ensures !FindsOpen(conns, start)
  {
    var n := |conns|;
    var j := Skipped(start, n);
    var others := set k | 0 <= k < n && k != j && conns[k].Some? :: conns[k].value;
    assert forall k | 0 <= k < n :: conns[k] in conns && conns[k].Some?;
    assert conns[j].value !in others;
    assert !AllClosed(conns, others);
    forall i | 0 <= i < n
      ensures conns[ProbeIndex(start, i, n)].Some? && conns[ProbeIndex(start, i, n)].value in others
    {
      SkippedNotProbed(start, n, i);
    }
    ProbeNone(conns, start, 0, others);
  }

  lemma {:induction false} ProbeNone(conns: seq<Option<string>>, start: nat, i: nat, closed: set<string>)
    requires i <= |conns| && None !in conns
    requires forall k | i <= k < |conns| :: conns[ProbeIndex(start, k, |conns|)].Some?
                                          && conns[ProbeIndex(start, k, |conns|)].value in closed
    ensures Probe(conns, start, i, _ => closed).None?
    decreases |conns| - i
  {
    if i < |conns| {
      ProbeNone(conns, start, i + 1, closed);
    }
  }

  /* ---------- fairness ---------- */

  /** How many of the cursor values in a list fall on slot j. */
  function Hits(tickets: seq<nat>, n: nat, j: nat): nat
    requires n > 0
  {
    if tickets == [] then 0
    else
      var last := |tickets| - 1;
      Hits(tickets[..last], n, j) + (if tickets[last] % n == j then 1 else 0)
  }

  /** The cursor values r+1, ..., r+k. */
  function Tickets(r: nat, k: nat): (s: seq<nat>)
    ensures |s| == k
  {
    if k == 0 then [] else Tickets(r, k - 1) + [r + k]
  }

  /** How many numbers up to x leave remainder j. */
  function UpTo(x: nat, n: nat, j: nat): nat
    requires j < n
  {
    (x + n - j) / n
  }

  lemma {:induction false} UpToStep(x: nat, n: nat, j: nat)
    requires j < n && x > 0
    ensures UpTo(x, n, j) == UpTo(x - 1, n, j) + (if x % n == j then 1 else 0)
  {
    var q, r := x / n, x % n;
    assert x == q * n + r;
    Distribute(q, 1, n);
    if r == j {
      DivMod(x + n - j, q + 1, n, 0);
      DivMod(x - 1 + n - j, q, n, n - 1);
    } else if r > j {
      DivMod(x + n - j, q + 1, n, r - j);
      DivMod(x - 1 + n - j, q + 1, n, r - j - 1);
    } else {
      DivMod(x + n - j, q, n, n + r - j);
      DivMod(x - 1 + n - j, q, n, n + r - j - 1);
    }
  }

  lemma {:induction false} HitsCounted(r: nat, k: nat, n: nat, j: nat)
    requires j < n
    ensures Hits(Tickets(r, k), n, j) == UpTo(r + k, n, j) - UpTo(r, n, j)
  {
    if k > 0 {
      HitsCounted(r, k - 1, n, j);
      UpToStep(r + k, n, j);
      assert Tickets(r, k)[..k - 1] == Tickets(r, k - 1);
    }
  }

  lemma {:induction false} HitsRemove(a: seq<nat>, i: nat, n: nat, j: nat)
    requires n > 0 && i < |a|
    ensures Hits(a, n, j) == Hits(a[..i] + a[i + 1..], n, j) + (if a[i] % n == j then 1 else 0)
    decreases |a|
  {
    var last := |a| - 1;
    if i < last {
      HitsRemove(a[..last], i, n, j);
      var b := a[..i] + a[i + 1..];
      assert b[..last - 1] == a[..last][..i] + a[..last][i + 1..];
      assert b[last - 1] == a[last];
    } else {
      assert a[..i] + a[i + 1..] == a[..last];
    }
  }

  lemma {:induction false} WithoutOne(a: seq<nat>, i: nat)
    requires i < |a|
    ensures multiset(a[..i] + a[i + 1..]) == multiset(a) - multiset{a[i]}
  {
    assert a == a[..i] + [a[i]] + a[i + 1..];
  }

  /** The order in which cursor values were drawn does not matter. */
  lemma {:induction false} HitsPermuted(a: seq<nat>, b: seq<nat>, n: nat, j: nat)
    requires n > 0 && multiset(a) == multiset(b)
    ensures Hits(a, n, j) == Hits(b, n, j)
    decreases |a|
  {
    if a == [] {
      assert |multiset(b)| == 0;
    } else {
      var last := |a| - 1;
      var x := a[last];
      assert x in multiset(a) && x in b;
      var i :| 0 <= i < |b| && b[i] == x;
      WithoutOne(a, last);
      WithoutOne(b, i);
      assert a[..last] + a[last + 1..] == a[..last];
      HitsRemove(b, i, n, j);
      HitsPermuted(a[..last], b[..i] + b[i + 1..], n, j);
    }
  }

  lemma {:induction false} DivOfSum(a: nat, k: nat, n: nat)
    requires n > 0
    ensures (a + k) / n == a / n + k / n + (if a % n + k % n < n then 0 else 1)
  {
    var q, r, p, s := a / n, a % n, k / n, k % n;
    assert a == q * n + r && k == p * n + s;
    Distribute(q, p, n);
    if r + s < n {
      DivMod(a + k, q + p, n, r + s);
    } else {
      Distribute(q + p, 1, n);
      DivMod(a + k, q + p + 1, n, r + s - n);
    }
  }

  lemma {:induction false} DivBetween(a: nat, k: nat, n: nat)
    requires n > 0
    ensures k / n <= (a + k) / n - a / n <= (k + n - 1) / n
  {
    DivOfSum(a, k, n);
    DivOfSum(k, n - 1, n);
    DivMod(n - 1, 0, n, n - 1);
  }

  /** Every connection open at every probe. */
  function NoneClosed(probe: nat): set<string> {
    {}
  }

  /** What picks that drew these cursor values return while every connection is open. */
  function Answers(conns: seq<Option<string>>, tickets: seq<nat>): (ids: seq<Option<string>>)
    requires conns != []
    ensures |ids| == |tickets|
    ensures forall i | 0 <= i < |tickets| :: ids[i] == Probe(conns, tickets[i], 0, NoneClosed)
  {
    seq(|tickets|, i requires 0 <= i < |tickets| => Probe(conns, tickets[i], 0, NoneClosed))
  }

  function Count(ids: seq<Option<string>>, id: string): nat {
    if ids == [] then 0
    else Count(ids[..|ids| - 1], id) + (if ids[|ids| - 1] == Some(id) then 1 else 0)
  }

  /** A ticket below 2^64 falls on the slot of its remainder; a larger one, which the cursor holds modulo
      2^64, does so if the number of connections divides 2^64. */
  lemma {:induction false} OpenPick(conns: seq<Option<string>>, start: nat)
    requires conns != [] && None !in conns && (start < WRAP || WRAP % |conns| == 0)
    ensures Probe(conns, start, 0, NoneClosed) == conns[start % |conns|]
  {
    assert conns[ProbeIndex(start, 0, |conns|)] in conns;
    if WRAP % |conns| == 0 {
      MultipleWraps(start, |conns|);
    }
  }

  lemma {:induction false} AnswersCounted(conns: seq<Option<string>>, tickets: seq<nat>, j: nat)
    requires conns != [] && None !in conns && Distinct(conns) && j < |conns| && conns[j].Some?
    requires WRAP % |conns| == 0 || forall i | 0 <= i < |tickets| :: tickets[i] < WRAP
    ensures Count(Answers(conns, tickets), conns[j].value) == Hits(tickets, |conns|, j)
    decreases |tickets|
  {
    if tickets != [] {
      var last := |tickets| - 1;
      AnswersCounted(conns, tickets[..last], j);
      OpenPick(conns, tickets[last]);
      assert Answers(conns, tickets)[..last] == Answers(conns, tickets[..last]);
    }
  }

  lemma {:induction false} TicketsBounded(r: nat, k: nat)
    ensures forall t | t in Tickets(r, k) :: t <= r + k
  {
    if k > 0 {
      TicketsBounded(r, k - 1);
    }
  }

  lemma {:induction false} DrawnBounded(r: nat, k: nat, drawn: seq<nat>)
    requires multiset(drawn) == multiset(Tickets(r, k))
    ensures forall i | 0 <= i < |drawn| :: drawn[i] <= r + k
  {
    TicketsBounded(r, k);
    forall i | 0 <= i < |drawn| ensures drawn[i] <= r + k {
      assert drawn[i] in multiset(drawn);
      assert drawn[i] in Tickets(r, k);
    }
  }

  /** These picks choose connection j floor(k/n) or ceil(k/n) times. */
  predicate Fair(conns: seq<Option<string>>, drawn: seq<nat>, j: nat)
    requires j < |conns| && conns[j].Some?
  {
    Even(|drawn|, |conns|, Count(Answers(conns, drawn), conns[j].value))
  }

  /** A share of k among n: floor(k/n) or ceil(k/n). */
  predicate Even(k: nat, n: nat, share: nat)
    requires n > 0
  {
    k / n <= share <= (k + n - 1) / n
  }

  lemma {:induction false} SameLength(a: seq<nat>, b: seq<nat>)
    requires multiset(a) == multiset(b)
    ensures |a| == |b|
  {
    assert |multiset(a)| == |a| && |multiset(b)| == |b|;
  }

  /** Round robin is fair under any interleaving: k picks draw the next k cursor values, in whatever
      order, and on an unchanged set of n open connections they choose each connection floor(k/n) or
      ceil(k/n) times, as long as the cursor does not wrap, or n divides 2^64. */
  lemma {:induction false} PicksFair(s: TunnelSet, k: nat, drawn: seq<nat>, j: nat)
    requires WellFormedSet(s) && j < |s.conns| && s.conns[j].Some?
    requires s.rr + k < WRAP || WRAP % |s.conns| == 0
    requires multiset(drawn) == multiset(Tickets(s.rr, k))
    ensures |drawn| == k && Fair(s.conns, drawn, j)
  {
    SameLength(drawn, Tickets(s.rr, k));
    DrawnBounded(s.rr, k, drawn);
    AnswersCounted(s.conns, drawn, j);
    HitsPermuted(drawn, Tickets(s.rr, k), |s.conns|, j);
    HitsCounted(s.rr, k, |s.conns|, j);
    DivBetween(s.rr + |s.conns| - j, k, |s.conns|);
  }

  lemma {:induction false} TicketAt(r: nat, k: nat, i: nat)
    requires i < k
    ensures Tickets(r, k)[i] == r + 1 + i
  {
    if i < k - 1 {
      TicketAt(r, k - 1, i);
    }
  }

  lemma {:induction false} CountedOnce(ids: seq<Option<string>>, i: nat, id: string)
    requires i < |ids| && ids[i] == Some(id)
    ensures Count(ids, id) >= 1
    decreases |ids|
  {
    if i < |ids| - 1 {
      CountedOnce(ids[..|ids| - 1], i, id);
    }
  }

  lemma {:induction false} CountedTwice(ids: seq<Option<string>>, i: nat, j: nat, id: string)
    requires i < j < |ids| && ids[i] == ids[j] == Some(id)
    ensures Count(ids, id) >= 2
    decreases |ids|
  {
    if j < |ids| - 1 {
      CountedTwice(ids[..|ids| - 1], i, j, id);
    } else {
      CountedOnce(ids[..j], i, id);
    }
  }

  /** Where n does not divide 2^64, n picks from the last cursor value on choose one connection twice. */
  lemma {:induction false} UnfairAcrossWrap(conns: seq<Option<string>>)
    requires conns != [] && None !in conns && |conns| <= WRAP && WRAP % |conns| != 0
    ensures
      var j := WRAP % |conns| - 1;
      conns[j].Some? && !Fair(conns, Tickets(WRAP - 2, |conns|), j)
  {
    var n := |conns|;
    var m, q := WRAP % n, WRAP / n;
    var drawn := Tickets(WRAP - 2, n);
    assert conns[m - 1] in conns;
    TicketAt(WRAP - 2, n, 0);
    TicketAt(WRAP - 2, n, m);
    assert WRAP - 1 == q * n + (m - 1);
    DivMod(WRAP - 1, q, n, m - 1);
    assert (WRAP + (m - 1)) % WRAP == m - 1;
    DivMod(m - 1, 0, n, m - 1);
    assert ProbeIndex(drawn[0], 0, n) == m - 1 == ProbeIndex(drawn[m], 0, n);
    CountedTwice(Answers(conns, drawn), 0, m, conns[m - 1].value);
    DivMod(n + n - 1, 1, n, n - 1);
  }

  /** Picks are fair from every cursor on, however many, if and only if n divides 2^64. */
  lemma {:induction false} AlwaysFairExactly(conns: seq<Option<string>>)
    requires conns != [] && Distinct(conns) && None !in conns && |conns| <= WRAP
    ensures
      (forall rr, k, j | 0 <= rr < WRAP && 0 <= k && 0 <= j < |conns| && conns[j].Some? :: Fair(conns, Tickets(rr, k), j))
      <==> WRAP % |conns| == 0
  {
    if WRAP % |conns| == 0 {
      forall rr, k, j | 0 <= rr < WRAP && 0 <= k && 0 <= j < |conns| && conns[j].Some?
        ensures Fair(conns, Tickets(rr, k), j)
      {
        PicksFair(TunnelSet(conns, rr), k, Tickets(rr, k), j);
      }
    } else {
      UnfairAcrossWrap(conns);
    }
  }

  lemma {:induction false} ProbeWraps(conns: seq<Option<string>>, start: nat, i: nat, closed: nat -> set<string>)
    requires i <= |conns|
    ensures Probe(conns, start % WRAP, i, closed) == Probe(conns, start, i, closed)
    decreases |conns| - i
  {
    if i < |conns| {
      SumWraps(start, i);
      ProbeWraps(conns, start, i + 1, closed);
    }
  }

  lemma {:induction false} SumWraps(a: nat, b: nat)
    ensures (a % WRAP + b) % WRAP == (a + b) % WRAP
  {
  }

  /** The set with its cursor at r, modulo 2^64. */
  function At(s: TunnelSet, r: nat): TunnelSet {
    s.(rr := r % WRAP)
  }

  lemma {:induction false} PickOnce(s: TunnelSet, r: nat)
    requires s.conns != []
    ensures Advance(At(s, r)) == At(s, r + 1) && Answer(At(s, r), NoneClosed) == Probe(s.conns, r + 1, 0, NoneClosed)
  {
    SumWraps(r, 1);
    ProbeWraps(s.conns, r + 1, 0, NoneClosed);
  }

  lemma {:induction false} AnswersGrow(conns: seq<Option<string>>, tickets: seq<nat>, t: nat)
    requires conns != []
    ensures Answers(conns, tickets + [t]) == Answers(conns, tickets) + [Probe(conns, t, 0, NoneClosed)]
  {
  }

  /* ---------- the same through Pick itself ---------- */

  /** One pick of some node; `closed` is what it finds closed. */
  datatype PickOf = PickOf(node: string, closed: nat -> set<string>)

  /** The table, and what the picks of one node returned so far. */
  datatype Tally = Tally(nodes: Nodes, ids: seq<Option<string>>)

  function Picking(r: Tally, p: PickOf, node: string): Tally {
    var picked := PickIn(r.nodes, p.node, p.closed);
    Tally(picked.nodes, if p.node == node then r.ids + [picked.id] else r.ids)
  }

  /** What the picks of one node return, among picks of any nodes. */
  function PicksOf(nodes: Nodes, picks: seq<PickOf>, node: string): Tally
    decreases |picks|
  {
    if picks == [] then Tally(nodes, [])
    else Picking(PicksOf(nodes, picks[..|picks| - 1], node), picks[|picks| - 1], node)
  }

  /** How often the node is picked. */
  function Times(picks: seq<PickOf>, node: string): nat
    decreases |picks|
  {
    if picks == [] then 0
    else Times(picks[..|picks| - 1], node) + (if picks[|picks| - 1].node == node then 1 else 0)
  }

  /** Every pick of the node finds its connections open. */
  ghost predicate OpenFor(picks: seq<PickOf>, node: string) {
    forall i | 0 <= i < |picks| && picks[i].node == node :: picks[i].closed == NoneClosed
  }

  lemma {:induction false} PickMoves(nodes: Nodes, node: string, closed: nat -> set<string>, other: string)
    requires other in nodes && nodes[other].conns != []
    ensures
      var p := PickIn(nodes, node, closed);
      && other in p.nodes && p.nodes[other] == (if node == other then Advance(nodes[other]) else nodes[other])
      && (node == other ==> p.id == Answer(nodes[other], closed))
  {
  }

  ghost predicate CursorAt(nodes: Nodes, node: string, s: TunnelSet, r: nat) {
    node in nodes && nodes[node] == At(s, r)
  }

  ghost predicate Answered(ids: seq<Option<string>>, s: TunnelSet, k: nat)
    requires s.conns != []
  {
    ids == Answers(s.conns, Tickets(s.rr, k))
  }

  /** k picks have been answered as consecutive cursor values say, and have moved the cursor on by k. */
  ghost predicate Drawn(r: Tally, node: string, s: TunnelSet, k: nat)
    requires s.conns != []
  {
    CursorAt(r.nodes, node, s, s.rr + k) && Answered(r.ids, s, k)
  }

  lemma {:induction false} PickAt(nodes: Nodes, node: string, s: TunnelSet, r: nat)
    requires s.conns != [] && CursorAt(nodes, node, s, r)
    ensures
      var p := PickIn(nodes, node, NoneClosed);
      CursorAt(p.nodes, node, s, r + 1) && p.id == Probe(s.conns, r + 1, 0, NoneClosed)
  {
    PickMoves(nodes, node, NoneClosed, node);
    PickOnce(s, r);
  }

  lemma {:induction false} AnsweredNext(ids: seq<Option<string>>, s: TunnelSet, k: nat, id: Option<string>)
    requires s.conns != [] && Answered(ids, s, k) && id == Probe(s.conns, s.rr + k + 1, 0, NoneClosed)
    ensures Answered(ids + [id], s, k + 1)
  {
    AnswersGrow(s.conns, Tickets(s.rr, k), s.rr + k + 1);
  }

  lemma {:induction false} DrawnNext(r: Tally, p: PickOf, node: string, s: TunnelSet, k: nat)
    requires s.conns != [] && Drawn(r, node, s, k) && p.node == node && p.closed == NoneClosed
    ensures Drawn(Picking(r, p, node), node, s, k + 1)
  {
    PickAt(r.nodes, node, s, s.rr + k);
    AnsweredNext(r.ids, s, k, PickIn(r.nodes, node, NoneClosed).id);
  }

  lemma {:induction false} DrawnElsewhere(r: Tally, p: PickOf, node: string, s: TunnelSet, k: nat)
    requires s.conns != [] && Drawn(r, node, s, k) && p.node != node
    ensures Drawn(Picking(r, p, node), node, s, k)
  {
    PickMoves(r.nodes, p.node, p.closed, node);
  }

  lemma {:induction false} DrawnNone(nodes: Nodes, node: string)
    requires WellFormed(nodes) && node in nodes
    ensures Drawn(Tally(nodes, []), node, nodes[node], 0)
  {
    assert nodes[node].rr % WRAP == nodes[node].rr;
  }

  lemma {:induction false} DrawnPick(r: Tally, p: PickOf, node: string, s: TunnelSet, k: nat)
    requires s.conns != [] && Drawn(r, node, s, k) && (p.node == node ==> p.closed == NoneClosed)
    ensures Drawn(Picking(r, p, node), node, s, k + if p.node == node then 1 else 0)
  {
    if p.node == node {
      DrawnNext(r, p, node, s, k);
    } else {
      DrawnElsewhere(r, p, node, s, k);
    }
  }

  lemma {:induction false} PicksDrawFrom(nodes: Nodes, picks: seq<PickOf>, node: string, s: TunnelSet)
    requires s.conns != [] && Drawn(Tally(nodes, []), node, s, 0) && OpenFor(picks, node)
    ensures Drawn(PicksOf(nodes, picks, node), node, s, Times(picks, node))
    decreases |picks|
  {
    if picks != [] {
      var init, p := picks[..|picks| - 1], picks[|picks| - 1];
      PicksDrawFrom(nodes, init, node, s);
      DrawnPick(PicksOf(nodes, init, node), p, node, s, Times(init, node));
    }
  }

  /** The picks of a node, with picks of other nodes in between, return what consecutive cursor values give
      and move its cursor on by their number, modulo 2^64. */
  lemma {:induction false} PicksDraw(nodes: Nodes, picks: seq<PickOf>, node: string)
    requires WellFormed(nodes) && node in nodes && OpenFor(picks, node)
    ensures Drawn(PicksOf(nodes, picks, node), node, nodes[node], Times(picks, node))
  {
    DrawnNone(nodes, node);
    PicksDrawFrom(nodes, picks, node, nodes[node]);
  }

  /** Hence Pick is fair: k picks of a node return each of its n connections floor(k/n) or ceil(k/n) times,
      while the cursor does not wrap, or if n divides 2^64. */
  lemma {:induction false} PickFair(nodes: Nodes, picks: seq<PickOf>, node: string, j: nat)
    requires WellFormed(nodes) && node in nodes && OpenFor(picks, node)
    requires j < |nodes[node].conns| && nodes[node].conns[j].Some?
    requires nodes[node].rr + Times(picks, node) < WRAP || WRAP % |nodes[node].conns| == 0
    ensures Even(Times(picks, node), |nodes[node].conns|, Count(PicksOf(nodes, picks, node).ids, nodes[node].conns[j].value))
  {
    var s, k := nodes[node], Times(picks, node);
    PicksDraw(nodes, picks, node);
    PicksFair(s, k, Tickets(s.rr, k), j);
  }

  /** Pick returns nothing for a node without connections; for one with connections it returns nothing
      exactly when all are closed, if and only if its probes do not run over 2^64 or their number divides
      2^64. */
  lemma {:induction false} PickReturnsOpenExactly(nodes: Nodes, node: string)
    requires WellFormed(nodes)
    ensures node !in nodes ==> forall closed :: PickIn(nodes, node, closed) == Picked(nodes, None)
    ensures node in nodes && |nodes[node].conns| <= WRAP ==>
      var conns, start := nodes[node].conns, (nodes[node].rr + 1) % WRAP;
      (forall closed: set<string> :: PickIn(nodes, node, _ => closed).id.None? <==> AllClosed(conns, closed))
      <==> start + |conns| <= WRAP || WRAP % |conns| == 0
  {
    if node in nodes && |nodes[node].conns| <= WRAP {
      var s := nodes[node];
      PickFindsOpenExactly(s);
    }
  }
}
