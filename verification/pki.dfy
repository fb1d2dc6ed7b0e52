/** Leaf certificate regeneration of pkg/runtime/pki_auth.go: the SAN lists, their hash annotations and
    the secret that holds the CA and the leaves, over any sequence of spec edits and reconciles. */
module Pki {
  import opened Options
  import opened StringOrder

  /** The part of a Runtime that SANs depend on. */
  datatype Runtime = Runtime(
    name: string,
    namespace: string,
    sans: seq<string>,
    apiServerHost: string,
    planeTunnelHost: string)

  datatype CSR = CSR(name: string, o: string, cn: string, hostnames: seq<string>)

  /** Secret bytes. Signing is ideal: a leaf certificate tells its CA, its request and the serial of the
      key made with it. */
  datatype Blob =
    | Raw(bytes: string)
    | LeafCert(caCert: Blob, caKey: Blob, csr: CSR, serial: nat)
    | LeafKey(serial: nat)

  /** Annotation values; the digest is taken as injective. */
  datatype Note = Text(text: string) | Sha(digested: string)

  datatype Secret = Secret(data: map<string, Blob>, annotations: map<string, Note>)

  const CA_CERT := "ca.crt"
  const CA_KEY := "ca.key"
  const API_HASH := "controlplane.tardigrade.runtime.io/pki-apiserver-hash"
  const TUNNEL_HASH := "controlplane.tardigrade.runtime.io/pki-planetunnel-hash"

  /** The two leaves that can be re-signed. */
  datatype Leaf = ApiServer | PlaneTunnel

  function CertKey(l: Leaf): string {
    if l.ApiServer? then "apiserver.crt" else "plane-tunnel.crt"
  }

  function KeyKey(l: Leaf): string {
    if l.ApiServer? then "apiserver.key" else "plane-tunnel.key"
  }

  function HashKey(l: Leaf): string {
    if l.ApiServer? then API_HASH else TUNNEL_HASH
  }

  function Request(l: Leaf, sans: seq<string>): CSR {
    if l.ApiServer? then CSR("kubernetes", "kubernetes", "kube-apiserver", sans)
    else CSR("plane-tunnel", "system:plane-tunnel", "", sans)
  }

  /* ---------- SAN lists ---------- */

  function DefaultSans(rt: Runtime): seq<string> {
    ["127.0.0.1", "10.96.0.1", "0.0.0.0", "kubernetes", "kubernetes.default", "kubernetes.default.svc",
     "kubernetes.default.cluster", "server.kubernetes.local", "api-server.kubernetes.local",
     rt.name + "." + rt.namespace + ".svc.cluster.local"]
  }

  function DropEmpty(s: seq<string>): seq<string> {
    if s == [] then [] else (if s[0] == [] then [] else [s[0]]) + DropEmpty(s[1..])
  }

  lemma ConcatElements(a: seq<string>, b: seq<string>)
    ensures Elements(a + b) == Elements(a) + Elements(b)
  {
  }

  lemma {:induction false} DropEmptyElements(s: seq<string>)
    ensures Elements(DropEmpty(s)) == Elements(s) - {""}
  {
    if s != [] {
      DropEmptyElements(s[1..]);
      assert s == [s[0]] + s[1..];
      ConcatElements([s[0]], s[1..]);
      ConcatElements(if s[0] == [] then [] else [s[0]], DropEmpty(s[1..]));
    }
  }

  function APIServerAltNames(rt: Runtime): seq<string> {
    var sans := rt.sans + DefaultSans(rt) + (if rt.apiServerHost != [] then [rt.apiServerHost] else []);
    Canonical(DropEmpty(sans))
  }

  function PlaneTunnelAltNames(host: string): seq<string> {
    if host == [] then [] else [host]
  }

  function Sans(l: Leaf, rt: Runtime): seq<string> {
    if l.ApiServer? then APIServerAltNames(rt) else PlaneTunnelAltNames(rt.planeTunnelHost)
  }

  /** Everything a caller asked for, the required names and the endpoint, never an empty name; strictly
      sorted, hence without duplicates. */
  lemma AltNamesMean(rt: Runtime)
    ensures StrictlySorted(APIServerAltNames(rt))
    ensures Elements(APIServerAltNames(rt))
         == Elements(rt.sans) + Elements(DefaultSans(rt)) + {rt.apiServerHost} - {""}
  {
    var host := if rt.apiServerHost != [] then [rt.apiServerHost] else [];
    var sans := rt.sans + DefaultSans(rt) + host;
    DropEmptyElements(sans);
    CanonicalMeans(DropEmpty(sans));
    ConcatElements(rt.sans, DefaultSans(rt));
    ConcatElements(rt.sans + DefaultSans(rt), host);
    assert Elements(host) - {""} == {rt.apiServerHost} - {""};
  }

  /** The SAN list depends only on the set of names: reordering or repeating SANs changes nothing. */
  lemma AltNamesUnique(rt: Runtime, rt': Runtime)
    requires Elements(rt.sans) == Elements(rt'.sans) && rt'.apiServerHost == rt.apiServerHost
    requires rt'.name == rt.name && rt'.namespace == rt.namespace
    ensures APIServerAltNames(rt') == APIServerAltNames(rt)
  {
    AltNamesMean(rt);
    AltNamesMean(rt');
    assert DefaultSans(rt) == DefaultSans(rt');
    StrictUnique(APIServerAltNames(rt), APIServerAltNames(rt'));
  }

  /** The tunnel certificate is for the tunnel host, and for nothing if there is none. */
  lemma {:induction false} TunnelNamesMean(rt: Runtime)
    ensures StrictlySorted(Sans(PlaneTunnel, rt)) && Elements(Sans(PlaneTunnel, rt)) == {rt.planeTunnelHost} - {""}
  {
    assert Elements([rt.planeTunnelHost]) == {rt.planeTunnelHost};
  }

  /** A request tells the leaf it is for and the names it is about. */
  lemma {:induction false} RequestTells(l: Leaf, sans: seq<string>, l': Leaf, sans': seq<string>)
    requires Request(l, sans) == Request(l', sans')
    ensures l == l' && sans == sans'
  {
    assert |"kubernetes"| != |"plane-tunnel"|;
  }

  /* ---------- hashes ---------- */

  /** strings.Join(s, ","). */
  function Join(s: seq<string>): string {
    if s == [] then [] else if |s| == 1 then s[0] else s[0] + ([','] + Join(s[1..]))
  }

  function SansHash(s: seq<string>): Note {
    Sha(Join(s))
  }

  predicate CommaFree(s: seq<string>) {
    forall i | 0 <= i < |s| :: s[i] != [] && ',' !in s[i]
  }

  lemma {:induction false} JoinInjective(a: seq<string>, b: seq<string>)
    requires CommaFree(a) && CommaFree(b) && Join(a) == Join(b)
    ensures a == b
  {
    if a != [] && b != [] {
      HeadOfJoin(a);
      HeadOfJoin(b);
      assert |a[0]| == |b[0]|;
      assert a[0] == Join(a)[..|a[0]|] == b[0];
      JoinInjective(a[1..], b[1..]);
      assert a == [a[0]] + a[1..] && b == [b[0]] + b[1..];
    }
  }

  /** Where the first element of a joined list ends. */
  lemma HeadOfJoin(a: seq<string>)
    requires a != [] && CommaFree(a)
    ensures a[0] <= Join(a) && forall i | 0 <= i < |a[0]| :: Join(a)[i] != ','
    ensures |a| == 1 <==> |Join(a)| == |a[0]|
    ensures |a| > 1 ==> Join(a)[|a[0]|] == ',' && Join(a[1..]) == Join(a)[|a[0]| + 1..]
    ensures |a| == 1 ==> Join(a[1..]) == []
  {
  }

  /* ---------- names with commas ---------- */

  /** No name begins where "c,d", "c" and "d" sort. */
  predicate Clear(s: seq<string>) {
    forall i | 0 <= i < |s| :: s[i] != [] && (s[i][0] < 'c' || s[i][0] > 'd')
  }

  /** A strictly sorted clear list falls into the names before those and the names after them. */
  lemma {:induction false} SplitAround(base: seq<string>) returns (p: seq<string>, q: seq<string>)
    requires StrictlySorted(base) && Clear(base)
    ensures base == p + q
    ensures forall x | x in p :: x != [] && x[0] < 'c'
    ensures forall x | x in q :: x != [] && x[0] > 'd'
  {
    if base == [] || base[0][0] > 'd' {
      p, q := [], base;
      forall i | 0 <= i < |base| ensures base[i][0] > 'd' {
        assert i > 0 ==> StrCmp(base[0], base[i]) < 0;
      }
    } else {
      TailElements(base);
      p, q := SplitAround(base[1..]);
      p := [base[0]] + p;
      assert base == [base[0]] + base[1..];
    }
  }

  lemma {:induction false} Between(p: seq<string>, mid: seq<string>, q: seq<string>)
    requires StrictlySorted(p + q) && StrictlySorted(mid)
    requires forall x | x in p :: x != [] && x[0] < 'c'
    requires forall x | x in q :: x != [] && x[0] > 'd'
    requires forall x | x in mid :: x != [] && 'c' <= x[0] <= 'd'
    ensures StrictlySorted(p + mid + q) && Elements(p + mid + q) == Elements(p + q) + Elements(mid)
  {
    var s, b := p + mid + q, p + q;
    forall i, j | 0 <= i < j < |s| ensures StrCmp(s[i], s[j]) < 0 {
      var i', j' := if i < |p| then i else i - |mid|, if j < |p| then j else j - |mid|;
      if i < |p| && j < |p| {
        assert StrCmp(b[i], b[j]) < 0;
      } else if i < |p| && j < |p| + |mid| {
        assert s[i] in p && s[j] in mid;
      } else if i < |p| {
        assert StrCmp(b[i], b[j']) < 0;
      } else if j < |p| + |mid| {
        assert StrCmp(mid[i - |p|], mid[j - |p|]) < 0;
      } else if i < |p| + |mid| {
        assert s[i] in mid && s[j] in q;
      } else {
        assert StrCmp(b[i'], b[j']) < 0;
      }
    }
  }

  lemma {:induction false} JoinAppend(a: seq<string>, b: seq<string>)
    requires b != []
    ensures Join(a + b) == if a == [] then Join(b) else Join(a) + ([','] + Join(b))
  {
    if a == [] {
      assert a + b == b;
    } else {
      assert (a + b)[1..] == a[1..] + b;
      JoinAppend(a[1..], b);
      if |a| > 1 {
        assert a[0] + ([','] + (Join(a[1..]) + ([','] + Join(b)))) == Join(a) + ([','] + Join(b));
      } else {
        assert a[1..] + b == b;
      }
    }
  }

  /** Joined by commas, the one name and the two names read the same in any surroundings. */
  lemma {:induction false} JoinBlurs(p: seq<string>, q: seq<string>)
    ensures Join(p + ["c,d"] + q) == Join(p + ["c", "d"] + q)
  {
    var one, two := ["c,d"] + q, ["c", "d"] + q;
    assert one[1..] == q && two[1..] == ["d"] + q && (["d"] + q)[1..] == q;
    if q == [] {
      assert "c" + ([','] + "d") == "c,d";
    } else {
      assert "c" + ([','] + ("d" + ([','] + Join(q)))) == "c,d" + ([','] + Join(q));
    }
    assert p + ["c,d"] + q == p + one && p + ["c", "d"] + q == p + two;
    JoinAppend(p, one);
    JoinAppend(p, two);
  }

  /** Adding one name with a comma, or the two names on either side of it, makes different lists of names
      with one hash, in every spec whose other names sort elsewhere. */
  lemma {:induction false} CommaCollision(rt: Runtime)
    requires Clear(APIServerAltNames(rt))
    ensures
      var one, two := APIServerAltNames(Named(rt, ["c,d"])), APIServerAltNames(Named(rt, ["c", "d"]));
      one != two && SansHash(one) == SansHash(two)
  {
    var base := APIServerAltNames(rt);
    AltNamesMean(rt);
    var p, q := SplitAround(base);
    AltNamesWith(rt, ["c,d"], p, q);
    AltNamesWith(rt, ["c", "d"], p, q);
    JoinBlurs(p, q);
    assert |p + ["c,d"] + q| != |p + ["c", "d"] + q|;
  }

  function Named(rt: Runtime, names: seq<string>): Runtime {
    rt.(sans := rt.sans + names)
  }

  lemma {:induction false} AltNamesWith(rt: Runtime, mid: seq<string>, p: seq<string>, q: seq<string>)
    requires APIServerAltNames(rt) == p + q && StrictlySorted(p + q) && (mid == ["c,d"] || mid == ["c", "d"])
    requires forall x | x in p :: x != [] && x[0] < 'c'
    requires forall x | x in q :: x != [] && x[0] > 'd'
    ensures APIServerAltNames(Named(rt, mid)) == p + mid + q
  {
    Between(p, mid, q);
    AltNamesMean(rt);
    AltNamesMean(Named(rt, mid));
    ConcatElements(rt.sans, mid);
    assert DefaultSans(Named(rt, mid)) == DefaultSans(rt);
    assert "" !in Elements(mid);
    StrictUnique(APIServerAltNames(Named(rt, mid)), p + mid + q);
  }

  /** Such a spec: no names of its own. */
  lemma {:induction false} BareSpecClear(rt: Runtime)
    requires rt.sans == [] && rt.apiServerHost == [] && rt.name != [] && rt.name[0] > 'd'
    ensures Clear(APIServerAltNames(rt))
  {
    AltNamesMean(rt);
    var names := APIServerAltNames(rt);
    forall i | 0 <= i < |names| ensures names[i] != [] && (names[i][0] < 'c' || names[i][0] > 'd') {
      assert names[i] in Elements(names);
      assert names[i] in DefaultSans(rt);
      assert (rt.name + "." + rt.namespace + ".svc.cluster.local")[0] == rt.name[0];
    }
  }

  /* ---------- RegeneratePKILeafCerts ---------- */

  function Entry(data: map<string, Blob>, k: string): Blob {
    if k in data then data[k] else Raw([])
  }

  datatype Signed = Signed(secret: Secret, updated: bool, ok: bool)

  /** One leaf: re-signed when its annotation is not the hash of the wanted SANs. `signing` is the serial
      of the new key, or None when SignCSR fails. */
  function Resign(s: Secret, l: Leaf, rt: Runtime, signing: Option<nat>): Signed {
    var sans := Sans(l, rt);
    if HashKey(l) in s.annotations && s.annotations[HashKey(l)] == SansHash(sans) then Signed(s, false, true)
    else if signing.None? then Signed(s, false, false)
    else
      var cert := LeafCert(Entry(s.data, CA_CERT), Entry(s.data, CA_KEY), Request(l, sans), signing.value);
      Signed(Secret(s.data[CertKey(l) := cert][KeyKey(l) := LeafKey(signing.value)],
                    s.annotations[HashKey(l) := SansHash(sans)]), true, true)
  }

  /** Both leaves in order; a failure reports no update even if the first leaf was replaced already. */
  function Regenerate(s: Secret, rt: Runtime, first: Option<nat>, second: Option<nat>): Signed {
    var a := Resign(s, ApiServer, rt, first);
    if !a.ok then Signed(a.secret, false, false)
    else
      var b := Resign(a.secret, PlaneTunnel, rt, second);
      if !b.ok then Signed(b.secret, false, false)
      else Signed(b.secret, a.updated || b.updated, true)
  }

  /** The secret as the object RegeneratePKILeafCerts updates in place. */
  class SecretObject {
    var data: map<string, Blob>
    var annotations: map<string, Note>

    constructor (s: Secret)
      ensures View() == s
    {
      data, annotations := s.data, s.annotations;
    }

    function View(): Secret
      reads this
    {
      Secret(data, annotations)
    }

    method ResignLeaf(l: Leaf, rt: Runtime, signing: Option<nat>) returns (updated: bool, ok: bool)
      modifies this
      ensures Signed(View(), updated, ok) == Resign(old(View()), l, rt, signing)
    {
      var sans := Sans(l, rt);
      if HashKey(l) in annotations && annotations[HashKey(l)] == SansHash(sans) {
        return false, true;
      }
      if signing.None? {
        return false, false;
      }
      var cert := LeafCert(Entry(data, CA_CERT), Entry(data, CA_KEY), Request(l, sans), signing.value);
      data := data[CertKey(l) := cert];
      data := data[KeyKey(l) := LeafKey(signing.value)];
      annotations := annotations[HashKey(l) := SansHash(sans)];
      return true, true;
    }

    method RegeneratePKILeafCerts(rt: Runtime, first: Option<nat>, second: Option<nat>)
      returns (updated: bool, ok: bool)
      modifies this
      ensures Signed(View(), updated, ok) == Regenerate(old(View()), rt, first, second)
    {
      updated, ok := ResignLeaf(ApiServer, rt, first);
      if !ok {
        return false, false;
      }
      var more;
      more, ok := ResignLeaf(PlaneTunnel, rt, second);
      if !ok {
        return false, false;
      }
      updated := updated || more;
    }
  }

  /* ---------- what one call keeps ---------- */

  /** The leaf's annotation records the SANs its certificate was issued for by this CA. */
  ghost predicate Matched(s: Secret, l: Leaf) {
    HashKey(l) in s.annotations ==> exists sans, serial :: IssuedFor(s, l, sans, serial)
  }

  ghost predicate IssuedFor(s: Secret, l: Leaf, sans: seq<string>, serial: nat) {
    && CertKey(l) in s.data && KeyKey(l) in s.data && HashKey(l) in s.annotations
    && s.data[CertKey(l)] == LeafCert(Entry(s.data, CA_CERT), Entry(s.data, CA_KEY), Request(l, sans), serial)
    && s.data[KeyKey(l)] == LeafKey(serial)
    && s.annotations[HashKey(l)] == SansHash(sans)
  }

  ghost predicate SameExcept(s: Secret, s': Secret, keys: set<string>) {
    forall k | k !in keys :: (k in s'.data <==> k in s.data) && (k in s.data ==> s'.data[k] == s.data[k])
  }

  const LEAF_KEYS: set<string> := {"apiserver.crt", "apiserver.key", "plane-tunnel.crt", "plane-tunnel.key"}

  lemma LeafKeysApart()
    ensures CA_CERT !in LEAF_KEYS && CA_KEY !in LEAF_KEYS
    ensures CertKey(ApiServer) !in {KeyKey(ApiServer), CertKey(PlaneTunnel), KeyKey(PlaneTunnel)}
    ensures KeyKey(ApiServer) !in {CertKey(PlaneTunnel), KeyKey(PlaneTunnel)} && CertKey(PlaneTunnel) != KeyKey(PlaneTunnel)
    ensures API_HASH != TUNNEL_HASH
  {
    assert |CA_CERT| == |CA_KEY| == 6 && CA_CERT[3] != CA_KEY[3];
    assert "apiserver.crt"[10] != "apiserver.key"[10] && "plane-tunnel.crt"[13] != "plane-tunnel.key"[13];
    assert |API_HASH| != |TUNNEL_HASH|;
  }

  lemma ResignKeeps(s: Secret, l: Leaf, rt: Runtime, signing: Option<nat>)
    requires Matched(s, ApiServer) && Matched(s, PlaneTunnel)
    ensures
      var r := Resign(s, l, rt, signing);
      && SameExcept(s, r.secret, {CertKey(l), KeyKey(l)})
      && Matched(r.secret, ApiServer) && Matched(r.secret, PlaneTunnel)
  {
    LeafKeysApart();
    var r := Resign(s, l, rt, signing);
    if r.updated {
      assert IssuedFor(r.secret, l, Sans(l, rt), signing.value);
      var other := if l.ApiServer? then PlaneTunnel else ApiServer;
      if HashKey(other) in s.annotations {
        var sans, serial :| IssuedFor(s, other, sans, serial);
        assert IssuedFor(r.secret, other, sans, serial);
      }
    }
  }

  /** Whatever happens, the CA and every other entry stay, and both leaves stay matched. */
  lemma RegenerateKeeps(s: Secret, rt: Runtime, first: Option<nat>, second: Option<nat>)
    requires Matched(s, ApiServer) && Matched(s, PlaneTunnel)
    ensures
      var r := Regenerate(s, rt, first, second);
      && SameExcept(s, r.secret, LEAF_KEYS)
      && Matched(r.secret, ApiServer) && Matched(r.secret, PlaneTunnel)
  {
    ResignKeeps(s, ApiServer, rt, first);
    var a := Resign(s, ApiServer, rt, first);
    if a.ok {
      ResignKeeps(a.secret, PlaneTunnel, rt, second);
    }
  }

  /** After a successful call both annotations are the hashes of the wanted SANs, so an immediate second
      call changes nothing and reports no update. */
  lemma RegenerateIdempotent(s: Secret, rt: Runtime, first: Option<nat>, second: Option<nat>,
                             first': Option<nat>, second': Option<nat>)
    requires Regenerate(s, rt, first, second).ok
    ensures var r := Regenerate(s, rt, first, second).secret; Regenerate(r, rt, first', second') == Signed(r, false, true)
  {
    LeafKeysApart();
  }

  /** Where only the second signing fails, the first leaf has been replaced, and no update is reported. */
  lemma {:induction false} SecondFailureKeepsFirst(s: Secret, rt: Runtime, serial: nat)
    requires Matched(s, ApiServer) && !Regenerate(s, rt, Some(serial), None).ok
    ensures
      var r := Regenerate(s, rt, Some(serial), None);
      && !r.updated && API_HASH in r.secret.annotations
      && r.secret.annotations[API_HASH] == SansHash(Sans(ApiServer, rt)) && Matched(r.secret, ApiServer)
  {
    LeafKeysApart();
    var a := Resign(s, ApiServer, rt, Some(serial));
    if a.updated {
      assert IssuedFor(a.secret, ApiServer, Sans(ApiServer, rt), serial);
    }
  }

  /* ---------- runs ---------- */

  /** The persisted secret and the current spec. */
  datatype State = State(secret: Secret, rt: Runtime)

  datatype Event =
    | Edit(rt: Runtime)
    | Reconcile(first: Option<nat>, second: Option<nat>, updateOk: bool)

  /** An edit replaces the spec; a reconcile persists a successful regeneration if the write succeeds. */
  function Step(s: State, e: Event): State {
    match e
    case Edit(rt) => s.(rt := rt)
    case Reconcile(first, second, updateOk) =>
      var r := Regenerate(s.secret, s.rt, first, second);
      if r.ok && r.updated && updateOk then s.(secret := r.secret) else s
  }

  function Run(s: State, es: seq<Event>): State
    decreases |es|
  {
    if es == [] then s else Run(Step(s, es[0]), es[1..])
  }

  /** Over every run the CA never changes and each leaf stays matched to its annotation. */
  lemma {:induction false} RunKeeps(s: State, es: seq<Event>)
    requires Matched(s.secret, ApiServer) && Matched(s.secret, PlaneTunnel)
    ensures
      var r := Run(s, es).secret;
      && SameExcept(s.secret, r, LEAF_KEYS)
      && Entry(r.data, CA_CERT) == Entry(s.secret.data, CA_CERT) && Entry(r.data, CA_KEY) == Entry(s.secret.data, CA_KEY)
      && Matched(r, ApiServer) && Matched(r, PlaneTunnel)
    decreases |es|
  {
    LeafKeysApart();
    if es != [] {
      if es[0].Reconcile? {
        RegenerateKeeps(s.secret, s.rt, es[0].first, es[0].second);
      }
      RunKeeps(Step(s, es[0]), es[1..]);
    }
  }

  /** A reconcile that succeeds leaves each leaf issued by this CA for exactly the SANs of the spec, as
      long as the SANs the leaf was issued for so far do not collide with them under the hash. */
  lemma LeafUpToDate(s: State, l: Leaf, first: Option<nat>, second: Option<nat>, was: seq<string>, serial: nat)
    requires Matched(s.secret, ApiServer) && Matched(s.secret, PlaneTunnel)
    requires IssuedFor(s.secret, l, was, serial)
    requires Regenerate(s.secret, s.rt, first, second).ok
    ensures
      var now := Step(s, Reconcile(first, second, true)).secret;
      (exists n :: IssuedFor(now, l, Sans(l, s.rt), n)) <==> was == Sans(l, s.rt) || Join(was) != Join(Sans(l, s.rt))
  {
    LeafKeysApart();
    var now := Step(s, Reconcile(first, second, true)).secret;
    var sans := Sans(l, s.rt);
    var a := Resign(s.secret, ApiServer, s.rt, first);
    var mid := if l.ApiServer? then s.secret else a.secret;
    assert IssuedFor(mid, l, was, serial);
    var signing := if l.ApiServer? then first else second;
    var done := Resign(mid, l, s.rt, signing);
    assert done.ok;
    if Join(was) == Join(sans) {
      assert now.data[CertKey(l)] == s.secret.data[CertKey(l)];
      assert IssuedFor(now, l, was, serial);
    } else {
      assert IssuedFor(done.secret, l, sans, signing.value);
      assert IssuedFor(now, l, sans, signing.value);
    }
  }

  /** A leaf signed for the one name is not signed again for the two: after a reconcile that succeeds it
      is still not issued for the names of the spec. */
  lemma {:induction false} CommaLeavesLeafStale(s: State, rt: Runtime, first: Option<nat>, second: Option<nat>, serial: nat)
    requires Clear(APIServerAltNames(rt)) && s.rt == Named(rt, ["c", "d"])
    requires Matched(s.secret, ApiServer) && Matched(s.secret, PlaneTunnel)
    requires IssuedFor(s.secret, ApiServer, APIServerAltNames(Named(rt, ["c,d"])), serial)
    requires Regenerate(s.secret, s.rt, first, second).ok
    ensures !exists n :: IssuedFor(Step(s, Reconcile(first, second, true)).secret, ApiServer, Sans(ApiServer, s.rt), n)
  {
    CommaCollision(rt);
    LeafUpToDate(s, ApiServer, first, second, APIServerAltNames(Named(rt, ["c,d"])), serial);
  }

  /** Hence always, when SANs are comma-free. */
  lemma LeafUpToDateCommaFree(s: State, l: Leaf, first: Option<nat>, second: Option<nat>, was: seq<string>, serial: nat)
    requires Matched(s.secret, ApiServer) && Matched(s.secret, PlaneTunnel)
    requires IssuedFor(s.secret, l, was, serial)
    requires Regenerate(s.secret, s.rt, first, second).ok
    requires CommaFree(was) && CommaFree(Sans(l, s.rt))
    ensures exists n :: IssuedFor(Step(s, Reconcile(first, second, true)).secret, l, Sans(l, s.rt), n)
  {
    if Join(was) == Join(Sans(l, s.rt)) {
      JoinInjective(was, Sans(l, s.rt));
    }
    LeafUpToDate(s, l, first, second, was, serial);
  }

  /* ---------- from the generated secret on ---------- */

  /** GeneratePKIAuthSecret: a new CA, both leaves signed for the spec, and the other entries. */
  function GeneratePKIAuthSecret(caCert: Blob, caKey: Blob, rt: Runtime, api: nat, tunnel: nat,
                                 others: map<string, Blob>): Secret {
    var leaf := (l: Leaf, n: nat) =>
      map[CertKey(l) := LeafCert(caCert, caKey, Request(l, Sans(l, rt)), n), KeyKey(l) := LeafKey(n)];
    Secret(others + map[CA_CERT := caCert, CA_KEY := caKey] + leaf(ApiServer, api) + leaf(PlaneTunnel, tunnel),
           map["controlplane.tardigrade.runtime.io/deletion-protection" := Text("false"),
               API_HASH := SansHash(Sans(ApiServer, rt)), TUNNEL_HASH := SansHash(Sans(PlaneTunnel, rt))])
  }

  /** The leaf is issued by this CA for comma-free SANs. */
  ghost predicate Sound(s: Secret, l: Leaf) {
    exists sans, serial :: CommaFree(sans) && IssuedFor(s, l, sans, serial)
  }

  ghost predicate UpToDate(s: State, l: Leaf) {
    exists serial :: IssuedFor(s.secret, l, Sans(l, s.rt), serial)
  }

  predicate CommaFreeSpec(rt: Runtime) {
    CommaFree(Sans(ApiServer, rt)) && CommaFree(Sans(PlaneTunnel, rt))
  }

  lemma {:induction false} GeneratedIssued(caCert: Blob, caKey: Blob, rt: Runtime, api: nat, tunnel: nat, others: map<string, Blob>)
    ensures
      var s := GeneratePKIAuthSecret(caCert, caKey, rt, api, tunnel, others);
      && IssuedFor(s, ApiServer, Sans(ApiServer, rt), api) && IssuedFor(s, PlaneTunnel, Sans(PlaneTunnel, rt), tunnel)
      && Entry(s.data, CA_CERT) == caCert && Entry(s.data, CA_KEY) == caKey
  {
    LeafKeysApart();
  }

  lemma GeneratedSound(caCert: Blob, caKey: Blob, rt: Runtime, api: nat, tunnel: nat, others: map<string, Blob>)
    requires CommaFreeSpec(rt)
    ensures
      var s := GeneratePKIAuthSecret(caCert, caKey, rt, api, tunnel, others);
      Sound(s, ApiServer) && Sound(s, PlaneTunnel) && Entry(s.data, CA_CERT) == caCert && Entry(s.data, CA_KEY) == caKey
  {
    GeneratedIssued(caCert, caKey, rt, api, tunnel, others);
  }

  /** A leaf of each kind whose annotations already are the wanted hashes is left alone. */
  lemma {:induction false} RegenerateSkips(s: Secret, rt: Runtime, first: Option<nat>, second: Option<nat>)
    requires HashKey(ApiServer) in s.annotations && s.annotations[HashKey(ApiServer)] == SansHash(Sans(ApiServer, rt))
    requires HashKey(PlaneTunnel) in s.annotations && s.annotations[HashKey(PlaneTunnel)] == SansHash(Sans(PlaneTunnel, rt))
    ensures Regenerate(s, rt, first, second) == Signed(s, false, true)
  {
  }

  lemma {:induction false} RunTwo(s: State, e: Event, e': Event)
    ensures Run(s, [e, e']) == Step(Step(s, e), e')
  {
    assert [e, e'][1..] == [e'] && [e'][1..] == [];
    assert Run(Step(s, e), [e']) == Run(Step(Step(s, e), e'), []);
  }

  /** So it goes from a generated Secret on: generate for the one name, edit the spec to the two names,
      reconcile. */
  lemma {:induction false} GeneratedCommaStale(caCert: Blob, caKey: Blob, rt: Runtime, api: nat, tunnel: nat,
                                               others: map<string, Blob>, first: Option<nat>, second: Option<nat>)
    requires Clear(APIServerAltNames(rt))
    ensures
      var one, two := Named(rt, ["c,d"]), Named(rt, ["c", "d"]);
      var s := Run(State(GeneratePKIAuthSecret(caCert, caKey, one, api, tunnel, others), one),
                   [Edit(two), Reconcile(first, second, true)]);
      s.rt == two && !UpToDate(s, ApiServer)
  {
    var one, two := Named(rt, ["c,d"]), Named(rt, ["c", "d"]);
    var secret := GeneratePKIAuthSecret(caCert, caKey, one, api, tunnel, others);
    GeneratedIssued(caCert, caKey, one, api, tunnel, others);
    CommaCollision(rt);
    RegenerateSkips(secret, two, first, second);
    CommaLeavesLeafStale(State(secret, two), rt, first, second, api);
    RunTwo(State(secret, one), Edit(two), Reconcile(first, second, true));
  }

  lemma RegenerateSound(s: State, l: Leaf, first: Option<nat>, second: Option<nat>)
    requires Sound(s.secret, ApiServer) && Sound(s.secret, PlaneTunnel) && CommaFreeSpec(s.rt)
    requires Regenerate(s.secret, s.rt, first, second).ok
    ensures UpToDate(Step(s, Reconcile(first, second, true)), l) && Sound(Step(s, Reconcile(first, second, true)).secret, l)
  {
    assert Matched(s.secret, ApiServer) && Matched(s.secret, PlaneTunnel);
    var was, serial :| CommaFree(was) && IssuedFor(s.secret, l, was, serial);
    LeafUpToDateCommaFree(s, l, first, second, was, serial);
  }

  lemma {:induction false} RunSound(s: State, es: seq<Event>)
    requires Sound(s.secret, ApiServer) && Sound(s.secret, PlaneTunnel) && CommaFreeSpec(s.rt)
    requires forall i | 0 <= i < |es| && es[i].Edit? :: CommaFreeSpec(es[i].rt)
    ensures var r := Run(s, es); Sound(r.secret, ApiServer) && Sound(r.secret, PlaneTunnel) && CommaFreeSpec(r.rt)
    decreases |es|
  {
    if es != [] {
      var e := es[0];
      if e.Reconcile? && Step(s, e) != s {
        RegenerateSound(s, ApiServer, e.first, e.second);
        RegenerateSound(s, PlaneTunnel, e.first, e.second);
      }
      RunSound(Step(s, e), es[1..]);
    }
  }

  /** The whole life of a control plane with comma-free SANs: from the generated secret, after any edits
      and reconciles, failed ones included, a reconcile that succeeds leaves both leaves issued by the
      original CA for exactly the SANs of the current spec. */
  lemma LeavesFollowSpec(caCert: Blob, caKey: Blob, rt: Runtime, api: nat, tunnel: nat, others: map<string, Blob>,
                         es: seq<Event>, first: Option<nat>, second: Option<nat>)
    requires CommaFreeSpec(rt) && forall i | 0 <= i < |es| && es[i].Edit? :: CommaFreeSpec(es[i].rt)
    requires
      var s := Run(State(GeneratePKIAuthSecret(caCert, caKey, rt, api, tunnel, others), rt), es);
      Regenerate(s.secret, s.rt, first, second).ok
    ensures
      var s := Run(State(GeneratePKIAuthSecret(caCert, caKey, rt, api, tunnel, others), rt), es + [Reconcile(first, second, true)]);
      && Entry(s.secret.data, CA_CERT) == caCert && Entry(s.secret.data, CA_KEY) == caKey
      && UpToDate(s, ApiServer) && UpToDate(s, PlaneTunnel)
  {
    GeneratedSound(caCert, caKey, rt, api, tunnel, others);
    SoundRun(State(GeneratePKIAuthSecret(caCert, caKey, rt, api, tunnel, others), rt), es, first, second);
  }

  lemma SoundRun(s: State, es: seq<Event>, first: Option<nat>, second: Option<nat>)
    requires Sound(s.secret, ApiServer) && Sound(s.secret, PlaneTunnel) && CommaFreeSpec(s.rt)
    requires forall i | 0 <= i < |es| && es[i].Edit? :: CommaFreeSpec(es[i].rt)
    requires var r := Run(s, es); Regenerate(r.secret, r.rt, first, second).ok
    ensures
      var r := Run(s, es + [Reconcile(first, second, true)]);
      && Entry(r.secret.data, CA_CERT) == Entry(s.secret.data, CA_CERT)
      && Entry(r.secret.data, CA_KEY) == Entry(s.secret.data, CA_KEY)
      && UpToDate(r, ApiServer) && UpToDate(r, PlaneTunnel)
  {
    assert Matched(s.secret, ApiServer) && Matched(s.secret, PlaneTunnel);
    RunSound(s, es);
    RegenerateSound(Run(s, es), ApiServer, first, second);
    RegenerateSound(Run(s, es), PlaneTunnel, first, second);
    RunAppend(s, es, Reconcile(first, second, true));
    RunKeeps(s, es + [Reconcile(first, second, true)]);
  }

  lemma {:induction false} RunAppend(s: State, es: seq<Event>, e: Event)
    ensures Run(s, es + [e]) == Step(Run(s, es), e)
    decreases |es|
  {
    if es == [] {
      assert (es + [e])[1..] == [];
    } else {
      RunAppend(Step(s, es[0]), es[1..], e);
      assert (es + [e])[1..] == es[1..] + [e];
    }
  }

  /** Reordering or repeating SANs after a successful reconcile never re-signs. */
  lemma ReorderNeverResigns(s: Secret, rt: Runtime, rt': Runtime, first: Option<nat>, second: Option<nat>,
                            first': Option<nat>, second': Option<nat>)
    requires Regenerate(s, rt, first, second).ok
    requires Elements(rt.sans) == Elements(rt'.sans) && rt' == rt.(sans := rt'.sans)
    ensures
      var r := Regenerate(s, rt, first, second).secret;
      Regenerate(r, rt', first', second') == Signed(r, false, true)
  {
    AltNamesUnique(rt, rt');
    RegenerateIdempotent(s, rt, first, second, first', second');
  }
}
