/** The registry of call sessions: one session for each unordered pair of parties
    (PolySessionRegistry.js). */
module PolySessionRegistries {
  import opened CallPairs

  datatype Option<+T> = None | Some(value: T)

  /** What a caller asks a leg to be; an empty id or kind takes its default. */
  datatype Spec = Spec(id: string, endpoint: string, kind: string)

  datatype Leg = Leg(id: string, endpoint: string, kind: string)

  datatype Session = Session(a: Leg, b: Leg)

  datatype Side = A | B

  datatype Error = MissingEndpoint | UnsupportedKind | TargetNotFound

  datatype Resolved = Found(key: string, session: Session, side: Side) | Failed(error: Error)

  datatype Registry = Registry(byKey: map<string, Session>, byEndpoint: map<string, string>)

  const Empty := Registry(map[], map[])

  function KindOf(s: Spec): string {
    if s.kind == "" then "webrtc" else s.kind
  }

  predicate Supported(s: Spec) {
    KindOf(s) == "webrtc" || KindOf(s) == "sip"
  }

  function MakeLeg(s: Spec): Leg {
    Leg(if s.id == "" then s.endpoint else s.id, s.endpoint, KindOf(s))
  }

  predicate Answers(l: Leg, wanted: string) {
    Label(l.endpoint) == wanted || Label(l.id) == wanted
  }

  function LegOf(s: Session, side: Side): Leg {
    if side == A then s.a else s.b
  }

  /** legByEndpoint: by endpoint or id, the first leg first. */
  function LegByEndpoint(s: Session, endpoint: string): (r: Option<Side>)
    ensures r.Some? ==> Label(endpoint) != "" && Answers(LegOf(s, r.value), Label(endpoint))
    ensures r.None? ==> Label(endpoint) == "" || (!Answers(s.a, Label(endpoint)) && !Answers(s.b, Label(endpoint)))
  {
    var wanted := Label(endpoint);
    if wanted == "" then None
    else if Answers(s.a, wanted) then Some(A)
    else if Answers(s.b, wanted) then Some(B)
    else None
  }

  function TargetEndpoint(a: Spec, b: Spec, target: string): string {
    if target == "b" then b.endpoint
    else if target == "a" then a.endpoint
    else if target != "" then target
    else a.endpoint
  }

  function Create(r: Registry, key: string, a: Spec, b: Spec): Registry {
    Registry(r.byKey[key := Session(MakeLeg(a), MakeLeg(b))],
             r.byEndpoint[Label(a.endpoint) := key][Label(b.endpoint) := key])
  }

  /** resolve: the registry after it, and what it returns or throws. */
  function Resolve(r: Registry, a: Spec, b: Spec, target: string): (Registry, Resolved) {
    var key := PairKey(a.endpoint, b.endpoint);
    if a.endpoint == "" || b.endpoint == "" then (r, Failed(MissingEndpoint))
    else if key !in r.byKey && !(Supported(a) && Supported(b)) then (r, Failed(UnsupportedKind))
    else
      var r1 := if key in r.byKey then r else Create(r, key, a, b);
      var side := LegByEndpoint(r1.byKey[key], TargetEndpoint(a, b, target));
      (r1, if side.Some? then Found(key, r1.byKey[key], side.value) else Failed(TargetNotFound))
  }

  function Destroy(r: Registry, key: string): Registry {
    if key !in r.byKey then r
    else Registry(r.byKey - {key}, map e | e in r.byEndpoint && r.byEndpoint[e] != key :: r.byEndpoint[e])
  }

  function GetByEndpoint(r: Registry, endpoint: string): Option<Session> {
    if endpoint == "" || Label(endpoint) !in r.byEndpoint then None
    else
      var key := r.byEndpoint[Label(endpoint)];
      if key != "" && key in r.byKey then Some(r.byKey[key]) else None
  }

  /** listByEndpoint: the keys of the sessions it returns. */
  function ListByEndpoint(r: Registry, endpoint: string): set<string> {
    if endpoint == "" || Label(endpoint) == "" then {}
    else set k | k in r.byKey && LegByEndpoint(r.byKey[k], Label(endpoint)).Some?
  }

  // ---- Coherence ----------------------------------------------------------------------------

  /** One of the session's own parties goes by this label. */
  predicate HasParty(s: Session, name: string) {
    Label(s.a.endpoint) == name || Label(s.b.endpoint) == name
  }

  /** Every endpoint entry refers to a live session of that endpoint, and every session is
      under the key of its own parties. */
  predicate Coherent(r: Registry) {
    && (forall e :: e in r.byEndpoint ==> r.byEndpoint[e] in r.byKey && HasParty(r.byKey[r.byEndpoint[e]], e))
    && (forall k :: k in r.byKey ==> k == PairKey(r.byKey[k].a.endpoint, r.byKey[k].b.endpoint))
  }

  datatype Op = DoResolve(a: Spec, b: Spec, target: string) | DoDestroy(key: string)

  function Apply(r: Registry, op: Op): Registry {
    match op
    case DoResolve(a, b, target) => Resolve(r, a, b, target).0
    case DoDestroy(key) => Destroy(r, key)
  }

  function ApplyAll(r: Registry, ops: seq<Op>): Registry
    decreases |ops|
  {
    if ops == [] then r else ApplyAll(Apply(r, ops[0]), ops[1..])
  }

  lemma ApplyCoherent(r: Registry, op: Op)
    requires Coherent(r)
    ensures Coherent(Apply(r, op))
  {
    hide Label, PairKey;
    if op.DoResolve? {
      var key := PairKey(op.a.endpoint, op.b.endpoint);
      if Apply(r, op) != r {
        var t := Create(r, key, op.a, op.b);
        assert t.byKey[key].a.endpoint == op.a.endpoint && t.byKey[key].b.endpoint == op.b.endpoint;
      }
    }
  }

  lemma {:induction false} EveryRunIsCoherent(r: Registry, ops: seq<Op>)
    requires Coherent(r)
    ensures Coherent(ApplyAll(r, ops))
    decreases |ops|
  {
    if ops != [] {
      ApplyCoherent(r, ops[0]);
      EveryRunIsCoherent(Apply(r, ops[0]), ops[1..]);
    }
  }

  // ---- What callers rely on -------------------------------------------------------------------

  predicate Named(a: Spec, b: Spec) {
    a.endpoint != "" && b.endpoint != "" && Supported(a) && Supported(b)
  }

  /** No label of a party, here or in the registry, has a bar in it. */
  predicate BarFreeRegistry(r: Registry) {
    forall k :: k in r.byKey ==> BarFree(Label(r.byKey[k].a.endpoint)) && BarFree(Label(r.byKey[k].b.endpoint))
  }

  /** A pair's session is the session of those two parties and no others. */
  lemma KeyIsOfThePair(r: Registry, a: string, b: string)
    requires Coherent(r) && BarFreeRegistry(r) && BarFree(Label(a)) && BarFree(Label(b)) && PairKey(a, b) in r.byKey
    ensures var s := r.byKey[PairKey(a, b)];
      SamePair(Label(s.a.endpoint), Label(s.b.endpoint), Label(a), Label(b))
  {
    var s := r.byKey[PairKey(a, b)];
    PairKeyIsInjective(s.a.endpoint, s.b.endpoint, a, b);
  }

  predicate BarFreeOp(op: Op) {
    op.DoResolve? ==> BarFree(Label(op.a.endpoint)) && BarFree(Label(op.b.endpoint))
  }

  lemma BarFreeStep(r: Registry, op: Op)
    requires BarFreeRegistry(r) && BarFreeOp(op)
    ensures BarFreeRegistry(Apply(r, op))
  {
    hide Label, PairKey, BarFree, LegByEndpoint;
  }

  lemma {:induction false} BarFreeRuns(r: Registry, ops: seq<Op>)
    requires BarFreeRegistry(r) && forall i :: 0 <= i < |ops| ==> BarFreeOp(ops[i])
    ensures BarFreeRegistry(ApplyAll(r, ops))
    decreases |ops|
  {
    if ops != [] {
      assert BarFreeOp(ops[0]);
      hide BarFreeOp, BarFreeRegistry, Apply;
      BarFreeStep(r, ops[0]);
      BarFreeRuns(Apply(r, ops[0]), ops[1..]);
    }
  }

  /** The leg's own endpoint, not just its id, has the label. */
  predicate IsParty(l: Leg, name: string) {
    Label(l.endpoint) == name
  }

  /** The first leg answers to the label by its id alone. */
  predicate Impostor(s: Session, name: string) {
    Label(s.a.id) == name && Label(s.a.endpoint) != name
  }

  lemma LegFound(s: Session, endpoint: string)
    requires LegByEndpoint(s, endpoint).Some?
    ensures IsParty(LegOf(s, LegByEndpoint(s, endpoint).value), Label(endpoint)) <==>
      HasParty(s, Label(endpoint)) && !Impostor(s, Label(endpoint))
  {
  }

  /** Whose session is under a key after a run: that of the first pair resolved to it since the
      last destroy. */
  function Owner(ops: seq<Op>, key: string): Option<Session> {
    if ops == [] then None
    else
      var op, before := ops[|ops| - 1], Owner(ops[..|ops| - 1], key);
      match op
      case DoDestroy(k) => if k == key then None else before
      case DoResolve(a, b, _) =>
        if before.None? && Named(a, b) && PairKey(a.endpoint, b.endpoint) == key
        then Some(Session(MakeLeg(a), MakeLeg(b))) else before
  }

  lemma {:induction false} ApplyLast(r: Registry, ops: seq<Op>)
    requires ops != []
    ensures ApplyAll(r, ops) == Apply(ApplyAll(r, ops[..|ops| - 1]), ops[|ops| - 1])
    decreases |ops|
  {
    if |ops| > 1 {
      hide Apply;
      ApplyLast(Apply(r, ops[0]), ops[1..]);
      assert ops[1..][..|ops| - 2] == ops[..|ops| - 1][1..];
    }
  }

  lemma {:induction false} OwnerIsStored(ops: seq<Op>, key: string)
    ensures var r := ApplyAll(Empty, ops);
      Owner(ops, key) == if key in r.byKey then Some(r.byKey[key]) else None
    decreases |ops|
  {
    if ops != [] {
      hide Label, PairKey, LegByEndpoint, TargetEndpoint;
      OwnerIsStored(ops[..|ops| - 1], key);
      ApplyLast(Empty, ops);
    }
  }

  /** Neither of the session's legs answers to the label. */
  predicate Stranger(s: Session, name: string) {
    !Answers(s.a, name) && !Answers(s.b, name)
  }

  lemma LegFoundExactly(s: Session, endpoint: string)
    ensures LegByEndpoint(s, endpoint).Some? <==> Label(endpoint) != "" && !Stranger(s, Label(endpoint))
  {
  }

  /** After any run, over any labels and targets, resolving fails exactly when the target's label
      is blank or the pair the key belongs to, the caller's own if the key is free, is a stranger
      to it. Otherwise it returns a stored leg that answers to the label, and that is the target
      itself exactly when it is one of that pair and the first leg does not have the label as its
      id alone. */
  lemma ResolveFindsExactly(ops: seq<Op>, a: Spec, b: Spec, target: string)
    requires Named(a, b)
    ensures var r, owner := Resolve(ApplyAll(Empty, ops), a, b, target), Owner(ops, PairKey(a.endpoint, b.endpoint));
      var wanted := Label(TargetEndpoint(a, b, target));
      var x := if owner.Some? then owner.value else Session(MakeLeg(a), MakeLeg(b));
      && (r.1.Found? <==> wanted != "" && !Stranger(x, wanted))
      && (owner.None? && (target == "a" || target == "b" || target == "") ==> !Stranger(x, wanted))
      && (r.1.Found? ==> r.1.session == x && r.1.key in r.0.byKey && r.0.byKey[r.1.key] == x)
      && (r.1.Found? ==> Answers(LegOf(x, r.1.side), wanted))
      && (r.1.Found? ==> (IsParty(LegOf(x, r.1.side), wanted) <==> HasParty(x, wanted) && !Impostor(x, wanted)))
  {
    var s, key := ApplyAll(Empty, ops), PairKey(a.endpoint, b.endpoint);
    var wanted := TargetEndpoint(a, b, target);
    OwnerIsStored(ops, key);
    var x := if key in s.byKey then s.byKey[key] else Session(MakeLeg(a), MakeLeg(b));
    LegFoundExactly(x, wanted);
    hide Label, PairKey, LegByEndpoint, ApplyAll, Owner;
    if LegByEndpoint(x, wanted).Some? { LegFound(x, wanted); }
  }

  /** Over bar-free labels nobody is a stranger: resolving fails only for a blank label, and the
      leg returned is the party unless the first leg has its label as its id. */
  lemma BarFreeFindsExactly(ops: seq<Op>, a: Spec, b: Spec, target: string)
    requires forall i :: 0 <= i < |ops| ==> BarFreeOp(ops[i])
    requires BarFree(Label(a.endpoint)) && BarFree(Label(b.endpoint))
    requires Named(a, b) && (target == "a" || target == "b" || target == "")
    ensures var r := Resolve(ApplyAll(Empty, ops), a, b, target);
      var wanted := Label(TargetEndpoint(a, b, target));
      && (r.1.Found? <==> wanted != "")
      && (r.1.Found? ==> (IsParty(LegOf(r.1.session, r.1.side), wanted) <==> !Impostor(r.1.session, wanted)))
  {
    var s, key := ApplyAll(Empty, ops), PairKey(a.endpoint, b.endpoint);
    EveryRunIsCoherent(Empty, ops);
    BarFreeRuns(Empty, ops);
    OwnerIsStored(ops, key);
    if key in s.byKey { KeyIsOfThePair(s, a.endpoint, b.endpoint); }
    ResolveFindsExactly(ops, a, b, target);
    hide Label, PairKey, Coherent, BarFreeRegistry, LegByEndpoint, ApplyAll, BarFree, Resolve, Owner;
    var x := if key in s.byKey then s.byKey[key] else Session(MakeLeg(a), MakeLeg(b));
    assert HasParty(x, Label(TargetEndpoint(a, b, target)));
  }

  predicate DefaultId(s: Spec) {
    s.id == ""
  }

  predicate DefaultIdOp(op: Op) {
    op.DoResolve? ==> DefaultId(op.a) && DefaultId(op.b)
  }

  /** Every leg has its endpoint for an id. */
  predicate OwnIds(r: Registry) {
    forall k :: k in r.byKey ==> r.byKey[k].a.id == r.byKey[k].a.endpoint && r.byKey[k].b.id == r.byKey[k].b.endpoint
  }

  lemma OwnIdsStep(r: Registry, op: Op)
    requires OwnIds(r) && DefaultIdOp(op)
    ensures OwnIds(Apply(r, op))
  {
    hide Label, PairKey, LegByEndpoint;
  }

  lemma {:induction false} OwnIdsRuns(r: Registry, ops: seq<Op>)
    requires OwnIds(r) && forall i :: 0 <= i < |ops| ==> DefaultIdOp(ops[i])
    ensures OwnIds(ApplyAll(r, ops))
    decreases |ops|
  {
    if ops != [] {
      assert DefaultIdOp(ops[0]);
      hide DefaultIdOp, OwnIds, Apply;
      OwnIdsStep(r, ops[0]);
      OwnIdsRuns(Apply(r, ops[0]), ops[1..]);
    }
  }

  /** Where no caller names ids of its own, the leg returned is always the requested party. */
  lemma DefaultIdsFindTheParty(ops: seq<Op>, a: Spec, b: Spec, target: string)
    requires forall i :: 0 <= i < |ops| ==> BarFreeOp(ops[i]) && DefaultIdOp(ops[i])
    requires BarFree(Label(a.endpoint)) && BarFree(Label(b.endpoint)) && DefaultId(a) && DefaultId(b)
    requires Named(a, b) && (target == "a" || target == "b" || target == "")
    ensures var r := Resolve(ApplyAll(Empty, ops), a, b, target);
      r.1.Found? ==> IsParty(LegOf(r.1.session, r.1.side), Label(TargetEndpoint(a, b, target)))
  {
    var s := ApplyAll(Empty, ops);
    OwnIdsRuns(Empty, ops);
    OwnIdsStep(s, DoResolve(a, b, target));
    BarFreeFindsExactly(ops, a, b, target);
    hide Label, ApplyAll, Resolve, TargetEndpoint, BarFree, BarFreeOp, DefaultIdOp;
  }

  function Swapped(target: string): string {
    if target == "a" then "b" else if target == "b" then "a" else target
  }

  /** Naming the parties the other way round reaches the same session and the same leg, and
      creates nothing. */
  lemma ResolveIsOrderIndependent(r: Registry, a: Spec, b: Spec, target: string)
    requires Named(a, b) && target != ""
    ensures var (t, res) := Resolve(r, a, b, target);
      Resolve(t, b, a, Swapped(target)) == (t, res)
  {
    PairKeyIsSymmetric(a.endpoint, b.endpoint);
    hide Label, PairKey;
  }

  /** Resolving twice is resolving once. */
  lemma ResolveIsIdempotent(r: Registry, a: Spec, b: Spec, target: string)
    ensures var (t, res) := Resolve(r, a, b, target);
      Resolve(t, a, b, target) == (t, res)
  {
    hide Label, PairKey;
  }

  lemma StrangersMiss(s: Session, endpoint: string)
    requires !Answers(s.a, Label(endpoint)) && !Answers(s.b, Label(endpoint))
    ensures LegByEndpoint(s, endpoint) == None
  {
  }

  lemma StrangersFail(r: Registry, c: Spec, d: Spec, target: string)
    requires c.endpoint != "" && d.endpoint != "" && PairKey(c.endpoint, d.endpoint) in r.byKey
    requires LegByEndpoint(r.byKey[PairKey(c.endpoint, d.endpoint)], TargetEndpoint(c, d, target)) == None
    ensures Resolve(r, c, d, target) == (r, Failed(TargetNotFound))
  {
    hide Label, PairKey, LegByEndpoint, TargetEndpoint;
  }

  /** Two pairs whose keys meet, which takes a bar in a label: once the first has its session,
      the second gets an error aimed at a party of its own, although it has no session. */
  lemma CollisionMisroutes(r: Registry, a: Spec, b: Spec, c: Spec, d: Spec, target: string)
    requires c.endpoint != "" && d.endpoint != "" && DefaultId(a) && DefaultId(b) && target == "a"
    requires PairKey(a.endpoint, b.endpoint) == PairKey(c.endpoint, d.endpoint)
    requires Label(c.endpoint) != Label(a.endpoint) && Label(c.endpoint) != Label(b.endpoint)
    requires PairKey(a.endpoint, b.endpoint) in r.byKey
    requires r.byKey[PairKey(a.endpoint, b.endpoint)] == Session(MakeLeg(a), MakeLeg(b))
    ensures Resolve(r, c, d, target) == (r, Failed(TargetNotFound))
  {
    hide Label, PairKey, Resolve;
    StrangersMiss(Session(MakeLeg(a), MakeLeg(b)), c.endpoint);
    hide LegByEndpoint;
    StrangersFail(r, c, d, target);
  }

  /** A lookup by endpoint finds a session of that party, and after a destroy nothing leads to
      the destroyed session while every other one is as before. */
  lemma LookupIsSound(r: Registry, endpoint: string)
    requires Coherent(r)
    ensures var s := GetByEndpoint(r, endpoint); s.Some? ==> HasParty(s.value, Label(endpoint))
  {
  }

  lemma DestroyRemovesExactly(r: Registry, key: string, endpoint: string)
    requires Coherent(r)
    ensures var t := Destroy(r, key);
      && key !in t.byKey
      && (forall k :: k in r.byKey && k != key ==> k in t.byKey && t.byKey[k] == r.byKey[k])
      && (forall e :: e in t.byEndpoint <==> e in r.byEndpoint && r.byEndpoint[e] != key)
      && (key in r.byKey && endpoint != "" && Label(endpoint) in r.byEndpoint && r.byEndpoint[Label(endpoint)] == key ==>
            GetByEndpoint(t, endpoint) == None)
  {
    hide Label, PairKey;
  }

  /** A session just created is found by both of its parties. */
  lemma CreatedIsFound(r: Registry, a: Spec, b: Spec, target: string)
    requires Named(a, b) && PairKey(a.endpoint, b.endpoint) !in r.byKey
    ensures var t := Resolve(r, a, b, target).0;
      var s := Some(Session(MakeLeg(a), MakeLeg(b)));
      GetByEndpoint(t, a.endpoint) == s && GetByEndpoint(t, b.endpoint) == s
  {
    PairKeyIsNotEmpty(a.endpoint, b.endpoint);
    hide Label, PairKey;
  }

  // ---- Listing ------------------------------------------------------------------------------------

  /** Listing takes the label of a label. It returns a party's sessions, in every registry,
      exactly when that second step changes nothing. */
  lemma ListsExactlyWhenStable(endpoint: string)
    requires endpoint != "" && Label(endpoint) != ""
    ensures Label(Label(endpoint)) == Label(endpoint) <==>
      forall r :: ListByEndpoint(r, endpoint) == WithParty(r, Label(endpoint))
  {
    var name := Label(endpoint);
    if Label(name) == name {
      forall r ensures ListByEndpoint(r, endpoint) == WithParty(r, name) { ListsStable(r, endpoint); }
    } else {
      hide Label, PairKey;
      var me, k := Spec("", endpoint, ""), PairKey(endpoint, endpoint);
      var r := Create(Empty, k, me, me);
      assert r.byKey[k] == Session(MakeLeg(me), MakeLeg(me));
      assert k in WithParty(r, name) && k !in ListByEndpoint(r, endpoint);
    }
  }

  function WithParty(r: Registry, name: string): set<string> {
    set k | k in r.byKey && (Answers(r.byKey[k].a, name) || Answers(r.byKey[k].b, name))
  }

  lemma ListsStable(r: Registry, endpoint: string)
    requires endpoint != "" && Label(endpoint) != "" && Label(Label(endpoint)) == Label(endpoint)
    ensures ListByEndpoint(r, endpoint) == WithParty(r, Label(endpoint))
  {
    hide Label;
  }

  // ---- The registry as an object ------------------------------------------------------------------

  class PolySessionRegistry {
    var byKey: map<string, Session>
    var byEndpoint: map<string, string>

    constructor ()
      ensures View() == Empty && Coherent(View())
    {
      byKey, byEndpoint := map[], map[];
    }

    function View(): Registry
      reads this
    {
      Registry(byKey, byEndpoint)
    }

    method ResolvePair(a: Spec, b: Spec, target: string) returns (res: Resolved)
      requires Coherent(View())
      modifies this
      ensures (View(), res) == Resolve(old(View()), a, b, target) && Coherent(View())
    {
      ApplyCoherent(View(), DoResolve(a, b, target));
      hide Label, PairKey, LegByEndpoint, Coherent, TargetEndpoint;
      if a.endpoint == "" || b.endpoint == "" { return Failed(MissingEndpoint); }
      var key := PairKey(a.endpoint, b.endpoint);
      if key !in byKey {
        if !(Supported(a) && Supported(b)) { return Failed(UnsupportedKind); }
        CreateSession(key, a, b);
      }
      var side := LegByEndpoint(byKey[key], TargetEndpoint(a, b, target));
      if side.None? { return Failed(TargetNotFound); }
      res := Found(key, byKey[key], side.value);
    }

    method CreateSession(key: string, a: Spec, b: Spec)
      modifies this
      ensures View() == Create(old(View()), key, a, b)
    {
      byKey := byKey[key := Session(MakeLeg(a), MakeLeg(b))];
      byEndpoint := byEndpoint[Label(a.endpoint) := key];
      byEndpoint := byEndpoint[Label(b.endpoint) := key];
    }

    /** The session goes first, then every endpoint entry that led to it. */
    method DestroySession(key: string)
      requires Coherent(View())
      modifies this
      ensures View() == Destroy(old(View()), key) && Coherent(View())
    {
      ApplyCoherent(View(), DoDestroy(key));
      hide Coherent;
      if key !in byKey { return; }
      byKey := byKey - {key};
      var entries := byEndpoint.Keys;
      while entries != {}
        invariant byKey == old(byKey) - {key}
        invariant forall e :: e in byEndpoint ==> e in old(byEndpoint) && byEndpoint[e] == old(byEndpoint)[e]
        invariant forall e :: e in old(byEndpoint) && e !in byEndpoint ==> old(byEndpoint)[e] == key
        invariant forall e :: e in byEndpoint && byEndpoint[e] == key ==> e in entries
        invariant entries <= old(byEndpoint).Keys
        decreases entries
      {
        var e :| e in entries;
        entries := entries - {e};
        if e in byEndpoint && byEndpoint[e] == key { byEndpoint := byEndpoint - {e}; }
      }
      assert byEndpoint == (map e | e in old(byEndpoint) && old(byEndpoint)[e] != key :: old(byEndpoint)[e]);
    }

    /** The sessions are asked one by one. */
    method ListSessions(endpoint: string) returns (keys: set<string>)
      ensures keys == ListByEndpoint(View(), endpoint)
    {
      hide Label, LegByEndpoint;
      keys := {};
      if endpoint == "" || Label(endpoint) == "" { return; }
      var todo := byKey.Keys;
      while todo != {}
        invariant todo <= byKey.Keys
        invariant keys == set k | k in byKey && k !in todo && LegByEndpoint(byKey[k], Label(endpoint)).Some?
        decreases todo
      {
        var k :| k in todo;
        todo := todo - {k};
        if LegByEndpoint(byKey[k], Label(endpoint)).Some? { keys := keys + {k}; }
      }
    }
  }
}
