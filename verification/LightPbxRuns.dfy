/** Overlapping LightPBX reads: no read is answered with an older route than one before it. */
module LightPbxRuns {
  import opened Text
  import CallPairs
  import opened LightPbx

  // ---- Reads in flight ------------------------------------------------------------------------------

  datatype Stage = Resolving | Fetching(key: string)

  /** A read waiting for the chain. A read that timed out goes on, but its caller is gone. */
  datatype Flight = Flight(called: string, stage: Stage, timedOut: bool)

  datatype Event =
    | Begin(id: nat, inputLabel: string, inputIdentity: string, now: int)
    | KeyArrives(id: nat, key: Result<string>, now: int)
    | PayloadArrives(id: nat, payload: Result<Payload>, now: int)
    | TimedOut(id: nat)
    | Clear

  /** `log` is every route accepted since the caches were last cleared, in order. */
  datatype State = State(caches: Caches, flights: map<nat, Flight>, log: seq<Route>)

  const Fresh := State(Cold, map[], [])

  function OnBegin(cfg: Config, s: State, id: nat, inputLabel: string, inputIdentity: string, now: int): State {
    var called := Admit(cfg, inputLabel, inputIdentity);
    if id in s.flights || called.Err? || MissCached(s.caches, IdentityFor(cfg, called.value), now) then s
    else
      s.(caches := ForgetMiss(s.caches, IdentityFor(cfg, called.value)),
         flights := s.flights[id := Flight(called.value, Resolving, false)])
  }

  function OnKey(cfg: Config, s: State, id: nat, key: Result<string>, now: int): State
    requires id in s.flights
  {
    var f := s.flights[id];
    var identity := IdentityFor(cfg, f.called);
    var landed := s.(flights := s.flights - {id});
    if key.Err? then landed
    else if key.value == "" then
      if f.timedOut then landed else landed.(caches := RecordMiss(cfg, s.caches, identity, now))
    else
      var hit := CacheHit(s.caches, identity, key.value, now);
      if hit.None? then s.(flights := s.flights[id := f.(stage := Fetching(key.value))])
      else if OlderThanHighest(s.caches, identity, hit.value.revision) then landed
      else landed.(log := s.log + [hit.value])
  }

  function Step(cfg: Config, s: State, e: Event): State {
    match e
    case Begin(id, inputLabel, inputIdentity, now) => OnBegin(cfg, s, id, inputLabel, inputIdentity, now)
    case KeyArrives(id, key, now) =>
      if id in s.flights && s.flights[id].stage == Resolving then OnKey(cfg, s, id, key, now) else s
    case PayloadArrives(id, payload, now) =>
      if id in s.flights && s.flights[id].stage.Fetching? then
        var f := s.flights[id];
        var (caches, r) := OnPayload(cfg, s.caches, f.called, f.stage.key, payload, now);
        State(caches, s.flights - {id}, if r.Ok? then s.log + [r.value] else s.log)
      else s
    case TimedOut(id) =>
      if id in s.flights then s.(flights := s.flights[id := s.flights[id].(timedOut := true)]) else s
    case Clear => State(Cold, s.flights, [])
  }

  function Run(cfg: Config, s: State, events: seq<Event>): State
    decreases |events|
  {
    if events == [] then s else Run(cfg, Step(cfg, s, events[0]), events[1..])
  }

  // ---- Invariants -------------------------------------------------------------------------------------

  /** The reader is only built for a tenant of letters, digits and dashes. */
  predicate ValidConfig(cfg: Config) {
    cfg.tenant != "" && forall c :: c in cfg.tenant ==> IsWord(c) || c == '-'
  }

  predicate Monotone(log: seq<Route>) {
    forall i, j :: 0 <= i < j < |log| && log[i].identity == log[j].identity ==> log[i].revision <= log[j].revision
  }

  /** What toCanonicalRoute promises of the routes it lets through. */
  predicate Canonical(r: Route) {
    && CountOk(r.kind, |r.targets| + r.rejected) && r.targets != []
    && (r.kind != MultiRing ==> r.rejected == 0)
    && (forall i, j :: 0 <= i < j < |r.targets| ==> r.targets[i] != r.targets[j])
    && (forall t :: t in r.targets ==> if r.kind == Ivr then IvrTarget(t) else EmailIdentity(t))
    && OwnerAddress(r.owner) && Lower(r.identity) == r.identity
  }

  predicate ForItself(cfg: Config, called: string) {
    AllDigits(called) && Lower(IdentityFor(cfg, called)) == IdentityFor(cfg, called)
  }

  /** The route of a cache entry is a logged one, under its own key, at most the highest. */
  predicate EntrySound(s: State, k: string) {
    && k in s.caches.provisions
    && var r := s.caches.provisions[k].route;
      && r in s.log && k == CacheKey(r.identity, r.key) && ':' !in r.identity
  }

  predicate Recorded(s: State, r: Route) {
    r.identity in s.caches.highest && r.revision <= s.caches.highest[r.identity]
  }

  predicate Attained(s: State, identity: string) {
    identity in s.caches.highest &&
    exists i :: 0 <= i < |s.log| && s.log[i].identity == identity && s.log[i].revision == s.caches.highest[identity]
  }

  predicate LogSound(s: State) {
    && Monotone(s.log)
    && (forall r :: r in s.log ==> Recorded(s, r) && Canonical(r))
    && (forall i :: i in s.caches.highest ==> Attained(s, i))
  }

  predicate EntriesSound(s: State) {
    forall k :: k in s.caches.provisions ==> EntrySound(s, k)
  }

  predicate FlightsSound(cfg: Config, s: State) {
    forall id :: id in s.flights ==> ForItself(cfg, s.flights[id].called)
  }

  predicate Sound(cfg: Config, s: State) {
    LogSound(s) && EntriesSound(s) && FlightsSound(cfg, s)
  }

  // ---- Routes --------------------------------------------------------------------------------------------

  /** A provision is let through only as a canonical route of the called identity. */
  lemma LetThroughIsCanonical(identifier: string, key: string, p: Provision, called: string, identity: string)
    requires Lower(identity) == identity
    ensures var r := CanonicalRoute(identifier, key, p, called, identity);
      r.Ok? ==> Canonical(r.value) && r.value.identity == identity && r.value.key == key
                && p.revision == Some(r.value.revision)
  {
    hide EmailIdentity, IvrTarget, OwnerAddress, Lower;
  }

  lemma AdmittedIsForItself(cfg: Config, inputLabel: string, inputIdentity: string)
    ensures var called := Admit(cfg, inputLabel, inputIdentity);
      called.Ok? ==> ForItself(cfg, called.value)
  {
    var called := Trim(inputLabel);
    var given := if inputIdentity == "" then IdentityFor(cfg, called) else inputIdentity;
    LowerIsStable(Trim(given));
  }

  lemma LowerOfParts(x: string, y: string)
    ensures Lower(x + y) == Lower(x) + Lower(y)
  {
  }

  /** A tenant name with a capital in it is accepted when the reader is built, and then every
      read is refused; any other tenant's reads are refused only for their own label or
      identity. */
  lemma AdmitsExactly(cfg: Config, inputLabel: string, inputIdentity: string)
    ensures Lower(cfg.tenant) != cfg.tenant ==> Admit(cfg, inputLabel, inputIdentity).Err?
    ensures Lower(cfg.tenant) == cfg.tenant && inputIdentity == "" ==>
      (Admit(cfg, inputLabel, inputIdentity).Ok? <==> AllDigits(Trim(inputLabel)))
  {
    var called := Trim(inputLabel);
    if AllDigits(called) {
      LowerOfIdentity(cfg, called);
      if Lower(cfg.tenant) != cfg.tenant {
        AdmittedIsForItself(cfg, inputLabel, inputIdentity);
      } else {
        TrimmedIdentity(cfg, called);
      }
    }
  }

  lemma LowerOfIdentity(cfg: Config, called: string)
    requires AllDigits(called)
    ensures Lower(IdentityFor(cfg, called)) == IdentityFor(cfg, called) <==> Lower(cfg.tenant) == cfg.tenant
  {
    var dot, end := ".", ".global";
    assert IdentityFor(cfg, called) == called + (dot + (cfg.tenant + end));
    assert Lower(called) == called by { assert forall i :: 0 <= i < |called| ==> called[i] in called; }
    assert Lower(dot) == dot && Lower(end) == end;
    LowerOfParts(called, dot + (cfg.tenant + end));
    LowerOfParts(dot, cfg.tenant + end);
    LowerOfParts(cfg.tenant, end);
    hide Lower;
    Cancels(called, dot + (Lower(cfg.tenant) + end), dot + (cfg.tenant + end));
    Cancels(dot, Lower(cfg.tenant) + end, cfg.tenant + end);
    CancelsRight(Lower(cfg.tenant), cfg.tenant, end);
  }

  lemma Cancels(x: string, y: string, z: string)
    ensures x + y == x + z <==> y == z
  {
    assert (x + y)[|x|..] == y && (x + z)[|x|..] == z;
  }

  lemma CancelsRight(x: string, y: string, z: string)
    ensures x + z == y + z <==> x == y
  {
    if x + z == y + z {
      assert |x + z| == |y + z|;
      assert (x + z)[..|x|] == x && (y + z)[..|y|] == y;
    }
  }

  lemma TrimmedIdentity(cfg: Config, called: string)
    requires AllDigits(called)
    ensures Trim(IdentityFor(cfg, called)) == IdentityFor(cfg, called)
  {
    var s := IdentityFor(cfg, called);
    assert s[0] == called[0] && called[0] in called && !IsBlank(s[0]);
    assert s[|s| - 1] == 'l';
    TrimRightKeeps(s);
  }

  // ---- Every step keeps the invariants ---------------------------------------------------------------

  lemma ColonFree(cfg: Config, called: string)
    requires ValidConfig(cfg) && AllDigits(called)
    ensures ':' !in IdentityFor(cfg, called)
  {
    assert ':' !in called && ':' !in cfg.tenant;
    assert ':' !in called + ".";
    assert ':' !in called + "." + cfg.tenant;
  }

  /** A live cache entry under an identity and a key is a logged route of both; unless older
      than the highest revision it is equal to it. */
  lemma HitIsLogged(cfg: Config, s: State, called: string, key: string, now: int)
    requires ValidConfig(cfg) && Sound(cfg, s) && ForItself(cfg, called)
    ensures var identity := IdentityFor(cfg, called);
      var hit := CacheHit(s.caches, identity, key, now);
      hit.Some? ==>
        && hit.value in s.log && hit.value.identity == identity && hit.value.key == key
        && Recorded(s, hit.value)
  {
    var identity := IdentityFor(cfg, called);
    var hit, k := CacheHit(s.caches, identity, key, now), CacheKey(identity, key);
    if hit.Some? {
      assert EntrySound(s, k);
      ColonFree(cfg, called);
      hide IdentityFor, Monotone;
      assert identity + [':'] + key == hit.value.identity + [':'] + hit.value.key;
      CallPairs.CutsAtFirst(':', identity, key, hit.value.identity, hit.value.key);
    }
  }

  /** A route at least as new as everything logged for its identity can be logged next. */
  lemma LogGrows(cfg: Config, s: State, r: Route, caches: Caches)
    requires Sound(cfg, s) && Canonical(r)
    requires r.identity in s.caches.highest ==> s.caches.highest[r.identity] <= r.revision
    requires caches.highest == s.caches.highest[r.identity := r.revision]
    ensures LogSound(State(caches, s.flights, s.log + [r]))
  {
    var t := State(caches, s.flights, s.log + [r]);
    hide Canonical, EntrySound;
    forall i | 0 <= i < |s.log| ensures Recorded(s, s.log[i]) { assert s.log[i] in s.log; }
    forall i | i in t.caches.highest ensures Attained(t, i) {
      if i == r.identity {
        assert t.log[|s.log|] == r;
      } else {
        assert Attained(s, i);
        var n :| 0 <= n < |s.log| && s.log[n].identity == i && s.log[n].revision == s.caches.highest[i];
        assert t.log[n] == s.log[n];
      }
    }
  }

  /** The log depends on the recorded revisions alone, the entries also on the log. */
  lemma LogKept(s: State, t: State)
    requires LogSound(s) && t.log == s.log && t.caches.highest == s.caches.highest
    ensures LogSound(t)
  {
    hide Canonical, Monotone;
    forall r | r in t.log ensures Recorded(t, r) { assert Recorded(s, r); }
    forall i | i in t.caches.highest ensures Attained(t, i) { assert Attained(s, i); }
  }

  lemma EntriesKept(s: State, t: State)
    requires EntriesSound(s) && t.caches.provisions == s.caches.provisions && s.log <= t.log
    ensures EntriesSound(t)
  {
    forall k | k in t.caches.provisions ensures EntrySound(t, k) { assert EntrySound(s, k); }
  }

  lemma HitKeeps(cfg: Config, s: State, id: nat, key: string, now: int)
    requires ValidConfig(cfg) && Sound(cfg, s) && id in s.flights && key != ""
    ensures Sound(cfg, OnKey(cfg, s, id, Ok(key), now))
  {
    var called, t := s.flights[id].called, OnKey(cfg, s, id, Ok(key), now);
    var identity := IdentityFor(cfg, called);
    var hit := CacheHit(s.caches, identity, key, now);
    HitIsLogged(cfg, s, called, key, now);
    hide IdentityFor, ForItself, CacheHit;
    EntriesKept(s, t);
    if hit.Some? && !OlderThanHighest(s.caches, identity, hit.value.revision) {
      assert Canonical(hit.value);
      assert s.caches.highest == s.caches.highest[identity := hit.value.revision];
      LogGrows(cfg, s, hit.value, s.caches);
      LogKept(State(s.caches, s.flights, s.log + [hit.value]), t);
    } else {
      LogKept(s, t);
    }
  }

  lemma NoKeyKeeps(cfg: Config, s: State, id: nat, key: Result<string>, now: int)
    requires Sound(cfg, s) && id in s.flights && (key.Ok? ==> key.value == "")
    ensures Sound(cfg, OnKey(cfg, s, id, key, now))
  {
    LogKept(s, OnKey(cfg, s, id, key, now));
    EntriesKept(s, OnKey(cfg, s, id, key, now));
    hide LogSound, EntriesSound, IdentityFor, ForItself;
  }

  lemma RefusalKeeps(cfg: Config, s: State, id: nat)
    requires Sound(cfg, s)
    ensures Sound(cfg, s.(flights := s.flights - {id}))
  {
    LogKept(s, s.(flights := s.flights - {id}));
    EntriesKept(s, s.(flights := s.flights - {id}));
    hide LogSound, EntriesSound, ForItself;
  }

  lemma AcceptedEntries(s: State, t: State, k: string, r: Route)
    requires EntriesSound(s) && t.log == s.log + [r] && k == CacheKey(r.identity, r.key) && ':' !in r.identity
    requires k in t.caches.provisions && t.caches.provisions[k].route == r
    requires forall x :: x in t.caches.provisions && x != k ==> x in s.caches.provisions && t.caches.provisions[x] == s.caches.provisions[x]
    ensures EntriesSound(t)
  {
    forall x | x in t.caches.provisions ensures EntrySound(t, x) {
      if x != k { assert EntrySound(s, x); } else { assert r in t.log; }
    }
  }

  lemma PayloadKeeps(cfg: Config, s: State, id: nat, payload: Result<Payload>, now: int)
    requires ValidConfig(cfg) && Sound(cfg, s) && id in s.flights && s.flights[id].stage.Fetching?
    ensures Sound(cfg, Step(cfg, s, PayloadArrives(id, payload, now)))
  {
    var f, t := s.flights[id], Step(cfg, s, PayloadArrives(id, payload, now));
    var (caches, r) := OnPayload(cfg, s.caches, f.called, f.stage.key, payload, now);
    var identity := IdentityFor(cfg, f.called);
    if r.Ok? {
      ColonFree(cfg, f.called);
      LetThroughIsCanonical(Lower("lightpbx." + f.called), f.stage.key, payload.value.provision, f.called, identity);
      hide CanonicalRoute, Canonical, IdentityFor, ForItself, Lower;
      LogGrows(cfg, s, r.value, caches);
      hide LogSound;
      LogKept(State(caches, s.flights, s.log + [r.value]), t);
      AcceptedEntries(s, t, CacheKey(identity, f.stage.key), r.value);
    } else {
      RefusalKeeps(cfg, s, id);
    }
  }

  lemma BeginKeeps(cfg: Config, s: State, id: nat, inputLabel: string, inputIdentity: string, now: int)
    requires Sound(cfg, s)
    ensures Sound(cfg, OnBegin(cfg, s, id, inputLabel, inputIdentity, now))
  {
    var t := OnBegin(cfg, s, id, inputLabel, inputIdentity, now);
    AdmittedIsForItself(cfg, inputLabel, inputIdentity);
    LogKept(s, t);
    EntriesKept(s, t);
    hide LogSound, EntriesSound, Admit, ForItself, IdentityFor;
  }

  lemma StepKeeps(cfg: Config, s: State, e: Event)
    requires ValidConfig(cfg) && Sound(cfg, s)
    ensures Sound(cfg, Step(cfg, s, e))
  {
    hide LogSound, EntriesSound, ForItself;
    match e
    case Begin(id, inputLabel, inputIdentity, now) =>
      hide OnBegin, Sound;
      BeginKeeps(cfg, s, id, inputLabel, inputIdentity, now);
    case KeyArrives(id, key, now) =>
      hide OnKey, Sound;
      if id in s.flights {
        if key.Ok? && key.value != "" { HitKeeps(cfg, s, id, key.value, now); } else { NoKeyKeeps(cfg, s, id, key, now); }
      }
    case PayloadArrives(id, payload, now) =>
      hide OnPayload, Sound;
      if id in s.flights && s.flights[id].stage.Fetching? { PayloadKeeps(cfg, s, id, payload, now); }
    case TimedOut(id) =>
      LogKept(s, Step(cfg, s, e));
      EntriesKept(s, Step(cfg, s, e));
    case Clear => ClearKeeps(cfg, s);
  }

  lemma ClearKeeps(cfg: Config, s: State)
    requires Sound(cfg, s)
    ensures Sound(cfg, State(Cold, s.flights, []))
  {
    hide ForItself;
  }

  lemma {:induction false} EveryRunIsSound(cfg: Config, s: State, events: seq<Event>)
    requires ValidConfig(cfg) && Sound(cfg, s)
    ensures Sound(cfg, Run(cfg, s, events))
    decreases |events|
  {
    if events != [] {
      hide Sound, Step;
      StepKeeps(cfg, s, events[0]);
      EveryRunIsSound(cfg, Step(cfg, s, events[0]), events[1..]);
    }
  }

  // ---- What a reader can rely on -----------------------------------------------------------------------

  /** No rollback: however reads overlap, time out and expire, the routes accepted for an
      identity since the last clear never go back to an older revision, and each is canonical. */
  lemma NoRollback(cfg: Config, events: seq<Event>)
    requires ValidConfig(cfg)
    ensures var s := Run(cfg, Fresh, events);
      Monotone(s.log) && forall r :: r in s.log ==> Canonical(r)
  {
    assert Sound(cfg, Fresh);
    EveryRunIsSound(cfg, Fresh, events);
    hide Canonical, Run;
  }

  /** A cache hit returns a route that an earlier fetch produced for the same identity and key
      since the last clear, and its revision is the highest recorded. */
  lemma HitsAreEarlierFetches(cfg: Config, events: seq<Event>, id: nat, key: Result<string>, now: int)
    requires ValidConfig(cfg)
    ensures var s := Run(cfg, Fresh, events);
      var t := Step(cfg, s, KeyArrives(id, key, now));
      t.log != s.log ==>
        && id in s.flights && key.Ok?
        && |t.log| == |s.log| + 1
        && var r := t.log[|s.log|];
          && t.log[..|s.log|] == s.log && r in s.log
          && r.identity == IdentityFor(cfg, s.flights[id].called) && r.key == key.value
          && r.identity in s.caches.highest && r.revision == s.caches.highest[r.identity]
  {
    assert Sound(cfg, Fresh);
    EveryRunIsSound(cfg, Fresh, events);
    var s := Run(cfg, Fresh, events);
    hide Run;
    if id in s.flights && key.Ok? {
      HitIsLogged(cfg, s, s.flights[id].called, key.value, now);
    }
    hide Sound, IdentityFor, CacheHit, Canonical;
  }

  predicate NewerLogged(log: seq<Route>, identity: string, revision: nat) {
    exists i :: 0 <= i < |log| && log[i].identity == identity && log[i].revision > revision
  }

  /** The guard is exact: a fetched route that passes the checks is refused if and only if a
      newer one was accepted for its identity since the last clear. */
  lemma RefusedExactlyWhenOlder(cfg: Config, events: seq<Event>, called: string, key: string, p: Provision, now: int)
    requires ValidConfig(cfg) && ForItself(cfg, called)
    ensures var s, identity := Run(cfg, Fresh, events), IdentityFor(cfg, called);
      var r := CanonicalRoute(Lower("lightpbx." + called), key, p, called, identity);
      r.Ok? ==>
        (OnPayload(cfg, s.caches, called, key, Ok(Parsed(p)), now).1 ==
          if NewerLogged(s.log, identity, r.value.revision) then Err(RevisionRollback) else r)
  {
    assert Sound(cfg, Fresh);
    EveryRunIsSound(cfg, Fresh, events);
    var s, identity := Run(cfg, Fresh, events), IdentityFor(cfg, called);
    hide Run, CanonicalRoute, Canonical, Monotone;
    forall i | 0 <= i < |s.log| ensures Recorded(s, s.log[i]) { assert s.log[i] in s.log; }
    if identity in s.caches.highest { assert Attained(s, identity); }
  }
}
