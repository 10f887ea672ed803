/** The LightPBX provision reader: the checks on a payload, the caches and the guard against
    older revisions (LightPbxProvisionReader.js). */
module LightPbx {
  import opened Text
  import CallPairs

  datatype Option<+T> = None | Some(value: T)

  datatype Code =
    | LabelInvalid | CalledIdentityInvalid | RecordLookupFailed | PayloadLookupFailed | PayloadMissing
    | PayloadInvalidJson | PayloadInvalid | SchemaUnsupported | KindInvalid | LabelMismatch | IdentityMismatch
    | ProviderInvalid | OwnerInvalid | RouteUnsupported | TargetsInvalid | DirectTargetCount
    | MultiringTargetCount | IvrTargetCount | IvrTargetInvalid | TargetInvalid | RevisionInvalid
    | RevisionRollback | PropertyOfNull

  datatype Result<+T> = Ok(value: T) | Err(code: Code)

  /** `targets` is None when it is not an array, and empty when it is missing. `revision` is its
      numeric value when that is a safe integer. */
  datatype Provision = Provision(
    schema: string, kind: string, name: string, identity: string, provider: string, owner: string,
    routeType: string, targets: Option<seq<string>>, groupId: string, revision: Option<int>, configHash: string)

  /** `JsonNull` is a payload text that parses to null. */
  datatype Payload = Absent | BadJson | NotAnObject | JsonNull | Parsed(provision: Provision)

  datatype RouteType = Direct | MultiRing | Ivr

  datatype Route = Route(
    identifier: string, key: string, identity: string, owner: string, kind: RouteType,
    targets: seq<string>, rejected: nat, groupId: string, revision: nat, configHash: string)

  // ---- Text patterns -----------------------------------------------------------------------------

  predicate IsDigit(c: char) { '0' <= c <= '9' }

  predicate IsHex(c: char) { IsDigit(c) || 'a' <= c <= 'f' }

  predicate IsWord(c: char) { IsDigit(c) || 'a' <= c <= 'z' || 'A' <= c <= 'Z' }

  predicate AllDigits(s: string) {
    s != "" && forall c :: c in s ==> IsDigit(c)
  }

  const EMAIL_HASH_LENGTH := 64
  const EMAIL_SUFFIX := ".email.global"

  predicate EmailIdentity(s: string) {
    && |s| == EMAIL_HASH_LENGTH + |EMAIL_SUFFIX|
    && s[EMAIL_HASH_LENGTH..] == EMAIL_SUFFIX
    && forall i :: 0 <= i < EMAIL_HASH_LENGTH ==> IsHex(s[i])
  }

  const IVR_PREFIX := "sip:proj_"
  const IVR_SUFFIX := "@sip.api.openai.com;transport=tls"

  predicate IvrTarget(s: string) {
    && |IVR_PREFIX| + |IVR_SUFFIX| < |s|
    && s[..|IVR_PREFIX|] == IVR_PREFIX
    && s[|s| - |IVR_SUFFIX|..] == IVR_SUFFIX
    && forall i :: |IVR_PREFIX| <= i < |s| - |IVR_SUFFIX| ==> IsWord(s[i])
  }

  predicate OwnerAddress(s: string) {
    |s| == 42 && s[..2] == "0x" && forall i :: 2 <= i < |s| ==> IsHex(LowerChar(s[i]))
  }

  // ---- From payload to route -----------------------------------------------------------------------

  function ParseRouteType(s: string): Option<RouteType> {
    var t := Lower(s);
    if t == "direct" then Some(Direct)
    else if t == "multi_ring" then Some(MultiRing)
    else if t == "ivr" then Some(Ivr)
    else None
  }

  function Trimmed(xs: seq<string>): (ys: seq<string>)
    ensures |ys| == |xs| && forall i :: 0 <= i < |xs| ==> ys[i] == Trim(xs[i])
  {
    seq(|xs|, i requires 0 <= i < |xs| => Trim(xs[i]))
  }

  /** The valid identities in lower case, each once, in order of first appearance. */
  function Identities(xs: seq<string>, seen: set<string>): (ys: seq<string>)
    ensures |ys| <= |xs|
    ensures forall i :: 0 <= i < |ys| ==> EmailIdentity(ys[i]) && ys[i] !in seen
    ensures forall i, j :: 0 <= i < j < |ys| ==> ys[i] != ys[j]
    ensures forall x :: x in xs && EmailIdentity(Lower(x)) && Lower(x) !in seen ==> Lower(x) in ys
    ensures forall y :: y in ys ==> exists x :: x in xs && y == Lower(x)
  {
    if xs == [] then []
    else
      var x := Lower(xs[0]);
      if EmailIdentity(x) && x !in seen then [x] + Identities(xs[1..], seen + {x})
      else Identities(xs[1..], seen)
  }

  predicate CountOk(kind: RouteType, n: nat) {
    match kind
    case MultiRing => 1 <= n <= 5
    case _ => n == 1
  }

  function CountError(kind: RouteType): Code {
    match kind
    case Direct => DirectTargetCount
    case MultiRing => MultiringTargetCount
    case Ivr => IvrTargetCount
  }

  function Targets(kind: RouteType, raw: seq<string>): Result<seq<string>> {
    if !CountOk(kind, |raw|) then Err(CountError(kind))
    else if kind == Ivr then
      if IvrTarget(raw[0]) then Ok([raw[0]]) else Err(IvrTargetInvalid)
    else
      var targets := Identities(raw, {});
      if targets == [] || (kind == Direct && |targets| < |raw|) then Err(TargetInvalid) else Ok(targets)
  }

  /** The checks that come before the route type. */
  function HeaderError(p: Provision, called: string, identity: string): Option<Code> {
    if p.schema != "arnacon.lightpbx.endpoint.v1" then Some(SchemaUnsupported)
    else if p.kind != "lightpbx_external_extension" then Some(KindInvalid)
    else if p.name != called then Some(LabelMismatch)
    else if Lower(p.identity) != Lower(identity) then Some(IdentityMismatch)
    else if Lower(p.provider) != "cellact" then Some(ProviderInvalid)
    else if !OwnerAddress(p.owner) then Some(OwnerInvalid)
    else None
  }

  /** toCanonicalRoute. */
  function CanonicalRoute(identifier: string, key: string, p: Provision, called: string, identity: string): Result<Route> {
    var header, kind := HeaderError(p, called, identity), ParseRouteType(p.routeType);
    if header.Some? then Err(header.value)
    else if kind == None then Err(RouteUnsupported)
    else if p.targets == None then Err(TargetsInvalid)
    else
      var raw := Trimmed(p.targets.value);
      var targets := Targets(kind.value, raw);
      if targets.Err? then Err(targets.code)
      else if p.revision == None || p.revision.value < 0 then Err(RevisionInvalid)
      else Ok(Route(identifier, key, Lower(identity), p.owner, kind.value, targets.value,
                    |raw| - |targets.value|, p.groupId, p.revision.value, p.configHash))
  }

  // ---- The caches ----------------------------------------------------------------------------------

  datatype Entry = Entry(route: Route, expiresAt: int)

  datatype Caches = Caches(provisions: map<string, Entry>, misses: map<string, int>, highest: map<string, nat>)

  const Cold := Caches(map[], map[], map[])

  datatype Config = Config(tenant: string, routeTtl: int, missTtl: int)

  const MISS_TTL_CAP := 10000

  function IdentityFor(cfg: Config, called: string): string {
    called + "." + cfg.tenant + ".global"
  }

  /** The label and the identity a read is for. */
  function Admit(cfg: Config, inputLabel: string, inputIdentity: string): Result<string> {
    var called := Trim(inputLabel);
    if !AllDigits(called) then Err(LabelInvalid)
    else
      var given := if inputIdentity == "" then IdentityFor(cfg, called) else inputIdentity;
      if Lower(Trim(given)) != IdentityFor(cfg, called) then Err(CalledIdentityInvalid) else Ok(called)
  }

  predicate MissCached(c: Caches, identity: string, now: int) {
    identity in c.misses && c.misses[identity] > now
  }

  function ForgetMiss(c: Caches, identity: string): Caches {
    c.(misses := c.misses - {identity})
  }

  function RecordMiss(cfg: Config, c: Caches, identity: string, now: int): Caches {
    var ttl := if cfg.missTtl < MISS_TTL_CAP then cfg.missTtl else MISS_TTL_CAP;
    c.(misses := c.misses[identity := now + ttl])
  }

  function CacheKey(identity: string, key: string): string {
    identity + ":" + key
  }

  predicate OlderThanHighest(c: Caches, identity: string, revision: nat) {
    identity in c.highest && revision < c.highest[identity]
  }

  /** A cached route that has not expired, or None. */
  function CacheHit(c: Caches, identity: string, key: string, now: int): Option<Route> {
    var k := CacheKey(identity, key);
    if k in c.provisions && c.provisions[k].expiresAt > now then Some(c.provisions[k].route) else None
  }

  function Accept(cfg: Config, c: Caches, identity: string, key: string, route: Route, now: int): Caches {
    var highest := if identity in c.highest && route.revision < c.highest[identity] then c.highest[identity] else route.revision;
    c.(highest := c.highest[identity := highest],
       provisions := c.provisions[CacheKey(identity, key) := Entry(route, now + cfg.routeTtl)])
  }

  /** fetchProvision's checks on what arrived, then the two records. */
  function OnPayload(cfg: Config, c: Caches, called: string, key: string, payload: Result<Payload>, now: int):
    (Caches, Result<Route>)
  {
    var identity := IdentityFor(cfg, called);
    match payload
    case Err(_) => (c, Err(PayloadLookupFailed))
    case Ok(Absent) => (c, Err(PayloadMissing))
    case Ok(BadJson) => (c, Err(PayloadInvalidJson))
    case Ok(NotAnObject) => (c, Err(PayloadInvalid))
    case Ok(JsonNull) => (c, Err(PropertyOfNull))
    case Ok(Parsed(p)) =>
      var r := CanonicalRoute(Lower("lightpbx." + called), key, p, called, identity);
      if r.Err? then (c, r)
      else if OlderThanHighest(c, identity, r.value.revision) then (c, Err(RevisionRollback))
      else (Accept(cfg, c, identity, key, r.value, now), r)
  }
}
