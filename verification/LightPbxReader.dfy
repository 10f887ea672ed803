/** The reader as the closure over its three maps, for a read that nothing overlaps. */
module LightPbxReaders {
  import opened Text
  import opened LightPbx
  import opened LightPbxRuns

  datatype Outcome = Routed(route: Route) | NoRoute | Failed(code: Code)

  /** What the chain answers a read, and the clock at each of its moments. */
  datatype Chain = Chain(key: Result<string>, payload: Result<Payload>, t0: int, t1: int, t2: int)

  /** A whole read as its three events. */
  function Events(cfg: Config, s: State, inputLabel: string, inputIdentity: string, chain: Chain): State {
    Step(cfg, Step(cfg, Step(cfg, s,
      Begin(0, inputLabel, inputIdentity, chain.t0)), KeyArrives(0, chain.key, chain.t1)),
      PayloadArrives(0, chain.payload, chain.t2))
  }

  function Max(a: nat, b: nat): nat {
    if a < b then b else a
  }

  class LightPbxReader {
    const cfg: Config
    var provisionCache: map<string, Entry>
    var missCache: map<string, int>
    var highestRevisionByIdentity: map<string, nat>

    constructor (cfg: Config)
      ensures View() == Cold && this.cfg == cfg
    {
      this.cfg := cfg;
      provisionCache, missCache, highestRevisionByIdentity := map[], map[], map[];
    }

    function View(): Caches
      reads this
    {
      Caches(provisionCache, missCache, highestRevisionByIdentity)
    }

    method FetchProvision(called: string, key: string, payload: Result<Payload>, now: int)
      returns (route: Result<Route>)
      modifies this`provisionCache, this`highestRevisionByIdentity
      ensures (View(), route) == OnPayload(cfg, old(View()), called, key, payload, now)
    {
      hide CanonicalRoute, IdentityFor, CacheKey, Lower;
      var identity := IdentityFor(cfg, called);
      match payload
      case Err(_) => return Err(PayloadLookupFailed);
      case Ok(Absent) => return Err(PayloadMissing);
      case Ok(BadJson) => return Err(PayloadInvalidJson);
      case Ok(NotAnObject) => return Err(PayloadInvalid);
      case Ok(JsonNull) => return Err(PropertyOfNull);
      case Ok(Parsed(p)) =>
        route := CanonicalRoute(Lower("lightpbx." + called), key, p, called, identity);
        if route.Err? { return; }
        var revision := route.value.revision;
        var highest := if identity in highestRevisionByIdentity then highestRevisionByIdentity[identity] else revision;
        if revision < highest { return Err(RevisionRollback); }
        highestRevisionByIdentity := highestRevisionByIdentity[identity := Max(highest, revision)];
        provisionCache := provisionCache[CacheKey(identity, key) := Entry(route.value, now + cfg.routeTtl)];
    }

    /** The read: admitted, answered from the caches, or fetched. A new route in the log is the
        one returned, and only then is a route returned. */
    method ReadLightPbxProvision(inputLabel: string, inputIdentity: string, chain: Chain, ghost log: seq<Route>)
      returns (outcome: Outcome)
      modifies this
      ensures var t := Events(cfg, State(old(View()), map[], log), inputLabel, inputIdentity, chain);
        View() == t.caches && t.log == if outcome.Routed? then log + [outcome.route] else log
    {
      hide CanonicalRoute, Admit, IdentityFor, CacheKey, OnPayload;
      var called := Admit(cfg, inputLabel, inputIdentity);
      if called.Err? { return Failed(called.code); }
      var identity := IdentityFor(cfg, called.value);
      if identity in missCache && missCache[identity] > chain.t0 { return NoRoute; }
      missCache := missCache - {identity};
      match chain.key
      case Err(code) => return Failed(RecordLookupFailed);
      case Ok(key) =>
        if key == "" {
          var ttl := if cfg.missTtl < MISS_TTL_CAP then cfg.missTtl else MISS_TTL_CAP;
          missCache := missCache[identity := chain.t1 + ttl];
          return NoRoute;
        }
        var hit := CacheHit(View(), identity, key, chain.t1);
        if hit.Some? {
          if identity in highestRevisionByIdentity && hit.value.revision < highestRevisionByIdentity[identity] {
            return Failed(RevisionRollback);
          }
          return Routed(hit.value);
        }
        var fetched := FetchProvision(called.value, key, chain.payload, chain.t2);
        outcome := if fetched.Ok? then Routed(fetched.value) else Failed(fetched.code);
    }

    method ClearCache()
      modifies this
      ensures View() == Cold
    {
      provisionCache, missCache, highestRevisionByIdentity := map[], map[], map[];
    }
  }
}
