/** Sequential runs: each client message is handled, and its drains run, before the next
    message arrives (PolySession.onIngress over SessionLeg.handleIngress). */
module SequentialRuns {
  import opened LegStates
  import opened ReconcileRules
  import opened CallModel
  import opened DrainExit
  import opened Convergence
  import opened Stalls
  import opened Transit
  import opened CallRuns
  import opened Ingress

  /** One leg change and the drain it queues. */
  function Serve(env: Env, s: Poly, r: Ref, t: LegState, script: Script): Poly {
    Apply(env, Apply(env, s, Client(r, t)), RunDrain(script, []))
  }

  /** A message for one leg. `ok` says whether the leg's own transport operation succeeds;
      `first` and `second` serve the drains its two state changes queue. */
  datatype Item = Item(leg: Ref, ev: ClientEvent, ok: bool, first: Script, second: Script)

  function PlanOf(env: Env, s: Poly, it: Item): Plan {
    Handle(env.KindOf(it.leg), s.c.Leg(it.leg), it.ev)
  }

  function FirstHalf(env: Env, s: Poly, it: Item): Poly {
    match PlanOf(env, s, it).now
    case None => s
    case Some(t) => Serve(env, s, it.leg, t, it.first)
  }

  /** The second change, unless a drain of the first half has already seen it land. */
  function Deliver(env: Env, s: Poly, it: Item): Poly {
    var plan, s1 := PlanOf(env, s, it), FirstHalf(env, s, it);
    if it.ok && plan.later.Some? && (plan.now.None? || plan.now.value == s1.c.Leg(it.leg))
    then Serve(env, s1, it.leg, plan.later.value, it.second)
    else s1
  }

  function DeliverAll(env: Env, s: Poly, items: seq<Item>): Poly
    decreases items
  {
    if items == [] then s else DeliverAll(env, Deliver(env, s, items[0]), items[1..])
  }

  ghost predicate TameItem(it: Item) {
    Tame(it.first) && Tame(it.second)
  }

  /** No drain of the run is cut off by the pass cap. */
  predicate NeverCut(env: Env, s: Poly, items: seq<Item>)
    decreases items
  {
    items == [] ||
    (&& !FirstHalf(env, s, items[0]).capped && !Deliver(env, s, items[0]).capped
     && NeverCut(env, Deliver(env, s, items[0]), items[1..]))
  }

  /** The pair between two messages: settled, media and activity flag in agreement. */
  predicate Rested(s: Poly) {
    && s.queued == 0 && !s.capped
    && Quiet(s.c) && Shape(s.c.a, s.c.b)
    && s.active == s.c.BothInCall()
  }

  lemma LeavingACallUnsticks(c: Cfg, r: Ref, t: LegState)
    requires Quiet(c) && (c.Leg(r) == InCall ==> !CallViable(t))
    ensures !Stuck(Move(c, r, t))
  {
    var d := Move(c, r, t);
    if d.media && WeakShape(d.a, d.b) {
      BridgedIsNotStuck(d.a, d.b);
    }
  }

  lemma ServeRests(env: Env, s: Poly, r: Ref, t: LegState, script: Script)
    requires Rested(s) && Tame(script)
    requires s.c.Leg(r) == InCall ==> !CallViable(t) || t == InCall
    requires !Serve(env, s, r, t, script).capped
    ensures Rested(Serve(env, s, r, t, script))
  {
    hide Shape, WeakShape, Stuck;
    if s.c.Leg(r) != t {
      LeavingACallUnsticks(s.c, r, t);
      UnstuckSettles(env, Move(s.c, r, t), script, 0);
    }
  }

  /** A leg in a call is only ever moved out of it by its own client. */
  lemma ClientLeavesCall(kind: Kind, ev: ClientEvent)
    ensures var plan := Handle(kind, InCall, ev);
      && (plan.now.Some? ==> !CallViable(plan.now.value))
      && (plan.now.None? && plan.later.Some? ==> !CallViable(plan.later.value))
  {
  }

  lemma DeliverRests(env: Env, s: Poly, it: Item)
    requires Rested(s) && TameItem(it)
    requires !FirstHalf(env, s, it).capped && !Deliver(env, s, it).capped
    ensures Rested(Deliver(env, s, it))
  {
    hide Serve, Rested;
    var plan := PlanOf(env, s, it);
    ClientLeavesCall(env.KindOf(it.leg), it.ev);
    if plan.now.Some? {
      ServeRests(env, s, it.leg, plan.now.value, it.first);
    }
    var s1 := FirstHalf(env, s, it);
    if it.ok && plan.later.Some? && (plan.now.None? || plan.now.value == s1.c.Leg(it.leg)) {
      assert s1.c.Leg(it.leg) == InCall ==> plan.now.None?;
      ServeRests(env, s1, it.leg, plan.later.value, it.second);
    }
  }

  /** Caller progress, over every sequential run with arbitrary transport failures: between
      two messages the pair is settled, so a CALLING or RINGING leg never waits beside a leg
      that could be connected or rung, and media is up exactly in a bridged full call. */
  lemma {:induction false} SequentialRunsRest(env: Env, s: Poly, items: seq<Item>)
    requires Rested(s) && NeverCut(env, s, items)
    requires forall it :: it in items ==> TameItem(it)
    ensures Rested(DeliverAll(env, s, items))
    decreases items
  {
    hide Rested, Deliver, FirstHalf, TameItem;
    if items != [] {
      assert items[0] in items && forall it :: it in items[1..] ==> it in items;
      DeliverRests(env, s, items[0]);
      SequentialRunsRest(env, Deliver(env, s, items[0]), items[1..]);
    }
  }

  // ---- Runs that cannot be cut ------------------------------------------------

  /** The only outside changes are second halves of cancels and rejects, and no operation
      loses its data channel. */
  ghost predicate CalmScript(script: Script) {
    Tame(script) && LossFreeScript(script)
  }

  lemma CalmServeUncut(env: Env, s: Poly, r: Ref, t: LegState, script: Script)
    requires !s.capped && CalmScript(script)
    ensures !Serve(env, s, r, t, script).capped
  {
    hide Drain, EndsMasked;
    LandingDrainsConverge(env, Move(s.c, r, t), script);
  }

  /** Without lost data channels no sequential run is ever cut, whatever else fails. */
  lemma {:induction false} CalmRunsNeverCut(env: Env, s: Poly, items: seq<Item>)
    requires !s.capped
    requires forall it :: it in items ==> CalmScript(it.first) && CalmScript(it.second)
    ensures NeverCut(env, s, items)
    decreases items
  {
    hide Serve, CalmScript;
    if items != [] {
      var it := items[0];
      assert it in items && forall x :: x in items[1..] ==> x in items;
      var plan, s1 := PlanOf(env, s, it), FirstHalf(env, s, it);
      if plan.now.Some? {
        CalmServeUncut(env, s, it.leg, plan.now.value, it.first);
      }
      if plan.later.Some? {
        CalmServeUncut(env, s1, it.leg, plan.later.value, it.second);
      }
      CalmRunsNeverCut(env, Deliver(env, s, it), items[1..]);
    }
  }

  /** So nothing but the transports is assumed: over every sequential run that loses no data
      channel the pair rests, settled, between any two messages. */
  lemma CalmRunsRest(env: Env, s: Poly, items: seq<Item>)
    requires Rested(s)
    requires forall it :: it in items ==> CalmScript(it.first) && CalmScript(it.second)
    ensures Rested(DeliverAll(env, s, items))
  {
    hide Rested, DeliverAll, NeverCut, LossFreeScript, Tame;
    assert !s.capped by { RestedIsUncut(s); }
    CalmRunsNeverCut(env, s, items);
    SequentialRunsRest(env, s, items);
  }

  lemma RestedIsUncut(s: Poly)
    requires Rested(s)
    ensures !s.capped
  {
  }
}
