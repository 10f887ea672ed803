/** When a drain settles the pair, whatever else lands while it runs: only a client's offer
    that lands in a pass that connects media can make it stop short. */
module Offers {
  import opened LegStates
  import opened ReconcileRules
  import opened CallModel
  import opened Convergence
  import opened DrainExit
  import opened Stalls
  import opened CallRuns
  import opened Ingress

  /** No change makes its leg a caller. */
  predicate OfferFree(chs: seq<Change>) {
    forall ch :: ch in chs && ch.SetTo? ==> !IsCaller(ch.to)
  }

  ghost predicate OfferFreeExec(e: Exec) {
    OfferFree(e.after) && forall k :: OfferFree(e.waits(k).during)
  }

  ghost predicate OfferFreeList(acts: seq<Action>, script: Script, p: nat) {
    forall act :: act in acts ==> OfferFreeExec(script(p, act))
  }

  /** If this pass connects media, no offer lands while it runs. */
  ghost predicate BridgeUndisturbed(c: Cfg, script: Script, p: nat) {
    var acts := Reconcile(c.Snap(), c.last);
    Media(Bridge) in acts ==> OfferFreeList(acts, script, p)
  }

  /** No pass of the drain that connects media meets an offer. */
  ghost predicate BridgesUndisturbed(env: Env, c: Cfg, script: Script, done: nat)
    requires done <= MAX_PASSES
    decreases MAX_PASSES - done
  {
    c.dirty && done < MAX_PASSES ==>
      var c0 := c.(dirty := false);
      BridgeUndisturbed(c0, script, done) && BridgesUndisturbed(env, Pass(env, c0, script, done), script, done + 1)
  }

  /** Nobody is calling while the handle is held. */
  predicate CallersUnheld(c: Cfg) {
    c.media ==> !IsCaller(c.a) && !IsCaller(c.b)
  }

  // ---- A leg that is no caller stays none -----------------------------------------------

  lemma {:induction false} StaysNoCaller(c: Cfg, chs: seq<Change>, r: Ref)
    requires OfferFree(chs) && !IsCaller(c.Leg(r))
    ensures !IsCaller(Interfere(c, chs).Leg(r))
    decreases chs
  {
    if chs != [] {
      assert chs[0] in chs && forall ch :: ch in chs[1..] ==> ch in chs;
      StaysNoCaller(Move(c, chs[0].leg, Target(c.Leg(chs[0].leg), chs[0])), chs[1..], r);
    }
  }

  /** The actions of a pass that connects media. */
  predicate Follows(act: Action) {
    act == Media(Bridge) || (act.Do? && act.intent in {AckConnected, AckRing, Answer})
  }

  lemma FollowMakesNoCaller(env: Env, c: Cfg, act: Action, e: Exec, r: Ref)
    requires OfferFreeExec(e) && Follows(act)
    requires !IsCaller(c.Leg(r)) || (act.Do? && act.intent == Answer && act.leg == r)
    ensures !IsCaller(Execute(env, c, act, e).Leg(r))
  {
    hide OfferFree;
    var during := e.waits(0).during;
    if act.Media? {
      StaysNoCaller(c, during, r);
      StaysNoCaller(RunMedia(c, Bridge, e), e.after, r);
    } else {
      var c0 := c.(issued := c.issued + [Issue(act.leg, act.intent, IsLegal(c.Leg(act.leg), act.intent))]);
      if act.intent == Answer {
        StaysNoCaller(Move(c0, act.leg, Answering), during, r);
      } else {
        StaysNoCaller(c0, during, r);
      }
      StaysNoCaller(RunIntent(env, c, act.leg, act.intent, e), e.after, r);
    }
  }

  lemma {:induction false} FollowersMakeNoCaller(env: Env, c: Cfg, acts: seq<Action>, script: Script, p: nat, r: Ref)
    requires OfferFreeList(acts, script, p) && !IsCaller(c.Leg(r))
    requires forall act :: act in acts ==> Follows(act)
    ensures !IsCaller(ExecAll(env, c, acts, script, p).Leg(r))
    decreases acts
  {
    hide OfferFreeExec, Execute, IsCaller;
    if acts != [] {
      assert acts[0] in acts && forall act :: act in acts[1..] ==> act in acts;
      FollowMakesNoCaller(env, c, acts[0], script(p, acts[0]), r);
      FollowersMakeNoCaller(env, Execute(env, c, acts[0], script(p, acts[0])), acts[1..], script, p, r);
    }
  }

  lemma AcksFollow(s: Snapshot, last: Option<LegState>)
    ensures forall act :: act in Acks(s, last) + RingAcks(s, last) ==> Follows(act)
  {
  }

  /** Acknowledgements, the answer that completes the call, the bridge: whatever else lands
      in between, neither leg is a caller afterwards. */
  lemma PickupLeavesNoCaller(env: Env, c: Cfg, r: Ref, pre: seq<Action>, script: Script, p: nat)
    requires c.Leg(r.Peer()) == InCall
    requires forall act :: act in pre ==> Follows(act)
    requires OfferFreeList(pre + [Do(r, Answer, From(r.Peer())), Media(Bridge)], script, p)
    ensures var x := ExecAll(env, c, pre + [Do(r, Answer, From(r.Peer())), Media(Bridge)], script, p);
      !IsCaller(x.a) && !IsCaller(x.b)
  {
    hide Execute, OfferFreeExec;
    var ans, tail := Do(r, Answer, From(r.Peer())), [Do(r, Answer, From(r.Peer())), Media(Bridge)];
    assert forall act :: act in pre || act in tail ==> act in pre + tail;
    assert ans in tail && Media(Bridge) in tail;
    ListsCompose(env, c, pre, tail, script, p);
    var c1 := ExecAll(env, c, pre, script, p);
    FollowersMakeNoCaller(env, c, pre, script, p, r.Peer());
    TwoActions(env, c1, ans, Media(Bridge), script, p);
    var c2 := Execute(env, c1, ans, script(p, ans));
    FollowMakesNoCaller(env, c1, ans, script(p, ans), r);
    FollowMakesNoCaller(env, c1, ans, script(p, ans), r.Peer());
    FollowMakesNoCaller(env, c2, Media(Bridge), script(p, Media(Bridge)), r);
    FollowMakesNoCaller(env, c2, Media(Bridge), script(p, Media(Bridge)), r.Peer());
    assert A.Peer() == B && B.Peer() == A;
  }

  // ---- Passes and drains -------------------------------------------------------------------

  lemma RecoverMakesNoCaller(x: Cfg)
    requires x.media ==> !IsCaller(x.a) && !IsCaller(x.b)
    ensures CallersUnheld(Recover(x))
  {
    RecoverLands(x);
  }

  /** A pass that holds media afterwards has no caller: it found a full call, or it connected
      media and met no offer, or it had none to begin with. */
  lemma PassLeavesNoHeldCaller(env: Env, c: Cfg, script: Script, p: nat)
    requires BridgeUndisturbed(c, script, p)
    ensures CallersUnheld(Pass(env, c, script, p))
  {
    hide Reconcile, Acks, RingAcks, Execute, OfferFreeExec, Recover;
    var s, acts := c.Snap(), Reconcile(c.Snap(), c.last);
    if c.BothInCall() {
      FullCallBridges(s, c.last);
      assert forall act :: act in acts ==> act == Media(Bridge);
      FollowersMakeNoCaller(env, c, acts, script, p, A);
      FollowersMakeNoCaller(env, c, acts, script, p, B);
    } else if Media(Bridge) in acts {
      var r := BridgeBehindAnswer(s, c.last);
      AcksFollow(s, c.last);
      PickupLeavesNoCaller(env, c, r, Acks(s, c.last) + RingAcks(s, c.last), script, p);
    } else {
      if c.media { MaskedReleases(s, c.last); }
      OnlyBridgeBridges(env, c, acts, script, p);
    }
    RecoverMakesNoCaller(ExecAll(env, c, acts, script, p));
  }

  lemma UnheldIsNotStuck(c: Cfg)
    requires CallersUnheld(c)
    ensures !Stuck(c)
  {
  }

  /** For every script: a drain that is not cut settles the pair unless it started stuck or an
      offer landed in one of its passes that connect media. Hang-ups, drops, pickups, cancels
      and rejects may land anywhere, offers in every other pass. */
  lemma {:induction false} DrainSettles(env: Env, c: Cfg, script: Script, done: nat)
    requires c.dirty && done <= MAX_PASSES && !Stuck(c) && BridgesUndisturbed(env, c, script, done)
    ensures var r := Drain(env, c, script, done);
      !r.capped ==> Quiet(r.c) && Shape(r.c.a, r.c.b)
    decreases MAX_PASSES - done
  {
    hide Pass, WeakShape, Shape, BridgeUndisturbed, Stuck;
    if done < MAX_PASSES {
      var c0 := c.(dirty := false);
      var d := Pass(env, c0, script, done);
      if d.dirty {
        PassLeavesNoHeldCaller(env, c0, script, done);
        UnheldIsNotStuck(d);
        DrainSettles(env, d, script, done + 1);
      } else {
        CleanPassQuiet(env, c0, script, done);
        MaskedIsStuck(c0, c, d);
      }
    }
  }

  /** A clean pass that only released media and left the pair unsettled began stuck. */
  lemma MaskedIsStuck(c0: Cfg, c: Cfg, d: Cfg)
    requires c0 == c.(dirty := false) && d.a == c0.a && d.b == c0.b && WeakShape(d.a, d.b)
    requires Masked(c0) || Shape(d.a, d.b)
    ensures Shape(d.a, d.b) || Stuck(c)
  {
    hide WeakShape, Shape;
  }

  /** Cut or not, such a drain leaves no caller beside held media. */
  lemma {:induction false} DrainLeavesNoHeldCaller(env: Env, c: Cfg, script: Script, done: nat)
    requires done <= MAX_PASSES && CallersUnheld(c) && BridgesUndisturbed(env, c, script, done)
    ensures CallersUnheld(Drain(env, c, script, done).c)
    decreases MAX_PASSES - done
  {
    hide Pass, BridgeUndisturbed;
    if c.dirty && done < MAX_PASSES {
      PassLeavesNoHeldCaller(env, c.(dirty := false), script, done);
      DrainLeavesNoHeldCaller(env, Pass(env, c.(dirty := false), script, done), script, done + 1);
    }
  }

  // ---- Whole runs ------------------------------------------------------------------------------

  /** A step delivers no offer while media is held or being connected. */
  ghost predicate OfferFreeStep(env: Env, s: Poly, step: Step) {
    match step
    case Client(_, to) => IsCaller(to) ==> !s.c.media
    case Settle => true
    case RunDrain(script, hook) =>
      s.queued > 0 ==>
        && BridgesUndisturbed(env, s.c, script, 0)
        && (Drain(env, s.c, script, 0).c.media ==> OfferFree(hook))
  }

  ghost predicate OfferFreeRun(env: Env, steps: seq<Step>) {
    steps == [] ||
    (&& OfferFreeRun(env, steps[..|steps| - 1])
     && OfferFreeStep(env, Runs(env, steps[..|steps| - 1]), steps[|steps| - 1]))
  }

  /** No caller beside held media, and settled whenever no change is pending after a drain that
      was not cut. */
  predicate Settled(s: Poly) {
    CallersUnheld(s.c) && (!s.c.dirty && !s.capped ==> Quiet(s.c) && Shape(s.c.a, s.c.b))
  }

  lemma HookLeavesNoHeldCaller(c: Cfg, hook: seq<Change>)
    requires CallersUnheld(c) && (c.media ==> OfferFree(hook))
    ensures CallersUnheld(Interfere(c, hook))
  {
    if c.media {
      StaysNoCaller(c, hook, A);
      StaysNoCaller(c, hook, B);
    }
  }

  lemma StepKeepsSettled(env: Env, s: Poly, step: Step)
    requires Settled(s) && OfferFreeStep(env, s, step)
    ensures Settled(Apply(env, s, step))
  {
    if step.RunDrain? && s.queued > 0 {
      hide Drain, Shape, Quiet, BridgesUndisturbed, EndsMasked, Stuck, OfferFree;
      UnheldIsNotStuck(s.c);
      DrainLeavesNoHeldCaller(env, s.c, step.script, 0);
      var r := Drain(env, s.c, step.script, 0);
      HookLeavesNoHeldCaller(r.c, step.hook);
      if s.c.dirty {
        DrainSettles(env, s.c, step.script, 0);
      } else {
        CleanDrain(env, s.c, step.script);
      }
      if !Interfere(r.c, step.hook).dirty { CleanAfterHook(r.c, step.hook); }
    }
  }

  lemma CleanDrain(env: Env, c: Cfg, script: Script)
    requires !c.dirty
    ensures Drain(env, c, script, 0).c == c
  {
  }

  lemma CleanAfterHook(c: Cfg, hook: seq<Change>)
    requires !Interfere(c, hook).dirty
    ensures Quiet(c) && Shape(c.a, c.b) ==>
      Quiet(Interfere(c, hook)) && Shape(Interfere(c, hook).a, Interfere(c, hook).b)
  {
    hide WeakShape, Shape;
  }

  /** Over every run: a pair that is clean after an uncut drain and still unsettled has had an
      offer land in a pass that connected media, in a hook with media held, or between two
      queued drains with media held. */
  lemma {:induction false} OfferFreeRunsSettle(env: Env, steps: seq<Step>)
    requires OfferFreeRun(env, steps)
    ensures Settled(Runs(env, steps))
    decreases steps
  {
    if steps != [] {
      hide Settled, OfferFreeStep;
      var front := steps[..|steps| - 1];
      OfferFreeRunsSettle(env, front);
      StepKeepsSettled(env, Runs(env, front), steps[|steps| - 1]);
    } else {
      FreshIsSettled();
    }
  }

  lemma FreshIsSettled()
    ensures Settled(Fresh)
  {
  }

  /** A message that reaches a pair at rest is no such offer: media is then held by a full call
      only, and no message turns a leg that is in a call into a caller at once. */
  lemma MessagesAtRestAreFree(env: Env, s: Poly, r: Ref, ev: ClientEvent)
    requires Quiet(s.c)
    ensures var plan := Handle(env.KindOf(r), s.c.Leg(r), ev);
      && (plan.now.Some? ==> OfferFreeStep(env, s, Client(r, plan.now.value)))
      && (plan.now.None? && plan.later.Some? ==> OfferFreeStep(env, s, Client(r, plan.later.value)))
  {
  }
}
