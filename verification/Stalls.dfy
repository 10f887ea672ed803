/** When a drain stops short. A pass that starts by holding media outside a full call
    releases the handle and does nothing else, so a step of progress waiting behind it is
    lost: the drain ends clean with the pair unsettled (ReconcileRules.js lines 41-77). */
module Stalls {
  import opened LegStates
  import opened ReconcileRules
  import opened CallModel
  import opened Convergence
  import opened DrainExit

  /** The only outside changes are the second halves of a cancel or a reject that is
      already under way. */
  predicate TameChanges(chs: seq<Change>) {
    forall ch :: ch in chs ==> ch.Finish?
  }

  ghost predicate Tame(script: Script) {
    forall p, act :: TameExec(script(p, act))
  }

  ghost predicate TameExec(e: Exec) {
    TameChanges(e.after) && forall k :: TameChanges(e.waits(k).during)
  }

  predicate InTransit(s: LegState) {
    s == Canceling || s == Rejecting
  }

  /** Handle held, teardown done, progress pending. */
  predicate Stuck(c: Cfg) {
    c.media && WeakShape(c.a, c.b) && !Shape(c.a, c.b)
  }

  /** Where media may be held in a sequential run: a full call, or a call whose other leg
      is gone, which the next pass will end. */
  predicate Bridged(a: LegState, b: LegState) {
    (a == InCall && (b == InCall || !CallViable(b))) || (b == InCall && !CallViable(a))
  }

  lemma {:induction false} TameLegStays(c: Cfg, chs: seq<Change>, r: Ref)
    requires TameChanges(chs) && !InTransit(c.Leg(r))
    ensures Interfere(c, chs).Leg(r) == c.Leg(r)
    ensures !InTransit(c.Leg(r.Peer())) ==> Interfere(c, chs) == c
    decreases chs
  {
    if chs != [] {
      assert chs[0] in chs;
      var c1 := Move(c, chs[0].leg, Target(c.Leg(chs[0].leg), chs[0]));
      assert forall ch :: ch in chs[1..] ==> ch in chs;
      TameLegStays(c1, chs[1..], r);
    }
  }

  lemma {:induction false} TameInvite(env: Env, c: Cfg, r: Ref, e: Exec, attempt: nat)
    requires TameExec(e) && !InTransit(c.Leg(r.Peer()))
    ensures Invite(env, c, r, e, attempt).c.Leg(r.Peer()) == c.Leg(r.Peer())
    decreases env.retries - attempt
  {
    var w := e.waits(attempt);
    TameLegStays(c, w.during, r.Peer());
    if w.outcome == Pc2Down && attempt < env.retries {
      var c1 := Interfere(c, w.during);
      TameInvite(env, if c1.Leg(r) == Ringing then Move(Move(c1, r, Disconnected), r, Ringing) else c1,
                 r, e, attempt + 1);
    }
  }

  lemma TameReach(env: Env, c: Cfg, r: Ref, e: Exec)
    requires TameExec(e) && !InTransit(c.Leg(r.Peer()))
    ensures ConnectLeg(env, c, r, e).c.Leg(r.Peer()) == c.Leg(r.Peer())
    ensures RingLeg(env, c, r, e).c.Leg(r.Peer()) == c.Leg(r.Peer())
  {
    if env.KindOf(r) == Sip {
      TameInvite(env, Move(c, r, Ringing), r, e, 0);
    } else {
      TameLegStays(Move(c, r, Connecting), e.waits(0).during, r.Peer());
      TameLegStays(Move(c, r, Ringing), e.waits(0).during, r.Peer());
    }
  }

  lemma TameEnds(c: Cfg, r: Ref, e: Exec)
    requires TameExec(e) && !InTransit(c.Leg(r.Peer()))
    ensures EndLeg(c, r, e).c.Leg(r.Peer()) == c.Leg(r.Peer())
    ensures AckEndLeg(c, r, e).c.Leg(r.Peer()) == c.Leg(r.Peer())
  {
    TameLegStays(c, e.waits(0).during, r.Peer());
    TameLegStays(Move(c, r, Ending), e.waits(0).during, r.Peer());
  }

  lemma TameDrops(c: Cfg, r: Ref, via: LegState, to: LegState, e: Exec)
    requires TameExec(e) && !InTransit(c.Leg(r.Peer()))
    ensures DropLeg(c, r, via, to, e).c.Leg(r.Peer()) == c.Leg(r.Peer())
    ensures AnswerLeg(c, r, e).c.Leg(r.Peer()) == c.Leg(r.Peer())
    ensures TellLeg(c, e).c.Leg(r.Peer()) == c.Leg(r.Peer())
  {
    hide TameChanges;
    TameLegStays(c, e.waits(0).during, r.Peer());
    TameLegStays(Move(c, r, via), e.waits(0).during, r.Peer());
    TameLegStays(Move(c, r, Answering), e.waits(0).during, r.Peer());
  }

  /** An intent on one leg leaves a settled peer alone. */
  lemma TameIntent(env: Env, c: Cfg, r: Ref, i: Intent, e: Exec)
    requires TameExec(e) && !InTransit(c.Leg(r.Peer()))
    ensures LegIntent(env, c, r, i, e).c.Leg(r.Peer()) == c.Leg(r.Peer())
  {
    TameReach(env, c, r, e);
    TameEnds(c, r, e);
    TameDrops(c, r, Canceling, Canceled, e);
    TameDrops(c, r, Rejecting, Rejected, e);
  }

  predicate Spares(act: Action, r: Ref) {
    act.Do? ==> act.leg != r
  }

  lemma TameStep(env: Env, c: Cfg, act: Action, e: Exec, r: Ref)
    requires TameExec(e) && !InTransit(c.Leg(r)) && Spares(act, r)
    ensures Execute(env, c, act, e).Leg(r) == c.Leg(r)
  {
    if act.Do? {
      assert act.leg.Peer() == r && r.Peer() == act.leg;
      var c0 := c.(issued := c.issued + [Issue(act.leg, act.intent, IsLegal(c.Leg(act.leg), act.intent))]);
      TameIntent(env, c0, act.leg, act.intent, e);
      TameLegStays(RunIntent(env, c, act.leg, act.intent, e), e.after, r);
    } else {
      TameLegStays(c, e.waits(0).during, r);
      TameLegStays(c.(media := false, downs := c.downs + 1), e.waits(0).during, r);
      TameLegStays(RunMedia(c, act.op, e), e.after, r);
    }
  }

  lemma {:induction false} TameList(env: Env, c: Cfg, acts: seq<Action>, script: Script, p: nat, r: Ref)
    requires Tame(script) && !InTransit(c.Leg(r))
    requires forall act :: act in acts ==> Spares(act, r)
    ensures ExecAll(env, c, acts, script, p).Leg(r) == c.Leg(r)
    decreases acts
  {
    if acts != [] {
      assert acts[0] in acts;
      TameStep(env, c, acts[0], script(p, acts[0]), r);
      TameList(env, Execute(env, c, acts[0], script(p, acts[0])), acts[1..], script, p, r);
    }
  }

  /** Whatever the answer met, its leg is in the call or lost to it. */
  lemma AnswerSettles(env: Env, c: Cfg, r: Ref, src: Source, e: Exec)
    requires TameExec(e)
    ensures var t := Execute(env, c, Do(r, Answer, src), e).Leg(r);
      t == InCall || t == Failed || t == Disconnected
  {
    var c0 := c.(issued := c.issued + [Issue(r, Answer, IsLegal(c.Leg(r), Answer))]);
    TameLegStays(Move(c0, r, Answering), e.waits(0).during, r);
    TameLegStays(RunIntent(env, c, r, Answer, e), e.after, r);
  }

  /** After a pass of a sequential run a held handle belongs to a bridged pair. */
  lemma TamePassBridged(env: Env, c: Cfg, script: Script, p: nat)
    requires Tame(script)
    ensures var d := Pass(env, c, script, p);
      d.media ==> Bridged(d.a, d.b)
  {
    hide Reconcile, Acks, RingAcks, Execute, Tame;
    var s, acts := c.Snap(), Reconcile(c.Snap(), c.last);
    if c.BothInCall() {
      FullCallBridges(s, c.last);
      TameList(env, c, acts, script, p, A);
      TameList(env, c, acts, script, p, B);
    } else if Media(Bridge) in acts {
      var r := BridgeBehindAnswer(s, c.last);
      AcksSpareInCall(s, c.last, r.Peer());
      PickupBridged(env, c, r, Acks(s, c.last) + RingAcks(s, c.last), script, p);
    } else {
      if c.media {
        MaskedReleases(s, c.last);
      }
      OnlyBridgeBridges(env, c, acts, script, p);
    }
  }

  lemma AcksSpareInCall(s: Snapshot, last: Option<LegState>, r: Ref)
    requires s.Leg(r) == InCall
    ensures forall act :: act in Acks(s, last) + RingAcks(s, last) ==> Spares(act, r)
  {
  }

  predicate Lost(t: LegState) {
    t == InCall || t == Failed || t == Disconnected
  }

  lemma AnswerThenBridge(env: Env, c: Cfg, r: Ref, e1: Exec, e2: Exec)
    requires TameExec(e1) && TameExec(e2) && c.Leg(r.Peer()) == InCall
    ensures var d := Execute(env, Execute(env, c, Do(r, Answer, From(r.Peer())), e1), Media(Bridge), e2);
      Lost(d.Leg(r)) && d.Leg(r.Peer()) == InCall
  {
    var ans := Do(r, Answer, From(r.Peer()));
    var c2 := Execute(env, c, ans, e1);
    AnswerSettles(env, c, r, From(r.Peer()), e1);
    TameStep(env, c, ans, e1, r.Peer());
    TameStep(env, c2, Media(Bridge), e2, r);
    TameStep(env, c2, Media(Bridge), e2, r.Peer());
  }

  lemma LostIsBridged(c: Cfg, r: Ref)
    requires Lost(c.Leg(r)) && c.Leg(r.Peer()) == InCall
    ensures Bridged(c.a, c.b) && !Collapses(c.a, c.b) && !Collapses(c.b, c.a)
  {
    assert A.Peer() == B && B.Peer() == A;
  }

  lemma SingleAction(env: Env, c: Cfg, x: Action, script: Script, p: nat)
    ensures ExecAll(env, c, [x], script, p) == Execute(env, c, x, script(p, x))
  {
    var rest := [x][1..];
    assert rest == [];
    var d := Execute(env, c, x, script(p, x));
    assert ExecAll(env, d, rest, script, p) == d;
  }

  lemma TwoActions(env: Env, c: Cfg, x: Action, y: Action, script: Script, p: nat)
    ensures ExecAll(env, c, [x, y], script, p) ==
      Execute(env, Execute(env, c, x, script(p, x)), y, script(p, y))
  {
    ListsCompose(env, c, [x], [y], script, p);
    assert [x] + [y] == [x, y];
    SingleAction(env, c, x, script, p);
    SingleAction(env, Execute(env, c, x, script(p, x)), y, script, p);
  }

  lemma PickupBridged(env: Env, c: Cfg, r: Ref, pre: seq<Action>, script: Script, p: nat)
    requires Tame(script) && c.Leg(r.Peer()) == InCall
    requires forall act :: act in pre ==> Spares(act, r.Peer())
    ensures var x := ExecAll(env, c, pre + [Do(r, Answer, From(r.Peer())), Media(Bridge)], script, p);
      Bridged(x.a, x.b) && !Collapses(x.a, x.b) && !Collapses(x.b, x.a)
  {
    var ans := Do(r, Answer, From(r.Peer()));
    ListsCompose(env, c, pre, [ans, Media(Bridge)], script, p);
    var c1 := ExecAll(env, c, pre, script, p);
    TameList(env, c, pre, script, p, r.Peer());
    TwoActions(env, c1, ans, Media(Bridge), script, p);
    AnswerThenBridge(env, c1, r, script(p, ans), script(p, Media(Bridge)));
    LostIsBridged(ExecAll(env, c1, [ans, Media(Bridge)], script, p), r);
  }

  // ---- The exact condition ---------------------------------------------------

  /** A drain that starts stuck ends where it started, the pending step not taken. */
  lemma StuckStalls(env: Env, c: Cfg, script: Script, done: nat)
    requires c.dirty && done < MAX_PASSES && TameExec(script(done, Media(Unbridge))) && Stuck(c)
    ensures var r := Drain(env, c, script, done);
      && !r.capped && r.passes == done + 1
      && r.c.a == c.a && r.c.b == c.b && !r.c.media && !Shape(r.c.a, r.c.b)
  {
    var c0 := c.(dirty := false);
    StuckList(c0.Snap(), c0.last);
    assert [Media(Unbridge)] == When(true, Media(Unbridge));
    var d := ExecAll(env, c0, [Media(Unbridge)], script, done);
    assert [Media(Unbridge)][1..] == [];
    var e := script(done, Media(Unbridge));
    TameLegStays(c0.(media := false, downs := c0.downs + 1), e.waits(0).during, A);
    TameLegStays(RunMedia(c0, Unbridge, e), e.after, A);
  }

  lemma StuckList(s: Snapshot, last: Option<LegState>)
    requires s.media && WeakShape(s.a, s.b) && !Shape(s.a, s.b)
    ensures Reconcile(s, last) == [Media(Unbridge)]
    ensures !InTransit(s.a) && !InTransit(s.b)
    ensures !Collapses(s.a, s.b) && !Collapses(s.b, s.a)
  {
    EndsAsOptions(s);
    assert !MustEnd(s, A) && !MustEnd(s, B);
  }

  lemma BridgedIsNotStuck(a: LegState, b: LegState)
    requires Bridged(a, b) && WeakShape(a, b)
    ensures Shape(a, b)
  {
  }

  lemma {:induction false} UnstuckSettles(env: Env, c: Cfg, script: Script, done: nat)
    requires c.dirty && done <= MAX_PASSES && Tame(script) && !Stuck(c)
    ensures var r := Drain(env, c, script, done);
      !r.capped ==> Quiet(r.c) && Shape(r.c.a, r.c.b)
    decreases MAX_PASSES - done
  {
    hide Pass, WeakShape, Shape;
    if done < MAX_PASSES {
      var c0 := c.(dirty := false);
      var d := Pass(env, c0, script, done);
      if d.dirty {
        TamePassBridged(env, c0, script, done);
        if Stuck(d) {
          BridgedIsNotStuck(d.a, d.b);
        }
        UnstuckSettles(env, d, script, done + 1);
      } else {
        CleanPassQuiet(env, c0, script, done);
      }
    }
  }

  /** Without outside interference a drain that is not cut off settles the pair exactly
      when it did not start stuck. */
  lemma SettlesExactly(env: Env, c: Cfg, script: Script)
    requires c.dirty && Tame(script) && !Drain(env, c, script, 0).capped
    ensures var r := Drain(env, c, script, 0);
      Shape(r.c.a, r.c.b) <==> !Stuck(c)
  {
    if Stuck(c) {
      StuckStalls(env, c, script, 0);
    } else {
      UnstuckSettles(env, c, script, 0);
    }
  }
}
