/** Runs that show the hypotheses of the drain theorems are needed. */
module Witnesses {
  import opened LegStates
  import opened ReconcileRules
  import opened CallModel
  import opened DrainExit
  import opened Convergence
  import opened Stalls
  import opened CallRuns
  import opened Disposals
  import opened Ingress
  import opened Legality

  const Web := Env(WebRtc, WebRtc, 0)

  function Plain(o: Outcome): Exec {
    Exec(k => Wait([], o), [])
  }

  // ---- A data channel that is always lost ------------------------------------

  /** Every transport operation succeeds, except that each RING finds no open channel. */
  function Lossy(): Script {
    (p: nat, act: Action) => Plain(if act.Do? && act.intent == Ring then NoOpenDc else Ok)
  }

  predicate Redialling(c: Cfg) {
    c.a == Calling && (c.b == Disconnected || c.b == Connected) && !c.media
  }

  lemma LossyAcks(c: Cfg, s: Snapshot, last: Option<LegState>, p: nat)
    requires s == c.Snap() && Redialling(c) && !c.dirty
    ensures var d := ExecAll(Web, c, Acks(s, last), Lossy(), p);
      d.a == c.a && d.b == c.b && !d.media
  {
    if last == Some(Calling) {
      assert Acks(s, last) == [Do(A, AckConnected, Own)];
      SingleAction(Web, c, Do(A, AckConnected, Own), Lossy(), p);
    } else {
      assert Acks(s, last) == [];
    }
  }

  function NextReach(b: LegState): Action {
    if b == Disconnected then Do(B, Connect, From(A)) else Do(B, Ring, From(A))
  }

  lemma LossyList(s: Snapshot, last: Option<LegState>)
    requires s.a == Calling && (s.b == Disconnected || s.b == Connected) && !s.media
    ensures Reconcile(s, last) == Acks(s, last) + [NextReach(s.b)]
  {
    assert ToEnd(s) == [];
    assert Teardown(s) == [] && RingAcks(s, last) == [];
  }

  lemma LossyReach(c: Cfg, p: nat)
    requires Redialling(c)
    ensures var act := NextReach(c.b);
      var d := Execute(Web, c, act, Lossy()(p, act));
      d.dirty && Redialling(d)
  {
  }

  lemma LossyPass(c: Cfg, p: nat)
    requires Redialling(c) && !c.dirty
    ensures var d := Pass(Web, c, Lossy(), p);
      d.dirty && Redialling(d)
  {
    hide Reconcile, Acks, Execute, Lossy;
    var s := c.Snap();
    LossyList(s, c.last);
    ListsCompose(Web, c, Acks(s, c.last), [NextReach(c.b)], Lossy(), p);
    LossyAcks(c, s, c.last, p);
    var c1 := ExecAll(Web, c, Acks(s, c.last), Lossy(), p);
    SingleAction(Web, c1, NextReach(c.b), Lossy(), p);
    LossyReach(c1, p);
  }

  /** CONNECT, lost RING, CONNECT, lost RING, ...: the drain runs into its cap. */
  lemma {:induction false} LostChannelReachesCap(c: Cfg, done: nat)
    requires c.dirty && Redialling(c) && done <= MAX_PASSES
    ensures Drain(Web, c, Lossy(), done).capped
    decreases MAX_PASSES - done
  {
    hide Pass, Lossy;
    if done < MAX_PASSES {
      var c0 := c.(dirty := false);
      LossyPass(c0, done);
      LostChannelReachesCap(Pass(Web, c0, Lossy(), done), done + 1);
    }
  }

  // ---- A hang-up and a redial while the bridge is being built -----------------

  /** While the bridge is awaited, leg B's client hangs up and calls again. */
  function HangUpAndRedial(): Script {
    (p: nat, act: Action) =>
      if p == 0 && act == Media(Bridge)
      then Exec(k => Wait([SetTo(B, EndRequested), SetTo(B, Calling)], Ok), [])
      else Plain(Ok)
  }

  lemma RedialScript()
    ensures var sc := HangUpAndRedial();
      && sc(0, Do(A, Answer, From(B))) == Plain(Ok) && sc(1, Media(Unbridge)) == Plain(Ok)
      && sc(0, Media(Bridge)).waits(0) == Wait([SetTo(B, EndRequested), SetTo(B, Calling)], Ok)
      && sc(0, Media(Bridge)).after == []
    ensures TameExec(Plain(Ok))
  {
  }

  /** The callee has just picked up. */
  predicate PickedUp(c: Cfg) {
    c.a == Calling && c.b == InCall && !c.media && c.last == Some(InCall)
  }

  lemma PickupList(c: Cfg)
    requires PickedUp(c)
    ensures Reconcile(c.Snap(), c.last) == [Do(A, Answer, From(B)), Media(Bridge)]
  {
    assert ToEnd(c.Snap()) == [];
    assert Teardown(c.Snap()) == [];
  }

  lemma Answered(c: Cfg)
    requires c.a == Calling
    ensures var d := Execute(Web, c, Do(A, Answer, From(B)), Plain(Ok));
      d.a == InCall && d.b == c.b && d.media == c.media && d.dirty
  {
  }

  lemma BridgedUnderRedial(c: Cfg, e: Exec)
    requires e.waits(0) == Wait([SetTo(B, EndRequested), SetTo(B, Calling)], Ok) && e.after == []
    requires c.a == InCall && c.b == InCall && !c.media
    ensures var d := Execute(Web, c, Media(Bridge), e);
      d.a == InCall && d.b == Calling && d.media && d.dirty
  {
    var chs := [SetTo(B, EndRequested), SetTo(B, Calling)];
    assert chs[1..] == [SetTo(B, Calling)] && chs[1..][1..] == [];
    assert Interfere(c, chs) == Move(Move(c, B, EndRequested), B, Calling);
  }

  lemma PickupPass(c: Cfg)
    requires PickedUp(c) && !c.dirty
    ensures var d := Pass(Web, c, HangUpAndRedial(), 0);
      d.a == InCall && d.b == Calling && d.media && d.dirty
  {
    hide Execute, Reconcile, HangUpAndRedial, Plain;
    PickupList(c);
    RedialScript();
    var ans := Do(A, Answer, From(B));
    TwoActions(Web, c, ans, Media(Bridge), HangUpAndRedial(), 0);
    Answered(c);
    BridgedUnderRedial(Execute(Web, c, ans, Plain(Ok)), HangUpAndRedial()(0, Media(Bridge)));
  }

  /** Two ordinary client messages on one leg, landing while media is being bridged, leave
      the pair clean with one leg in a call and the other calling it. */
  lemma PickupCanStall(c: Cfg)
    requires PickedUp(c) && c.dirty
    ensures Handle(WebRtc, InCall, EndSignal(false)).now == Some(EndRequested)
    ensures Handle(WebRtc, EndRequested, Offer).later == Some(Calling)
    ensures var r := Drain(Web, c, HangUpAndRedial(), 0);
      !r.capped && !r.c.dirty && r.c.a == InCall && r.c.b == Calling && !Shape(r.c.a, r.c.b)
  {
    hide Pass, HangUpAndRedial, Plain;
    PickupPass(c.(dirty := false));
    RedialScript();
    StuckStalls(Web, Pass(Web, c.(dirty := false), HangUpAndRedial(), 0), HangUpAndRedial(), 1);
  }

  // ---- A dispose while the callee picks up ------------------------------------

  /** Everything succeeds; while the caller is told that the callee rings, the callee picks up. */
  function PickupDuringAck(): Script {
    (p: nat, act: Action) =>
      if p == 1 && act == Do(A, AckRing, From(B))
      then Exec(k => Wait([SetTo(B, InCall)], Ok), [])
      else Plain(Ok)
  }

  const CallArrives := [Client(B, Connected), Client(A, Calling)]

  lemma CallArrived()
    ensures var c := Runs(Web, CallArrives).c;
      c.a == Calling && c.b == Connected && c.last == Some(Calling) && c.dirty && !c.media
  {
    assert CallArrives[..1] == [Client(B, Connected)];
    assert CallArrives[..1][..0] == [];
    assert Runs(Web, []) == Fresh;
    assert Runs(Web, CallArrives[..1]) == Apply(Web, Fresh, Client(B, Connected));
  }

  lemma RingList(s: Snapshot)
    requires s == Snapshot(Calling, Connected, false)
    ensures Reconcile(s, Some(Calling)) == [Do(A, AckConnected, Own), Do(B, Ring, From(A))]
  {
    assert ToEnd(s) == [];
    assert Teardown(s) == [];
  }

  lemma PickupScript()
    ensures var sc := PickupDuringAck();
      && sc(0, Do(A, AckConnected, Own)) == Plain(Ok) && sc(0, Do(B, Ring, From(A))) == Plain(Ok)
      && sc(1, Do(A, AckRing, From(B))).waits(0) == Wait([SetTo(B, InCall)], Ok)
      && sc(1, Do(A, AckRing, From(B))).after == []
      && sc(2, Media(Bridge)) == Plain(Ok)
  {
  }

  lemma AckThenRing(c: Cfg)
    requires c.a == Calling && c.b == Connected && !c.media
    ensures var d := Execute(Web, c, Do(A, AckConnected, Own), Plain(Ok));
      var e := Execute(Web, d, Do(B, Ring, From(A)), Plain(Ok));
      e.a == Calling && e.b == Ringing && e.last == Some(Ringing) && e.dirty && !e.media
  {
    var d := Execute(Web, c, Do(A, AckConnected, Own), Plain(Ok));
    assert d.a == Calling && d.b == Connected && !d.media;
  }

  lemma RungPass(c: Cfg)
    requires c.a == Calling && c.b == Connected && c.last == Some(Calling) && !c.media
    ensures var d := Pass(Web, c, PickupDuringAck(), 0);
      d.a == Calling && d.b == Ringing && d.last == Some(Ringing) && d.dirty && !d.media
  {
    hide Reconcile, Execute, PickupDuringAck, Plain;
    RingList(c.Snap());
    PickupScript();
    TwoActions(Web, c, Do(A, AckConnected, Own), Do(B, Ring, From(A)), PickupDuringAck(), 0);
    AckThenRing(c);
  }

  lemma AckList(s: Snapshot)
    requires s == Snapshot(Calling, Ringing, false)
    ensures Reconcile(s, Some(Ringing)) == [Do(A, AckRing, From(B))]
  {
    assert ToEnd(s) == [];
    assert Teardown(s) == [] && Progress(s) == [];
  }

  lemma PickedUpDuringAck(c: Cfg, e: Exec)
    requires e.waits(0) == Wait([SetTo(B, InCall)], Ok) && e.after == []
    requires c.a == Calling && c.b == Ringing && !c.media
    ensures var d, at := Execute(Web, c, Do(A, AckRing, From(B)), e), Interfere(c, e.waits(0).during);
      && d.a == Calling && d.b == InCall && !d.media
      && at.dirty && at.last == Some(InCall)
  {
    assert [SetTo(B, InCall)][1..] == [];
    assert forall x: Cfg :: Interfere(x, [SetTo(B, InCall)]) == Move(x, B, InCall);
  }

  /** What the pair looks like when the acknowledged ring's pass is over. */
  lemma PickupFinishes(c: Cfg)
    requires c.a == Calling && c.b == Ringing && !c.media
    ensures var told := Do(A, AckRing, From(B));
      var g := DetachedBehind(Web, c, [told], Record(true, Some(InCall)), PickupDuringAck(), 1);
      var h := FinishPass(Web, g, [], 0, PickupDuringAck(), 1);
      h.c.Snap() == Snapshot(Calling, InCall, false) && h.c.dirty && h.c.last == Some(InCall)
  {
    hide Execute, PickupDuringAck, Plain;
    var told := Do(A, AckRing, From(B));
    PickupScript();
    SingleAction(Web, c, told, PickupDuringAck(), 1);
    PickedUpDuringAck(c, PickupDuringAck()(1, told));
  }

  /** A pickup that lands while the ring is acknowledged, and then a dispose: no connect is
      left in the pass, and yet the pass after it connects media that nobody releases. */
  lemma DisposeDuringPickupLeaks()
    ensures var c := PassBegins(Web, Runs(Web, CallArrives).c, PickupDuringAck(), 1);
      var told := Do(A, AckRing, From(B));
      var at := Interfere(c, PickupDuringAck()(1, told).waits(0).during);
      var h := FinishPass(Web, DetachedBehind(Web, c, [told], Record(at.dirty, at.last), PickupDuringAck(), 1),
                          [], 0, PickupDuringAck(), 1);
      && Reconcile(c.Snap(), c.last) == [told]
      && NextList(h, 2) == [Do(A, Answer, From(B)), Media(Bridge)]
      && LastPass(Web, h, 0, PickupDuringAck(), 2).Open() == 1
  {
    hide Execute, Reconcile, Pass, FinishPass, LastPass, DetachedBehind, PickupDuringAck, Plain, Runs, Interfere;
    CallArrived();
    var c0, sc := Runs(Web, CallArrives).c, PickupDuringAck();
    RungPass(c0.(dirty := false));
    var c := PassBegins(Web, c0, sc, 1);
    assert PassBegins(Web, c0, sc, 0) == c0.(dirty := false);
    assert c == Pass(Web, c0.(dirty := false), sc, 0).(dirty := false);
    var told := Do(A, AckRing, From(B));
    AckList(c.Snap());
    PickupScript();
    PickedUpDuringAck(c, sc(1, told));
    PickupFinishes(c);
    var h := FinishPass(Web, DetachedBehind(Web, c, [told], Record(true, Some(InCall)), sc, 1), [], 0, sc, 1);
    PickupList(h.c);
    assert [told] + [] == [told];
    PlainIsFine();
    DisposeMidPassLeaksExactly(Web, CallArrives, [told], [], Record(true, Some(InCall)), 0, 0, sc, 1);
  }

  lemma PlainIsFine()
    ensures !Plain(Ok).waits(0).outcome.Fails()
  {
  }

  // ---- A change during the activity hook --------------------------------------

  lemma EmptyPass(env: Env, c: Cfg, script: Script, p: nat)
    requires Reconcile(c.Snap(), c.last) == [] && c.a != Failed && c.b != Failed
    ensures Pass(env, c, script, p) == c
  {
    hide Reconcile;
  }

  lemma IdleList(s: Snapshot, last: Option<LegState>)
    requires s == Snapshot(Connected, Disconnected, false)
    ensures Reconcile(s, last) == []
  {
    assert ToEnd(s) == [];
  }

  /** A client that calls while the drain awaits its hook is recorded and never served:
      no drain is queued for it. */
  lemma HookCanSwallowChange(env: Env, s: Poly, script: Script)
    requires s.queued == 1 && s.c.dirty && s.c.a == Connected && s.c.b == Disconnected && !s.c.media
    ensures var t := Apply(env, s, RunDrain(script, [SetTo(A, Calling)]));
      t.c.dirty && t.queued == 0 && t.c.a == Calling && t.c.b == Disconnected
  {
    hide Pass, Reconcile;
    var c := s.c.(dirty := false);
    IdleList(c.Snap(), c.last);
    EmptyPass(env, c, script, 0);
    assert Drain(env, s.c, script, 0).c == c;
    var chs := [SetTo(A, Calling)];
    assert chs[1..] == [];
    assert Interfere(c, chs) == Move(c, A, Calling);
  }

  // ---- Every settled pair is an exit -----------------------------------------

  /** Acknowledging an end always fails; everything else succeeds. */
  function Stubborn(): Script {
    (p: nat, act: Action) => Plain(if act.Do? && act.intent == AckEnd then Throws else Ok)
  }

  predicate Inert(s: Snapshot, act: Action) {
    && (act.Do? ==> IsLegal(s.Leg(act.leg), act.intent))
    && (act.Do? ==> act.intent == AckEnd || act.intent == AckConnected || act.intent == AckRing)
  }

  predicate Tells(acts: seq<Action>) {
    forall k :: 0 <= k < |acts| && acts[k].Do? ==>
      acts[k].intent == AckEnd || acts[k].intent == AckConnected || acts[k].intent == AckRing
  }

  lemma SettledTells(s: Snapshot)
    requires Shape(s.a, s.b)
    ensures Tells(EndActions(ToEnd(s))) && Tells(Progress(s))
  {
    EndsAsOptions(s);
    ProgressAsOptions(s);
    assert !MustEnd(s, A) && !MustEnd(s, B) && Driver(s).None?;
  }

  lemma ReleasesTell(s: Snapshot)
    ensures Tells(Releases(s))
  {
  }

  lemma AcksTell(s: Snapshot, last: Option<LegState>)
    ensures Tells(Acks(s, last))
  {
  }

  lemma RingAcksTell(s: Snapshot, last: Option<LegState>)
    ensures Tells(RingAcks(s, last))
  {
  }

  lemma SettledListIsInert(s: Snapshot, last: Option<LegState>)
    requires Shape(s.a, s.b)
    ensures forall act :: act in Reconcile(s, last) ==> Inert(s, act)
  {
    hide Releases, ToEnd, Acks, RingAcks, Progress, Shape, LegalIntents;
    SettledTells(s);
    ReleasesTell(s);
    AcksTell(s, last);
    RingAcksTell(s, last);
    assert Tells(Reconcile(s, last));
    ReconcileIsLegal(s, last);
  }

  lemma InertStep(env: Env, c: Cfg, act: Action, p: nat)
    requires act.Do? ==> IsLegal(c.Leg(act.leg), act.intent)
    requires act.Do? ==> act.intent == AckEnd || act.intent == AckConnected || act.intent == AckRing
    ensures var d := Execute(env, c, act, Stubborn()(p, act));
      d.a == c.a && d.b == c.b && d.dirty == c.dirty
  {
  }

  lemma {:induction false} InertList(env: Env, c: Cfg, s: Snapshot, acts: seq<Action>, p: nat)
    requires s.a == c.a && s.b == c.b && forall act :: act in acts ==> Inert(s, act)
    ensures var d := ExecAll(env, c, acts, Stubborn(), p);
      d.a == c.a && d.b == c.b && d.dirty == c.dirty
    decreases acts
  {
    hide Execute, Stubborn;
    if acts != [] {
      assert Inert(s, acts[0]);
      assert forall r :: s.Leg(r) == c.Leg(r);
      InertStep(env, c, acts[0], p);
      InertList(env, Execute(env, c, acts[0], Stubborn()(p, acts[0])), s, acts[1..], p);
    }
  }

  /** The exit shape is exact: each settled pair is where some drain stops. */
  lemma SettledIsAnExit(env: Env, c: Cfg)
    requires c.dirty && Shape(c.a, c.b)
    ensures var r := Drain(env, c, Stubborn(), 0);
      !r.capped && r.passes == 1 && r.c.a == c.a && r.c.b == c.b
  {
    hide Reconcile, ExecAll, Stubborn;
    var c0 := c.(dirty := false);
    SettledListIsInert(c0.Snap(), c0.last);
    InertList(env, c0, c0.Snap(), Reconcile(c0.Snap(), c0.last), 0);
    assert Pass(env, c0, Stubborn(), 0).a == c.a && !Pass(env, c0, Stubborn(), 0).dirty;
  }
}
