/** What a finished drain guarantees, for every oracle: arbitrary transport failures and
    arbitrary leg changes between any two steps (PolySession.js lines 165-222, 302-320). */
module DrainExit {
  import opened LegStates
  import opened ReconcileRules
  import opened CallModel

  /** The teardown half of a settled pair, seen from one leg. */
  predicate TornDown(s: LegState, peer: LegState) {
    && (s == InCall ==> CallViable(peer))
    && (s == Failed ==> peer == Ending)
    && (IsTeardown(s) && NeedsEnding(peer) ==> s == Ending && peer == Calling)
  }

  predicate WeakShape(a: LegState, b: LegState) {
    TornDown(a, b) && TornDown(b, a)
  }

  /** The progress half: an answered leg's peer has followed, and nobody is calling a
      leg that could be connected or rung. */
  predicate Progressed(s: LegState, peer: LegState) {
    && (s == InCall ==> peer == InCall || peer == Answering || !CallViable(peer))
    && (IsCaller(s) ==> peer != Disconnected && !CanBeRung(peer))
    && !(s == Calling && peer == Calling)
  }

  /** A settled pair. */
  predicate Shape(a: LegState, b: LegState) {
    WeakShape(a, b) && Progressed(a, b) && Progressed(b, a)
  }

  /** A pass that starts here does nothing but drop the media handle. */
  predicate Masked(c: Cfg) {
    c.media && !c.BothInCall()
  }

  /** The intents that certainly move a leg in this state, whatever the transport does. */
  predicate Moves(s: LegState, i: Intent) {
    || (i == End && NeedsEnding(s))
    || (i == Answer && IsCaller(s))
    || (i == Ring && (CanBeRung(s) || s == Calling))
    || (i == Connect && s == Disconnected)
  }

  lemma MovingIntentMoves(env: Env, c: Cfg, r: Ref, i: Intent, e: Exec)
    requires Moves(c.Leg(r), i)
    ensures RunIntent(env, c, r, i, e).dirty
  {
    assert IsLegal(c.Leg(r), i);
    assert LegIntent(env, c.(issued := c.issued + [Issue(r, i, true)]), r, i, e).c.dirty;
  }

  /** A list that leaves the pair clean contained no moving intent. */
  lemma {:induction false} CleanListIsInert(env: Env, c: Cfg, acts: seq<Action>, script: Script, p: nat)
    requires !ExecAll(env, c, acts, script, p).dirty
    ensures forall r, i, src :: Do(r, i, src) in acts ==> !Moves(c.Leg(r), i)
    decreases acts
  {
    if acts != [] {
      var e := script(p, acts[0]);
      var c1 := Execute(env, c, acts[0], e);
      CleanListIsInert(env, c1, acts[1..], script, p);
      if acts[0].Do? && Moves(c.Leg(acts[0].leg), acts[0].intent) {
        MovingIntentMoves(env, c, acts[0].leg, acts[0].intent, e);
        assert false;
      }
      assert acts == [acts[0]] + acts[1..];
    }
  }

  lemma UntornMoves(s: Snapshot, last: Option<LegState>)
    requires forall r, i, src :: Do(r, i, src) in Reconcile(s, last) ==> !Moves(s.Leg(r), i)
    requires s.a == Failed ==> IsActiveCall(s.b)
    requires s.b == Failed ==> IsActiveCall(s.a)
    ensures WeakShape(s.a, s.b)
  {
    EndsExactly(s, last, A);
    EndsExactly(s, last, B);
    assert A.Peer() == B && B.Peer() == A;
    assert PeerKills(s.b, s.a) || Stranded(s.a, s.b) ==> Moves(s.Leg(A), End);
    assert PeerKills(s.a, s.b) || Stranded(s.b, s.a) ==> Moves(s.Leg(B), End);
    assert !PeerKills(s.b, s.a) && !Stranded(s.a, s.b) && !PeerKills(s.a, s.b) && !Stranded(s.b, s.a);
  }

  /** A torn-down pair without media that could still make progress has a moving intent
      in its action list. */
  lemma PendingListed(s: Snapshot, last: Option<LegState>)
    requires WeakShape(s.a, s.b) && !(Progressed(s.a, s.b) && Progressed(s.b, s.a))
    requires !s.media
    ensures exists r, i, src :: Do(r, i, src) in Reconcile(s, last) && Moves(s.Leg(r), i)
  {
    assert ToEnd(s) == [];
    assert Teardown(s) == [] && !SoftWait(s);
    var act := Progress(s)[0];
    assert Do(act.leg, act.intent, act.source) in Progress(s);
    assert Do(act.leg, act.intent, act.source) in Reconcile(s, last);
  }

  /** An unsettled pair always has a moving intent in its action list, except that a
      held media handle hides a pending step of progress. */
  lemma UnsettledMoves(s: Snapshot, last: Option<LegState>)
    requires forall r, i, src :: Do(r, i, src) in Reconcile(s, last) ==> !Moves(s.Leg(r), i)
    requires s.a == Failed ==> IsActiveCall(s.b)
    requires s.b == Failed ==> IsActiveCall(s.a)
    ensures WeakShape(s.a, s.b)
    ensures (s.media && !s.BothInCall()) || Shape(s.a, s.b)
  {
    UntornMoves(s, last);
    if !s.media && !(Progressed(s.a, s.b) && Progressed(s.b, s.a)) {
      PendingListed(s, last);
    }
  }

  /** A pass that leaves the pair clean found it settled. */
  lemma CleanPassSettled(env: Env, c: Cfg, script: Script, p: nat)
    requires !Pass(env, c, script, p).dirty
    ensures var d := Pass(env, c, script, p);
      && d.a == c.a && d.b == c.b
      && WeakShape(d.a, d.b)
      && (Masked(c) || Shape(d.a, d.b))
  {
    var acts := Reconcile(c.Snap(), c.last);
    var x := ExecAll(env, c, acts, script, p);
    assert !x.dirty;
    CleanListIsInert(env, c, acts, script, p);
    var y := RecoverLeg(x, A);
    assert !y.dirty;
    forall r, i, src | Do(r, i, src) in acts ensures !Moves(c.Snap().Leg(r), i) {
      assert c.Snap().Leg(r) == c.Leg(r);
    }
    UnsettledMoves(c.Snap(), c.last);
  }

  // ---- Media -----------------------------------------------------------------

  lemma {:induction false} OnlyBridgeBridges(env: Env, c: Cfg, acts: seq<Action>, script: Script, p: nat)
    requires Media(Bridge) !in acts
    ensures ExecAll(env, c, acts, script, p).media ==> c.media
    ensures acts != [] && acts[0] == Media(Unbridge) ==> !ExecAll(env, c, acts, script, p).media
    decreases acts
  {
    if acts != [] {
      OnlyBridgeBridges(env, Execute(env, c, acts[0], script(p, acts[0])), acts[1..], script, p);
    }
  }

  lemma BridgeNotInTeardown(s: Snapshot)
    ensures Media(Bridge) !in Teardown(s)
  {
    assert Media(Bridge) !in Releases(s) && Media(Bridge) !in EndActions(ToEnd(s));
  }

  /** A masked pass releases the handle first. */
  lemma MaskedReleases(s: Snapshot, last: Option<LegState>)
    requires s.media && !s.BothInCall()
    ensures Reconcile(s, last) != [] && Reconcile(s, last)[0] == Media(Unbridge)
    ensures Media(Bridge) !in Reconcile(s, last)
  {
    BridgeNotInTeardown(s);
    assert Releases(s)[0] == Media(Unbridge);
  }

  lemma FullCallBridges(s: Snapshot, last: Option<LegState>)
    requires s.BothInCall()
    ensures Reconcile(s, last) == When(!s.media, Media(Bridge))
  {
    assert ToEnd(s) == [];
    assert Teardown(s) == [];
  }

  /** Outside a full call, bridging is listed only behind the answer that completes one. */
  lemma BridgeBehindAnswer(s: Snapshot, last: Option<LegState>) returns (r: Ref)
    requires Media(Bridge) in Reconcile(s, last) && !s.BothInCall()
    ensures !s.media && s.Leg(r.Peer()) == InCall && IsCaller(s.Leg(r))
    ensures Reconcile(s, last) ==
      Acks(s, last) + RingAcks(s, last) + [Do(r, Answer, From(r.Peer())), Media(Bridge)]
  {
    BridgeNotInTeardown(s);
    r := if s.a == InCall then B else A;
    assert Media(Bridge) !in Acks(s, last) && Media(Bridge) !in RingAcks(s, last);
    assert Media(Bridge) in Progress(s);
  }

  /** After a clean pass a handle means a full call, and a full call without a handle
      means the connect was tried and failed. */
  lemma CleanPassMedia(env: Env, c: Cfg, script: Script, p: nat)
    requires !Pass(env, c, script, p).dirty
    ensures var d := Pass(env, c, script, p);
      && (d.media ==> d.BothInCall())
      && (d.BothInCall() ==> d.media || d.bridgeFailed)
  {
    var s := c.Snap();
    var acts := Reconcile(s, c.last);
    CleanListIsInert(env, c, acts, script, p);
    if c.BothInCall() {
      FullCallBridges(s, c.last);
      if !c.media {
        BridgeAlone(env, c, script, p);
      }
    } else if Media(Bridge) in acts {
      var r := BridgeBehindAnswer(s, c.last);
      assert Do(r, Answer, From(r.Peer())) in acts && Moves(c.Leg(r), Answer);
    } else {
      if c.media {
        MaskedReleases(s, c.last);
      }
      OnlyBridgeBridges(env, c, acts, script, p);
    }
  }

  lemma BridgeAlone(env: Env, c: Cfg, script: Script, p: nat)
    requires !c.media
    ensures var d := ExecAll(env, c, [Media(Bridge)], script, p);
      d.media || d.bridgeFailed
  {
    var e := script(p, Media(Bridge));
    assert [Media(Bridge)][1..] == [];
    assert ExecAll(env, c, [Media(Bridge)], script, p) == Execute(env, c, Media(Bridge), e);
  }

  // ---- Whole drains -----------------------------------------------------------

  /** Whether the pass that ends the drain started by holding media outside a full call. */
  predicate EndsMasked(env: Env, c: Cfg, script: Script, done: nat)
    requires done <= MAX_PASSES
    decreases MAX_PASSES - done
  {
    c.dirty && done < MAX_PASSES &&
    var c0 := c.(dirty := false);
    var d := Pass(env, c0, script, done);
    if d.dirty then EndsMasked(env, d, script, done + 1) else Masked(c0)
  }

  /** Media and hooks aside, everything a quiescent pair satisfies. */
  predicate Quiet(c: Cfg) {
    && !c.dirty
    && WeakShape(c.a, c.b)
    && (c.media ==> c.BothInCall())
    && (c.BothInCall() && !c.media ==> c.bridgeFailed)
  }

  lemma CleanPassQuiet(env: Env, c: Cfg, script: Script, p: nat)
    requires !Pass(env, c, script, p).dirty
    ensures var d := Pass(env, c, script, p);
      Quiet(d) && (Masked(c) || Shape(d.a, d.b)) && d.a == c.a && d.b == c.b
  {
    CleanPassSettled(env, c, script, p);
    CleanPassMedia(env, c, script, p);
  }

  /** The exit theorem: for every oracle, a drain that is not cut off by the pass cap
      leaves a torn-down pair whose media agrees with it, and a settled one unless its
      last pass only dropped the media handle. */
  lemma {:induction false} DrainExits(env: Env, c: Cfg, script: Script, done: nat)
    requires c.dirty && done <= MAX_PASSES
    ensures var r := Drain(env, c, script, done);
      !r.capped ==> Quiet(r.c) && (Shape(r.c.a, r.c.b) || EndsMasked(env, c, script, done))
    decreases MAX_PASSES - done
  {
    hide Pass, WeakShape, Shape;
    if done < MAX_PASSES {
      var c0 := c.(dirty := false);
      var d := Pass(env, c0, script, done);
      if d.dirty {
        DrainExits(env, d, script, done + 1);
      } else {
        CleanPassQuiet(env, c0, script, done);
      }
    }
  }
}
