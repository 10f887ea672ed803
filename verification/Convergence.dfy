/** The drain converges: a pass that meets no lost data channel and no outside leg
    change lowers a rank bounded by 5, so the 50-pass cap is out of reach of ordinary
    failures (PolySession.js lines 188-222). */
module Convergence {
  import opened LegStates
  import opened ReconcileRules
  import opened CallModel

  /** No lost data channel, and ends that settle on an idle leg. */
  predicate CalmOutcome(o: Outcome) {
    o != NoOpenDc && (o.Settled? ==> o.state == Disconnected || o.state == Connected)
  }

  predicate CalmWait(w: Wait) {
    w.during == [] && CalmOutcome(w.outcome)
  }

  ghost predicate Calm(e: Exec) {
    e.after == [] && forall k :: CalmWait(e.waits(k))
  }

  ghost predicate CalmList(acts: seq<Action>, script: Script, p: nat) {
    forall act :: act in acts ==> Calm(script(p, act))
  }

  ghost predicate CalmPass(c: Cfg, script: Script, p: nat) {
    CalmList(Reconcile(c.Snap(), c.last), script, p)
  }

  // ---- Where a leg lands after one intent ------------------------------------

  predicate Lands(s: LegState, i: Intent, t: LegState) {
    if !IsLegal(s, i) then t == if FailsLeg(i) then Failed else s
    else match i
      case Connect => t.Connecting? || t.Connected? || t.InCall? || t.Failed?
      case Ring => t.Ringing? || t.InCall? || t.Failed?
      case AckConnected => t == s || t.Failed?
      case AckRing => t == s || t.Failed?
      case Answer => t.InCall? || t.Failed?
      case AckEnd => t == s || t.Connected? || t.Disconnected?
      case End => t.Ending? || t.Connected? || t.Disconnected?
      case Cancel => true
      case Reject => true
  }

  lemma {:induction false} CalmInvite(env: Env, c: Cfg, r: Ref, e: Exec, attempt: nat)
    requires Calm(e) && c.Leg(r) == Ringing
    ensures var d := Invite(env, c, r, e, attempt);
      && d.c.Leg(r.Peer()) == c.Leg(r.Peer())
      && ((d.verdict == Fine && d.c.Leg(r) == InCall) || (d.verdict == Broke && d.c.Leg(r) == Disconnected))
    decreases env.retries - attempt
  {
    var w := e.waits(attempt);
    assert CalmWait(w);
    if w.outcome == Pc2Down && attempt < env.retries {
      CalmInvite(env, Move(Move(c, r, Disconnected), r, Ringing), r, e, attempt + 1);
    }
  }

  lemma CalmReach(env: Env, c: Cfg, r: Ref, i: Intent, e: Exec)
    requires Calm(e) && IsLegal(c.Leg(r), i) && (i == Connect || i == Ring)
    ensures var d := LegIntent(env, c, r, i, e);
      && d.c.Leg(r.Peer()) == c.Leg(r.Peer()) && d.verdict != LostChannel
      && (d.verdict == Fine ==> Lands(c.Leg(r), i, d.c.Leg(r)))
      && (d.c.dirty && !c.dirty && d.verdict == Fine ==> d.c.Leg(r) != c.Leg(r))
  {
    assert CalmWait(e.waits(0));
    if env.KindOf(r) == Sip && c.Leg(r) != Ringing && c.Leg(r) != InCall {
      CalmInvite(env, Move(c, r, Ringing), r, e, 0);
    }
  }

  lemma CalmPlain(env: Env, c: Cfg, r: Ref, i: Intent, e: Exec)
    requires Calm(e) && IsLegal(c.Leg(r), i) && i in {AckConnected, AckRing, Answer, AckEnd, End}
    requires i == End ==> NeedsEnding(c.Leg(r))
    ensures var d := LegIntent(env, c, r, i, e);
      && d.c.Leg(r.Peer()) == c.Leg(r.Peer()) && d.verdict != LostChannel
      && (d.verdict == Fine || !FailsLeg(i) ==> Lands(c.Leg(r), i, d.c.Leg(r)))
      && (d.c.dirty && !c.dirty ==> d.c.Leg(r) != c.Leg(r))
  {
    assert CalmWait(e.waits(0));
  }

  lemma IllegalIntent(env: Env, c: Cfg, r: Ref, i: Intent, src: Source, e: Exec)
    requires e.after == [] && !IsLegal(c.Leg(r), i)
    ensures var d := Execute(env, c, Do(r, i, src), e);
      && d.Leg(r.Peer()) == c.Leg(r.Peer())
      && Lands(c.Leg(r), i, d.Leg(r))
      && (d.dirty && !c.dirty ==> d.Leg(r) != c.Leg(r))
  {
  }

  lemma CalmIntent(env: Env, c: Cfg, r: Ref, i: Intent, src: Source, e: Exec)
    requires Calm(e) && i != Cancel && i != Reject
    requires i == End ==> NeedsEnding(c.Leg(r))
    requires i == Connect ==> c.Leg(r) == Disconnected
    ensures var d := Execute(env, c, Do(r, i, src), e);
      && d.Leg(r.Peer()) == c.Leg(r.Peer())
      && Lands(c.Leg(r), i, d.Leg(r))
      && (d.dirty && !c.dirty ==> d.Leg(r) != c.Leg(r))
  {
    hide LegIntent;
    var c0 := c.(issued := c.issued + [Issue(r, i, IsLegal(c.Leg(r), i))]);
    if !IsLegal(c.Leg(r), i) {
      IllegalIntent(env, c, r, i, src, e);
    } else if i == Connect || i == Ring {
      CalmReach(env, c0, r, i, e);
    } else {
      CalmPlain(env, c0, r, i, e);
    }
  }

  // ---- Where a pair lands after one pass -------------------------------------

  lemma {:induction false} ListsCompose(env: Env, c: Cfg, xs: seq<Action>, ys: seq<Action>, script: Script, p: nat)
    ensures ExecAll(env, c, xs + ys, script, p) == ExecAll(env, ExecAll(env, c, xs, script, p), ys, script, p)
    decreases xs
  {
    if xs == [] {
      assert xs + ys == ys;
    } else {
      assert (xs + ys)[1..] == xs[1..] + ys;
      ListsCompose(env, Execute(env, c, xs[0], script(p, xs[0])), xs[1..], ys, script, p);
    }
  }

  /** One optional intent. */
  lemma OptIntent(env: Env, c: Cfg, b: bool, r: Ref, i: Intent, src: Source, script: Script, p: nat)
    requires b ==> Calm(script(p, Do(r, i, src))) && i != Cancel && i != Reject
    requires b && i == End ==> NeedsEnding(c.Leg(r))
    requires b && i == Connect ==> c.Leg(r) == Disconnected
    ensures var d := ExecAll(env, c, When(b, Do(r, i, src)), script, p);
      && d.Leg(r.Peer()) == c.Leg(r.Peer())
      && (if b then Lands(c.Leg(r), i, d.Leg(r)) else d.Leg(r) == c.Leg(r))
      && (d.dirty && !c.dirty ==> d.Leg(r) != c.Leg(r))
  {
    if b {
      assert When(b, Do(r, i, src))[1..] == [];
      CalmIntent(env, c, r, i, src, script(p, Do(r, i, src)));
    }
  }

  /** One optional media action: the legs are untouched. */
  lemma OptMedia(env: Env, c: Cfg, b: bool, op: MediaOp, script: Script, p: nat)
    requires b ==> Calm(script(p, Media(op)))
    ensures var d := ExecAll(env, c, When(b, Media(op)), script, p);
      d.a == c.a && d.b == c.b && d.dirty == c.dirty
  {
    if b {
      assert When(b, Media(op))[1..] == [];
      assert CalmWait(script(p, Media(op)).waits(0));
    }
  }

  predicate Fate(s: LegState, ended: bool, t: LegState) {
    if s == EndRequested then t == s || t == Connected || t == Disconnected
    else if ended then t == Ending || t == Connected || t == Disconnected
    else t == s
  }

  lemma AckEndsFate(env: Env, c: Cfg, s: Snapshot, script: Script, p: nat)
    requires s == c.Snap() && !c.dirty && CalmList(Releases(s), script, p)
    ensures var d := ExecAll(env, c, Releases(s), script, p);
      && Fate(c.a, false, d.a) && Fate(c.b, false, d.b)
      && (d.dirty ==> d.a != c.a || d.b != c.b)
  {
    assert A.Peer() == B && B.Peer() == A;
    var m := s.media && !s.BothInCall();
    var l1 := When(m, Media(Unbridge));
    var l2 := When(s.a == EndRequested, Do(A, AckEnd, Own));
    var l3 := When(s.b == EndRequested, Do(B, AckEnd, Own));
    assert Releases(s) == l1 + l2 + l3;
    ListsCompose(env, c, l1 + l2, l3, script, p);
    ListsCompose(env, c, l1, l2, script, p);
    assert m ==> Media(Unbridge) in Releases(s);
    OptMedia(env, c, m, Unbridge, script, p);
    var c1 := ExecAll(env, c, l1, script, p);
    OptIntent(env, c1, s.a == EndRequested, A, AckEnd, Own, script, p);
    OptIntent(env, ExecAll(env, c1, l2, script, p), s.b == EndRequested, B, AckEnd, Own, script, p);
  }

  lemma TwoEnds(env: Env, c: Cfg, x: bool, y: bool, script: Script, p: nat)
    requires x ==> Calm(script(p, EndOf(A))) && NeedsEnding(c.a)
    requires y ==> Calm(script(p, EndOf(B))) && NeedsEnding(c.b)
    ensures var d := ExecAll(env, c, When(x, EndOf(A)) + When(y, EndOf(B)), script, p);
      && (if x then Lands(c.a, End, d.a) else d.a == c.a)
      && (if y then Lands(c.b, End, d.b) else d.b == c.b)
      && (d.dirty && !c.dirty ==> d.a != c.a || d.b != c.b)
  {
    assert A.Peer() == B && B.Peer() == A;
    ListsCompose(env, c, When(x, EndOf(A)), When(y, EndOf(B)), script, p);
    OptIntent(env, c, x, A, End, From(B), script, p);
    OptIntent(env, ExecAll(env, c, When(x, EndOf(A)), script, p), y, B, End, From(A), script, p);
  }

  lemma EndedNeedsEnding(s: Snapshot, r: Ref)
    requires MustEnd(s, r)
    ensures NeedsEnding(s.Leg(r)) && s.Leg(r) != EndRequested
  {
  }

  lemma EndLands(s: LegState, t: LegState)
    requires NeedsEnding(s)
    ensures Lands(s, End, t) <==> Fate(s, true, t)
  {
  }

  lemma TeardownFate(env: Env, c: Cfg, script: Script, p: nat)
    requires !c.dirty && CalmList(Teardown(c.Snap()), script, p)
    ensures var d := ExecAll(env, c, Teardown(c.Snap()), script, p);
      && Fate(c.a, MustEnd(c.Snap(), A), d.a) && Fate(c.b, MustEnd(c.Snap(), B), d.b)
      && (d.dirty ==> d.a != c.a || d.b != c.b)
  {
    var s := c.Snap();
    var x, y := MustEnd(s, A), MustEnd(s, B);
    EndsAsOptions(s);
    assert Teardown(s) == Releases(s) + (When(x, EndOf(A)) + When(y, EndOf(B)));
    ListsCompose(env, c, Releases(s), When(x, EndOf(A)) + When(y, EndOf(B)), script, p);
    AckEndsFate(env, c, s, script, p);
    var c1 := ExecAll(env, c, Releases(s), script, p);
    if x {
      EndedNeedsEnding(s, A);
      assert EndOf(A) in Teardown(s);
      assert c1.a == c.a;
      EndLands(c.a, ExecAll(env, c, Teardown(s), script, p).a);
    }
    if y {
      EndedNeedsEnding(s, B);
      assert EndOf(B) in Teardown(s);
      assert c1.b == c.b;
      EndLands(c.b, ExecAll(env, c, Teardown(s), script, p).b);
    }
    TwoEnds(env, c1, x, y, script, p);
  }

  /** The one intent that moves a call forward, if any. */
  function Driver(s: Snapshot): Option<(Ref, Intent)> {
    if s.a == Calling && s.b == Calling then Some((B, Ring))
    else if s.a == InCall && IsCaller(s.b) then Some((B, Answer))
    else if s.b == InCall && IsCaller(s.a) then Some((A, Answer))
    else if IsCaller(s.a) && s.b == Disconnected then Some((B, Connect))
    else if IsCaller(s.a) && CanBeRung(s.b) then Some((B, Ring))
    else if IsCaller(s.b) && s.a == Disconnected then Some((A, Connect))
    else if IsCaller(s.b) && CanBeRung(s.a) then Some((A, Ring))
    else None
  }

  predicate Bridges(s: Snapshot) {
    !s.media && (s.BothInCall() || (Driver(s).Some? && Driver(s).value.1 == Answer))
  }

  lemma ProgressAsOptions(s: Snapshot)
    ensures Driver(s).Some? ==> var (r, i) := Driver(s).value;
      Progress(s) == [Do(r, i, From(r.Peer()))] + When(Bridges(s), Media(Bridge))
    ensures Driver(s).None? ==> Progress(s) == When(Bridges(s), Media(Bridge))
  {
  }

  predicate AckFate(s: LegState, t: LegState) {
    t == s || (IsCaller(s) && t == Failed)
  }

  predicate DriveFate(s: LegState, i: Intent, t: LegState) {
    t == Failed || Lands(s, i, t)
  }

  lemma AcksFate(env: Env, c: Cfg, s: Snapshot, last: Option<LegState>, script: Script, p: nat)
    requires s == c.Snap() && CalmList(Acks(s, last), script, p)
    ensures var d := ExecAll(env, c, Acks(s, last), script, p);
      && AckFate(c.a, d.a) && AckFate(c.b, d.b)
      && (d.dirty && !c.dirty ==> d.a != c.a || d.b != c.b)
  {
    assert A.Peer() == B && B.Peer() == A;
    var x, y := last == Some(Calling) && s.a == Calling, last == Some(Calling) && s.b == Calling;
    var l1, l2 := When(x, Do(A, AckConnected, Own)), When(y, Do(B, AckConnected, Own));
    assert x ==> Do(A, AckConnected, Own) in Acks(s, last);
    assert y ==> Do(B, AckConnected, Own) in Acks(s, last);
    ListsCompose(env, c, l1, l2, script, p);
    OptIntent(env, c, x, A, AckConnected, Own, script, p);
    OptIntent(env, ExecAll(env, c, l1, script, p), y, B, AckConnected, Own, script, p);
  }

  lemma RingAcksFate(env: Env, c: Cfg, s: Snapshot, last: Option<LegState>, script: Script, p: nat)
    requires CalmList(RingAcks(s, last), script, p)
    requires AckFate(s.a, c.a) && AckFate(s.b, c.b)
    ensures var d := ExecAll(env, c, RingAcks(s, last), script, p);
      && AckFate(s.a, d.a) && AckFate(s.b, d.b)
      && (d.dirty && !c.dirty ==> d.a != c.a || d.b != c.b)
      && (c.a == Failed ==> d.a == Failed) && (c.b == Failed ==> d.b == Failed)
  {
    assert A.Peer() == B && B.Peer() == A;
    var x := last == Some(Ringing) && s.a == Ringing && IsCaller(s.b);
    var y := last == Some(Ringing) && s.b == Ringing && IsCaller(s.a);
    var l1, l2 := When(x, Do(B, AckRing, From(A))), When(y, Do(A, AckRing, From(B)));
    assert x ==> Do(B, AckRing, From(A)) in RingAcks(s, last);
    assert y ==> Do(A, AckRing, From(B)) in RingAcks(s, last);
    ListsCompose(env, c, l1, l2, script, p);
    OptIntent(env, c, x, B, AckRing, From(A), script, p);
    OptIntent(env, ExecAll(env, c, l1, script, p), y, A, AckRing, From(B), script, p);
  }

  lemma DriverIsApt(s: Snapshot)
    requires Driver(s).Some?
    ensures var (r, i) := Driver(s).value;
      && (i == Ring || i == Answer || i == Connect)
      && (i == Connect <==> s.Leg(r) == Disconnected)
  {
  }

  /** A driving intent, from a leg that a failed ack may have marked FAILED, and the
      bridge behind it. */
  lemma DriveAndBridge(env: Env, c: Cfg, r: Ref, i: Intent, s: LegState, bridge: bool, script: Script, p: nat)
    requires i == Ring || i == Answer || i == Connect
    requires i == Connect <==> s == Disconnected
    requires AckFate(s, c.Leg(r))
    requires Calm(script(p, Do(r, i, From(r.Peer()))))
    requires bridge ==> Calm(script(p, Media(Bridge)))
    ensures var d := ExecAll(env, c, [Do(r, i, From(r.Peer()))] + When(bridge, Media(Bridge)), script, p);
      && d.Leg(r.Peer()) == c.Leg(r.Peer())
      && (c.Leg(r) == s ==> Lands(s, i, d.Leg(r)))
      && (c.Leg(r) != s ==> d.Leg(r) == Failed)
      && (d.dirty && !c.dirty ==> d.Leg(r) != c.Leg(r))
  {
    hide Execute, Calm;
    var act := Do(r, i, From(r.Peer()));
    assert [act] == When(true, act);
    ListsCompose(env, c, [act], When(bridge, Media(Bridge)), script, p);
    OptIntent(env, c, true, r, i, From(r.Peer()), script, p);
    OptMedia(env, ExecAll(env, c, [act], script, p), bridge, Bridge, script, p);
  }

  lemma DriverFate(env: Env, c: Cfg, s: Snapshot, script: Script, p: nat)
    requires CalmList(Progress(s), script, p)
    requires AckFate(s.a, c.a) && AckFate(s.b, c.b)
    ensures var d := ExecAll(env, c, Progress(s), script, p);
      && (Driver(s).None? ==> d.a == c.a && d.b == c.b && d.dirty == c.dirty)
      && (Driver(s).Some? ==> var (r, i) := Driver(s).value;
           && d.Leg(r.Peer()) == c.Leg(r.Peer())
           && (c.Leg(r) == s.Leg(r) ==> Lands(s.Leg(r), i, d.Leg(r)))
           && (c.Leg(r) != s.Leg(r) ==> d.Leg(r) == Failed)
           && (d.dirty && !c.dirty ==> d.Leg(r) != c.Leg(r)))
  {
    ProgressAsOptions(s);
    if Driver(s).Some? {
      DriverIsApt(s);
      var (r, i) := Driver(s).value;
      assert Do(r, i, From(r.Peer())) in Progress(s);
      DriveAndBridge(env, c, r, i, s.Leg(r), Bridges(s), script, p);
    } else {
      OptMedia(env, c, Bridges(s), Bridge, script, p);
    }
  }

  predicate PairFate(s: Snapshot, a: LegState, b: LegState) {
    match Driver(s)
    case None => AckFate(s.a, a) && AckFate(s.b, b)
    case Some((A, i)) => DriveFate(s.a, i, a) && AckFate(s.b, b)
    case Some((B, i)) => AckFate(s.a, a) && DriveFate(s.b, i, b)
  }

  lemma ProgressFate(env: Env, c: Cfg, s: Snapshot, last: Option<LegState>, script: Script, p: nat)
    requires s == c.Snap() && !c.dirty
    requires CalmList(Acks(s, last) + RingAcks(s, last) + Progress(s), script, p)
    ensures var d := ExecAll(env, c, Acks(s, last) + RingAcks(s, last) + Progress(s), script, p);
      PairFate(s, d.a, d.b) && (d.dirty ==> d.a != c.a || d.b != c.b)
  {
    var l1, l2, l3 := Acks(s, last), RingAcks(s, last), Progress(s);
    assert forall act :: act in l1 || act in l2 || act in l3 ==> act in l1 + l2 + l3;
    ListsCompose(env, c, l1 + l2, l3, script, p);
    ListsCompose(env, c, l1, l2, script, p);
    var c1 := ExecAll(env, c, l1, script, p);
    var c2 := ExecAll(env, c1, l2, script, p);
    AcksFate(env, c, s, last, script, p);
    RingAcksFate(env, c1, s, last, script, p);
    DriverFate(env, c2, s, script, p);
    FateOfDriver(s, c1, c2, ExecAll(env, c2, l3, script, p));
  }

  lemma FateOfDriver(s: Snapshot, c1: Cfg, c2: Cfg, d: Cfg)
    requires AckFate(s.a, c2.a) && AckFate(s.b, c2.b)
    requires AckFate(s.a, c1.a) && AckFate(s.b, c1.b)
    requires c1.a == Failed ==> c2.a == Failed
    requires c1.b == Failed ==> c2.b == Failed
    requires Driver(s).None? ==> d.a == c2.a && d.b == c2.b && d.dirty == c2.dirty
    requires Driver(s).Some? ==> var (r, i) := Driver(s).value;
      && d.Leg(r.Peer()) == c2.Leg(r.Peer())
      && (c2.Leg(r) == s.Leg(r) ==> Lands(s.Leg(r), i, d.Leg(r)))
      && (c2.Leg(r) != s.Leg(r) ==> d.Leg(r) == Failed)
      && (d.dirty && !c2.dirty ==> d.Leg(r) != c2.Leg(r))
    requires c1.dirty ==> c1.a != s.a || c1.b != s.b
    requires c2.dirty && !c1.dirty ==> c2.a != c1.a || c2.b != c1.b
    requires Keeps(c1, c2) && (!c1.dirty ==> c1.a == s.a && c1.b == s.b)
    ensures PairFate(s, d.a, d.b)
    ensures d.dirty ==> d.a != s.a || d.b != s.b
  {
    assert A.Peer() == B && B.Peer() == A;
  }

  // ---- The rank ---------------------------------------------------------------

  predicate Reaches(s: LegState, peer: LegState) {
    IsCaller(s) && CanBeRung(peer)
  }

  /** An upper bound on the passes a pair still needs. */
  function Rank(a: LegState, b: LegState): (n: nat)
    ensures 1 <= n <= 5
  {
    if (IsCaller(a) && b == Disconnected) || (IsCaller(b) && a == Disconnected) then 5
    else if Reaches(a, b) || Reaches(b, a) || (a == Calling && b == Calling) then 4
    else if CallViable(a) && CallViable(b) then if IsCaller(a) || IsCaller(b) then 3 else 1
    else if a == EndRequested && (CallViable(b) || b == EndRequested || b == Failed) then 3
    else if b == EndRequested && (CallViable(a) || a == Failed) then 3
    else if (a == Ending && b == Failed) || (b == Ending && a == Failed) then 1
    else if CallViable(a) || CallViable(b) || a == Failed || b == Failed then 2
    else if a == EndRequested || b == EndRequested then 2
    else 1
  }

  predicate Collapses(s: LegState, peer: LegState) {
    s == Failed && !IsActiveCall(peer)
  }

  function RecoveredA(a: LegState, b: LegState): LegState {
    if Collapses(a, b) then Disconnected else a
  }

  function RecoveredB(a: LegState, b: LegState): LegState {
    if Collapses(b, RecoveredA(a, b)) then Disconnected else b
  }

  predicate Drops(s: Snapshot, a: LegState, b: LegState) {
    (a == s.a && b == s.b && !Collapses(a, b) && !Collapses(b, a))
    || Rank(RecoveredA(a, b), RecoveredB(a, b)) < Rank(s.a, s.b)
  }

  lemma EndedADrops(s: Snapshot, a: LegState, b: LegState)
    requires MustEnd(s, A) && Fate(s.a, true, a) && Fate(s.b, false, b)
    ensures Drops(s, a, b)
  {
  }

  lemma EndedBDrops(s: Snapshot, a: LegState, b: LegState)
    requires MustEnd(s, B) && Fate(s.a, false, a) && Fate(s.b, true, b)
    ensures Drops(s, a, b)
  {
  }

  lemma ReleasedDrops(s: Snapshot, a: LegState, b: LegState)
    requires !MustEnd(s, A) && !MustEnd(s, B) && Fate(s.a, false, a) && Fate(s.b, false, b)
    ensures Drops(s, a, b)
  {
    if a == s.a {
      ReleasedBDrops(s, b);
    }
  }

  lemma ReleasedBDrops(s: Snapshot, b: LegState)
    requires !MustEnd(s, A) && !MustEnd(s, B) && Fate(s.b, false, b)
    ensures Drops(s, s.a, b)
  {
  }

  lemma TeardownDrops(s: Snapshot, a: LegState, b: LegState)
    requires Fate(s.a, MustEnd(s, A), a) && Fate(s.b, MustEnd(s, B), b)
    ensures Drops(s, a, b)
  {
    ToEndExactly(s, A);
    ToEndExactly(s, B);
    if MustEnd(s, A) {
      EndedADrops(s, a, b);
    } else if MustEnd(s, B) {
      EndedBDrops(s, a, b);
    } else {
      ReleasedDrops(s, a, b);
    }
  }

  predicate Calmed(s: Snapshot) {
    !MustEnd(s, A) && !MustEnd(s, B) && s.a != EndRequested && s.b != EndRequested
  }

  lemma AcksDrop(s: Snapshot, a: LegState, b: LegState)
    requires Calmed(s) && Driver(s).None?
    requires AckFate(s.a, a) && AckFate(s.b, b)
    ensures Drops(s, a, b)
  {
    if a == s.a {
      AckBDrops(s, b);
    }
  }

  lemma AckBDrops(s: Snapshot, b: LegState)
    requires Calmed(s) && Driver(s).None? && AckFate(s.b, b)
    ensures Drops(s, s.a, b)
  {
  }

  lemma DriveADrops(s: Snapshot, i: Intent, a: LegState, b: LegState)
    requires Calmed(s) && Driver(s) == Some((A, i))
    requires DriveFate(s.a, i, a) && AckFate(s.b, b)
    ensures Drops(s, a, b)
  {
    if b == s.b {
      DriveAAloneDrops(s, i, a);
    }
  }

  lemma DriveAAloneDrops(s: Snapshot, i: Intent, a: LegState)
    requires Calmed(s) && Driver(s) == Some((A, i)) && DriveFate(s.a, i, a)
    ensures Drops(s, a, s.b)
  {
  }

  lemma DriveBDrops(s: Snapshot, i: Intent, a: LegState, b: LegState)
    requires Calmed(s) && Driver(s) == Some((B, i))
    requires AckFate(s.a, a) && DriveFate(s.b, i, b)
    ensures Drops(s, a, b)
  {
    if a == s.a {
      DriveBAloneDrops(s, i, b);
    }
  }

  lemma DriveBAloneDrops(s: Snapshot, i: Intent, b: LegState)
    requires Calmed(s) && Driver(s) == Some((B, i)) && DriveFate(s.b, i, b)
    ensures Drops(s, s.a, b)
  {
  }

  lemma ProgressDrops(s: Snapshot, a: LegState, b: LegState)
    requires Calmed(s) && PairFate(s, a, b)
    ensures Drops(s, a, b)
  {
    match Driver(s)
    case None => AcksDrop(s, a, b);
    case Some((A, i)) => DriveADrops(s, i, a, b);
    case Some((B, i)) => DriveBDrops(s, i, a, b);
  }

  /** A calm pass either leaves the pair clean or lowers its rank. */
  lemma CalmPassDrops(env: Env, c: Cfg, script: Script, p: nat)
    requires !c.dirty && CalmPass(c, script, p)
    ensures var d := Pass(env, c, script, p);
      d.dirty ==> Rank(d.a, d.b) < Rank(c.a, c.b)
  {
    var s := c.Snap();
    var acts := Reconcile(s, c.last);
    var x := ExecAll(env, c, acts, script, p);
    if Teardown(s) != [] {
      TeardownFate(env, c, script, p);
      TeardownDrops(s, x.a, x.b);
    } else {
      EmptyTeardown(s);
      if SoftWait(s) {
        AcksFate(env, c, s, c.last, script, p);
        assert PairFate(s, x.a, x.b);
      } else {
        ProgressFate(env, c, s, c.last, script, p);
      }
      ProgressDrops(s, x.a, x.b);
    }
    RecoverLands(x);
  }

  lemma EmptyTeardown(s: Snapshot)
    requires Teardown(s) == []
    ensures Calmed(s)
  {
    EndsAsOptions(s);
  }

  lemma RecoverLands(x: Cfg)
    ensures var d := Recover(x);
      && d.a == RecoveredA(x.a, x.b) && d.b == RecoveredB(x.a, x.b)
      && (d.dirty && !x.dirty ==> Collapses(x.a, x.b) || Collapses(x.b, x.a))
  {
    assert A.Peer() == B && B.Peer() == A;
  }

  ghost predicate LossFree(e: Exec) {
    forall k :: CalmOutcome(e.waits(k).outcome)
  }

  /** The same outcomes with no outside change. */
  function Hushed(e: Exec): Exec {
    Exec((k: nat) => Wait([], e.waits(k).outcome), [])
  }

  function Hush(script: Script): Script {
    (p: nat, act: Action) => Hushed(script(p, act))
  }

  /** No lost data channel, and no outside change that makes the pass end differently. */
  ghost predicate Undisturbed(env: Env, c: Cfg, script: Script, p: nat) {
    && (forall act :: act in Reconcile(c.Snap(), c.last) ==> LossFree(script(p, act)))
    && Pass(env, c, script, p) == Pass(env, c, Hush(script), p)
  }

  /** How many passes of a drain meet a lost data channel or an outside change that matters. */
  ghost function Disturbed(env: Env, c: Cfg, script: Script, done: nat): nat
    requires done <= MAX_PASSES
    decreases MAX_PASSES - done
  {
    if !c.dirty || done == MAX_PASSES then 0
    else
      var c0 := c.(dirty := false);
      (if Undisturbed(env, c0, script, done) then 0 else 1)
      + Disturbed(env, Pass(env, c0, script, done), script, done + 1)
  }

  function Need(c: Cfg): nat {
    if c.dirty then Rank(c.a, c.b) else 0
  }

  /** One pass pays for itself out of the rank, or out of the disturbance it met. */
  lemma PassPays(env: Env, c: Cfg, script: Script, p: nat)
    requires !c.dirty
    ensures Need(Pass(env, c, script, p)) + 1 <= Rank(c.a, c.b) + if Undisturbed(env, c, script, p) then 0 else 5
  {
    if Undisturbed(env, c, script, p) {
      hide Pass, Reconcile, Rank, CalmOutcome;
      HushIsCalm(c, script, p);
      CalmPassDrops(env, c, Hush(script), p);
    }
  }

  lemma HushIsCalm(c: Cfg, script: Script, p: nat)
    requires forall act :: act in Reconcile(c.Snap(), c.last) ==> LossFree(script(p, act))
    ensures CalmPass(c, Hush(script), p)
  {
    hide Reconcile, CalmOutcome;
    forall act | act in Reconcile(c.Snap(), c.last) ensures Calm(Hush(script)(p, act)) {
      assert LossFree(script(p, act));
      assert Hush(script)(p, act) == Hushed(script(p, act));
    }
  }

  lemma {:induction false} PassesBounded(env: Env, c: Cfg, script: Script, done: nat)
    requires done <= MAX_PASSES
    ensures var r := Drain(env, c, script, done);
      && r.passes <= done + Need(c) + 5 * Disturbed(env, c, script, done)
      && (r.capped ==> MAX_PASSES < done + Need(c) + 5 * Disturbed(env, c, script, done))
    decreases MAX_PASSES - done
  {
    hide Pass, Rank, Undisturbed;
    if c.dirty && done < MAX_PASSES {
      var c0 := c.(dirty := false);
      PassPays(env, c0, script, done);
      PassesBounded(env, Pass(env, c0, script, done), script, done + 1);
    }
  }

  /** Convergence, for every pair of leg states and transports: five passes, plus five for
      each pass that met a lost data channel or an outside change that mattered to it. Below
      ten such passes the cap is never reached. */
  lemma Converges(env: Env, c: Cfg, script: Script)
    ensures var r, k := Drain(env, c, script, 0), Disturbed(env, c, script, 0);
      && r.passes <= 5 * (k + 1)
      && (k <= 9 ==> !r.capped)
  {
    PassesBounded(env, c, script, 0);
  }
}
