/** Complete WebRTC calls without failures: set-up, pickup, hang-up, the teardown storm
    behind it, and the next call on the same pair. */
module CallCycles {
  import opened LegStates
  import opened ReconcileRules
  import opened CallModel
  import opened DrainExit
  import opened Convergence
  import opened Stalls
  import opened CallRuns
  import opened Ingress
  import opened SequentialRuns

  /** How a WebRTC leg's transport answers an action when nothing fails: a peer-initiated
      end waits for the client's answer, an acknowledged end returns to CONNECTED. */
  predicate Obliges(act: Action, w: Wait) {
    && w.during == [] && !w.outcome.Fails()
    && (act.Do? && act.intent == End ==> w.outcome == Deferred)
    && (w.outcome.Settled? ==> w.outcome.state == Connected)
  }

  ghost predicate Smooth(act: Action, e: Exec) {
    e.after == [] && forall k :: Obliges(act, e.waits(k))
  }

  ghost predicate FailFree(script: Script) {
    forall p, act :: Smooth(act, script(p, act))
  }

  predicate Web(env: Env) {
    env.kindA == WebRtc && env.kindB == WebRtc
  }

  // ---- Single actions -----------------------------------------------------------

  lemma SmoothIntent(env: Env, c: Cfg, r: Ref, i: Intent, src: Source, e: Exec)
    requires Web(env) && Smooth(Do(r, i, src), e) && IsLegal(c.Leg(r), i)
    requires i == Connect || i == Ring || i == Answer || i == AckEnd || i == End
    requires i == End ==> NeedsEnding(c.Leg(r))
    requires i == Connect ==> c.Leg(r) == Disconnected
    ensures var d := Execute(env, c, Do(r, i, src), e);
      && d.Leg(r.Peer()) == c.Leg(r.Peer()) && SameWire(c.(issued := d.issued), d)
      && d.issued == c.issued + [Issue(r, i, true)]
      && d.dirty == (c.dirty || d.Leg(r) != c.Leg(r))
      && (d.Leg(r) != c.Leg(r) ==> d.last == Some(d.Leg(r)))
      && match i
         case Connect => d.Leg(r) == Connecting || d.Leg(r) == Connected
         case Ring => d.Leg(r) == Ringing
         case Answer => d.Leg(r) == InCall
         case AckEnd => d.Leg(r) == Connected
         case End => d.Leg(r) == Ending
         case _ => true
  {
    assert Obliges(Do(r, i, src), e.waits(0));
  }

  lemma SmoothAck(env: Env, c: Cfg, r: Ref, i: Intent, src: Source, e: Exec)
    requires Smooth(Do(r, i, src), e) && IsLegal(c.Leg(r), i) && (i == AckConnected || i == AckRing)
    ensures Execute(env, c, Do(r, i, src), e) == c.(issued := c.issued + [Issue(r, i, true)])
  {
    assert Obliges(Do(r, i, src), e.waits(0));
  }

  lemma SmoothMedia(env: Env, c: Cfg, op: MediaOp, e: Exec)
    requires Smooth(Media(op), e)
    ensures Execute(env, c, Media(op), e) ==
      if op == Bridge then if c.media then c else c.(media := true, bridgeFailed := false, ups := c.ups + 1)
      else if c.media then c.(media := false, downs := c.downs + 1) else c
  {
    assert Obliges(Media(op), e.waits(0));
  }

  // ---- Single passes --------------------------------------------------------------

  predicate At(c: Cfg, x: Ref, sx: LegState, sy: LegState) {
    c.Leg(x) == sx && c.Leg(x.Peer()) == sy
  }

  /** The media handle and its counters are as they were. */
  predicate MediaKept(c: Cfg, d: Cfg) {
    d.media == c.media && d.ups == c.ups && d.downs == c.downs
  }

  lemma ThreeActions(env: Env, c: Cfg, x: Action, y: Action, z: Action, script: Script, p: nat)
    ensures ExecAll(env, c, [x, y, z], script, p) ==
      Execute(env, Execute(env, Execute(env, c, x, script(p, x)), y, script(p, y)), z, script(p, z))
  {
    ListsCompose(env, c, [x, y], [z], script, p);
    assert [x, y] + [z] == [x, y, z];
    TwoActions(env, c, x, y, script, p);
    SingleAction(env, ExecAll(env, c, [x, y], script, p), z, script, p);
  }

  lemma NoTeardown(s: Snapshot, x: Ref)
    requires s.Leg(x) == Calling && !s.media
    requires s.Leg(x.Peer()) != EndRequested && !MustEnd(s, A) && !MustEnd(s, B)
    ensures Teardown(s) == []
  {
    EndsAsOptions(s);
  }

  /** Connecting the peer of a fresh caller. */
  lemma ConnectPass(env: Env, c: Cfg, x: Ref, script: Script, p: nat)
    requires Web(env) && FailFree(script) && !c.dirty && !c.media
    requires At(c, x, Calling, Disconnected) && c.last == Some(Calling)
    ensures var d := Pass(env, c, script, p);
      && d.dirty && MediaKept(c, d) && d.last == Some(d.Leg(x.Peer()))
      && (At(d, x, Calling, Connecting) || At(d, x, Calling, Connected))
  {
    hide Execute, Smooth, Reconcile;
    var ack, act := Do(x, AckConnected, Own), Do(x.Peer(), Connect, From(x));
    ConnectList(c.Snap(), x);
    TwoActions(env, c, ack, act, script, p);
    SmoothAck(env, c, x, AckConnected, Own, script(p, ack));
    SmoothIntent(env, c.(issued := c.issued + [Issue(x, AckConnected, true)]), x.Peer(), Connect, From(x), script(p, act));
  }

  lemma ConnectList(s: Snapshot, x: Ref)
    requires s.Leg(x) == Calling && s.Leg(x.Peer()) == Disconnected && !s.media
    ensures Reconcile(s, Some(Calling)) == [Do(x, AckConnected, Own), Do(x.Peer(), Connect, From(x))]
  {
    NoTeardown(s, x);
  }

  /** Ringing the idle peer of a caller. */
  lemma RingPass(env: Env, c: Cfg, x: Ref, script: Script, p: nat)
    requires Web(env) && FailFree(script) && !c.dirty && !c.media
    requires At(c, x, Calling, Connected)
    ensures var d := Pass(env, c, script, p);
      d.dirty && MediaKept(c, d) && d.last == Some(Ringing) && At(d, x, Calling, Ringing)
  {
    hide Execute, Smooth, Reconcile;
    var ack, act := Do(x, AckConnected, Own), Do(x.Peer(), Ring, From(x));
    RingList(c, x);
    if c.last == Some(Calling) {
      TwoActions(env, c, ack, act, script, p);
      SmoothAck(env, c, x, AckConnected, Own, script(p, ack));
      SmoothIntent(env, c.(issued := c.issued + [Issue(x, AckConnected, true)]), x.Peer(), Ring, From(x), script(p, act));
    } else {
      SingleAction(env, c, act, script, p);
      SmoothIntent(env, c, x.Peer(), Ring, From(x), script(p, act));
    }
  }

  lemma RingList(c: Cfg, x: Ref)
    requires At(c, x, Calling, Connected) && !c.media
    ensures Reconcile(c.Snap(), c.last) ==
      if c.last == Some(Calling) then [Do(x, AckConnected, Own), Do(x.Peer(), Ring, From(x))]
      else [Do(x.Peer(), Ring, From(x))]
  {
    NoTeardown(c.Snap(), x);
  }

  /** The peer rings: the caller is told, nothing moves. */
  lemma RingingPass(env: Env, c: Cfg, x: Ref, script: Script, p: nat)
    requires FailFree(script) && !c.dirty && !c.media
    requires At(c, x, Calling, Ringing) && c.last == Some(Ringing)
    ensures Pass(env, c, script, p) == c.(issued := c.issued + [Issue(x, AckRing, true)])
  {
    hide Execute, Smooth, Reconcile;
    RingingList(c.Snap(), x);
    var act := Do(x, AckRing, From(x.Peer()));
    SingleAction(env, c, act, script, p);
    SmoothAck(env, c, x, AckRing, From(x.Peer()), script(p, act));
  }

  lemma RingingList(s: Snapshot, x: Ref)
    requires s.Leg(x) == Calling && s.Leg(x.Peer()) == Ringing && !s.media
    ensures Reconcile(s, Some(Ringing)) == [Do(x, AckRing, From(x.Peer()))]
  {
    NoTeardown(s, x);
  }

  /** The peer picked up: the caller is answered and media bridged. */
  lemma AnswerPass(env: Env, c: Cfg, x: Ref, script: Script, p: nat)
    requires Web(env) && FailFree(script) && !c.dirty && !c.media
    requires At(c, x, Calling, InCall) && c.last == Some(InCall)
    ensures var d := Pass(env, c, script, p);
      && d.dirty && d.BothInCall() && d.media
      && d.ups == c.ups + 1 && d.downs == c.downs
  {
    hide Execute, Smooth, Reconcile;
    AnswerList(c.Snap(), x);
    var act := Do(x, Answer, From(x.Peer()));
    TwoActions(env, c, act, Media(Bridge), script, p);
    SmoothIntent(env, c, x, Answer, From(x.Peer()), script(p, act));
    SmoothMedia(env, Execute(env, c, act, script(p, act)), Bridge, script(p, Media(Bridge)));
  }

  lemma AnswerList(s: Snapshot, x: Ref)
    requires s.Leg(x) == Calling && s.Leg(x.Peer()) == InCall && !s.media
    ensures Reconcile(s, Some(InCall)) == [Do(x, Answer, From(x.Peer())), Media(Bridge)]
  {
    NoTeardown(s, x);
  }

  /** Leg y's client hung up: it is acknowledged, its peer ended, media released. */
  lemma HangUpPass(env: Env, c: Cfg, y: Ref, script: Script, p: nat)
    requires Web(env) && FailFree(script) && !c.dirty && c.media
    requires At(c, y, EndRequested, InCall)
    ensures var d := Pass(env, c, script, p);
      && d.dirty && At(d, y, Connected, Ending) && !d.media
      && d.ups == c.ups && d.downs == c.downs + 1
  {
    hide Execute, Smooth, Reconcile;
    HangUpList(c, y);
    var ack, end := Do(y, AckEnd, Own), EndOf(y.Peer());
    ThreeActions(env, c, Media(Unbridge), ack, end, script, p);
    SmoothMedia(env, c, Unbridge, script(p, Media(Unbridge)));
    var c1 := c.(media := false, downs := c.downs + 1);
    SmoothIntent(env, c1, y, AckEnd, Own, script(p, ack));
    SmoothIntent(env, Execute(env, c1, ack, script(p, ack)), y.Peer(), End, From(y), script(p, end));
  }

  lemma HangUpList(c: Cfg, y: Ref)
    requires At(c, y, EndRequested, InCall) && c.media
    ensures Reconcile(c.Snap(), c.last) == [Media(Unbridge), Do(y, AckEnd, Own), EndOf(y.Peer())]
  {
    EndsAsOptions(c.Snap());
  }

  /** A leg at rest between calls. */
  predicate Slack(s: LegState) {
    s == Disconnected || s == Connected || s == Ending
  }

  /** Nothing is issued for a pair between calls, for one still connecting its callee, and
      for one in a bridged call. */
  lemma SilentPass(env: Env, c: Cfg, script: Script, p: nat)
    requires !c.dirty
    requires (Slack(c.a) && Slack(c.b) && !c.media) || (c.BothInCall() && c.media)
    ensures Pass(env, c, script, p) == c
  {
    EndsAsOptions(c.Snap());
    assert Reconcile(c.Snap(), c.last) == [];
  }

  lemma ConnectingPass(env: Env, c: Cfg, x: Ref, script: Script, p: nat)
    requires !c.dirty && !c.media && At(c, x, Calling, Connecting) && c.last == Some(Connecting)
    ensures Pass(env, c, script, p) == c
  {
    NoTeardown(c.Snap(), x);
    assert Reconcile(c.Snap(), c.last) == [];
  }

  // ---- Whole drains ----------------------------------------------------------------

  lemma SilentDrain(env: Env, c: Cfg, script: Script, done: nat)
    requires c.dirty && done < MAX_PASSES
    requires (Slack(c.a) && Slack(c.b) && !c.media) || (c.BothInCall() && c.media)
    ensures Drain(env, c, script, done) == Drained(c.(dirty := false), done + 1, false)
  {
    hide Pass;
    SilentPass(env, c.(dirty := false), script, done);
  }

  lemma RingingDrain(env: Env, c: Cfg, x: Ref, script: Script, done: nat)
    requires FailFree(script) && c.dirty && !c.media && done < MAX_PASSES
    requires At(c, x, Calling, Ringing) && c.last == Some(Ringing)
    ensures var r := Drain(env, c, script, done);
      !r.capped && At(r.c, x, Calling, Ringing) && MediaKept(c, r.c)
  {
    hide Pass, FailFree;
    RingingPass(env, c.(dirty := false), x, script, done);
  }

  lemma ConnectedDrain(env: Env, c: Cfg, x: Ref, script: Script, done: nat)
    requires Web(env) && FailFree(script) && c.dirty && !c.media && done + 1 < MAX_PASSES
    requires At(c, x, Calling, Connected)
    ensures var r := Drain(env, c, script, done);
      !r.capped && At(r.c, x, Calling, Ringing) && MediaKept(c, r.c)
  {
    hide Pass, FailFree;
    RingPass(env, c.(dirty := false), x, script, done);
    RingingDrain(env, Pass(env, c.(dirty := false), script, done), x, script, done + 1);
  }

  lemma DialDrain(env: Env, c: Cfg, x: Ref, script: Script)
    requires Web(env) && FailFree(script) && c.dirty && !c.media
    requires At(c, x, Calling, Disconnected) && c.last == Some(Calling)
    ensures var r := Drain(env, c, script, 0);
      && !r.capped && MediaKept(c, r.c)
      && (At(r.c, x, Calling, Ringing) || At(r.c, x, Calling, Connecting))
  {
    hide Pass, FailFree;
    ConnectPass(env, c.(dirty := false), x, script, 0);
    var d := Pass(env, c.(dirty := false), script, 0);
    if At(d, x, Calling, Connected) {
      ConnectedDrain(env, d, x, script, 1);
    } else {
      ConnectingPass(env, d.(dirty := false), x, script, 1);
      assert Drain(env, d, script, 1).c == d.(dirty := false);
    }
  }

  lemma AnswerDrain(env: Env, c: Cfg, x: Ref, script: Script)
    requires Web(env) && FailFree(script) && c.dirty && !c.media
    requires At(c, x, Calling, InCall) && c.last == Some(InCall)
    ensures var r := Drain(env, c, script, 0);
      !r.capped && r.c.BothInCall() && r.c.media && r.c.ups == c.ups + 1 && r.c.downs == c.downs
  {
    hide Pass, FailFree;
    AnswerPass(env, c.(dirty := false), x, script, 0);
    SilentDrain(env, Pass(env, c.(dirty := false), script, 0), script, 1);
  }

  lemma HangUpDrain(env: Env, c: Cfg, y: Ref, script: Script)
    requires Web(env) && FailFree(script) && c.dirty && c.media
    requires At(c, y, EndRequested, InCall)
    ensures var r := Drain(env, c, script, 0);
      !r.capped && At(r.c, y, Connected, Ending) && !r.c.media && r.c.ups == c.ups && r.c.downs == c.downs + 1
  {
    hide Pass, FailFree;
    HangUpPass(env, c.(dirty := false), y, script, 0);
    SilentDrain(env, Pass(env, c.(dirty := false), script, 0), script, 1);
  }

  // ---- The life of one call ----------------------------------------------------------

  /** Between two messages: nothing pending, media and activity flag as the legs say. */
  predicate Still(s: Poly) {
    && s.queued == 0 && !s.capped && !s.c.dirty
    && s.c.media == s.c.BothInCall() && s.active == s.c.BothInCall()
  }

  /** n more connects, m more disconnects, and these hooks fired since s. */
  predicate Since(s: Poly, t: Poly, n: nat, m: nat, hooks: seq<Hook>) {
    t.c.ups == s.c.ups + n && t.c.downs == s.c.downs + m && t.hooks == s.hooks + hooks
  }

  predicate Parked(s: LegState) {
    s == Disconnected || s == Connected
  }

  lemma Dial(env: Env, s: Poly, x: Ref, script: Script)
    requires Web(env) && FailFree(script) && Still(s) && Parked(s.c.Leg(x)) && Parked(s.c.Leg(x.Peer()))
    ensures var t := Serve(env, s, x, Calling, script);
      && Still(t) && Since(s, t, 0, 0, [])
      && (At(t.c, x, Calling, Ringing) || At(t.c, x, Calling, Connecting))
  {
    hide Drain, EndsMasked, FailFree;
    var c := Move(s.c, x, Calling);
    if s.c.Leg(x.Peer()) == Disconnected {
      DialDrain(env, c, x, script);
    } else {
      ConnectedDrain(env, c, x, script, 0);
    }
  }

  lemma CalleeUp(env: Env, s: Poly, x: Ref, script: Script)
    requires Web(env) && FailFree(script) && Still(s)
    requires At(s.c, x, Calling, Connecting) || At(s.c, x, Calling, Ending)
    ensures var t := Serve(env, s, x.Peer(), Connected, script);
      Still(t) && Since(s, t, 0, 0, []) && At(t.c, x, Calling, Ringing)
  {
    hide Drain, EndsMasked, FailFree;
    assert x.Peer().Peer() == x;
    ConnectedDrain(env, Move(s.c, x.Peer(), Connected), x, script, 0);
  }

  lemma PickUp(env: Env, s: Poly, x: Ref, script: Script)
    requires Web(env) && FailFree(script) && Still(s) && At(s.c, x, Calling, Ringing)
    ensures var t := Serve(env, s, x.Peer(), InCall, script);
      Still(t) && Since(s, t, 1, 0, [CallStart]) && t.c.BothInCall()
  {
    hide Drain, EndsMasked, FailFree;
    assert x.Peer().Peer() == x;
    AnswerDrain(env, Move(s.c, x.Peer(), InCall), x, script);
  }

  lemma HangUp(env: Env, s: Poly, y: Ref, script: Script)
    requires Web(env) && FailFree(script) && Still(s) && s.c.BothInCall()
    ensures var t := Serve(env, s, y, EndRequested, script);
      Still(t) && Since(s, t, 0, 1, [CallEnd]) && At(t.c, y, Connected, Ending)
  {
    hide Drain, EndsMasked, FailFree;
    HangUpDrain(env, Move(s.c, y, EndRequested), y, script);
  }

  lemma Release(env: Env, s: Poly, y: Ref, script: Script)
    requires Still(s) && Slack(s.c.a) && Slack(s.c.b) && s.c.Leg(y) == Ending
    ensures var t := Serve(env, s, y, Connected, script);
      Still(t) && Since(s, t, 0, 0, []) && t.c.issued == s.c.issued
      && t.c.Leg(y) == Connected && t.c.Leg(y.Peer()) == s.c.Leg(y.Peer())
  {
    hide Drain, EndsMasked;
    SilentDrain(env, Move(s.c, y, Connected), script, 0);
  }

  /** One call: dialled by `starter`, picked up by its peer, ended by `ender`. The drains of
      its five messages take their scripts from `scripts`. */
  datatype Turn = Turn(starter: Ref, ender: Ref, scripts: nat -> Script)

  function Message(t: Turn, i: nat, leg: Ref, ev: ClientEvent): Item {
    Item(leg, ev, true, t.scripts(i), t.scripts(i))
  }

  function OneCall(env: Env, s: Poly, t: Turn): Poly {
    var s1 := Deliver(env, s, Message(t, 0, t.starter, Offer));
    var s2 := Deliver(env, s1, Message(t, 1, t.starter.Peer(), TransportOpen));
    var s3 := Deliver(env, s2, Message(t, 2, t.starter.Peer(), Accept));
    var s4 := Deliver(env, s3, Message(t, 3, t.ender, EndSignal(false)));
    Deliver(env, s4, Message(t, 4, t.ender.Peer(), EndSignal(true)))
  }

  ghost predicate FailFreeTurn(t: Turn) {
    forall i :: FailFree(t.scripts(i))
  }

  lemma SetUp(env: Env, s: Poly, t: Turn)
    requires Web(env) && FailFreeTurn(t) && Still(s) && Parked(s.c.a) && Parked(s.c.b)
    ensures var s1 := Deliver(env, s, Message(t, 0, t.starter, Offer));
      var s2 := Deliver(env, s1, Message(t, 1, t.starter.Peer(), TransportOpen));
      Still(s2) && Since(s, s2, 0, 0, []) && At(s2.c, t.starter, Calling, Ringing)
  {
    hide Serve, FailFree;
    var x := t.starter;
    Dial(env, s, x, t.scripts(0));
    var s1 := Deliver(env, s, Message(t, 0, x, Offer));
    assert s1 == Serve(env, s, x, Calling, t.scripts(0));
    if At(s1.c, x, Calling, Connecting) {
      CalleeUp(env, s1, x, t.scripts(1));
    }
  }

  lemma TalkAndEnd(env: Env, s: Poly, t: Turn)
    requires Web(env) && FailFreeTurn(t) && Still(s) && At(s.c, t.starter, Calling, Ringing)
    ensures var s3 := Deliver(env, s, Message(t, 2, t.starter.Peer(), Accept));
      var s4 := Deliver(env, s3, Message(t, 3, t.ender, EndSignal(false)));
      var s5 := Deliver(env, s4, Message(t, 4, t.ender.Peer(), EndSignal(true)));
      Still(s5) && Since(s, s5, 1, 1, [CallStart, CallEnd]) && s5.c.a == Connected && s5.c.b == Connected
  {
    hide Serve, FailFree;
    var x, y := t.starter, t.ender;
    PickUp(env, s, x, t.scripts(2));
    var s3 := Deliver(env, s, Message(t, 2, x.Peer(), Accept));
    HangUp(env, s3, y, t.scripts(3));
    var s4 := Deliver(env, s3, Message(t, 3, y, EndSignal(false)));
    assert y.Peer().Peer() == y;
    Release(env, s4, y.Peer(), t.scripts(4));
  }

  function Calls(env: Env, s: Poly, turns: seq<Turn>): Poly {
    if turns == [] then s
    else OneCall(env, Calls(env, s, turns[..|turns| - 1]), turns[|turns| - 1])
  }

  function Pairs(n: nat): seq<Hook> {
    if n == 0 then [] else Pairs(n - 1) + [CallStart, CallEnd]
  }

  /** Reuse: after any number n of complete calls, dialled and ended by either side each
      time, both legs are parked (CONNECTED once n > 0), with n media connects and n
      disconnects and n start/end hook pairs. */
  lemma {:induction false} PairIsReusable(env: Env, s: Poly, turns: seq<Turn>)
    requires Web(env) && Still(s) && Parked(s.c.a) && Parked(s.c.b)
    requires forall i :: 0 <= i < |turns| ==> FailFreeTurn(turns[i])
    ensures var t := Calls(env, s, turns);
      && Still(t) && Parked(t.c.a) && Parked(t.c.b)
      && (turns != [] ==> t.c.a == Connected && t.c.b == Connected)
      && Since(s, t, |turns|, |turns|, Pairs(|turns|))
    decreases turns
  {
    hide Deliver, FailFreeTurn;
    if turns != [] {
      var front, last := turns[..|turns| - 1], turns[|turns| - 1];
      PairIsReusable(env, s, front);
      var s0 := Calls(env, s, front);
      SetUp(env, s0, last);
      var s2 := Deliver(env, Deliver(env, s0, Message(last, 0, last.starter, Offer)),
                        Message(last, 1, last.starter.Peer(), TransportOpen));
      TalkAndEnd(env, s2, last);
    }
  }

  // ---- Teardown storms and redials ----------------------------------------------------

  predicate Ended(s: Poly) {
    && Still(s)
    && (s.c.a == Connected || s.c.a == Ending) && (s.c.b == Connected || s.c.b == Ending)
  }

  predicate Calmer(s: LegState, t: LegState) {
    t == s || (s == Ending && t == Connected)
  }

  /** Once a call has begun to end, any further END or END_RENEGOTIATION messages on either
      leg, answered or not, issue no intent at all; all they can do is complete an ENDING. */
  lemma {:induction false} StormIsAbsorbed(env: Env, s: Poly, items: seq<Item>)
    requires Ended(s)
    requires forall i :: 0 <= i < |items| ==> items[i].ev.EndSignal?
    ensures var t := DeliverAll(env, s, items);
      && Ended(t) && t.c.issued == s.c.issued && Since(s, t, 0, 0, [])
      && Calmer(s.c.a, t.c.a) && Calmer(s.c.b, t.c.b)
    decreases items
  {
    hide Serve;
    if items != [] {
      var it := items[0];
      if s.c.Leg(it.leg) == Ending {
        Release(env, s, it.leg, it.second);
      }
      StormIsAbsorbed(env, Deliver(env, s, it), items[1..]);
    }
  }

  lemma RedialPass(env: Env, c: Cfg, x: Ref, script: Script, p: nat)
    requires FailFree(script) && !c.dirty && !c.media
    requires At(c, x, Calling, Ending) && c.last == Some(Calling)
    ensures Pass(env, c, script, p) == c.(issued := c.issued + [Issue(x, AckConnected, true)])
  {
    hide Execute, Smooth, Reconcile;
    RedialList(c.Snap(), x);
    var act := Do(x, AckConnected, Own);
    SingleAction(env, c, act, script, p);
    SmoothAck(env, c, x, AckConnected, Own, script(p, act));
  }

  lemma RedialList(s: Snapshot, x: Ref)
    requires s.Leg(x) == Calling && s.Leg(x.Peer()) == Ending && !s.media
    ensures Reconcile(s, Some(Calling)) == [Do(x, AckConnected, Own)]
  {
    NoTeardown(s, x);
  }

  /** A redial that arrives while the peer is still ENDING is acknowledged and not ended,
      and the peer is rung as soon as its end completes. */
  lemma RedialIsRung(env: Env, s: Poly, x: Ref, dial: Item, done: Item)
    requires Web(env) && FailFree(dial.second) && FailFree(done.second)
    requires Ended(s) && At(s.c, x, Connected, Ending)
    requires dial.leg == x && dial.ev == Offer && dial.ok
    requires done.leg == x.Peer() && done.ev == EndSignal(true) && done.ok
    ensures var s1 := Deliver(env, s, dial);
      && Still(s1) && At(s1.c, x, Calling, Ending)
      && s1.c.issued == s.c.issued + [Issue(x, AckConnected, true)]
      && Still(Deliver(env, s1, done)) && At(Deliver(env, s1, done).c, x, Calling, Ringing)
  {
    hide Pass, FailFree;
    var c := Move(s.c, x, Calling);
    RedialPass(env, c.(dirty := false), x, dial.second, 0);
    assert Drain(env, c, dial.second, 0).c == Pass(env, c.(dirty := false), dial.second, 0);
    var s1 := Deliver(env, s, dial);
    CalleeUp(env, s1, x, done.second);
  }
}
