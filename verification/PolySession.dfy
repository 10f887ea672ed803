/** The coordinator as the object it is: two legs and a handful of fields, updated in place.
    Every method is tied to the functions of CallModel and CallRuns, so the theorems about
    those hold of this object. */
module PolySessions {
  import opened LegStates
  import opened ReconcileRules
  import M = CallModel
  import D = DrainExit
  import R = CallRuns
  import X = Disposals

  /** The rules as the source writes them: actions pushed onto a local list, and a loop over
      the legs to end. */
  method Rules(s: Snapshot, last: Option<LegState>) returns (actions: seq<Action>)
    ensures actions == Reconcile(s, last)
  {
    var teardown: seq<Action> := [];
    if s.media && !s.BothInCall() { teardown := teardown + [Media(Unbridge)]; }
    if s.a == EndRequested { teardown := teardown + [Do(A, AckEnd, Own)]; }
    if s.b == EndRequested { teardown := teardown + [Do(B, AckEnd, Own)]; }
    assert teardown == Releases(s);
    var toEnd: seq<Ref> := [];
    if PeerKills(s.a, s.b) && B !in toEnd { toEnd := toEnd + [B]; }
    if PeerKills(s.b, s.a) && A !in toEnd { toEnd := toEnd + [A]; }
    if Stranded(s.a, s.b) && A !in toEnd { toEnd := toEnd + [A]; }
    if Stranded(s.b, s.a) && B !in toEnd { toEnd := toEnd + [B]; }
    assert toEnd == ToEnd(s);
    teardown := PushEnds(teardown, toEnd);
    if |teardown| > 0 { return teardown; }
    actions := PushProgress(s, last);
  }

  method PushEnds(teardown: seq<Action>, toEnd: seq<Ref>) returns (r: seq<Action>)
    ensures r == teardown + EndActions(toEnd)
  {
    r := teardown;
    for i := 0 to |toEnd|
      invariant r == teardown + EndActions(toEnd)[..i]
    {
      r := r + [EndOf(toEnd[i])];
    }
  }

  method PushAcks(s: Snapshot, last: Option<LegState>) returns (r: seq<Action>)
    ensures r == Acks(s, last)
  {
    r := [];
    if last == Some(Calling) {
      if s.a == Calling { r := r + [Do(A, AckConnected, Own)]; }
      if s.b == Calling { r := r + [Do(B, AckConnected, Own)]; }
    }
  }

  method PushProgress(s: Snapshot, last: Option<LegState>) returns (actions: seq<Action>)
    ensures actions == if SoftWait(s) then Acks(s, last) else Acks(s, last) + RingAcks(s, last) + Progress(s)
  {
    actions := PushAcks(s, last);
    if (s.a == Calling && s.b == Ending) || (s.b == Calling && s.a == Ending) { return; }
    if last == Some(Ringing) {
      if s.a == Ringing && IsCaller(s.b) { actions := actions + [Do(B, AckRing, From(A))]; }
      if s.b == Ringing && IsCaller(s.a) { actions := actions + [Do(A, AckRing, From(B))]; }
    }
    assert actions == Acks(s, last) + RingAcks(s, last);
    var step := PushStep(s);
    actions := actions + step;
  }

  method PushStep(s: Snapshot) returns (actions: seq<Action>)
    ensures actions == Progress(s)
  {
    actions := [];
    if s.a == Calling && s.b == Calling { return [Do(B, Ring, From(A))]; }
    if s.a == InCall && IsCaller(s.b) {
      actions := [Do(B, Answer, From(A))];
      if !s.media { actions := actions + [Media(Bridge)]; }
      return;
    }
    if s.b == InCall && IsCaller(s.a) {
      actions := [Do(A, Answer, From(B))];
      if !s.media { actions := actions + [Media(Bridge)]; }
      return;
    }
    if IsCaller(s.a) {
      if s.b == Disconnected { return [Do(B, Connect, From(A))]; }
      if CanBeRung(s.b) { return [Do(B, Ring, From(A))]; }
    }
    if IsCaller(s.b) {
      if s.a == Disconnected { return [Do(A, Connect, From(B))]; }
      if CanBeRung(s.a) { return [Do(A, Ring, From(B))]; }
    }
    if s.a == InCall && s.b == InCall && !s.media { return [Media(Bridge)]; }
  }

  /** One side of a call. */
  class SessionLeg {
    const kind: Kind
    var state: LegState
    /** The pair's listener is subscribed. */
    var observed: bool
    var disposed: bool

    constructor (kind: Kind)
      ensures this.kind == kind && state == Disconnected && !observed && !disposed
    {
      this.kind := kind;
      state, observed, disposed := Disconnected, false, false;
    }

    /** dispose: nobody listens to the leg any more. */
    method Dispose()
      modifies this
      ensures disposed && !observed && state == old(state)
    {
      observed, disposed := false, true;
    }
  }

  class PolySession {
    const legA: SessionLeg
    const legB: SessionLeg
    /** Extra INVITE attempts of a SIP leg. */
    const retries: nat
    var mediaHandle: bool
    var lastEvent: Option<LegState>
    var dirty: bool
    var running: bool
    var callActive: bool
    /** Drains waiting on the promise chain. */
    var queued: nat
    var ups: nat
    var downs: nat
    var bridgeFailed: bool
    var issued: seq<M.Issue>
    var hooks: seq<R.Hook>
    var capped: bool
    ghost var masked: bool
    var disposed: bool
    /** How often the teardown hooks have run. */
    var teardowns: nat

    ghost predicate Valid()
      reads this
    {
      legA != legB
    }

    /** The pair hears its legs. */
    ghost predicate Live()
      reads this, legA, legB
    {
      Valid() && legA.observed && legB.observed
    }

    ghost function Env(): M.Env
      reads this
    {
      M.Env(legA.kind, legB.kind, retries)
    }

    ghost function Pair(): M.Cfg
      reads this, legA, legB
    {
      M.Cfg(legA.state, legB.state, mediaHandle, dirty, lastEvent, ups, downs, bridgeFailed, issued)
    }

    ghost function State(): R.Poly
      reads this, legA, legB
    {
      R.Poly(Pair(), callActive, queued, hooks, capped, masked)
    }

    /** Everything but the pair is as before. */
    twostate predicate OnlyPair()
      reads this
    {
      && running == old(running) && queued == old(queued) && callActive == old(callActive)
      && hooks == old(hooks) && capped == old(capped) && masked == old(masked)
    }

    constructor (legA: SessionLeg, legB: SessionLeg, retries: nat)
      requires legA != legB && legA.state == Disconnected && legB.state == Disconnected
      modifies legA, legB
      ensures Live() && !running && State() == R.Fresh
      ensures this.legA == legA && this.legB == legB && this.retries == retries
      ensures !disposed && teardowns == 0
    {
      this.legA, this.legB, this.retries := legA, legB, retries;
      mediaHandle, lastEvent, dirty, running, callActive := false, None, false, false, false;
      queued, ups, downs, bridgeFailed, issued, hooks := 0, 0, 0, false, [], [];
      capped, masked := false, false;
      disposed, teardowns := false, 0;
      new;
      legA.observed, legB.observed := true, true;
    }

    function Leg(r: Ref): SessionLeg {
      match r case A => legA case B => legB
    }

    function KindOf(r: Ref): Kind {
      Leg(r).kind
    }

    /** SessionLeg.setState and the listener it notifies (_onLegChange), if there still is one. */
    method SetState(r: Ref, next: LegState)
      requires Valid()
      modifies this, legA, legB
      ensures Valid() && legA.observed == old(legA.observed) && legB.observed == old(legB.observed)
      ensures var d := M.Move(old(Pair()), r, next);
        Pair() == if Leg(r).observed then d else X.Unheard(old(Pair()), d)
      ensures running == old(running) && callActive == old(callActive) && hooks == old(hooks)
      ensures capped == old(capped) && masked == old(masked)
      ensures queued == old(queued) + if Leg(r).observed && !running && old(Leg(r).state) != next then 1 else 0
    {
      var leg := Leg(r);
      if leg.state != next {
        leg.state := next;
        if leg.observed { OnLegChange(next); }
      }
    }

    method OnLegChange(next: LegState)
      modifies this`lastEvent, this`dirty, this`queued
      ensures lastEvent == Some(next) && dirty && queued == old(queued) + if running then 0 else 1
    {
      lastEvent := Some(next);
      dirty := true;
      if !running {
        queued := queued + 1;
      }
    }

    /** Client changes that land while an await is pending. */
    method Await(changes: seq<M.Change>)
      requires Live() && running
      modifies this, legA, legB
      ensures Live() && OnlyPair() && Pair() == M.Interfere(old(Pair()), changes)
    {
      var i := 0;
      while i < |changes|
        invariant 0 <= i <= |changes| && Live() && OnlyPair()
        invariant M.Interfere(old(Pair()), changes) == M.Interfere(Pair(), changes[i..])
      {
        var ch := changes[i];
        assert changes[i..][0] == ch && changes[i..][1..] == changes[i + 1..];
        SetState(ch.leg, M.Target(Leg(ch.leg).state, ch));
        i := i + 1;
      }
    }

    /** SipLeg._invite. */
    method Invite(r: Ref, e: M.Exec) returns (v: M.Verdict)
      requires Live() && running
      modifies this, legA, legB
      ensures Live() && OnlyPair()
      ensures M.Run(Pair(), v) == M.SipReach(Env(), old(Pair()), r, e)
    {
      hide M.Interfere, M.Move;
      var leg := Leg(r);
      if leg.state == Ringing || leg.state == InCall {
        return M.Fine;
      }
      SetState(r, Ringing);
      ghost var goal := M.SipReach(Env(), old(Pair()), r, e);
      var attempt := 0;
      while true
        invariant 0 <= attempt <= retries && Live() && OnlyPair()
        invariant goal == M.Invite(Env(), Pair(), r, e, attempt)
        decreases retries - attempt
      {
        var w := e.waits(attempt);
        Await(w.during);
        if !w.outcome.Fails() {
          if leg.state == Ringing { SetState(r, InCall); }
          return M.Fine;
        }
        if !(w.outcome == M.Pc2Down && attempt < retries) {
          if leg.state == Ringing { SetState(r, Disconnected); }
          return M.Fault(w.outcome);
        }
        if leg.state == Ringing {
          SetState(r, Disconnected);
          SetState(r, Ringing);
        }
        attempt := attempt + 1;
      }
    }

    /** connect and ring, for either transport. */
    method Reach(r: Ref, i: Intent, e: M.Exec) returns (v: M.Verdict)
      requires Live() && running && (i == Connect || i == Ring)
      modifies this, legA, legB
      ensures Live() && OnlyPair() && M.Run(Pair(), v) == M.LegIntent(Env(), old(Pair()), r, i, e)
    {
      var leg := Leg(r);
      if leg.kind == Sip {
        v := Invite(r, e);
        return;
      }
      if leg.state == (if i == Connect then Connected else Ringing) { return M.Fine; }
      SetState(r, if i == Connect then Connecting else Ringing);
      var w := e.waits(0);
      Await(w.during);
      if i == Connect && !w.outcome.Fails() && w.outcome != M.Deferred {
        SetState(r, Connected);
      }
      v := M.Fault(w.outcome);
    }

    /** The other intents: what the leg already is, where it goes first, where it settles. */
    method Settle(r: Ref, i: Intent, e: M.Exec) returns (v: M.Verdict)
      requires Live() && running && i != Connect && i != Ring
      modifies this, legA, legB
      ensures Live() && OnlyPair() && M.Run(Pair(), v) == M.LegIntent(Env(), old(Pair()), r, i, e)
    {
      hide M.Interfere, M.Move;
      var leg, w := Leg(r), e.waits(0);
      match i {
        case AckConnected => Await(w.during);
        case AckRing => Await(w.during);
        case Answer =>
          if leg.state == InCall { return M.Fine; }
          SetState(r, Answering);
          Await(w.during);
          if !w.outcome.Fails() { SetState(r, InCall); }
        case AckEnd =>
          Await(w.during);
          if !w.outcome.Fails() { SetState(r, if w.outcome.Settled? then w.outcome.state else Connected); }
        case End =>
          if leg.state == Ending || IsTerminal(leg.state) { return M.Fine; }
          SetState(r, Ending);
          Await(w.during);
          if !w.outcome.Fails() && w.outcome != M.Deferred {
            SetState(r, if w.outcome.Settled? then w.outcome.state else Disconnected);
          }
        case Cancel =>
          if leg.state == Canceled { return M.Fine; }
          SetState(r, Canceling);
          Await(w.during);
          if !w.outcome.Fails() { SetState(r, Canceled); }
        case Reject =>
          if leg.state == Rejected { return M.Fine; }
          SetState(r, Rejecting);
          Await(w.during);
          if !w.outcome.Fails() { SetState(r, Rejected); }
      }
      v := M.Fault(w.outcome);
    }

    /** The catch clause of _execute. */
    method Punish(r: Ref, i: Intent, v: M.Verdict)
      requires Live() && running
      modifies this, legA, legB
      ensures Live() && OnlyPair() && Pair() == M.Punish(old(Pair()), r, i, v)
    {
      match v {
        case Fine =>
        case LostChannel => SetState(r, Disconnected);
        case Broke => if FailsLeg(i) { SetState(r, Failed); }
      }
    }

    /** _execute for an intent. */
    method ExecuteIntent(r: Ref, i: Intent, e: M.Exec)
      requires Live() && running
      modifies this, legA, legB
      ensures Live() && OnlyPair() && Pair() == M.RunIntent(Env(), old(Pair()), r, i, e)
    {
      hide M.LegIntent, M.Punish, IsLegal;
      var legal := IsLegal(Leg(r).state, i);
      issued := issued + [M.Issue(r, i, legal)];
      var v := M.Broke;
      if legal {
        if i == Connect || i == Ring { v := Reach(r, i, e); } else { v := Settle(r, i, e); }
      }
      Punish(r, i, v);
    }

    /** _executeMedia. */
    method ExecuteMedia(op: MediaOp, e: M.Exec)
      requires Live() && running
      modifies this, legA, legB
      ensures Live() && OnlyPair() && Pair() == M.RunMedia(old(Pair()), op, e)
    {
      var w := e.waits(0);
      if op == Bridge && !mediaHandle {
        Await(w.during);
        if w.outcome.Fails() {
          bridgeFailed := true;
        } else {
          mediaHandle, bridgeFailed, ups := true, false, ups + 1;
        }
      } else if op == Unbridge && mediaHandle {
        mediaHandle, downs := false, downs + 1;
        Await(w.during);
      }
    }

    method Execute(act: Action, e: M.Exec)
      requires Live() && running
      modifies this, legA, legB
      ensures Live() && OnlyPair() && Pair() == M.Execute(Env(), old(Pair()), act, e)
    {
      match act {
        case Do(r, i, _) => ExecuteIntent(r, i, e);
        case Media(op) => ExecuteMedia(op, e);
      }
      Await(e.after);
    }

    /** _recoverFailedLegs. */
    method RecoverFailedLegs()
      requires Live() && running
      modifies this, legA, legB
      ensures Live() && OnlyPair() && Pair() == M.Recover(old(Pair()))
    {
      if legA.state == Failed && !IsActiveCall(legB.state) { SetState(A, Disconnected); }
      if legB.state == Failed && !IsActiveCall(legA.state) { SetState(B, Disconnected); }
    }

    /** The body of the drain loop. */
    method RunPass(script: M.Script, p: nat)
      requires Live() && running
      modifies this, legA, legB
      ensures Live() && OnlyPair() && Pair() == M.Pass(Env(), old(Pair()), script, p)
    {
      var actions := Rules(Snapshot(legA.state, legB.state, mediaHandle), lastEvent);
      var i := 0;
      while i < |actions|
        invariant 0 <= i <= |actions| && Live() && OnlyPair()
        invariant M.ExecAll(Env(), old(Pair()), actions, script, p)
          == M.ExecAll(Env(), Pair(), actions[i..], script, p)
      {
        assert actions[i..][0] == actions[i] && actions[i..][1..] == actions[i + 1..];
        Execute(actions[i], script(p, actions[i]));
        i := i + 1;
      }
      RecoverFailedLegs();
    }

    /** The loop of _drain; `cut` says that it hit the pass cap. */
    method DrainLoop(script: M.Script) returns (cut: bool, ghost mask: bool)
      requires Live() && running
      modifies this, legA, legB
      ensures Live() && OnlyPair()
      ensures var r := M.Drain(Env(), old(Pair()), script, 0);
        Pair() == r.c && cut == r.capped && mask == D.EndsMasked(Env(), old(Pair()), script, 0)
    {
      hide M.Pass;
      cut, mask := false, false;
      var passes := 0;
      while dirty
        invariant 0 <= passes <= M.MAX_PASSES && Live() && OnlyPair() && !cut
        invariant M.Drain(Env(), old(Pair()), script, 0) == M.Drain(Env(), Pair(), script, passes)
        invariant D.EndsMasked(Env(), old(Pair()), script, 0) ==
          if dirty then D.EndsMasked(Env(), Pair(), script, passes) else mask
        decreases M.MAX_PASSES - passes, dirty
      {
        dirty := false;
        if passes == M.MAX_PASSES {
          cut, mask := true, false;
          break;
        }
        mask := D.Masked(Pair());
        RunPass(script, passes);
        passes := passes + 1;
      }
    }

    /** _settleCallActivity. */
    method SettleCallActivity()
      requires Live() && running
      modifies this
      ensures Live() && Pair() == old(Pair()) && running && queued == old(queued)
      ensures capped == old(capped) && masked == old(masked)
      ensures callActive == Pair().BothInCall()
      ensures hooks == old(hooks) + R.Edge(old(callActive), Pair().BothInCall())
    {
      var active := legA.state == InCall && legB.state == InCall;
      if active == callActive { return; }
      callActive := active;
      hooks := hooks + [if active then R.CallStart else R.CallEnd];
    }

    /** _drain up to its last await. */
    method DrainAndSettle(script: M.Script)
      requires Live() && running
      modifies this, legA, legB
      ensures Live() && running && queued == old(queued)
      ensures var r := M.Drain(Env(), old(Pair()), script, 0);
        && Pair() == r.c && callActive == r.c.BothInCall()
        && hooks == old(hooks) + R.Edge(old(callActive), r.c.BothInCall())
        && capped == (if old(dirty) then r.capped else old(capped))
        && masked == if old(dirty) then D.EndsMasked(Env(), old(Pair()), script, 0) else old(masked)
    {
      hide M.Drain, D.EndsMasked, R.Edge;
      var worked := dirty;
      ghost var mask;
      var cut;
      cut, mask := DrainLoop(script);
      if worked { capped, masked := cut, mask; }
      SettleCallActivity();
    }

    /** _drain, taken off the chain. */
    method RunDrain(script: M.Script, hook: seq<M.Change>)
      requires Live() && !running
      modifies this, legA, legB
      ensures Live() && !running
      ensures State() == R.Apply(Env(), old(State()), R.RunDrain(script, hook))
    {
      hide M.Drain, D.EndsMasked, M.Interfere, R.Edge;
      if queued == 0 { return; }
      queued := queued - 1;
      running := true;
      assert Pair() == old(Pair());
      DrainAndSettle(script);
      Await(hook);
      running := false;
    }

    /** A client message that changes its leg while no drain is running. */
    method Client(r: Ref, to: LegState)
      requires Live() && !running
      modifies this, legA, legB
      ensures Live() && !running && State() == R.Apply(Env(), old(State()), R.Client(r, to))
    {
      SetState(r, to);
    }

    /** _settle. */
    method SettleChain()
      requires Live() && !running
      modifies this
      ensures Live() && !running && State() == R.Apply(Env(), old(State()), R.Settle)
    {
      if dirty { queued := queued + 1; }
    }

    /** dispose, when nothing else runs: the first call unsubscribes, releases the handle, runs the
        teardown hooks and disposes the legs; any other does nothing. */
    method Dispose()
      requires Valid() && !running
      modifies this, legA, legB
      ensures Valid() && !running && disposed
      ensures State() == if old(disposed) then old(State()) else old(State()).(c := R.Dispose(old(Pair())))
      ensures R.Dispose(old(Pair())) == X.Return(X.Detach(old(Pair()))).c
      ensures teardowns == old(teardowns) + if old(disposed) then 0 else 1
      ensures !old(disposed) ==> !legA.observed && !legB.observed && legA.disposed && legB.disposed
      ensures old(disposed) ==> legA.observed == old(legA.observed) && legB.observed == old(legB.observed)
    {
      if disposed { return; }
      disposed := true;
      legA.observed, legB.observed := false, false;
      if mediaHandle {
        mediaHandle, downs := false, downs + 1;
      }
      teardowns := teardowns + 1;
      legA.Dispose();
      legB.Dispose();
    }
  }
}
