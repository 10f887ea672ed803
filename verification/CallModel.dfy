/** One call pair and its drain loop as functions of an oracle (SessionLeg.js,
    SipLeg.js, PolySession.js). Every awaited transport operation takes its outcome,
    and the leg changes that land while it is pending, from the oracle. */
module CallModel {
  import opened LegStates
  import opened ReconcileRules

  /** How a transport operation ends. */
  datatype Outcome = Ok | Deferred | Settled(state: LegState) | NoOpenDc | Pc2Down | Throws {
    predicate Fails() {
      NoOpenDc? || Pc2Down? || Throws?
    }
  }

  /** A leg change made by that leg's own client: to a given state, the second half of a
      cancel or reject, whatever an END message does in the state it finds, or the second half
      of an end answer that was taken in ENDING: it sets CONNECTED even if the leg has dropped
      since. On a leg that is in another call by then that is a `SetTo`. */
  datatype Change =
    | SetTo(leg: Ref, to: LegState) | Finish(leg: Ref) | HangUp(leg: Ref, answer: bool) | EndDone(leg: Ref)

  datatype Wait = Wait(during: seq<Change>, outcome: Outcome)

  /** What one executed action meets: the n-th transport operation it awaits, and the
      changes that land before the coordinator resumes. */
  datatype Exec = Exec(waits: nat -> Wait, after: seq<Change>)

  /** Keyed by pass and action; the actions of one pass are distinct. */
  type Script = (nat, Action) -> Exec

  /** Constants of a pair: the transports and the extra INVITE attempts of a SIP leg. */
  datatype Env = Env(kindA: Kind, kindB: Kind, retries: nat) {
    function KindOf(r: Ref): Kind {
      match r case A => kindA case B => kindB
    }
  }

  /** An intent the coordinator issued, and whether the leg's state allowed it. */
  datatype Issue = Issue(leg: Ref, intent: Intent, legal: bool)

  /** `ups` and `downs` count the media connects that succeeded and the disconnects made;
      `bridgeFailed` is the outcome of the latest connect. */
  datatype Cfg = Cfg(a: LegState, b: LegState, media: bool, dirty: bool, last: Option<LegState>,
                     ups: nat, downs: nat, bridgeFailed: bool, issued: seq<Issue>) {
    function Leg(r: Ref): LegState {
      match r case A => a case B => b
    }

    predicate BothInCall() {
      a == InCall && b == InCall
    }

    function Snap(): Snapshot {
      Snapshot(a, b, media)
    }
  }

  const Start := Cfg(Disconnected, Disconnected, false, false, None, 0, 0, false, [])

  /** Marking the pair dirty is the only way its legs and last event can change. */
  predicate Keeps(c: Cfg, d: Cfg) {
    && (c.dirty ==> d.dirty)
    && (!d.dirty ==> d.a == c.a && d.b == c.b && d.last == c.last)
  }

  function Held(c: Cfg): int {
    if c.media then 1 else 0
  }

  /** The media counters move together with the handle. */
  predicate Accounts(c: Cfg, d: Cfg) {
    d.ups - d.downs - Held(d) == c.ups - c.downs - Held(c)
  }

  /** Only the legs, the dirty flag and the last event may differ. */
  predicate SameWire(c: Cfg, d: Cfg) {
    && d.media == c.media && d.ups == c.ups && d.downs == c.downs
    && d.bridgeFailed == c.bridgeFailed && d.issued == c.issued
  }

  /** SessionLeg.setState together with PolySession's listener. */
  function Move(c: Cfg, r: Ref, s: LegState): (d: Cfg)
    ensures Keeps(c, d) && d.Leg(r) == s && d.Leg(r.Peer()) == c.Leg(r.Peer())
    ensures c.Leg(r) != s ==> d.dirty && d.last == Some(s)
    ensures c.Leg(r) == s ==> d == c
    ensures SameWire(c, d)
  {
    if c.Leg(r) == s then c
    else match r
      case A => c.(a := s, dirty := true, last := Some(s))
      case B => c.(b := s, dirty := true, last := Some(s))
  }

  function Target(s: LegState, ch: Change): LegState {
    match ch
    case SetTo(_, to) => to
    case Finish(_) => if s == Canceling then Canceled else if s == Rejecting then Rejected else s
    case HangUp(_, answer) =>
      if s == Ending && answer then Connected
      else if answer && (s == Calling || s == Ringing || s == Answering) then s
      else if IsTerminal(s) || s == Ending || s == EndRequested || s == Connected || s == Disconnected then s
      else EndRequested
    case EndDone(_) => if s == Ending || s == Disconnected then Connected else s
  }

  function Interfere(c: Cfg, chs: seq<Change>): (d: Cfg)
    ensures Keeps(c, d) && SameWire(c, d)
    decreases chs
  {
    if chs == [] then c
    else Interfere(Move(c, chs[0].leg, Target(c.Leg(chs[0].leg), chs[0])), chs[1..])
  }

  // ---- Intents ---------------------------------------------------------------

  datatype Verdict = Fine | LostChannel | Broke

  datatype Run = Run(c: Cfg, verdict: Verdict)

  function Fault(o: Outcome): Verdict {
    if o == NoOpenDc then LostChannel else if o.Fails() then Broke else Fine
  }

  /** SipLeg._invite from its first attempt on: the leg is RINGING. */
  function Invite(env: Env, c: Cfg, r: Ref, e: Exec, attempt: nat): (d: Run)
    ensures Keeps(c, d.c) && SameWire(c, d.c)
    decreases env.retries - attempt
  {
    var w := e.waits(attempt);
    var c1 := Interfere(c, w.during);
    if !w.outcome.Fails() then
      Run(if c1.Leg(r) == Ringing then Move(c1, r, InCall) else c1, Fine)
    else if w.outcome == Pc2Down && attempt < env.retries then
      Invite(env, if c1.Leg(r) == Ringing then Move(Move(c1, r, Disconnected), r, Ringing) else c1,
             r, e, attempt + 1)
    else
      Run(if c1.Leg(r) == Ringing then Move(c1, r, Disconnected) else c1, Fault(w.outcome))
  }

  function SipReach(env: Env, c: Cfg, r: Ref, e: Exec): (d: Run)
    ensures Keeps(c, d.c) && SameWire(c, d.c)
    ensures c.Leg(r) != Ringing && c.Leg(r) != InCall ==> d.c.dirty
  {
    if c.Leg(r) == Ringing || c.Leg(r) == InCall then Run(c, Fine)
    else Invite(env, Move(c, r, Ringing), r, e, 0)
  }

  function ConnectLeg(env: Env, c: Cfg, r: Ref, e: Exec): (d: Run)
    ensures Keeps(c, d.c) && SameWire(c, d.c)
    ensures c.Leg(r) == Disconnected ==> d.c.dirty
  {
    if env.KindOf(r) == Sip then SipReach(env, c, r, e)
    else if c.Leg(r) == Connected then Run(c, Fine)
    else
      var w := e.waits(0);
      var c1 := Interfere(Move(c, r, Connecting), w.during);
      Run(if w.outcome.Fails() || w.outcome == Deferred then c1 else Move(c1, r, Connected),
          Fault(w.outcome))
  }

  function RingLeg(env: Env, c: Cfg, r: Ref, e: Exec): (d: Run)
    ensures Keeps(c, d.c) && SameWire(c, d.c)
    ensures c.Leg(r) != Ringing && c.Leg(r) != InCall ==> d.c.dirty
  {
    if env.KindOf(r) == Sip then SipReach(env, c, r, e)
    else if c.Leg(r) == Ringing then Run(c, Fine)
    else Run(Interfere(Move(c, r, Ringing), e.waits(0).during), Fault(e.waits(0).outcome))
  }

  /** An intent with no state of its own: the transport is told, nothing moves. */
  function TellLeg(c: Cfg, e: Exec): (d: Run)
    ensures Keeps(c, d.c) && SameWire(c, d.c)
  {
    Run(Interfere(c, e.waits(0).during), Fault(e.waits(0).outcome))
  }

  function AnswerLeg(c: Cfg, r: Ref, e: Exec): (d: Run)
    ensures Keeps(c, d.c) && SameWire(c, d.c)
    ensures IsCaller(c.Leg(r)) ==> d.c.dirty
  {
    if c.Leg(r) == InCall then Run(c, Fine)
    else
      var c1 := Interfere(Move(c, r, Answering), e.waits(0).during);
      Run(if e.waits(0).outcome.Fails() then c1 else Move(c1, r, InCall), Fault(e.waits(0).outcome))
  }

  function AckEndLeg(c: Cfg, r: Ref, e: Exec): (d: Run)
    ensures Keeps(c, d.c) && SameWire(c, d.c)
  {
    var w := e.waits(0);
    var c1 := Interfere(c, w.during);
    Run(if w.outcome.Fails() then c1
        else Move(c1, r, if w.outcome.Settled? then w.outcome.state else Connected),
        Fault(w.outcome))
  }

  function EndLeg(c: Cfg, r: Ref, e: Exec): (d: Run)
    ensures Keeps(c, d.c) && SameWire(c, d.c)
    ensures NeedsEnding(c.Leg(r)) ==> d.c.dirty
  {
    if c.Leg(r) == Ending || IsTerminal(c.Leg(r)) then Run(c, Fine)
    else
      var w := e.waits(0);
      var c1 := Interfere(Move(c, r, Ending), w.during);
      Run(if w.outcome.Fails() || w.outcome == Deferred then c1
          else Move(c1, r, if w.outcome.Settled? then w.outcome.state else Disconnected),
          Fault(w.outcome))
  }

  /** cancel and reject: through a transient state to a settled one. */
  function DropLeg(c: Cfg, r: Ref, via: LegState, to: LegState, e: Exec): (d: Run)
    ensures Keeps(c, d.c) && SameWire(c, d.c)
  {
    if c.Leg(r) == to then Run(c, Fine)
    else
      var c1 := Interfere(Move(c, r, via), e.waits(0).during);
      Run(if e.waits(0).outcome.Fails() then c1 else Move(c1, r, to), Fault(e.waits(0).outcome))
  }

  /** A legal intent on one leg. */
  function LegIntent(env: Env, c: Cfg, r: Ref, i: Intent, e: Exec): (d: Run)
    ensures Keeps(c, d.c) && SameWire(c, d.c)
  {
    match i
    case Connect => ConnectLeg(env, c, r, e)
    case Ring => RingLeg(env, c, r, e)
    case AckConnected => TellLeg(c, e)
    case AckRing => TellLeg(c, e)
    case Answer => AnswerLeg(c, r, e)
    case AckEnd => AckEndLeg(c, r, e)
    case End => EndLeg(c, r, e)
    case Cancel => DropLeg(c, r, Canceling, Canceled, e)
    case Reject => DropLeg(c, r, Rejecting, Rejected, e)
  }

  /** What a failed intent does to its leg. */
  function Punish(c: Cfg, r: Ref, i: Intent, v: Verdict): (d: Cfg)
    ensures Keeps(c, d) && SameWire(c, d)
  {
    match v
    case Fine => c
    case LostChannel => Move(c, r, Disconnected)
    case Broke => if FailsLeg(i) then Move(c, r, Failed) else c
  }

  function RunIntent(env: Env, c: Cfg, r: Ref, i: Intent, e: Exec): (d: Cfg)
    ensures Keeps(c, d) && SameWire(c.(issued := d.issued), d)
    ensures d.issued == c.issued + [Issue(r, i, IsLegal(c.Leg(r), i))]
  {
    var legal := IsLegal(c.Leg(r), i);
    var c0 := c.(issued := c.issued + [Issue(r, i, legal)]);
    if legal then
      var run := LegIntent(env, c0, r, i, e);
      Punish(run.c, r, i, run.verdict)
    else Punish(c0, r, i, Broke)
  }

  function RunMedia(c: Cfg, op: MediaOp, e: Exec): (d: Cfg)
    ensures Keeps(c, d) && Accounts(c, d) && d.issued == c.issued
    ensures op == Unbridge ==> !d.media
    ensures op == Bridge && c.media ==> d == c
  {
    var w := e.waits(0);
    match op
    case Bridge =>
      if c.media then c
      else
        var c1 := Interfere(c, w.during);
        if w.outcome.Fails() then c1.(bridgeFailed := true)
        else c1.(media := true, bridgeFailed := false, ups := c1.ups + 1)
    case Unbridge =>
      if !c.media then c
      else Interfere(c.(media := false, downs := c.downs + 1), w.during)
  }

  function Execute(env: Env, c: Cfg, act: Action, e: Exec): (d: Cfg)
    ensures Keeps(c, d) && Accounts(c, d)
  {
    match act
    case Do(r, i, _) => Interfere(RunIntent(env, c, r, i, e), e.after)
    case Media(op) => Interfere(RunMedia(c, op, e), e.after)
  }

  function ExecAll(env: Env, c: Cfg, acts: seq<Action>, script: Script, p: nat): (d: Cfg)
    ensures Keeps(c, d) && Accounts(c, d)
    decreases acts
  {
    if acts == [] then c
    else ExecAll(env, Execute(env, c, acts[0], script(p, acts[0])), acts[1..], script, p)
  }

  function RecoverLeg(c: Cfg, r: Ref): (d: Cfg)
    ensures Keeps(c, d) && SameWire(c, d)
    ensures !d.dirty ==> (c.Leg(r) == Failed ==> IsActiveCall(c.Leg(r.Peer())))
  {
    if c.Leg(r) == Failed && !IsActiveCall(c.Leg(r.Peer())) then Move(c, r, Disconnected) else c
  }

  function Recover(c: Cfg): (d: Cfg)
    ensures Keeps(c, d) && SameWire(c, d)
  {
    RecoverLeg(RecoverLeg(c, A), B)
  }

  /** One pass over a snapshot whose dirty flag has just been cleared. */
  function Pass(env: Env, c: Cfg, script: Script, p: nat): (d: Cfg)
    ensures Keeps(c, d) && Accounts(c, d)
  {
    Recover(ExecAll(env, c, Reconcile(c.Snap(), c.last), script, p))
  }

  // ---- The drain -------------------------------------------------------------

  const MAX_PASSES: nat := 50

  datatype Drained = Drained(c: Cfg, passes: nat, capped: bool)

  /** PolySession._drain after `done` passes. */
  function Drain(env: Env, c: Cfg, script: Script, done: nat): (r: Drained)
    requires done <= MAX_PASSES
    ensures !r.c.dirty && Accounts(c, r.c)
    ensures done <= r.passes <= MAX_PASSES
    ensures r.capped ==> r.passes == MAX_PASSES
    decreases MAX_PASSES - done
  {
    if !c.dirty then Drained(c, done, false)
    else if done == MAX_PASSES then Drained(c.(dirty := false), done, true)
    else Drain(env, Pass(env, c.(dirty := false), script, done), script, done + 1)
  }
}
