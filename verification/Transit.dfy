/** Drains into which the second half of a cancel or a reject may land: a leg in CANCELING or
    REJECTING is left alone by the rules, so each of the two halves that lands disturbs one
    pass and no other (SessionLeg.js lines 320-337). */
module Transit {
  import opened LegStates
  import opened ReconcileRules
  import opened CallModel
  import opened Convergence
  import opened Stalls

  function Marks(s: LegState): nat {
    if InTransit(s) then 1 else 0
  }

  /** How many legs are in transit. */
  function InFlight(c: Cfg): nat {
    Marks(c.a) + Marks(c.b)
  }

  /** d came from c under changes that only land legs in transit; if none landed it is h. */
  predicate LandsOnly(c: Cfg, d: Cfg, h: Cfg) {
    InFlight(d) <= InFlight(c) && (InFlight(d) == InFlight(c) ==> d == h)
  }

  lemma {:induction false} ChangesLand(c: Cfg, chs: seq<Change>)
    requires TameChanges(chs)
    ensures LandsOnly(c, Interfere(c, chs), c)
    decreases chs
  {
    if chs != [] {
      assert chs[0] in chs && forall ch :: ch in chs[1..] ==> ch in chs;
      ChangesLand(Move(c, chs[0].leg, Target(c.Leg(chs[0].leg), chs[0])), chs[1..]);
    }
  }

  lemma MoveKeepsFlight(c: Cfg, r: Ref, s: LegState)
    requires !InTransit(c.Leg(r)) && !InTransit(s)
    ensures InFlight(Move(c, r, s)) == InFlight(c)
  {
  }

  /** A leg acted on stays out of transit: only its peer can land. */
  lemma ActedOnStays(c: Cfg, chs: seq<Change>, r: Ref)
    requires TameChanges(chs) && !InTransit(c.Leg(r))
    ensures Interfere(c, chs).Leg(r) == c.Leg(r) && LandsOnly(c, Interfere(c, chs), c)
  {
    TameLegStays(c, chs, r);
    ChangesLand(c, chs);
  }

  lemma {:induction false} InviteLands(env: Env, c: Cfg, r: Ref, e: Exec, attempt: nat)
    requires TameExec(e) && c.Leg(r) == Ringing
    ensures var d, h := Invite(env, c, r, e, attempt), Invite(env, c, r, Hushed(e), attempt);
      && LandsOnly(c, d.c, h.c) && d.verdict == h.verdict && !InTransit(d.c.Leg(r))
    decreases env.retries - attempt
  {
    hide TameChanges;
    var w := e.waits(attempt);
    var c1 := Interfere(c, w.during);
    ActedOnStays(c, w.during, r);
    if w.outcome == Pc2Down && attempt < env.retries {
      var again := Move(Move(c1, r, Disconnected), r, Ringing);
      MoveKeepsFlight(c1, r, Disconnected);
      MoveKeepsFlight(Move(c1, r, Disconnected), r, Ringing);
      InviteLands(env, again, r, e, attempt + 1);
      assert Invite(env, c, r, Hushed(e), attempt) ==
        Invite(env, Move(Move(c, r, Disconnected), r, Ringing), r, Hushed(e), attempt + 1);
      InviteVerdict(env, again, Move(Move(c, r, Disconnected), r, Ringing), r, Hushed(e), attempt + 1);
    } else {
      MoveKeepsFlight(c1, r, InCall);
      MoveKeepsFlight(c1, r, Disconnected);
    }
  }

  /** Whether an undisturbed invite is answered does not depend on the other leg. */
  lemma {:induction false} InviteVerdict(env: Env, c: Cfg, d: Cfg, r: Ref, e: Exec, attempt: nat)
    requires forall k :: e.waits(k).during == []
    ensures Invite(env, c, r, e, attempt).verdict == Invite(env, d, r, e, attempt).verdict
    decreases env.retries - attempt
  {
    var w := e.waits(attempt);
    if w.outcome == Pc2Down && attempt < env.retries {
      InviteVerdict(env, if c.Leg(r) == Ringing then Move(Move(c, r, Disconnected), r, Ringing) else c,
                    if d.Leg(r) == Ringing then Move(Move(d, r, Disconnected), r, Ringing) else d, r, e, attempt + 1);
    }
  }

  /** What one intent does: its own leg is never put in transit, and the hushed run is the same
      unless the peer landed. */
  predicate IntentLands(c: Cfg, d: Run, h: Run, r: Ref) {
    LandsOnly(c, d.c, h.c) && d.verdict == h.verdict && !InTransit(d.c.Leg(r))
  }

  lemma SipReachLands(env: Env, c: Cfg, r: Ref, e: Exec)
    requires TameExec(e) && !InTransit(c.Leg(r))
    ensures IntentLands(c, SipReach(env, c, r, e), SipReach(env, c, r, Hushed(e)), r)
  {
    hide TameChanges, Invite, InTransit;
    if c.Leg(r) != Ringing && c.Leg(r) != InCall {
      MoveKeepsFlight(c, r, Ringing) by { assert !InTransit(Ringing) by { RingingIsNotInTransit(); } }
      InviteLands(env, Move(c, r, Ringing), r, e, 0);
    }
  }

  lemma RingingIsNotInTransit()
    ensures !InTransit(Ringing)
  {
  }

  /** Through a state of the intent's own, over one awaited operation, and on. */
  lemma WaitLands(c: Cfg, r: Ref, via: LegState, to: LegState, chs: seq<Change>)
    requires TameChanges(chs) && !InTransit(c.Leg(r)) && !InTransit(via) && !InTransit(to)
    ensures var c1 := Interfere(Move(c, r, via), chs);
      && LandsOnly(c, c1, Move(c, r, via)) && !InTransit(c1.Leg(r))
      && LandsOnly(c, Move(c1, r, to), Move(Move(c, r, via), r, to))
  {
    MoveKeepsFlight(c, r, via);
    ActedOnStays(Move(c, r, via), chs, r);
    MoveKeepsFlight(Interfere(Move(c, r, via), chs), r, to);
  }

  lemma ConnectLands(env: Env, c: Cfg, r: Ref, e: Exec)
    requires TameExec(e) && !InTransit(c.Leg(r))
    ensures IntentLands(c, ConnectLeg(env, c, r, e), ConnectLeg(env, c, r, Hushed(e)), r)
  {
    hide TameChanges, SipReach;
    if env.KindOf(r) == Sip { SipReachLands(env, c, r, e); }
    WaitLands(c, r, Connecting, Connected, e.waits(0).during);
  }

  lemma RingLands(env: Env, c: Cfg, r: Ref, e: Exec)
    requires TameExec(e) && !InTransit(c.Leg(r))
    ensures IntentLands(c, RingLeg(env, c, r, e), RingLeg(env, c, r, Hushed(e)), r)
  {
    hide TameChanges, SipReach;
    if env.KindOf(r) == Sip { SipReachLands(env, c, r, e); }
    WaitLands(c, r, Ringing, Ringing, e.waits(0).during);
  }

  lemma TellLands(c: Cfg, r: Ref, e: Exec)
    requires TameExec(e) && !InTransit(c.Leg(r))
    ensures IntentLands(c, TellLeg(c, e), TellLeg(c, Hushed(e)), r)
  {
    hide TameChanges;
    ActedOnStays(c, e.waits(0).during, r);
  }

  lemma AnswerLands(c: Cfg, r: Ref, e: Exec)
    requires TameExec(e) && !InTransit(c.Leg(r))
    ensures IntentLands(c, AnswerLeg(c, r, e), AnswerLeg(c, r, Hushed(e)), r)
  {
    hide TameChanges;
    WaitLands(c, r, Answering, InCall, e.waits(0).during);
  }

  lemma AckEndLands(c: Cfg, r: Ref, e: Exec)
    requires TameExec(e) && LossFree(e) && !InTransit(c.Leg(r))
    ensures IntentLands(c, AckEndLeg(c, r, e), AckEndLeg(c, r, Hushed(e)), r)
  {
    hide TameChanges;
    var w := e.waits(0);
    assert CalmOutcome(w.outcome);
    WaitLands(c, r, c.Leg(r), if w.outcome.Settled? then w.outcome.state else Connected, w.during);
  }

  lemma EndLands(c: Cfg, r: Ref, e: Exec)
    requires TameExec(e) && LossFree(e) && !InTransit(c.Leg(r))
    ensures IntentLands(c, EndLeg(c, r, e), EndLeg(c, r, Hushed(e)), r)
  {
    hide TameChanges;
    var w := e.waits(0);
    assert CalmOutcome(w.outcome);
    WaitLands(c, r, Ending, if w.outcome.Settled? then w.outcome.state else Disconnected, w.during);
  }

  lemma LegIntentLands(env: Env, c: Cfg, r: Ref, i: Intent, e: Exec)
    requires TameExec(e) && LossFree(e) && !InTransit(c.Leg(r)) && i != Cancel && i != Reject
    ensures IntentLands(c, LegIntent(env, c, r, i, e), LegIntent(env, c, r, i, Hushed(e)), r)
  {
    hide TameExec, LossFree, IntentLands, Hushed, InTransit;
    ConnectLands(env, c, r, e);
    RingLands(env, c, r, e);
    TellLands(c, r, e);
    AnswerLands(c, r, e);
    AckEndLands(c, r, e);
    EndLands(c, r, e);
  }

  lemma IllegalInTransit(s: LegState, i: Intent)
    requires InTransit(s) && i != Cancel && i != Reject
    ensures !IsLegal(s, i)
  {
  }

  lemma PunishKeepsFlight(c: Cfg, r: Ref, i: Intent, v: Verdict)
    ensures InFlight(Punish(c, r, i, v)) <= InFlight(c)
    ensures !InTransit(c.Leg(r)) ==> InFlight(Punish(c, r, i, v)) == InFlight(c)
  {
  }

  lemma IntentStepLands(env: Env, c: Cfg, r: Ref, i: Intent, e: Exec)
    requires TameExec(e) && LossFree(e) && i != Cancel && i != Reject
    ensures LandsOnly(c, RunIntent(env, c, r, i, e), RunIntent(env, c, r, i, Hushed(e)))
  {
    hide LegIntent, TameExec, LossFree, Hushed, InTransit;
    var c0 := c.(issued := c.issued + [Issue(r, i, IsLegal(c.Leg(r), i))]);
    if IsLegal(c.Leg(r), i) {
      if InTransit(c.Leg(r)) { IllegalInTransit(c.Leg(r), i); }
      LegIntentLands(env, c0, r, i, e);
      var run := LegIntent(env, c0, r, i, e);
      PunishKeepsFlight(run.c, r, i, run.verdict);
      hide IsLegal, Punish;
    } else {
      PunishKeepsFlight(c0, r, i, Broke);
    }
  }

  lemma MediaStepLands(c: Cfg, op: MediaOp, e: Exec)
    requires TameExec(e)
    ensures LandsOnly(c, RunMedia(c, op, e), RunMedia(c, op, Hushed(e)))
  {
    hide TameChanges;
    ChangesLand(c, e.waits(0).during);
    ChangesLand(c.(media := false, downs := c.downs + 1), e.waits(0).during);
  }

  lemma StepLands(env: Env, c: Cfg, act: Action, e: Exec)
    requires TameExec(e) && LossFree(e) && (act.Do? ==> act.intent != Cancel && act.intent != Reject)
    ensures LandsOnly(c, Execute(env, c, act, e), Execute(env, c, act, Hushed(e)))
  {
    hide RunIntent, RunMedia, TameChanges, LossFree, InFlight;
    var d := match act case Do(r, i, _) => RunIntent(env, c, r, i, e) case Media(op) => RunMedia(c, op, e);
    ChangesLand(d, e.after);
    match act
    case Do(r, i, _) => IntentStepLands(env, c, r, i, e);
    case Media(op) => MediaStepLands(c, op, e);
  }

  // ---- Lists, passes, drains --------------------------------------------------------------

  predicate NoDrops(acts: seq<Action>) {
    forall act :: act in acts && act.Do? ==> act.intent != Cancel && act.intent != Reject
  }

  lemma ReleasesNeverDrop(s: Snapshot)
    ensures NoDrops(Releases(s))
  {
  }

  lemma AcksNeverDrop(s: Snapshot, last: Option<LegState>)
    ensures NoDrops(Acks(s, last) + RingAcks(s, last)) && NoDrops(Acks(s, last))
  {
  }

  lemma ProgressNeverDrops(s: Snapshot)
    ensures NoDrops(Progress(s))
  {
  }

  lemma RulesNeverDrop(s: Snapshot, last: Option<LegState>)
    ensures NoDrops(Reconcile(s, last))
  {
    hide Releases, ToEnd, Acks, RingAcks, Progress;
    ReleasesNeverDrop(s);
    AcksNeverDrop(s, last);
    ProgressNeverDrops(s);
    assert NoDrops(EndActions(ToEnd(s)));
  }

  ghost predicate LossFreeScript(script: Script) {
    forall p, act :: LossFree(script(p, act))
  }

  lemma {:induction false} ListLands(env: Env, c: Cfg, acts: seq<Action>, script: Script, p: nat)
    requires Tame(script) && LossFreeScript(script) && NoDrops(acts)
    ensures LandsOnly(c, ExecAll(env, c, acts, script, p), ExecAll(env, c, acts, Hush(script), p))
    decreases acts
  {
    hide Execute, TameExec, LossFree, Hushed, InFlight;
    if acts != [] {
      var act, e := acts[0], script(p, acts[0]);
      assert act in acts && forall x :: x in acts[1..] ==> x in acts;
      assert Hush(script)(p, act) == Hushed(e);
      StepLands(env, c, act, e);
      ListLands(env, Execute(env, c, act, e), acts[1..], script, p);
    }
  }

  lemma RecoverKeepsFlight(x: Cfg)
    ensures InFlight(Recover(x)) == InFlight(x)
  {
  }

  lemma PassLands(env: Env, c: Cfg, script: Script, p: nat)
    requires Tame(script) && LossFreeScript(script)
    ensures LandsOnly(c, Pass(env, c, script, p), Pass(env, c, Hush(script), p))
  {
    hide Reconcile, Recover, Tame, LossFreeScript, Hush, InFlight, NoDrops;
    var acts := Reconcile(c.Snap(), c.last);
    RulesNeverDrop(c.Snap(), c.last);
    ListLands(env, c, acts, script, p);
    RecoverKeepsFlight(ExecAll(env, c, acts, script, p));
  }

  /** Each leg in transit can disturb one pass. */
  lemma {:induction false} LandingsDisturb(env: Env, c: Cfg, script: Script, done: nat)
    requires Tame(script) && LossFreeScript(script) && done <= MAX_PASSES
    ensures Disturbed(env, c, script, done) <= InFlight(c)
    decreases MAX_PASSES - done
  {
    hide Pass, Reconcile, Tame, LossFree, Hush;
    if c.dirty && done < MAX_PASSES {
      var c0 := c.(dirty := false);
      PassLands(env, c0, script, done);
      LandingsDisturb(env, Pass(env, c0, script, done), script, done + 1);
    }
  }

  /** With t legs in transit a drain that loses no data channel takes at most 5(t+1) passes,
      so it is never cut. */
  lemma LandingDrainsConverge(env: Env, c: Cfg, script: Script)
    requires Tame(script) && LossFreeScript(script)
    ensures var r := Drain(env, c, script, 0);
      r.passes <= 5 * (InFlight(c) + 1) && !r.capped
  {
    hide Drain, Disturbed;
    LandingsDisturb(env, c, script, 0);
    Converges(env, c, script);
  }
}
