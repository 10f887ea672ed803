/** Teardown storms at any time: END messages of both clients that land before, during and
    after the drains of a call's end (SessionLeg.js lines 264-309, ReconcileRules.js
    lines 49-77). */
module Storms {
  import opened LegStates
  import opened ReconcileRules
  import opened CallModel
  import opened Convergence
  import opened DrainExit
  import opened CallRuns
  import opened Ingress
  import opened SequentialRuns

  /** A leg whose end the coordinator has not dealt with yet, and one it has. */
  predicate Up(s: LegState) {
    s == InCall || s == EndRequested
  }

  predicate Down(s: LegState) {
    s == Ending || s == Connected || s == Disconnected
  }

  /** How many intents were issued to a leg. */
  function Issues(xs: seq<Issue>, r: Ref): nat {
    if xs == [] then 0 else Issues(xs[..|xs| - 1], r) + if xs[|xs| - 1].leg == r then 1 else 0
  }

  /** A leg that is down has had one intent more than n, a leg that is up none. */
  predicate Dealt(c: Cfg, r: Ref, n: nat) {
    if Up(c.Leg(r)) then Issues(c.issued, r) == n else Down(c.Leg(r)) && Issues(c.issued, r) == n + 1
  }

  predicate HangUps(chs: seq<Change>) {
    forall ch :: ch in chs ==> ch.HangUp? || ch.EndDone?
  }

  /** Nothing lands but END messages and the second halves of end answers, ends settle on an idle leg, and acknowledging an end does
      not fail; ending the peer may. */
  ghost predicate StormExec(act: Action, e: Exec) {
    && HangUps(e.after)
    && (forall k :: HangUps(e.waits(k).during))
    && (forall k :: e.waits(k).outcome.Settled? ==> Down(e.waits(k).outcome.state))
    && (act.Do? && act.intent == AckEnd ==> !e.waits(0).outcome.Fails())
  }

  ghost predicate Storm(script: Script) {
    forall p, act :: StormExec(act, script(p, act))
  }

  /** An END message lands as the ingress table says. When it is an answer taken in ENDING and
      its transport call takes time, CONNECTED is set on whatever the leg has become. */
  lemma HangUpIsIngress(s: LegState, r: Ref, answer: bool)
    ensures var plan := EndPlan(s, answer);
      Target(s, HangUp(r, answer)) ==
        if plan.now.Some? then plan.now.value else if plan.later.Some? then plan.later.value else s
    ensures EndPlan(s, answer).later.Some? ==>
      s == Ending && forall t :: Down(t) ==> Some(Target(t, EndDone(r))) == EndPlan(s, answer).later
  {
  }

  lemma {:induction false} HangUpsKeep(c: Cfg, chs: seq<Change>, r: Ref)
    requires HangUps(chs) && (Up(c.Leg(r)) || Down(c.Leg(r)))
    ensures var d := Interfere(c, chs);
      && Up(d.Leg(r)) == Up(c.Leg(r)) && Down(d.Leg(r)) == Down(c.Leg(r))
      && (c.Leg(r) == EndRequested ==> d.Leg(r) == EndRequested)
    decreases chs
  {
    if chs != [] {
      assert chs[0] in chs && forall ch :: ch in chs[1..] ==> ch in chs;
      HangUpsKeep(Move(c, chs[0].leg, Target(c.Leg(chs[0].leg), chs[0])), chs[1..], r);
    }
  }

  lemma IssuesAppend(xs: seq<Issue>, x: Issue, r: Ref)
    ensures Issues(xs + [x], r) == Issues(xs, r) + if x.leg == r then 1 else 0
  {
    assert (xs + [x])[..|xs|] == xs;
  }

  // ---- One action -------------------------------------------------------------------------

  /** What a storm's lists hold: media actions, and ends and acknowledgements of legs still up. */
  predicate Apt(act: Action, c: Cfg) {
    act.Do? ==>
      && (act.intent == End || act.intent == AckEnd) && Up(c.Leg(act.leg))
      && (act.intent == AckEnd ==> c.Leg(act.leg) == EndRequested)
  }

  lemma StormIntent(env: Env, c: Cfg, r: Ref, i: Intent, e: Exec)
    requires StormExec(Do(r, i, Own), e) && (i == End || i == AckEnd) && Up(c.Leg(r))
    requires i == AckEnd ==> c.Leg(r) == EndRequested
    ensures Down(RunIntent(env, c, r, i, e).Leg(r))
  {
    hide HangUps;
    var c0 := c.(issued := c.issued + [Issue(r, i, true)]);
    assert IsLegal(c.Leg(r), i);
    var w := e.waits(0);
    if i == End {
      HangUpsKeep(Move(c0, r, Ending), w.during, r);
    } else {
      HangUpsKeep(c0, w.during, r);
    }
  }

  lemma StormPeer(env: Env, c: Cfg, r: Ref, i: Intent, e: Exec)
    requires StormExec(Do(r, i, Own), e) && (i == End || i == AckEnd)
    requires Up(c.Leg(r.Peer())) || Down(c.Leg(r.Peer()))
    ensures var s, t := c.Leg(r.Peer()), RunIntent(env, c, r, i, e).Leg(r.Peer());
      Up(t) == Up(s) && Down(t) == Down(s) && (s == EndRequested ==> t == EndRequested)
  {
    hide HangUps, Up, Down;
    var c0 := c.(issued := c.issued + [Issue(r, i, IsLegal(c.Leg(r), i))]);
    HangUpsKeep(Move(c0, r, Ending), e.waits(0).during, r.Peer());
    HangUpsKeep(c0, e.waits(0).during, r.Peer());
  }

  lemma StormMedia(c: Cfg, op: MediaOp, e: Exec, r: Ref)
    requires StormExec(Media(op), e) && (Up(c.Leg(r)) || Down(c.Leg(r)))
    ensures var s, t := c.Leg(r), RunMedia(c, op, e).Leg(r);
      Up(t) == Up(s) && Down(t) == Down(s) && (s == EndRequested ==> t == EndRequested)
  {
    hide HangUps, Up, Down;
    HangUpsKeep(c, e.waits(0).during, r);
    HangUpsKeep(c.(media := false, downs := c.downs + 1), e.waits(0).during, r);
  }

  /** A leg that an action is not on keeps its side, and an unacknowledged end stays one. */
  predicate SameSide(s: LegState, t: LegState) {
    Up(t) == Up(s) && Down(t) == Down(s) && (s == EndRequested ==> t == EndRequested)
  }

  predicate Both(c: Cfg, na: nat, nb: nat) {
    Dealt(c, A, na) && Dealt(c, B, nb)
  }

  lemma StormLeg(env: Env, c: Cfg, act: Action, e: Exec, q: Ref)
    requires StormExec(act, e) && Apt(act, c) && (Up(c.Leg(q)) || Down(c.Leg(q)))
    ensures var t := Execute(env, c, act, e).Leg(q);
      if act.Do? && act.leg == q then Down(t) && !Up(t) else SameSide(c.Leg(q), t)
  {
    hide HangUps, RunIntent, RunMedia;
    match act
    case Do(r, i, src) =>
      assert StormExec(Do(r, i, Own), e);
      if r == q { StormIntent(env, c, r, i, e); } else { assert r.Peer() == q; StormPeer(env, c, r, i, e); }
      HangUpsKeep(RunIntent(env, c, r, i, e), e.after, q);
    case Media(op) =>
      StormMedia(c, op, e, q);
      HangUpsKeep(RunMedia(c, op, e), e.after, q);
  }

  lemma StormIssues(env: Env, c: Cfg, act: Action, e: Exec, q: Ref)
    ensures Issues(Execute(env, c, act, e).issued, q) ==
      Issues(c.issued, q) + if act.Do? && act.leg == q then 1 else 0
  {
    if act.Do? {
      IssuesAppend(c.issued, Issue(act.leg, act.intent, IsLegal(c.Leg(act.leg), act.intent)), q);
      hide LegIntent, Punish, IsLegal, Issues;
    } else {
      hide Issues;
    }
  }

  lemma StormStep(env: Env, c: Cfg, act: Action, e: Exec, q: Ref, n: nat)
    requires StormExec(act, e) && Apt(act, c) && Dealt(c, q, n)
    ensures Dealt(Execute(env, c, act, e), q, n)
  {
    hide Execute, StormExec, Issues;
    StormLeg(env, c, act, e, q);
    StormIssues(env, c, act, e, q);
  }

  // ---- Lists, passes, drains -----------------------------------------------------------------

  predicate OncePerLeg(acts: seq<Action>) {
    forall j, k :: 0 <= j < k < |acts| && acts[j].Do? && acts[k].Do? ==> acts[j].leg != acts[k].leg
  }

  predicate AptList(acts: seq<Action>, c: Cfg) {
    OncePerLeg(acts) && forall k :: 0 <= k < |acts| ==> Apt(acts[k], c)
  }

  lemma AptTail(env: Env, c: Cfg, acts: seq<Action>, e: Exec, na: nat, nb: nat)
    requires acts != [] && AptList(acts, c) && StormExec(acts[0], e) && Both(c, na, nb)
    ensures AptList(acts[1..], Execute(env, c, acts[0], e))
  {
    hide Execute, StormExec, Issues;
    var tail, d := acts[1..], Execute(env, c, acts[0], e);
    forall k | 0 <= k < |tail| ensures Apt(tail[k], d) {
      assert tail[k] == acts[k + 1];
      if tail[k].Do? { StormLeg(env, c, acts[0], e, tail[k].leg); }
    }
  }

  lemma {:induction false} StormList(env: Env, c: Cfg, acts: seq<Action>, script: Script, p: nat, na: nat, nb: nat)
    requires Storm(script) && AptList(acts, c) && Both(c, na, nb)
    ensures Both(ExecAll(env, c, acts, script, p), na, nb)
    decreases acts
  {
    hide Execute, StormExec, Dealt, OncePerLeg;
    if acts != [] {
      var e := script(p, acts[0]);
      assert Apt(acts[0], c) && StormExec(acts[0], e);
      hide Apt;
      StormStep(env, c, acts[0], e, A, na);
      StormStep(env, c, acts[0], e, B, nb);
      AptTail(env, c, acts, e, na, nb);
      StormList(env, Execute(env, c, acts[0], e), acts[1..], script, p, na, nb);
    }
  }

  lemma ReleasesAreApt(c: Cfg)
    ensures AptList(Releases(c.Snap()), c)
    ensures forall k :: 0 <= k < |Releases(c.Snap())| && Releases(c.Snap())[k].Do? ==>
      c.Leg(Releases(c.Snap())[k].leg) == EndRequested
  {
  }

  lemma EndsAreApt(c: Cfg)
    requires (Up(c.a) || Down(c.a)) && (Up(c.b) || Down(c.b))
    ensures var ends := EndActions(ToEnd(c.Snap()));
      && AptList(ends, c)
      && forall k :: 0 <= k < |ends| ==> ends[k].Do? && c.Leg(ends[k].leg) == InCall
  {
    var refs := ToEnd(c.Snap());
    forall i | 0 <= i < |refs| ensures c.Leg(refs[i]) == InCall {
      assert refs[i] in refs;
      ToEndExactly(c.Snap(), refs[i]);
      assert NeedsEnding(c.Leg(refs[i]));
    }
    ToEndExactly(c.Snap(), A);
  }

  lemma ProgressIsApt(s: Snapshot, last: Option<LegState>, c: Cfg)
    requires (Up(s.a) || Down(s.a)) && (Up(s.b) || Down(s.b))
    ensures Acks(s, last) == [] && RingAcks(s, last) == [] && AptList(Progress(s), c)
  {
  }

  /** With both legs on one side or the other the rules only release, acknowledge and end. */
  lemma StormRules(c: Cfg)
    requires (Up(c.a) || Down(c.a)) && (Up(c.b) || Down(c.b))
    ensures AptList(Reconcile(c.Snap(), c.last), c)
  {
    hide Releases, ToEnd, Acks, RingAcks, Progress, Apt;
    ReleasesAreApt(c);
    EndsAreApt(c);
    ProgressIsApt(c.Snap(), c.last, c);
    var ends, rel := EndActions(ToEnd(c.Snap())), Releases(c.Snap());
    assert AptList(rel + ends, c);
    assert AptList([], c);
  }

  lemma StormPass(env: Env, c: Cfg, script: Script, p: nat, na: nat, nb: nat)
    requires Storm(script) && Both(c, na, nb)
    ensures Both(Pass(env, c, script, p), na, nb)
  {
    hide Reconcile, Storm, AptList, Issues;
    StormRules(c);
    StormList(env, c, Reconcile(c.Snap(), c.last), script, p, na, nb);
  }

  lemma {:induction false} StormDrain(env: Env, c: Cfg, script: Script, done: nat, na: nat, nb: nat)
    requires Storm(script) && Both(c, na, nb) && done <= MAX_PASSES
    ensures Both(Drain(env, c, script, done).c, na, nb)
    decreases MAX_PASSES - done
  {
    hide Pass, Storm, Issues;
    if c.dirty && done < MAX_PASSES {
      StormPass(env, c.(dirty := false), script, done, na, nb);
      StormDrain(env, Pass(env, c.(dirty := false), script, done), script, done + 1, na, nb);
    }
  }

  // ---- Whole storms ------------------------------------------------------------------------------

  lemma StormServe(env: Env, s: Poly, r: Ref, t: LegState, script: Script, na: nat, nb: nat)
    requires Storm(script) && Both(s.c, na, nb)
    requires Up(t) == Up(s.c.Leg(r)) && Down(t) == Down(s.c.Leg(r))
    ensures Both(Serve(env, s, r, t, script).c, na, nb)
  {
    hide Drain, Storm, Issues, EndsMasked;
    var c1 := Move(s.c, r, t);
    assert c1.issued == s.c.issued;
    assert Both(c1, na, nb);
    StormDrain(env, c1, script, 0, na, nb);
  }

  ghost predicate StormItem(it: Item) {
    it.ev.EndSignal? && Storm(it.first) && Storm(it.second)
  }

  lemma StormDeliver(env: Env, s: Poly, it: Item, na: nat, nb: nat)
    requires StormItem(it) && Both(s.c, na, nb)
    ensures Both(Deliver(env, s, it).c, na, nb)
  {
    hide Serve, Storm, Issues;
    var plan, s1 := PlanOf(env, s, it), FirstHalf(env, s, it);
    if plan.now.Some? { StormServe(env, s, it.leg, plan.now.value, it.first, na, nb); }
    if plan.later.Some? && plan.now.None? { StormServe(env, s, it.leg, plan.later.value, it.second, na, nb); }
  }

  /** However many END and END_RENEGOTIATION messages both clients send, and whenever they land,
      inside the drains of the ending included, each leg of a call is sent one intent at most,
      and exactly one once it is out of the call. */
  lemma {:induction false} StormsAreDealtWithOnce(env: Env, s: Poly, items: seq<Item>, na: nat, nb: nat)
    requires Both(s.c, na, nb) && forall it :: it in items ==> StormItem(it)
    ensures Both(DeliverAll(env, s, items).c, na, nb)
    decreases |items|
  {
    hide Deliver, StormItem, Both;
    if items != [] {
      assert items[0] in items && forall it :: it in items[1..] ==> it in items;
      StormDeliver(env, s, items[0], na, nb);
      StormsAreDealtWithOnce(env, Deliver(env, s, items[0]), items[1..], na, nb);
    }
  }

  /** From a full call: at most one intent for each leg, whatever the storm. */
  lemma FullCallEndsOnce(env: Env, s: Poly, items: seq<Item>, r: Ref)
    requires s.c.BothInCall() && forall it :: it in items ==> StormItem(it)
    ensures var t := DeliverAll(env, s, items);
      Issues(t.c.issued, r) <= Issues(s.c.issued, r) + 1
  {
    hide DeliverAll, StormItem, Issues;
    StormsAreDealtWithOnce(env, s, items, Issues(s.c.issued, A), Issues(s.c.issued, B));
  }
}
