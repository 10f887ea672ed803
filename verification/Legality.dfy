/** When the rule table and the legality table agree: which intents a drain issues are legal in
    the state their leg is then in (LegStateBehavior.js lines 12-31, ReconcileRules.js
    lines 62-142). */
module Legality {
  import opened LegStates
  import opened ReconcileRules
  import opened CallModel
  import opened Convergence
  import opened DrainExit
  import opened Stalls
  import opened Transit
  import opened CallRuns
  import opened Ingress
  import opened SequentialRuns

  predicate IsAck(i: Intent) {
    i == AckConnected || i == AckRing
  }

  /** A leg that is acted on twice in one list is only acknowledged before the last time. */
  predicate Orderly(acts: seq<Action>) {
    forall j, k :: 0 <= j < k < |acts| && acts[j].Do? && acts[k].Do? && acts[j].leg == acts[k].leg
      ==> IsAck(acts[j].intent)
  }

  predicate LegalFrom(s: Snapshot, acts: seq<Action>) {
    && Orderly(acts)
    && forall k :: 0 <= k < |acts| && acts[k].Do? ==> IsLegal(s.Leg(acts[k].leg), acts[k].intent)
  }

  lemma ReleasesAreLegal(s: Snapshot)
    ensures LegalFrom(s, Releases(s))
    ensures forall k :: 0 <= k < |Releases(s)| && Releases(s)[k].Do? ==>
      s.Leg(Releases(s)[k].leg) == EndRequested
  {
  }

  lemma EndsAreLegal(s: Snapshot, k: nat)
    requires k < |ToEnd(s)|
    ensures EndActions(ToEnd(s))[k] == EndOf(ToEnd(s)[0]) && NeedsEnding(s.Leg(ToEnd(s)[0]))
    ensures |ToEnd(s)| == 1
  {
    ToEndExactly(s, ToEnd(s)[0]);
  }

  lemma TeardownIsLegal(s: Snapshot)
    ensures LegalFrom(s, Teardown(s))
  {
    hide Releases, ToEnd;
    ReleasesAreLegal(s);
    if ToEnd(s) != [] {
      EndsAreLegal(s, 0);
      assert IsLegal(s.Leg(ToEnd(s)[0]), End);
    }
  }

  /** Nothing but acknowledgements of callers. */
  predicate AcksOnly(s: Snapshot, xs: seq<Action>) {
    forall k :: 0 <= k < |xs| ==> xs[k].Do? && IsAck(xs[k].intent) && IsCaller(s.Leg(xs[k].leg))
  }

  lemma AcksOnlyIsLegal(s: Snapshot, xs: seq<Action>)
    requires AcksOnly(s, xs)
    ensures LegalFrom(s, xs)
  {
  }

  lemma AcksAreLegal(s: Snapshot, last: Option<LegState>)
    ensures AcksOnly(s, Acks(s, last)) && AcksOnly(s, Acks(s, last) + RingAcks(s, last))
    ensures LegalFrom(s, Acks(s, last)) && LegalFrom(s, Acks(s, last) + RingAcks(s, last))
  {
    assert AcksOnly(s, Acks(s, last)) && AcksOnly(s, RingAcks(s, last));
    hide Acks, RingAcks, LegalFrom, IsAck, IsCaller;
    AcksOnlyIsLegal(s, Acks(s, last));
    AcksOnlyIsLegal(s, Acks(s, last) + RingAcks(s, last));
  }

  lemma DriverIsLegal(s: Snapshot)
    requires Driver(s).Some?
    ensures IsLegal(s.Leg(Driver(s).value.0), Driver(s).value.1)
  {
  }

  lemma LegalAppend(s: Snapshot, xs: seq<Action>, ys: seq<Action>)
    requires LegalFrom(s, xs) && LegalFrom(s, ys)
    requires forall k :: 0 <= k < |xs| && xs[k].Do? ==> IsAck(xs[k].intent)
    ensures LegalFrom(s, xs + ys)
  {
  }

  /** Every list the rules produce, from any snapshot and any event, is legal as it stands. */
  lemma ReconcileIsLegal(s: Snapshot, last: Option<LegState>)
    ensures LegalFrom(s, Reconcile(s, last))
  {
    hide Acks, RingAcks, Teardown, Progress;
    if Teardown(s) != [] {
      TeardownIsLegal(s);
    } else {
      AcksAreLegal(s, last);
      ProgressAsOptions(s);
      if Driver(s).Some? {
        DriverIsLegal(s);
      }
      LegalAppend(s, Acks(s, last) + RingAcks(s, last), Progress(s));
    }
  }

  // ---- One list, whatever fails -----------------------------------------------------

  predicate AllLegal(issued: seq<Issue>) {
    forall k :: 0 <= k < |issued| ==> issued[k].legal
  }

  lemma AllLegalAppend(xs: seq<Issue>, x: Issue)
    ensures AllLegal(xs + [x]) <==> AllLegal(xs) && x.legal
  {
    assert (xs + [x])[|xs|] == x && forall k :: 0 <= k < |xs| ==> (xs + [x])[k] == xs[k];
  }

  predicate OnSameLeg(x: Action, y: Action) {
    x.Do? && y.Do? && x.leg == y.leg
  }

  /** No acknowledgement of the list fails that a later action on the same leg follows. */
  predicate AcksHold(acts: seq<Action>, script: Script, p: nat) {
    forall j, k :: 0 <= j < k < |acts| && OnSameLeg(acts[j], acts[k]) ==> !script(p, acts[j]).waits(0).outcome.Fails()
  }

  lemma {:induction false} IssuedGrows(env: Env, c: Cfg, acts: seq<Action>, script: Script, p: nat)
    ensures c.issued <= ExecAll(env, c, acts, script, p).issued
    decreases acts
  {
    if acts != [] {
      StepIssues(env, c, acts[0], script(p, acts[0]));
      hide Execute;
      IssuedGrows(env, Execute(env, c, acts[0], script(p, acts[0])), acts[1..], script, p);
    }
  }

  lemma StepIssues(env: Env, c: Cfg, act: Action, e: Exec)
    ensures Execute(env, c, act, e).issued ==
      if act.Do? then c.issued + [Issue(act.leg, act.intent, IsLegal(c.Leg(act.leg), act.intent))] else c.issued
  {
    hide LegIntent, Punish, IsLegal;
  }

  /** Behind an acknowledgement its leg stands as before if and only if it did not fail. */
  lemma AckStands(env: Env, c: Cfg, r: Ref, i: Intent, src: Source, e: Exec)
    requires TameExec(e) && IsAck(i) && IsLegal(c.Leg(r), i)
    ensures IsCaller(c.Leg(r))
    ensures var t := Execute(env, c, Do(r, i, src), e).Leg(r);
      if e.waits(0).outcome.Fails() then t == Disconnected || t == Failed else t == c.Leg(r)
  {
    hide TameChanges;
    var c0 := c.(issued := c.issued + [Issue(r, i, true)]);
    TameLegStays(c0, e.waits(0).during, r);
    TameLegStays(RunIntent(env, c, r, i, e), e.after, r);
  }

  /** An action of the list is on that leg. */
  predicate ActsOn(acts: seq<Action>, r: Ref) {
    exists k :: 0 <= k < |acts| && acts[k].Do? && acts[k].leg == r
  }

  predicate NeverConnects(acts: seq<Action>, r: Ref) {
    forall act :: act in acts && act.Do? && act.leg == r ==> act.intent != Connect
  }

  /** A leg that is gone refuses whatever the list still has for it. */
  lemma {:induction false} GoneRefuses(env: Env, c: Cfg, acts: seq<Action>, script: Script, p: nat, r: Ref)
    requires Tame(script) && (c.Leg(r) == Disconnected || c.Leg(r) == Failed)
    requires ActsOn(acts, r) && NeverConnects(acts, r)
    ensures !AllLegal(ExecAll(env, c, acts, script, p).issued)
    decreases acts
  {
    hide Execute, TameExec;
    var act, e := acts[0], script(p, acts[0]);
    var d := Execute(env, c, act, e);
    StepIssues(env, c, act, e);
    if act.Do? && act.leg == r {
      assert act in acts && act.intent != Connect;
      IssuedGrows(env, d, acts[1..], script, p);
      assert !d.issued[|c.issued|].legal;
      assert ExecAll(env, d, acts[1..], script, p).issued[|c.issued|] == d.issued[|c.issued|];
    } else {
      TameStep(env, c, act, e, r);
      var k :| 0 <= k < |acts| && acts[k].Do? && acts[k].leg == r;
      assert acts[1..][k - 1] == acts[k];
      assert forall x :: x in acts[1..] ==> x in acts;
      GoneRefuses(env, d, acts[1..], script, p, r);
    }
  }

  /** The rest of a legal list is legal where its first action leaves the pair, unless that
      was an acknowledgement that failed with more to come on its leg. */
  lemma LegalTail(env: Env, c: Cfg, acts: seq<Action>, e: Exec)
    requires TameExec(e) && acts != [] && LegalFrom(c.Snap(), acts) && NoDrops(acts)
    requires acts[0].Do? && e.waits(0).outcome.Fails() ==> !ActsOn(acts[1..], acts[0].leg)
    ensures LegalFrom(Execute(env, c, acts[0], e).Snap(), acts[1..])
  {
    hide Execute, TameExec;
    var act, tail, d := acts[0], acts[1..], Execute(env, c, acts[0], e);
    LegalHead(c, acts);
    forall k | 0 <= k < |tail| && tail[k].Do? ensures IsLegal(d.Snap().Leg(tail[k].leg), tail[k].intent) {
      var q := tail[k].leg;
      assert tail[k] == acts[k + 1] && acts[k + 1] in acts;
      assert IsLegal(c.Leg(q), tail[k].intent) && !InTransit(c.Leg(q));
      if act.Do? && act.leg == q {
        assert ActsOn(tail, q);
        AckStands(env, c, q, act.intent, act.source, e);
      } else {
        TameStep(env, c, act, e, q);
      }
      assert d.Snap().Leg(q) == d.Leg(q);
    }
  }

  lemma LegalHead(c: Cfg, acts: seq<Action>)
    requires LegalFrom(c.Snap(), acts) && acts != []
    ensures acts[0].Do? ==> IsLegal(c.Leg(acts[0].leg), acts[0].intent)
    ensures forall r :: c.Snap().Leg(r) == c.Leg(r)
  {
    assert forall r :: c.Snap().Leg(r) == c.Leg(r);
  }

  /** The condition on a list, head first. */
  lemma HoldsHead(acts: seq<Action>, script: Script, p: nat)
    requires acts != []
    ensures AcksHold(acts, script, p) <==>
      && AcksHold(acts[1..], script, p)
      && !(acts[0].Do? && script(p, acts[0]).waits(0).outcome.Fails() && ActsOn(acts[1..], acts[0].leg))
  {
    var tail := acts[1..];
    assert forall k :: 1 <= k < |acts| ==> acts[k] == tail[k - 1];
    if AcksHold(acts, script, p) {
      forall j, k | 0 <= j < k < |tail| && OnSameLeg(tail[j], tail[k])
        ensures !script(p, tail[j]).waits(0).outcome.Fails()
      {
        assert OnSameLeg(acts[j + 1], acts[k + 1]);
      }
      if acts[0].Do? && ActsOn(tail, acts[0].leg) {
        var k :| 0 <= k < |tail| && tail[k].Do? && tail[k].leg == acts[0].leg;
        assert OnSameLeg(acts[0], acts[k + 1]);
      }
    }
  }

  /** A list is issued without a refusal exactly when no acknowledgement fails that a later
      action on its leg follows; any other failure, and any landing, is harmless. */
  lemma {:induction false} ListLegalExactly(env: Env, c: Cfg, acts: seq<Action>, script: Script, p: nat)
    requires Tame(script) && LegalFrom(c.Snap(), acts) && NoDrops(acts)
    ensures AllLegal(ExecAll(env, c, acts, script, p).issued) <==> AllLegal(c.issued) && AcksHold(acts, script, p)
    decreases acts
  {
    hide Execute, TameExec, AcksHold, ActsOn, LegalFrom, NeverConnects, AllLegal, IsLegal;
    if acts == [] {
      assert AcksHold(acts, script, p) by { EmptyHolds(acts, script, p); }
    } else {
      var act, e := acts[0], script(p, acts[0]);
      var d := Execute(env, c, act, e);
      HoldsHead(acts, script, p);
      LegalHead(c, acts);
      StepIssues(env, c, act, e);
      if act.Do? { AllLegalAppend(c.issued, Issue(act.leg, act.intent, true)); }
      assert AllLegal(d.issued) <==> AllLegal(c.issued);
      if act.Do? && e.waits(0).outcome.Fails() && ActsOn(acts[1..], act.leg) {
        RefusedBehindAck(env, c, acts, script, p);
      } else {
        LegalTail(env, c, acts, e);
        assert forall x :: x in acts[1..] ==> x in acts;
        ListLegalExactly(env, d, acts[1..], script, p);
      }
    }
  }

  lemma EmptyHolds(acts: seq<Action>, script: Script, p: nat)
    requires acts == []
    ensures AcksHold(acts, script, p)
  {
  }

  lemma RefusedBehindAck(env: Env, c: Cfg, acts: seq<Action>, script: Script, p: nat)
    requires Tame(script) && LegalFrom(c.Snap(), acts) && acts != [] && acts[0].Do?
    requires script(p, acts[0]).waits(0).outcome.Fails() && ActsOn(acts[1..], acts[0].leg)
    ensures !AllLegal(ExecAll(env, c, acts, script, p).issued)
  {
    hide Execute, TameExec;
    var act, tail, e := acts[0], acts[1..], script(p, acts[0]);
    LegalHead(c, acts);
    var k :| 0 <= k < |tail| && tail[k].Do? && tail[k].leg == act.leg;
    assert tail[k] == acts[k + 1];
    assert IsAck(act.intent);
    AckStands(env, c, act.leg, act.intent, act.source, e);
    forall x | x in tail && x.Do? && x.leg == act.leg ensures x.intent != Connect {
      var i :| 0 <= i < |tail| && tail[i] == x;
      assert acts[i + 1] == x && IsLegal(c.Leg(act.leg), x.intent);
    }
    GoneRefuses(env, Execute(env, c, act, e), tail, script, p, act.leg);
  }

  // ---- Drains and sequential runs --------------------------------------------------------

  lemma PassLegalExactly(env: Env, c: Cfg, script: Script, p: nat)
    requires Tame(script)
    ensures AllLegal(Pass(env, c, script, p).issued) <==>
      AllLegal(c.issued) && AcksHold(Reconcile(c.Snap(), c.last), script, p)
  {
    hide Reconcile, LegalFrom, Tame, NoDrops, AcksHold, AllLegal;
    ReconcileIsLegal(c.Snap(), c.last);
    RulesNeverDrop(c.Snap(), c.last);
    ListLegalExactly(env, c, Reconcile(c.Snap(), c.last), script, p);
  }

  /** In every list of the drain the acknowledgements hold. */
  predicate DrainHolds(env: Env, c: Cfg, script: Script, done: nat)
    requires done <= MAX_PASSES
    decreases MAX_PASSES - done
  {
    c.dirty && done < MAX_PASSES ==>
      var c0 := c.(dirty := false);
      && AcksHold(Reconcile(c0.Snap(), c0.last), script, done)
      && DrainHolds(env, Pass(env, c0, script, done), script, done + 1)
  }

  lemma {:induction false} DrainLegalExactly(env: Env, c: Cfg, script: Script, done: nat)
    requires Tame(script) && done <= MAX_PASSES
    ensures AllLegal(Drain(env, c, script, done).c.issued) <==> AllLegal(c.issued) && DrainHolds(env, c, script, done)
    decreases MAX_PASSES - done
  {
    hide Pass, Reconcile, Tame, AllLegal, AcksHold;
    if c.dirty && done < MAX_PASSES {
      PassLegalExactly(env, c.(dirty := false), script, done);
      DrainLegalExactly(env, Pass(env, c.(dirty := false), script, done), script, done + 1);
    }
  }

  predicate ServeHolds(env: Env, s: Poly, r: Ref, t: LegState, script: Script) {
    Apply(env, s, Client(r, t)).queued > 0 ==> DrainHolds(env, Move(s.c, r, t), script, 0)
  }

  lemma ServeLegalExactly(env: Env, s: Poly, r: Ref, t: LegState, script: Script)
    requires Tame(script)
    ensures AllLegal(Serve(env, s, r, t, script).c.issued) <==> AllLegal(s.c.issued) && ServeHolds(env, s, r, t, script)
  {
    hide Drain, DrainHolds, EndsMasked, AllLegal, Tame;
    DrainLegalExactly(env, Move(s.c, r, t), script, 0);
  }

  predicate FirstHolds(env: Env, s: Poly, it: Item) {
    PlanOf(env, s, it).now.Some? ==> ServeHolds(env, s, it.leg, PlanOf(env, s, it).now.value, it.first)
  }

  predicate DeliverHolds(env: Env, s: Poly, it: Item) {
    var plan, s1 := PlanOf(env, s, it), FirstHalf(env, s, it);
    && FirstHolds(env, s, it)
    && (it.ok && plan.later.Some? && (plan.now.None? || plan.now.value == s1.c.Leg(it.leg)) ==>
          ServeHolds(env, s1, it.leg, plan.later.value, it.second))
  }

  /** In every list that a drain of the run issues, no acknowledgement fails that a later
      action of the list on the same leg follows. */
  predicate RunHolds(env: Env, s: Poly, items: seq<Item>)
    decreases |items|
  {
    items == [] || (DeliverHolds(env, s, items[0]) && RunHolds(env, Deliver(env, s, items[0]), items[1..]))
  }

  lemma DeliverLegalExactly(env: Env, s: Poly, it: Item)
    requires TameItem(it)
    ensures AllLegal(Deliver(env, s, it).c.issued) <==> AllLegal(s.c.issued) && DeliverHolds(env, s, it)
  {
    hide Serve, ServeHolds, AllLegal, Tame, Handle;
    var plan, s1 := PlanOf(env, s, it), FirstHalf(env, s, it);
    if plan.now.Some? { ServeLegalExactly(env, s, it.leg, plan.now.value, it.first); }
    if plan.later.Some? { ServeLegalExactly(env, s1, it.leg, plan.later.value, it.second); }
  }

  /** The rule table and the legality table, exactly: over every sequential run, with any
      transports and any failures, every intent is legal when it is issued if and only if no
      acknowledgement fails that a later action of its list on the same leg follows. */
  lemma {:induction false} RefusedExactly(env: Env, s: Poly, items: seq<Item>)
    requires forall it :: it in items ==> TameItem(it)
    ensures AllLegal(DeliverAll(env, s, items).c.issued) <==> AllLegal(s.c.issued) && RunHolds(env, s, items)
    decreases |items|
  {
    hide Deliver, DeliverHolds, AllLegal, TameItem;
    if items != [] {
      assert items[0] in items && forall it :: it in items[1..] ==> it in items;
      DeliverLegalExactly(env, s, items[0]);
      RefusedExactly(env, Deliver(env, s, items[0]), items[1..]);
    }
  }

  // ---- Runs in which nothing fails -----------------------------------------------------------

  ghost predicate NoFailScript(script: Script) {
    Tame(script) && forall p, act, k :: !script(p, act).waits(k).outcome.Fails()
  }

  lemma {:induction false} NoFailHolds(env: Env, c: Cfg, script: Script, done: nat)
    requires NoFailScript(script) && done <= MAX_PASSES
    ensures DrainHolds(env, c, script, done)
    decreases MAX_PASSES - done
  {
    hide Pass, Reconcile;
    if c.dirty && done < MAX_PASSES {
      NoFailHolds(env, Pass(env, c.(dirty := false), script, done), script, done + 1);
    }
  }

  lemma {:induction false} NoFailRunHolds(env: Env, s: Poly, items: seq<Item>)
    requires forall it :: it in items ==> NoFailScript(it.first) && NoFailScript(it.second)
    ensures RunHolds(env, s, items)
    decreases |items|
  {
    hide Drain, NoFailScript, DrainHolds, Handle;
    if items != [] {
      var it := items[0];
      assert it in items && forall x :: x in items[1..] ==> x in items;
      var plan, s1 := PlanOf(env, s, it), FirstHalf(env, s, it);
      if plan.now.Some? { NoFailHolds(env, Move(s.c, it.leg, plan.now.value), it.first, 0); }
      if plan.later.Some? { NoFailHolds(env, Move(s1.c, it.leg, plan.later.value), it.second, 0); }
      NoFailRunHolds(env, Deliver(env, s, it), items[1..]);
    }
  }

  /** In a sequential run in which no coordinator-driven operation fails, no intent is ever
      refused, for any two transports and any client messages, cancels and rejects that land
      during a drain included. */
  lemma NothingRefused(env: Env, s: Poly, items: seq<Item>)
    requires AllLegal(s.c.issued)
    requires forall it :: it in items ==> NoFailScript(it.first) && NoFailScript(it.second)
    ensures AllLegal(DeliverAll(env, s, items).c.issued)
  {
    forall it | it in items ensures TameItem(it) {
      assert NoFailScript(it.first) && NoFailScript(it.second);
    }
    hide TameItem, NoFailScript, AllLegal, DeliverAll, RunHolds;
    NoFailRunHolds(env, s, items);
    RefusedExactly(env, s, items);
  }

  /** With a failure the tables can disagree: in a glare, a failed ACK_CONNECTED leaves the
      leg FAILED, and the RING behind it in the same list is refused. */
  lemma FailedAckRefusesRing(env: Env, c: Cfg, e: Exec, f: Exec)
    requires c.b == Calling && e.waits(0) == Wait([], Throws) && e.after == []
    ensures var d := Execute(env, c, Do(B, AckConnected, Own), e);
      var d' := Execute(env, d, Do(B, Ring, From(A)), f);
      d'.issued == c.issued + [Issue(B, AckConnected, true), Issue(B, Ring, false)]
    ensures c.a == Calling && !c.media && c.last == Some(Calling) ==>
      Reconcile(c.Snap(), c.last) ==
        [Do(A, AckConnected, Own), Do(B, AckConnected, Own), Do(B, Ring, From(A))]
  {
    EndsAsOptions(c.Snap());
    assert IsLegal(Calling, AckConnected) && !IsLegal(Failed, Ring);
  }
}
