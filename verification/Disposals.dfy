/** A dispose that lands at any moment of a run, and what the pair still does after it
    (PolySession.js lines 188-222, 322-342, 360-375). The dispose removes the listeners and
    disconnects the handle, but it neither clears the dirty flag nor stops the loop. */
module Disposals {
  import opened LegStates
  import opened ReconcileRules
  import opened CallModel
  import opened DrainExit
  import opened CallRuns

  /** A pair whose listeners are gone. `pending`: dispose awaits its disconnect and clears the
      handle when that returns. `own`: the handle in place is the one dispose disconnects.
      `twice` counts the disconnects of that handle by anyone else. */
  datatype Gone = Gone(c: Cfg, pending: bool, own: bool, twice: nat) {
    /** The connects whose handle nobody has disconnected. */
    function Open(): int {
      c.ups - c.downs + twice
    }
  }

  /** What the listeners had recorded when they were removed. */
  datatype Record = Record(dirty: bool, last: Option<LegState>)

  /** d, without what listeners would have recorded on the way from c to d. */
  function Unheard(c: Cfg, d: Cfg): Cfg {
    d.(dirty := c.dirty, last := c.last)
  }

  /** dispose up to its first await. */
  function Detach(c: Cfg): Gone {
    if c.media then Gone(c.(downs := c.downs + 1), true, true, 0) else Gone(c, false, false, 0)
  }

  /** dispose behind that await. */
  function Return(g: Gone): Gone {
    if g.pending then Gone(g.c.(media := false), false, false, g.twice) else g
  }

  function Act(env: Env, g: Gone, act: Action, e: Exec): Gone {
    var d := Unheard(g.c, Execute(env, g.c, act, e));
    Gone(d, g.pending, g.own && d.media, g.twice + if act == Media(Unbridge) && g.own then 1 else 0)
  }

  /** A list of actions; the disconnect returns when n of them have run. */
  function Rest(env: Env, g: Gone, acts: seq<Action>, n: nat, script: Script, p: nat): (h: Gone)
    ensures h.c.dirty == g.c.dirty && h.c.last == g.c.last
    decreases acts
  {
    var h := if n == 0 then Return(g) else g;
    if acts == [] then h
    else Rest(env, Act(env, h, acts[0], script(p, acts[0])), acts[1..], if n == 0 then 0 else n - 1, script, p)
  }

  /** The remaining actions of a pass, and its end. */
  function FinishPass(env: Env, g: Gone, acts: seq<Action>, n: nat, script: Script, p: nat): (h: Gone)
    ensures h.c.dirty == g.c.dirty && h.c.last == g.c.last
  {
    var h := Rest(env, g, acts, n, script, p);
    h.(c := Unheard(h.c, Recover(h.c)))
  }

  /** What the next pass of the loop would do. */
  function NextList(g: Gone, p: nat): seq<Action> {
    if g.c.dirty && p < MAX_PASSES then Reconcile(g.c.Snap(), g.c.last) else []
  }

  /** The loop goes on when the pair was dirty, and nothing can make it dirty again. */
  function LastPass(env: Env, g: Gone, n: nat, script: Script, p: nat): (h: Gone)
    ensures !h.c.dirty
  {
    var g0 := g.(c := g.c.(dirty := false));
    if g.c.dirty && p < MAX_PASSES then FinishPass(env, g0, NextList(g, p), n, script, p) else g0
  }

  predicate Connects(acts: seq<Action>, script: Script, p: nat) {
    Media(Bridge) in acts && !script(p, Media(Bridge)).waits(0).outcome.Fails()
  }

  // ---- Where the media actions stand -----------------------------------------

  predicate MediaFree(acts: seq<Action>) {
    forall i :: 0 <= i < |acts| ==> acts[i].Do?
  }

  /** A list's media action, if any: the release is first, the connect last. */
  predicate Placed(acts: seq<Action>) {
    || MediaFree(acts)
    || (acts != [] && acts[0] == Media(Unbridge) && MediaFree(acts[1..]))
    || (acts != [] && acts[|acts| - 1] == Media(Bridge) && MediaFree(acts[..|acts| - 1]))
  }

  lemma ListIsPlaced(s: Snapshot, last: Option<LegState>)
    ensures Placed(Reconcile(s, last))
    ensures Media(Bridge) in Reconcile(s, last) ==> !s.media
    ensures Media(Unbridge) in Reconcile(s, last) ==> s.media
  {
    hide Acks, RingAcks, Progress, Teardown, Placed;
    TeardownIsPlaced(s);
    ForwardIsPlaced(s, last);
    AcksAreMediaFree(s, last);
    FreeIsPlaced(Acks(s, last));
  }

  lemma FreeIsPlaced(acts: seq<Action>)
    requires MediaFree(acts)
    ensures Placed(acts) && forall op :: Media(op) !in acts
  {
  }

  lemma TeardownIsPlaced(s: Snapshot)
    ensures Placed(Teardown(s)) && Media(Bridge) !in Teardown(s)
    ensures Media(Unbridge) in Teardown(s) ==> s.media
  {
    hide ToEnd;
    var rest := AckEnds(s) + EndActions(ToEnd(s));
    assert MediaFree(rest);
    if MediaRelease(s) == [] {
      assert Teardown(s) == rest;
    } else {
      assert Teardown(s) == [Media(Unbridge)] + rest;
    }
  }

  lemma ForwardIsPlaced(s: Snapshot, last: Option<LegState>)
    ensures var acts := Acks(s, last) + RingAcks(s, last) + Progress(s);
      Placed(acts) && Media(Unbridge) !in acts && (Media(Bridge) in acts ==> !s.media)
  {
    hide Acks, RingAcks, Progress;
    AcksAreMediaFree(s, last);
    ProgressIsPlaced(s);
    var front, q := Acks(s, last) + RingAcks(s, last), Progress(s);
    if q != [] {
      assert q == q[..|q| - 1] + [q[|q| - 1]];
      assert (front + q)[..|front + q| - 1] == front + q[..|q| - 1];
    }
  }

  lemma AcksAreMediaFree(s: Snapshot, last: Option<LegState>)
    ensures MediaFree(Acks(s, last)) && MediaFree(RingAcks(s, last))
  {
  }

  lemma ProgressIsPlaced(s: Snapshot)
    ensures var q := Progress(s);
      || MediaFree(q)
      || (!s.media && q != [] && q[|q| - 1] == Media(Bridge) && MediaFree(q[..|q| - 1]))
  {
  }

  // ---- One list ---------------------------------------------------------------

  lemma ActSpares(env: Env, g: Gone, act: Action, e: Exec)
    requires act.Do?
    ensures var h := Act(env, g, act, e);
      h.c.media == g.c.media && h.c.ups == g.c.ups && h.c.downs == g.c.downs && h.twice == g.twice
  {
  }

  predicate SameHandle(g: Gone, h: Gone) {
    h.c.media == g.c.media && h.pending == g.pending && h.own == g.own && h.twice == g.twice
      && h.c.ups == g.c.ups && h.c.downs == g.c.downs
  }

  predicate OwnHeld(g: Gone) {
    g.own ==> g.pending && g.c.media
  }

  lemma {:induction false} MediaFreeRest(env: Env, g: Gone, acts: seq<Action>, n: nat, script: Script, p: nat)
    requires MediaFree(acts) && OwnHeld(g)
    ensures SameHandle(if n <= |acts| then Return(g) else g, Rest(env, g, acts, n, script, p))
    decreases acts
  {
    if acts != [] {
      hide Execute;
      var h := if n == 0 then Return(g) else g;
      ActSpares(env, h, acts[0], script(p, acts[0]));
      MediaFreeRest(env, Act(env, h, acts[0], script(p, acts[0])), acts[1..], if n == 0 then 0 else n - 1, script, p);
    }
  }

  lemma {:induction false} BridgingRest(env: Env, g: Gone, front: seq<Action>, n: nat, script: Script, p: nat)
    requires MediaFree(front) && !g.c.media && !g.own
    ensures var h := Rest(env, g, front + [Media(Bridge)], n, script, p);
      && h.Open() == g.Open() + (if script(p, Media(Bridge)).waits(0).outcome.Fails() then 0 else 1)
      && h.twice == g.twice
      && (!g.pending ==> !h.pending && !h.own)
      && (!g.pending ==> h.c.media == !script(p, Media(Bridge)).waits(0).outcome.Fails())
    decreases front
  {
    var acts := front + [Media(Bridge)];
    var h := if n == 0 then Return(g) else g;
    var next := Act(env, h, acts[0], script(p, acts[0]));
    if front == [] {
      assert acts[1..] == [];
    } else {
      assert acts[1..] == front[1..] + [Media(Bridge)];
      ActSpares(env, h, acts[0], script(p, acts[0]));
      hide Execute;
      BridgingRest(env, next, front[1..], if n == 0 then 0 else n - 1, script, p);
    }
  }

  lemma ReleasingRest(env: Env, g: Gone, rest: seq<Action>, n: nat, script: Script, p: nat)
    requires MediaFree(rest) && OwnHeld(g)
    ensures var h := Rest(env, g, [Media(Unbridge)] + rest, n, script, p);
      && h.Open() == g.Open() - (if g.c.media && !g.own && !(g.pending && n == 0) then 1 else 0)
      && h.twice == g.twice + (if g.own && n > 0 then 1 else 0)
      && !h.c.media && !h.own && (!g.pending ==> !h.pending)
  {
    var acts := [Media(Unbridge)] + rest;
    assert acts[1..] == rest;
    var h := if n == 0 then Return(g) else g;
    var next := Act(env, h, acts[0], script(p, acts[0]));
    MediaFreeRest(env, next, rest, if n == 0 then 0 else n - 1, script, p);
  }

  /** The one handle that can be open is the one in place, unless dispose is disconnecting it. */
  predicate Tidy(g: Gone) {
    && OwnHeld(g)
    && (g.pending ==> g.own || !g.c.media)
    && g.Open() == if g.c.media && !g.own then 1 else 0
  }

  /** What a list does to the handles of a disposed pair. */
  lemma RestEffect(env: Env, g: Gone, acts: seq<Action>, n: nat, script: Script, p: nat)
    requires Tidy(g) && Placed(acts) && (Media(Bridge) in acts ==> !g.c.media)
    ensures var h := FinishPass(env, g, acts, n, script, p);
      && h.Open() == (if Connects(acts, script, p) then 1 else if Media(Unbridge) in acts then 0 else g.Open())
      && h.twice == g.twice + (if Media(Unbridge) in acts && g.own && n > 0 then 1 else 0)
      && (Media(Bridge) !in acts || !g.pending ==> Tidy(h))
      && (Media(Bridge) !in acts ==> h.own == (g.own && Media(Unbridge) !in acts && n > |acts|))
      && (!g.pending ==> !h.pending)
  {
    hide Rest;
    if MediaFree(acts) {
      FreeIsPlaced(acts);
      MediaFreeRest(env, g, acts, n, script, p);
    } else if acts[0] == Media(Unbridge) && MediaFree(acts[1..]) {
      FreeIsPlaced(acts[1..]);
      assert acts == [Media(Unbridge)] + acts[1..];
      ReleasingRest(env, g, acts[1..], n, script, p);
    } else {
      var front := acts[..|acts| - 1];
      FreeIsPlaced(front);
      assert acts == front + [Media(Bridge)];
      BridgingRest(env, g, front, n, script, p);
    }
  }

  lemma SuffixIsPlaced(xs: seq<Action>, ys: seq<Action>)
    requires Placed(xs + ys)
    ensures Placed(ys)
    ensures Media(Bridge) in ys ==> MediaFree(xs)
    ensures Media(Unbridge) in xs + ys ==> Media(Bridge) !in xs + ys
  {
    var acts := xs + ys;
    if MediaFree(acts) {
      assert forall i :: 0 <= i < |ys| ==> ys[i] == acts[|xs| + i];
      FreeIsPlaced(ys);
      FreeIsPlaced(acts);
    } else if acts[0] == Media(Unbridge) && MediaFree(acts[1..]) {
      assert acts == [Media(Unbridge)] + acts[1..];
      FreeIsPlaced(acts[1..]);
      if xs != [] {
        assert forall i :: 0 <= i < |ys| ==> ys[i] == acts[1..][|xs| - 1 + i];
        FreeIsPlaced(ys);
      } else {
        assert ys == acts;
      }
    } else {
      var front := acts[..|acts| - 1];
      FreeIsPlaced(front);
      assert acts == front + [Media(Bridge)];
      if ys != [] {
        assert xs == front[..|xs|];
        assert ys[..|ys| - 1] == front[|xs|..];
      }
    }
  }

  // ---- Whole runs ---------------------------------------------------------------

  lemma LastPassEffect(env: Env, g: Gone, n: nat, script: Script, p: nat)
    requires Tidy(g)
    ensures var l, d := NextList(g, p), LastPass(env, g, n, script, p);
      && d.Open() == (if Connects(l, script, p) then 1 else if Media(Unbridge) in l then 0 else g.Open())
      && d.twice == g.twice + if Media(Unbridge) in l && g.own && n > 0 then 1 else 0
  {
    if g.c.dirty && p < MAX_PASSES {
      hide Reconcile, FinishPass;
      ListIsPlaced(g.c.Snap(), g.c.last);
      RestEffect(env, g.(c := g.c.(dirty := false)), NextList(g, p), n, script, p);
    }
  }

  /** The pair as pass p of a drain from c takes its snapshot. */
  function PassBegins(env: Env, c: Cfg, script: Script, p: nat): (d: Cfg)
    ensures !d.dirty && Accounts(c, d)
  {
    if p == 0 then c.(dirty := false)
    else Pass(env, PassBegins(env, c, script, p - 1), script, p - 1).(dirty := false)
  }

  lemma DetachIsTidy(c: Cfg)
    requires c.ups - c.downs == Held(c)
    ensures Tidy(Detach(c)) && Detach(c).Open() == 0
  {
  }

  lemma StepMedia(env: Env, c: Cfg, act: Action, e: Exec)
    ensures act.Do? ==> Execute(env, c, act, e).media == c.media
    ensures act == Media(Bridge) ==> Execute(env, c, act, e).media == (c.media || !e.waits(0).outcome.Fails())
  {
  }

  lemma {:induction false} BridgesExactly(env: Env, c: Cfg, acts: seq<Action>, script: Script, p: nat)
    requires Media(Unbridge) !in acts
    ensures ExecAll(env, c, acts, script, p).media <==>
      c.media || (Media(Bridge) in acts && !script(p, Media(Bridge)).waits(0).outcome.Fails())
    decreases acts
  {
    if acts != [] {
      StepMedia(env, c, acts[0], script(p, acts[0]));
      assert acts[0] in acts && acts == [acts[0]] + acts[1..];
      assert acts[0].Media? ==> acts[0].op == Bridge;
      hide Execute;
      BridgesExactly(env, Execute(env, c, acts[0], script(p, acts[0])), acts[1..], script, p);
    }
  }

  /** Media after the front of a list that connects later. */
  lemma FrontKeepsMedia(env: Env, c: Cfg, xs: seq<Action>, ys: seq<Action>, script: Script, p: nat)
    requires xs + ys == Reconcile(c.Snap(), c.last)
    ensures Media(Bridge) in ys ==> !ExecAll(env, c, xs, script, p).media
  {
    hide Reconcile, ExecAll, Placed;
    ListIsPlaced(c.Snap(), c.last);
    SuffixIsPlaced(xs, ys);
    if Media(Bridge) in ys {
      assert Media(Bridge) in xs + ys;
      FreeIsPlaced(xs);
      BridgesExactly(env, c, xs, script, p);
    }
  }

  /** The pair when its listeners are removed behind the actions xs of a pass. They may go in
      the middle of an action on a leg, which leaves the handle alone, so what they had
      recorded by then is any record. */
  function DetachedBehind(env: Env, c: Cfg, xs: seq<Action>, rec: Record, script: Script, p: nat): Gone {
    Detach(ExecAll(env, c, xs, script, p).(dirty := rec.dirty, last := rec.last))
  }

  /** A dispose at any moment of any pass of any run, between two actions or while one is
      awaited, with its own disconnect returning at any moment: a connect is left without its
      disconnect exactly when the rest of the pass connects and the next list does not release,
      or the next list connects. There is a next list when the pair was dirty at the dispose,
      below the cap, and none after that. The handle is disconnected a second time exactly when
      one of the two lists starts its release before the first disconnect returned. */
  lemma DisposeMidPassLeaksExactly(env: Env, steps: seq<Step>, xs: seq<Action>, ys: seq<Action>, rec: Record,
                                   n: nat, m: nat, script: Script, p: nat)
    requires p < MAX_PASSES
    requires var c := PassBegins(env, Runs(env, steps).c, script, p); xs + ys == Reconcile(c.Snap(), c.last)
    ensures var g := DetachedBehind(env, PassBegins(env, Runs(env, steps).c, script, p), xs, rec, script, p);
      var h := FinishPass(env, g, ys, n, script, p);
      var l, d := NextList(h, p + 1), LastPass(env, h, m, script, p + 1);
      && 0 <= d.Open() <= 1
      && (d.Open() == 1 <==>
          Connects(l, script, p + 1) || (Connects(ys, script, p) && Media(Unbridge) !in l))
      && d.twice <= 1
      && (d.twice == 1 <==> g.own && ((Media(Unbridge) in ys && n > 0)
                                   || (Media(Unbridge) !in ys && n > |ys| && Media(Unbridge) in l && m > 0)))
  {
    EveryRunIsSound(env, steps);
    var c := PassBegins(env, Runs(env, steps).c, script, p);
    var at := ExecAll(env, c, xs, script, p);
    var g := DetachedBehind(env, c, xs, rec, script, p);
    hide Reconcile, ExecAll, FinishPass, LastPass, Placed, Runs, PassBegins;
    DetachIsTidy(at.(dirty := rec.dirty, last := rec.last));
    ListIsPlaced(c.Snap(), c.last);
    SuffixIsPlaced(xs, ys);
    FrontKeepsMedia(env, c, xs, ys, script, p);
    RestEffect(env, g, ys, n, script, p);
    var h := FinishPass(env, g, ys, n, script, p);
    ListIsPlaced(h.c.Snap(), h.c.last);
    LastPassEffect(env, h, m, script, p + 1);
  }

  /** A pair between two drains, or in its hook, with its listeners removed; its clients go on. */
  function DetachedAtRest(c: Cfg, chs: seq<Change>, returned: bool): Gone {
    var g := Detach(c);
    var h := g.(c := Unheard(g.c, Interfere(g.c, chs)));
    if returned then Return(h) else h
  }

  /** A dispose between two drains of any run, or in a hook: nothing is open at once, and a
      connect is left open exactly when the pair was dirty and the one drain that still finds
      it dirty connects. */
  lemma DisposeAtRestLeaksExactly(env: Env, steps: seq<Step>, chs: seq<Change>, returned: bool,
                                  m: nat, script: Script)
    ensures Detach(Runs(env, steps).c).Open() == 0
    ensures var h := DetachedAtRest(Runs(env, steps).c, chs, returned);
      var l, d := NextList(h, 0), LastPass(env, h, m, script, 0);
      && 0 <= d.Open() <= 1
      && (d.Open() == 1 <==> Connects(l, script, 0))
      && (l != [] ==> Runs(env, steps).c.dirty)
      && d.twice <= 1
      && (d.twice == 1 <==> Runs(env, steps).c.media && !returned && Media(Unbridge) in l && m > 0)
  {
    EveryRunIsSound(env, steps);
    hide Reconcile, LastPass, Runs;
    var c := Runs(env, steps).c;
    DetachIsTidy(c);
    var h := DetachedAtRest(c, chs, returned);
    assert Tidy(h) && h.Open() == 0;
    LastPassEffect(env, h, m, script, 0);
  }
}
