/** Unbounded interleaved runs of one pair: client changes at any moment, drains queued
    and run in between (PolySession.js lines 165-241, 360-375). */
module CallRuns {
  import opened LegStates
  import opened ReconcileRules
  import opened CallModel
  import opened DrainExit

  /** A lifecycle hook call. */
  datatype Hook = CallStart | CallEnd

  /** `active` is _callActive, `queued` the drains waiting on the chain, `hooks` the hook
      calls made. `capped` and `masked` say how the last working drain ended. */
  datatype Poly = Poly(c: Cfg, active: bool, queued: nat, hooks: seq<Hook>, capped: bool, masked: bool)

  datatype Step =
    | Client(leg: Ref, to: LegState)
    | Settle
    | RunDrain(script: Script, hook: seq<Change>)

  const Fresh := Poly(CallModel.Start, false, 0, [], false, false)

  /** _settleCallActivity: a hook call on an edge of "both legs are in the call". */
  function Edge(active: bool, now: bool): seq<Hook> {
    if active == now then [] else if now then [CallStart] else [CallEnd]
  }

  function Apply(env: Env, s: Poly, step: Step): Poly {
    match step
    case Client(r, to) =>
      s.(c := Move(s.c, r, to), queued := s.queued + if s.c.Leg(r) == to then 0 else 1)
    case Settle =>
      s.(queued := s.queued + if s.c.dirty then 1 else 0)
    case RunDrain(script, hook) =>
      if s.queued == 0 then s
      else
        var r := Drain(env, s.c, script, 0);
        var now := r.c.BothInCall();
        Poly(Interfere(r.c, hook), now, s.queued - 1, s.hooks + Edge(s.active, now),
             if s.c.dirty then r.capped else s.capped,
             if s.c.dirty then EndsMasked(env, s.c, script, 0) else s.masked)
  }

  function Runs(env: Env, steps: seq<Step>): Poly {
    if steps == [] then Fresh
    else Apply(env, Runs(env, steps[..|steps| - 1]), steps[|steps| - 1])
  }

  /** start, end, start, ... */
  predicate Alternates(hooks: seq<Hook>) {
    forall i :: 0 <= i < |hooks| ==> hooks[i] == if i % 2 == 0 then CallStart else CallEnd
  }

  /** What holds at every moment between two steps. */
  predicate Sound(s: Poly) {
    && s.c.ups - s.c.downs == Held(s.c)
    && Alternates(s.hooks) && (s.active <==> |s.hooks| % 2 == 1)
    && (!s.c.dirty ==> s.active == s.c.BothInCall())
    && (!s.c.dirty && !s.capped ==> Quiet(s.c) && (s.masked || Shape(s.c.a, s.c.b)))
  }

  /** The edge detector keeps the hooks alternating, whatever the legs do. */
  lemma EdgeAlternates(hooks: seq<Hook>, active: bool, now: bool)
    requires Alternates(hooks) && (active <==> |hooks| % 2 == 1)
    ensures var h := hooks + Edge(active, now);
      Alternates(h) && (now <==> |h| % 2 == 1)
  {
  }

  lemma StepKeepsSound(env: Env, s: Poly, step: Step)
    requires Sound(s)
    ensures Sound(Apply(env, s, step))
  {
    if step.RunDrain? && s.queued > 0 {
      var r := Drain(env, s.c, step.script, 0);
      if s.c.dirty {
        DrainExits(env, s.c, step.script, 0);
      }
      EdgeAlternates(s.hooks, s.active, r.c.BothInCall());
    }
  }

  /** Safety over every run, at every moment: media connects minus disconnects is the
      handle held; the lifecycle hooks have alternated; and when no change is pending, the
      activity flag, the media handle and the legs agree. */
  lemma {:induction false} EveryRunIsSound(env: Env, steps: seq<Step>)
    ensures Sound(Runs(env, steps))
    decreases steps
  {
    if steps != [] {
      EveryRunIsSound(env, steps[..|steps| - 1]);
      StepKeepsSound(env, Runs(env, steps[..|steps| - 1]), steps[|steps| - 1]);
    }
  }

  /** PolySession.dispose: release the handle. */
  function Dispose(c: Cfg): Cfg {
    if c.media then c.(media := false, downs := c.downs + 1) else c
  }

  /** Every media connect of a run is matched by one disconnect once the pair is disposed. */
  lemma {:induction false} DisposedBalances(env: Env, steps: seq<Step>)
    ensures var d := Dispose(Runs(env, steps).c);
      d.ups == d.downs && !d.media
  {
    EveryRunIsSound(env, steps);
  }

  // ---- Wake-ups ----------------------------------------------------------------

  /** A pair with unprocessed changes has a drain waiting. */
  predicate Awake(s: Poly) {
    s.c.dirty ==> s.queued > 0
  }

  /** Some change in the list would take its leg, as c has it, to another state. */
  predicate MovesSome(c: Cfg, chs: seq<Change>) {
    exists i :: 0 <= i < |chs| && Target(c.Leg(chs[i].leg), chs[i]) != c.Leg(chs[i].leg)
  }

  /** A list of changes leaves a clean pair clean exactly when none of them moves its leg. */
  lemma {:induction false} DirtiesExactly(c: Cfg, chs: seq<Change>)
    requires !c.dirty
    ensures Interfere(c, chs).dirty <==> MovesSome(c, chs)
    decreases chs
  {
    if chs != [] {
      var rest := chs[1..];
      assert forall i :: 1 <= i < |chs| ==> chs[i] == rest[i - 1];
      assert forall i :: 0 <= i < |rest| ==> rest[i] == chs[i + 1];
      if Target(c.Leg(chs[0].leg), chs[0]) == c.Leg(chs[0].leg) {
        DirtiesExactly(c, rest);
      }
    }
  }

  /** A leg change that lands while the drain awaits its activity hook is recorded but
      queues no drain. A pair falls asleep with work left exactly when its last queued drain
      is in its hook and one of the changes landing there moves the leg the drain left. */
  lemma AwakeExactly(env: Env, s: Poly, step: Step)
    requires Awake(s)
    ensures Awake(Apply(env, s, step)) <==>
      !(step.RunDrain? && s.queued == 1 && MovesSome(Drain(env, s.c, step.script, 0).c, step.hook))
  {
    if step.RunDrain? && s.queued > 0 {
      hide Drain, MovesSome;
      DirtiesExactly(Drain(env, s.c, step.script, 0).c, step.hook);
    }
  }

  ghost predicate HooksUndisturbed(steps: seq<Step>) {
    forall st :: st in steps && st.RunDrain? ==> st.hook == []
  }

  lemma {:induction false} StaysAwake(env: Env, steps: seq<Step>)
    requires HooksUndisturbed(steps)
    ensures Awake(Runs(env, steps))
    decreases steps
  {
    if steps != [] {
      var front, st := steps[..|steps| - 1], steps[|steps| - 1];
      assert st in steps && forall x :: x in front ==> x in steps;
      StaysAwake(env, front);
      AwakeExactly(env, Runs(env, front), st);
    }
  }
}
