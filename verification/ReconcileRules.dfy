/** The reconcile policy: from both legs' states, whether media is bridged, and the
    state the last change entered, to the ordered list of actions of one pass
    (ReconcileRules.js). */
module ReconcileRules {
  import opened LegStates

  datatype Option<+T> = None | Some(value: T)

  /** Who an intent is attributed to. */
  datatype Source = Own | From(leg: Ref)

  datatype MediaOp = Bridge | Unbridge

  datatype Action = Do(leg: Ref, intent: Intent, source: Source) | Media(op: MediaOp)

  datatype Snapshot = Snapshot(a: LegState, b: LegState, media: bool) {
    predicate BothInCall() {
      a == InCall && b == InCall
    }

    function Leg(r: Ref): LegState {
      match r case A => a case B => b
    }

    function Mirror(): Snapshot {
      Snapshot(b, a, media)
    }
  }

  /** An ENDING peer finishing the previous call does not kill a fresh CALLING leg. */
  predicate IsSoft(teardown: LegState, other: LegState) {
    teardown == Ending && other == Calling
  }

  function When<T>(c: bool, x: T): seq<T> {
    if c then [x] else []
  }

  /** `xs` with `x` added unless it is there: insertion into a JavaScript Set. */
  function AddOnce(xs: seq<Ref>, x: Ref, c: bool): seq<Ref> {
    if c && x !in xs then xs + [x] else xs
  }

  predicate PeerKills(t: LegState, s: LegState) {
    IsTeardown(t) && NeedsEnding(s) && !IsSoft(t, s)
  }

  predicate Stranded(s: LegState, peer: LegState) {
    s == InCall && !CallViable(peer)
  }

  predicate MustEnd(s: Snapshot, r: Ref) {
    PeerKills(s.Leg(r.Peer()), s.Leg(r)) || Stranded(s.Leg(r), s.Leg(r.Peer()))
  }

  function ToEnd(s: Snapshot): seq<Ref> {
    var e1 := AddOnce([], B, PeerKills(s.a, s.b));
    var e2 := AddOnce(e1, A, PeerKills(s.b, s.a));
    var e3 := AddOnce(e2, A, Stranded(s.a, s.b));
    AddOnce(e3, B, Stranded(s.b, s.a))
  }

  function EndOf(r: Ref): Action {
    Do(r, End, From(r.Peer()))
  }

  function EndActions(refs: seq<Ref>): (acts: seq<Action>)
    ensures |acts| == |refs|
    ensures forall i :: 0 <= i < |refs| ==> acts[i] == EndOf(refs[i])
  {
    seq(|refs|, i requires 0 <= i < |refs| => EndOf(refs[i]))
  }

  function MediaRelease(s: Snapshot): seq<Action> {
    When(s.media && !s.BothInCall(), Media(Unbridge))
  }

  function AckEnds(s: Snapshot): seq<Action> {
    When(s.a == EndRequested, Do(A, AckEnd, Own)) + When(s.b == EndRequested, Do(B, AckEnd, Own))
  }

  function Releases(s: Snapshot): seq<Action> {
    MediaRelease(s) + AckEnds(s)
  }

  function Teardown(s: Snapshot): seq<Action> {
    Releases(s) + EndActions(ToEnd(s))
  }

  function Acks(s: Snapshot, last: Option<LegState>): seq<Action> {
    When(last == Some(Calling) && s.a == Calling, Do(A, AckConnected, Own))
    + When(last == Some(Calling) && s.b == Calling, Do(B, AckConnected, Own))
  }

  function RingAcks(s: Snapshot, last: Option<LegState>): seq<Action> {
    When(last == Some(Ringing) && s.a == Ringing && IsCaller(s.b), Do(B, AckRing, From(A)))
    + When(last == Some(Ringing) && s.b == Ringing && IsCaller(s.a), Do(A, AckRing, From(B)))
  }

  /** The one step that moves the call forward, if any: at most one intent, followed
      by the media bridge when a pickup completes. */
  function Progress(s: Snapshot): seq<Action> {
    if s.a == Calling && s.b == Calling then [Do(B, Ring, From(A))]
    else if s.a == InCall && IsCaller(s.b) then
      [Do(B, Answer, From(A))] + When(!s.media, Media(Bridge))
    else if s.b == InCall && IsCaller(s.a) then
      [Do(A, Answer, From(B))] + When(!s.media, Media(Bridge))
    else if IsCaller(s.a) && s.b == Disconnected then [Do(B, Connect, From(A))]
    else if IsCaller(s.a) && CanBeRung(s.b) then [Do(B, Ring, From(A))]
    else if IsCaller(s.b) && s.a == Disconnected then [Do(A, Connect, From(B))]
    else if IsCaller(s.b) && CanBeRung(s.a) then [Do(A, Ring, From(B))]
    else if s.BothInCall() then When(!s.media, Media(Bridge))
    else []
  }

  predicate SoftWait(s: Snapshot) {
    IsSoft(s.b, s.a) || IsSoft(s.a, s.b)
  }

  function Reconcile(s: Snapshot, last: Option<LegState>): seq<Action> {
    if Teardown(s) != [] then Teardown(s)
    else if SoftWait(s) then Acks(s, last)
    else Acks(s, last) + RingAcks(s, last) + Progress(s)
  }

  // ---- What the table promises ---------------------------------------------

  lemma EndListed(refs: seq<Ref>, r: Ref)
    ensures EndOf(r) in EndActions(refs) <==> r in refs
  {
    if r in refs {
      var i :| 0 <= i < |refs| && refs[i] == r;
      assert EndActions(refs)[i] == EndOf(r);
    }
  }

  lemma ToEndExactly(s: Snapshot, r: Ref)
    ensures r in ToEnd(s) <==> MustEnd(s, r)
    ensures |ToEnd(s)| <= 1
  {
  }

  /** Since at most one leg is ended, the Set the source iterates over is two options. */
  lemma EndsAsOptions(s: Snapshot)
    ensures EndActions(ToEnd(s)) == When(MustEnd(s, A), EndOf(A)) + When(MustEnd(s, B), EndOf(B))
  {
    assert A.Peer() == B && B.Peer() == A;
    assert ToEnd(s) == When(MustEnd(s, A), A) + When(MustEnd(s, B), B);
  }

  predicate NoEnds(acts: seq<Action>) {
    forall i :: 0 <= i < |acts| && acts[i].Do? ==> acts[i].intent != End
  }

  lemma NoEndOutsideTeardown(s: Snapshot, last: Option<LegState>)
    ensures NoEnds(Acks(s, last)) && NoEnds(RingAcks(s, last)) && NoEnds(Progress(s)) && NoEnds(Releases(s))
  {
  }

  /** A pass ends a leg exactly when its peer kills its call or has left it alone in one,
      and never ends both. */
  lemma EndsExactly(s: Snapshot, last: Option<LegState>, r: Ref)
    ensures EndOf(r) in Reconcile(s, last) <==> MustEnd(s, r)
    ensures EndOf(r) in Reconcile(s, last) ==> EndOf(r.Peer()) !in Reconcile(s, last)
  {
    hide Acks, RingAcks, Progress, Releases, ToEnd, MustEnd;
    NoEndOutsideTeardown(s, last);
    EndListed(ToEnd(s), r);
    EndListed(ToEnd(s), r.Peer());
    ToEndExactly(s, r);
    if Teardown(s) != [] {
      assert EndOf(r) in Teardown(s) <==> EndOf(r) in EndActions(ToEnd(s));
      assert EndOf(r.Peer()) in Teardown(s) <==> EndOf(r.Peer()) in EndActions(ToEnd(s));
    } else {
      assert EndActions(ToEnd(s)) == [];
      assert NoEnds(Acks(s, last) + RingAcks(s, last) + Progress(s));
    }
  }

  // ---- Symmetry ---------------------------------------------------------------

  function MirrorSource(src: Source): Source {
    match src case Own => Own case From(r) => From(r.Peer())
  }

  function MirrorAction(act: Action): Action {
    match act
    case Do(r, i, src) => Do(r.Peer(), i, MirrorSource(src))
    case Media(op) => act
  }

  function MirrorAll(xs: seq<Action>): (ys: seq<Action>)
    ensures |ys| == |xs| && forall i :: 0 <= i < |xs| ==> ys[i] == MirrorAction(xs[i])
  {
    seq(|xs|, i requires 0 <= i < |xs| => MirrorAction(xs[i]))
  }

  /** What one leg sees of a list: its own actions and those on the media, in order. */
  function Seen(xs: seq<Action>, r: Ref): seq<Action> {
    if xs == [] then []
    else (if xs[0].Do? && xs[0].leg != r then [] else [xs[0]]) + Seen(xs[1..], r)
  }

  /** Each leg sees in ys, in the same order, the mirrored actions its peer sees in xs: the lists
      mirror each other up to the order of actions on different legs. */
  predicate Mirrors(xs: seq<Action>, ys: seq<Action>) {
    MirrorAll(Seen(xs, A)) == Seen(ys, B) && MirrorAll(Seen(xs, B)) == Seen(ys, A)
  }

  lemma {:induction false} SeenConcat(xs: seq<Action>, ys: seq<Action>, r: Ref)
    ensures Seen(xs + ys, r) == Seen(xs, r) + Seen(ys, r)
  {
    if xs == [] {
      assert xs + ys == ys;
    } else {
      SeenConcat(xs[1..], ys, r);
      assert (xs + ys)[1..] == xs[1..] + ys;
    }
  }

  lemma MirrorConcat(xs: seq<Action>, ys: seq<Action>, us: seq<Action>, vs: seq<Action>)
    requires Mirrors(xs, us) && Mirrors(ys, vs)
    ensures Mirrors(xs + ys, us + vs)
  {
    SeenConcat(xs, ys, A);
    SeenConcat(xs, ys, B);
    SeenConcat(us, vs, A);
    SeenConcat(us, vs, B);
  }

  lemma OneSeen(x: Action, r: Ref)
    ensures Seen([x], r) == if x.Do? && x.leg != r then [] else [x]
  {
    assert [x][1..] == [];
  }

  lemma OptionSeen(c: bool, x: Action, r: Ref)
    ensures Seen(When(c, x), r) == if c && !(x.Do? && x.leg != r) then [x] else []
  {
    OneSeen(x, r);
  }

  /** Two optional actions on different legs, in either order. */
  lemma OptionsMirror(x: bool, y: bool, p: Action, q: Action)
    requires p.Do? && q.Do? && p.leg != q.leg
    ensures Mirrors(When(x, p) + When(y, q), When(y, MirrorAction(q)) + When(x, MirrorAction(p)))
  {
    var p', q' := MirrorAction(p), MirrorAction(q);
    forall r: Ref
      ensures Seen(When(x, p) + When(y, q), r) == if p.leg == r then When(x, p) else When(y, q)
      ensures Seen(When(y, q') + When(x, p'), r) == if p.leg == r then When(y, q') else When(x, p')
    {
      SeenConcat(When(x, p), When(y, q), r);
      SeenConcat(When(y, q'), When(x, p'), r);
      OptionSeen(x, p, r);
      OptionSeen(y, q, r);
      OptionSeen(x, p', r);
      OptionSeen(y, q', r);
    }
  }

  lemma MustEndMirrors(s: Snapshot, r: Ref)
    ensures MustEnd(s.Mirror(), r) == MustEnd(s, r.Peer())
  {
  }

  lemma EndsMirror(s: Snapshot)
    ensures Mirrors(EndActions(ToEnd(s)), EndActions(ToEnd(s.Mirror())))
  {
    hide Mirrors, ToEnd, MustEnd;
    EndsAsOptions(s);
    EndsAsOptions(s.Mirror());
    MustEndMirrors(s, A);
    MustEndMirrors(s, B);
    assert MirrorAction(EndOf(A)) == EndOf(B) && MirrorAction(EndOf(B)) == EndOf(A);
    OptionsMirror(MustEnd(s, A), MustEnd(s, B), EndOf(A), EndOf(B));
  }

  lemma MediaMirrors(s: Snapshot)
    ensures Mirrors(MediaRelease(s), MediaRelease(s.Mirror()))
  {
    OneSeen(Media(Unbridge), A);
    OneSeen(Media(Unbridge), B);
  }

  lemma ReleasesMirror(s: Snapshot)
    ensures Mirrors(Releases(s), Releases(s.Mirror()))
  {
    hide Mirrors, MediaRelease;
    MediaMirrors(s);
    OptionsMirror(s.a == EndRequested, s.b == EndRequested, Do(A, AckEnd, Own), Do(B, AckEnd, Own));
    MirrorConcat(MediaRelease(s), AckEnds(s), MediaRelease(s.Mirror()), AckEnds(s.Mirror()));
  }

  lemma AcksMirror(s: Snapshot, last: Option<LegState>)
    ensures Mirrors(Acks(s, last), Acks(s.Mirror(), last))
    ensures Mirrors(RingAcks(s, last), RingAcks(s.Mirror(), last))
  {
    hide Mirrors;
    OptionsMirror(last == Some(Calling) && s.a == Calling, last == Some(Calling) && s.b == Calling,
                  Do(A, AckConnected, Own), Do(B, AckConnected, Own));
    OptionsMirror(last == Some(Ringing) && s.a == Ringing && IsCaller(s.b),
                  last == Some(Ringing) && s.b == Ringing && IsCaller(s.a),
                  Do(B, AckRing, From(A)), Do(A, AckRing, From(B)));
  }

  lemma ProgressMirrors(s: Snapshot)
    requires !(s.a == Calling && s.b == Calling)
    ensures Mirrors(Progress(s), Progress(s.Mirror()))
  {
    var xs, ys := Progress(s), Progress(s.Mirror());
    assert xs == MirrorAll(ys) by { ProgressMirrored(s); }
    SeenMirrored(ys, A);
    SeenMirrored(ys, B);
    assert forall zs: seq<Action> :: MirrorAll(MirrorAll(zs)) == zs;
  }

  /** The step forward is one intent at most, so its mirror image is exact. */
  lemma ProgressMirrored(s: Snapshot)
    requires !(s.a == Calling && s.b == Calling)
    ensures Progress(s) == MirrorAll(Progress(s.Mirror()))
  {
  }

  lemma {:induction false} SeenMirrored(xs: seq<Action>, r: Ref)
    ensures Seen(MirrorAll(xs), r.Peer()) == MirrorAll(Seen(xs, r))
  {
    if xs != [] {
      SeenMirrored(xs[1..], r);
      assert MirrorAll(xs)[1..] == MirrorAll(xs[1..]);
    }
  }

  /** The rules do not care which leg is which: exchanging the legs exchanges the actions, in the
      order each leg sees them.
      The one exception is the glare of two CALLING legs, where B is rung. */
  lemma RulesAreSymmetric(s: Snapshot, last: Option<LegState>)
    ensures s.a == Calling && s.b == Calling ==>
      (Reconcile(s, last) == if s.media then [Media(Unbridge)] else Acks(s, last) + [Do(B, Ring, From(A))])
    ensures !(s.a == Calling && s.b == Calling) ==>
      Mirrors(Reconcile(s, last), Reconcile(s.Mirror(), last))
  {
    hide Releases, Acks, RingAcks, Progress, ToEnd;
    EndsMirror(s);
    ReleasesMirror(s);
    MirrorConcat(Releases(s), EndActions(ToEnd(s)), Releases(s.Mirror()), EndActions(ToEnd(s.Mirror())));
    AcksMirror(s, last);
    var m := s.Mirror();
    if !(s.a == Calling && s.b == Calling) {
      ProgressMirrors(s);
      MirrorConcat(Acks(s, last), RingAcks(s, last), Acks(m, last), RingAcks(m, last));
      MirrorConcat(Acks(s, last) + RingAcks(s, last), Progress(s), Acks(m, last) + RingAcks(m, last), Progress(m));
      EmptyMirrors(Teardown(s), Teardown(m));
    } else {
      GlareList(s, last);
    }
  }

  lemma GlareList(s: Snapshot, last: Option<LegState>)
    requires s.a == Calling && s.b == Calling
    ensures Teardown(s) == When(s.media, Media(Unbridge)) && !SoftWait(s)
    ensures RingAcks(s, last) == [] && Progress(s) == [Do(B, Ring, From(A))]
  {
    assert ToEnd(s) == [];
  }

  lemma EmptyMirrors(xs: seq<Action>, ys: seq<Action>)
    requires Mirrors(xs, ys)
    ensures xs == [] <==> ys == []
  {
    if xs != [] { assert Seen(xs, if xs[0].Do? then xs[0].leg else A) != []; }
    if ys != [] { assert Seen(ys, if ys[0].Do? then ys[0].leg else A) != []; }
  }
}
