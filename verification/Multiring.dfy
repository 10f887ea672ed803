/** Safety of the multiring coordinator over every event sequence. */
module Multiring {
  import opened MultiringModel

  // ---- Invariants --------------------------------------------------------------------

  /** One group: at most one winner, at most one win reported, exactly one outcome once
      finished and none before. */
  predicate GroupOk(x: Group) {
    && (x.winner.Some? ==> x.winner.value < |x.cands| && x.cands[x.winner.value].status != Ringing)
    && (forall i :: 0 <= i < |x.cands| && x.cands[i].status == Winner ==> x.winner == Some(i))
    && (x.timer ==> x.winner == None && !x.finished)
    && x.wins <= 1 && (x.winner == None ==> x.wins == 0)
    && x.handoffs + x.destroys == (if x.finished then 1 else 0)
    && (x.handoffs == 1 ==> x.winner.Some?)
  }

  /** Every entry is under a key of the candidate it refers to. */
  ghost predicate Keyed<K(!new)>(m: map<K, Place>, all: seq<Group>, keyOf: Candidate -> Option<K>) {
    forall k :: k in m ==> In(all, m[k]) && keyOf(CandOf(all, m[k])) == Some(k)
  }

  /** p is a candidate that is not closed, in a group that is not finished. */
  predicate Active(all: seq<Group>, p: Place) {
    In(all, p) && CandOf(all, p).status != Closed && !all[p.group].finished
  }

  ghost predicate Live<K(!new)>(m: map<K, Place>, all: seq<Group>) {
    forall k :: k in m ==> Active(all, m[k])
  }

  ghost predicate MapSound<K(!new)>(m: map<K, Place>, all: seq<Group>, keyOf: Candidate -> Option<K>) {
    Keyed(m, all, keyOf) && Live(m, all)
  }

  ghost predicate IndexSound(s: State) {
    MapSound(s.sig, s.all, SigOf) && MapSound(s.nonce, s.all, NonceOf) && MapSound(s.pcs, s.all, PcOf)
  }

  /** The registered groups are the unfinished ones, and each group has its own host. */
  ghost predicate LiveSound(s: State) {
    && (forall g :: g in s.live <==> 0 <= g < |s.all| && !s.all[g].finished)
    && (forall h :: h in s.hosts ==> s.hosts[h] in s.live && s.all[s.hosts[h]].host == h)
    && (forall g :: 0 <= g < |s.all| ==> s.all[g].host.Inbound? && s.all[g].host.number == g + 1)
  }

  predicate GroupsOk(s: State) {
    forall g :: 0 <= g < |s.all| ==> GroupOk(s.all[g])
  }

  ghost predicate Sound(s: State) {
    GroupsOk(s) && IndexSound(s) && LiveSound(s)
  }

  // ---- What one event may do -------------------------------------------------------

  predicate StatusAdvances(a: Status, b: Status) {
    a == b || b == Closed || (a == Ringing && b == Winner)
  }

  predicate SameKeys(c: Candidate, d: Candidate) {
    && d.wallet == c.wallet && d.name == c.name && d.pairKey == c.pairKey
    && d.sigKey == c.sigKey && d.nonceKey == c.nonceKey && d.pc == c.pc
  }

  /** Candidates only move forward, a winner is never changed, a finished group stays so. */
  predicate Advances(x: Group, y: Group) {
    && y.host == x.host && |y.cands| == |x.cands|
    && (forall i :: 0 <= i < |x.cands| ==>
         SameKeys(x.cands[i], y.cands[i]) && StatusAdvances(x.cands[i].status, y.cands[i].status))
    && (x.winner.Some? ==> y.winner == x.winner)
    && (x.finished ==> y.finished)
    && x.wins <= y.wins && x.handoffs <= y.handoffs && x.destroys <= y.destroys
  }

  predicate GroupsKept(all: seq<Group>, all': seq<Group>, g: nat) {
    && g < |all| == |all'| && Advances(all[g], all'[g])
    && (forall h :: 0 <= h < |all| && h != g ==> all'[h] == all[h])
  }

  predicate OthersKept<K>(m: map<K, Place>, n: map<K, Place>, g: nat) {
    && (forall k :: k in n ==> k in m && n[k] == m[k])
    && (forall k :: k in m && m[k].group != g ==> k in n)
  }

  predicate PairsKept(m: map<string, SessionId>, n: map<string, SessionId>, host: SessionId) {
    && (forall k :: k in n ==> k in m && n[k] == m[k])
    && (forall k :: k in m && m[k] != host ==> k in n)
  }

  predicate HostsKept(m: map<SessionId, nat>, n: map<SessionId, nat>, g: nat) {
    && (forall h :: h in n ==> h in m && n[h] == m[h])
    && (forall h :: h in m && m[h] != g ==> h in n)
  }

  /** A change of group g alone: the other groups and all their entries are as before. */
  predicate OnlyGroup(s: State, t: State, g: nat) {
    && GroupsKept(s.all, t.all, g)
    && OthersKept(s.sig, t.sig, g) && OthersKept(s.nonce, t.nonce, g) && OthersKept(s.pcs, t.pcs, g)
    && PairsKept(s.pairs, t.pairs, s.all[g].host)
    && HostsKept(s.hosts, t.hosts, g)
    && t.live <= s.live && s.live - {g} <= t.live
  }

  lemma OnlyGroupRefl(s: State, g: nat)
    requires g < |s.all|
    ensures OnlyGroup(s, s, g)
  {
  }

  lemma OnlyGroupTrans(s: State, t: State, u: State, g: nat)
    requires OnlyGroup(s, t, g) && OnlyGroup(t, u, g)
    ensures OnlyGroup(s, u, g)
  {
    assert u.live <= s.live && s.live - {g} <= u.live;
  }

  // ---- Untracking ----------------------------------------------------------------------

  /** n is m without p's entries. */
  ghost predicate Cleared<K(!new)>(m: map<K, Place>, n: map<K, Place>, p: Place) {
    && (forall k :: k in n <==> k in m && m[k] != p)
    && (forall k :: k in n ==> n[k] == m[k])
  }

  /** All of a candidate's entries are under its key, so untracking leaves it none. */
  lemma DropClears<K(!new)>(m: map<K, Place>, all: seq<Group>, keyOf: Candidate -> Option<K>, p: Place)
    requires In(all, p) && Keyed(m, all, keyOf)
    ensures Cleared(m, Drop(m, keyOf(CandOf(all, p)), p), p)
  {
  }

  /** Closing a candidate that has no entries keeps a map sound. */
  lemma MarkedStaysSound<K(!new)>(m: map<K, Place>, n: map<K, Place>, all: seq<Group>,
                                  keyOf: Candidate -> Option<K>, p: Place, status: Status)
    requires In(all, p) && MapSound(m, all, keyOf) && Cleared(m, n, p)
    requires forall c: Candidate, st: Status :: keyOf(c.(status := st)) == keyOf(c)
    ensures MapSound(n, Marked(all, p, status), keyOf)
  {
    var all' := Marked(all, p, status);
    forall k | k in n ensures Active(all', n[k]) && keyOf(CandOf(all', n[k])) == Some(k) {
      assert n[k] == m[k] && n[k] != p && Active(all, m[k]);
      assert CandOf(all', n[k]) == CandOf(all, m[k]);
    }
  }

  // ---- Closing ------------------------------------------------------------------------

  /** Only the candidates differ. */
  predicate SameFrame(x: Group, y: Group) {
    y == x.(cands := y.cands)
  }

  lemma MarkedKeeps(all: seq<Group>, p: Place)
    requires In(all, p) && GroupOk(all[p.group])
    ensures var all' := Marked(all, p, Closed);
      && GroupsKept(all, all', p.group) && GroupOk(all'[p.group])
      && SameFrame(all[p.group], all'[p.group])
      && CandOf(all', p).status == Closed
      && (forall j :: 0 <= j < |all[p.group].cands| && j != p.index ==>
            all'[p.group].cands[j] == all[p.group].cands[j])
  {
  }

  /** One map of the index when p is closed. */
  lemma MapAfterClose<K(!new)>(m: map<K, Place>, all: seq<Group>, keyOf: Candidate -> Option<K>, p: Place)
    requires In(all, p) && MapSound(m, all, keyOf)
    requires forall c: Candidate, st: Status :: keyOf(c.(status := st)) == keyOf(c)
    ensures MapSound(Drop(m, keyOf(CandOf(all, p)), p), Marked(all, p, Closed), keyOf)
    ensures OthersKept(m, Drop(m, keyOf(CandOf(all, p)), p), p.group)
  {
    var n := Drop(m, keyOf(CandOf(all, p)), p);
    DropClears(m, all, keyOf, p);
    MarkedStaysSound(m, n, all, keyOf, p, Closed);
  }

  /** A candidate is closed and untracked before its end message is sent, so the index stays
      sound even when that message throws. */
  lemma CloseKeeps(s: State, p: Place, throws: Sends)
    requires At(s, p) && IndexSound(s) && GroupOk(s.all[p.group])
    ensures OnlyCloses(s, Close(s, p, throws).s, p.group)
  {
    hide MapSound, Drop, GroupOk, Advances;
    if Cand(s, p).status == Closed {
      OnlyGroupRefl(s, p.group);
    } else {
      hide GroupsKept, OthersKept, Marked;
      MarkedKeeps(s.all, p);
      MapAfterClose(s.sig, s.all, SigOf, p);
      MapAfterClose(s.nonce, s.all, NonceOf, p);
      MapAfterClose(s.pcs, s.all, PcOf, p);
    }
  }

  /** A change that only closes candidates of g. */
  ghost predicate OnlyCloses(s: State, t: State, g: nat) {
    && OnlyGroup(s, t, g) && IndexSound(t) && GroupOk(t.all[g])
    && t.live == s.live && t.hosts == s.hosts && SameFrame(s.all[g], t.all[g])
  }

  lemma OnlyClosesTrans(s: State, t: State, u: State, g: nat)
    requires OnlyCloses(s, t, g) && OnlyCloses(t, u, g)
    ensures OnlyCloses(s, u, g)
  {
    hide GroupOk, MapSound;
    OnlyGroupTrans(s, t, u, g);
    hide OnlyGroup;
  }

  lemma CloseCloses(s: State, p: Place, throws: Sends)
    requires At(s, p)
    ensures var t := Close(s, p, throws).s;
      && |t.all| == |s.all| && |t.all[p.group].cands| == |s.all[p.group].cands|
      && Cand(t, p).status == Closed
      && (forall j :: 0 <= j < |s.all[p.group].cands| && j != p.index ==>
            t.all[p.group].cands[j] == s.all[p.group].cands[j])
  {
  }

  lemma {:induction false} CloseFromKeeps(s: State, g: nat, i: nat, spare: Option<nat>, throws: Sends)
    requires g < |s.all| && i <= |s.all[g].cands| && IndexSound(s) && GroupOk(s.all[g])
    ensures OnlyCloses(s, CloseFrom(s, g, i, spare, throws).s, g)
    decreases |s.all[g].cands| - i
  {
    hide Close, IndexSound, GroupOk;
    if i < |s.all[g].cands| {
      if spare == Some(i) {
        CloseFromKeeps(s, g, i + 1, spare, throws);
      } else {
        CloseKeeps(s, Place(g, i), throws);
        var r := Close(s, Place(g, i), throws);
        if r.ok {
          CloseFromKeeps(r.s, g, i + 1, spare, throws);
          OnlyClosesTrans(s, r.s, CloseFrom(r.s, g, i + 1, spare, throws).s, g);
        }
      }
    }
  }

  /** What closing from i on does to a group. */
  predicate ClosedFrom(x: Group, y: Group, i: nat, spare: Option<nat>, ok: bool) {
    && |y.cands| == |x.cands|
    && (forall j :: 0 <= j < |x.cands| && (j < i || spare == Some(j)) ==> y.cands[j] == x.cands[j])
    && (ok ==> forall j :: i <= j < |x.cands| && spare != Some(j) ==> y.cands[j].status == Closed)
  }

  lemma {:induction false} CloseFromCloses(s: State, g: nat, i: nat, spare: Option<nat>, throws: Sends)
    requires g < |s.all| && i <= |s.all[g].cands|
    ensures var r := CloseFrom(s, g, i, spare, throws);
      |r.s.all| == |s.all| && ClosedFrom(s.all[g], r.s.all[g], i, spare, r.ok)
    decreases |s.all[g].cands| - i
  {
    hide Close;
    if i < |s.all[g].cands| {
      if spare == Some(i) {
        CloseFromCloses(s, g, i + 1, spare, throws);
      } else {
        CloseCloses(s, Place(g, i), throws);
        var r := Close(s, Place(g, i), throws);
        if r.ok {
          CloseFromCloses(r.s, g, i + 1, spare, throws);
        }
      }
    }
  }

  ghost predicate Quiet(throws: Sends) {
    forall p :: !throws(p)
  }

  lemma {:induction false} QuietCloses(s: State, g: nat, i: nat, spare: Option<nat>, throws: Sends)
    requires g < |s.all| && i <= |s.all[g].cands| && Quiet(throws)
    ensures CloseFrom(s, g, i, spare, throws).ok
    decreases |s.all[g].cands| - i
  {
    if i < |s.all[g].cands| {
      QuietCloses(if spare == Some(i) then s else Close(s, Place(g, i), throws).s, g, i + 1, spare, throws);
    }
  }

  // ---- Finishing ------------------------------------------------------------------------

  /** n is m without the entries of g's candidates from i on. */
  ghost predicate ClearedFrom<K(!new)>(m: map<K, Place>, n: map<K, Place>, g: nat, i: nat) {
    && (forall k :: k in n <==> k in m && (m[k].group != g || m[k].index < i))
    && (forall k :: k in n ==> n[k] == m[k])
  }

  ghost predicate IndexKeyed(s: State) {
    Keyed(s.sig, s.all, SigOf) && Keyed(s.nonce, s.all, NonceOf) && Keyed(s.pcs, s.all, PcOf)
  }

  ghost predicate IndexClearedFrom(s: State, t: State, g: nat, i: nat) {
    ClearedFrom(s.sig, t.sig, g, i) && ClearedFrom(s.nonce, t.nonce, g, i) && ClearedFrom(s.pcs, t.pcs, g, i)
  }

  lemma ClearedStep<K(!new)>(m: map<K, Place>, all: seq<Group>, keyOf: Candidate -> Option<K>, g: nat, i: nat)
    requires In(all, Place(g, i)) && Keyed(m, all, keyOf)
    ensures var n := Drop(m, keyOf(CandOf(all, Place(g, i))), Place(g, i));
      && Keyed(n, all, keyOf)
      && forall u :: ClearedFrom(n, u, g, i + 1) ==> ClearedFrom(m, u, g, i)
  {
    DropClears(m, all, keyOf, Place(g, i));
  }

  lemma ClearedToEnd<K(!new)>(m: map<K, Place>, all: seq<Group>, keyOf: Candidate -> Option<K>, g: nat)
    requires g < |all| && Keyed(m, all, keyOf)
    ensures ClearedFrom(m, m, g, |all[g].cands|)
  {
  }

  lemma {:induction false} UntrackFromClears(s: State, g: nat, i: nat, keep: Option<nat>)
    requires g < |s.all| && i <= |s.all[g].cands| && IndexKeyed(s)
    ensures IndexClearedFrom(s, UntrackFrom(s, g, i, keep), g, i)
    decreases |s.all[g].cands| - i
  {
    if i == |s.all[g].cands| {
      ClearedToEnd(s.sig, s.all, SigOf, g);
      ClearedToEnd(s.nonce, s.all, NonceOf, g);
      ClearedToEnd(s.pcs, s.all, PcOf, g);
    } else {
      hide Keyed, ClearedFrom, Drop;
      ClearedStep(s.sig, s.all, SigOf, g, i);
      ClearedStep(s.nonce, s.all, NonceOf, g, i);
      ClearedStep(s.pcs, s.all, PcOf, g, i);
      UntrackFromClears(Untrack(s, Place(g, i), keep == Some(i)), g, i + 1, keep);
    }
  }

  lemma {:induction false} UntrackFromPairs(s: State, g: nat, i: nat, keep: Option<nat>)
    requires g < |s.all| && i <= |s.all[g].cands|
    ensures PairsKept(s.pairs, UntrackFrom(s, g, i, keep).pairs, s.all[g].host)
    decreases |s.all[g].cands| - i
  {
    if i < |s.all[g].cands| {
      hide Drop;
      UntrackFromPairs(Untrack(s, Place(g, i), keep == Some(i)), g, i + 1, keep);
    }
  }

  lemma FinishedMapSound<K(!new)>(m: map<K, Place>, n: map<K, Place>, all: seq<Group>,
                                  keyOf: Candidate -> Option<K>, g: nat, x: Group)
    requires g < |all| && MapSound(m, all, keyOf) && ClearedFrom(m, n, g, 0) && x.cands == all[g].cands
    ensures MapSound(n, all[g := x], keyOf) && OthersKept(m, n, g)
  {
    var all' := all[g := x];
    forall k | k in n ensures Active(all', n[k]) && keyOf(CandOf(all', n[k])) == Some(k) {
      assert n[k] == m[k] && Active(all, m[k]);
    }
  }

  function Done(x: Group): Group {
    x.(finished := true, timer := false)
  }

  lemma FinishLive(s: State, g: nat, preserve: bool)
    requires g < |s.all| && !s.all[g].finished && LiveSound(s)
    ensures var t := Finish(s, g, preserve);
      && LiveSound(t) && t.all == s.all[g := Done(s.all[g])]
      && HostsKept(s.hosts, t.hosts, g) && t.live <= s.live && s.live - {g} <= t.live
  {
    hide UntrackFrom;
  }

  /** A group leaves the index and the registers in full, and nobody else does. */
  lemma FinishKeeps(s: State, g: nat, preserve: bool)
    requires g < |s.all| && !s.all[g].finished && IndexSound(s) && LiveSound(s)
    ensures var t := Finish(s, g, preserve);
      && OnlyGroup(s, t, g) && IndexSound(t) && LiveSound(t) && t.all == s.all[g := Done(s.all[g])]
  {
    hide LiveSound, HostsKept, PairsKept, OthersKept, UntrackFrom, MapSound;
    var keep := if preserve then s.all[g].winner else None;
    FinishIndex(s, g, keep);
    FinishLive(s, g, preserve);
    UntrackFromPairs(SetGroup(s, g, Done(s.all[g])), g, 0, keep);
  }

  lemma FinishIndex(s: State, g: nat, keep: Option<nat>)
    requires g < |s.all| && IndexSound(s)
    ensures var s1 := SetGroup(s, g, Done(s.all[g]));
      var t := UntrackFrom(s1, g, 0, keep);
      && IndexSound(t)
      && OthersKept(s.sig, t.sig, g) && OthersKept(s.nonce, t.nonce, g) && OthersKept(s.pcs, t.pcs, g)
  {
    var x := Done(s.all[g]);
    var s1 := SetGroup(s, g, x);
    assert IndexKeyed(s1);
    hide Keyed, ClearedFrom;
    UntrackFromClears(s1, g, 0, keep);
    var t := UntrackFrom(s1, g, 0, keep);
    FinishedMapSound(s.sig, t.sig, s.all, SigOf, g, x);
    FinishedMapSound(s.nonce, t.nonce, s.all, NonceOf, g, x);
    FinishedMapSound(s.pcs, t.pcs, s.all, PcOf, g, x);
  }

  // ---- Each operation keeps the invariants and touches one group ---------------------------

  ghost predicate Keeps(s: State, t: State, g: nat) {
    OnlyGroup(s, t, g) && Sound(t)
  }

  lemma KeepsTrans(s: State, t: State, u: State, g: nat)
    requires Keeps(s, t, g) && Keeps(t, u, g)
    ensures Keeps(s, u, g)
  {
    hide OnlyGroup, Sound;
    OnlyGroupTrans(s, t, u, g);
  }

  lemma ClosesKeep(s: State, t: State, g: nat)
    requires Sound(s) && OnlyCloses(s, t, g)
    ensures Keeps(s, t, g)
  {
    hide GroupOk, IndexSound, OthersKept;
    assert GroupsOk(t);
    assert LiveSound(t);
  }

  /** A finished group with its one outcome counted. */
  function Outcome(x: Group, destroyed: bool): Group {
    if destroyed then x.(destroys := x.destroys + 1) else x.(handoffs := x.handoffs + 1)
  }

  lemma OutcomeIsOk(x: Group, destroyed: bool)
    requires GroupOk(x) && !x.finished && (destroyed || x.winner.Some?)
    ensures GroupOk(Outcome(Done(x), destroyed)) && Advances(x, Outcome(Done(x), destroyed))
  {
  }

  /** Finishing a group and counting its one outcome. */
  lemma OutcomeKeeps(s: State, g: nat, preserve: bool, destroyed: bool)
    requires g < |s.all| && !s.all[g].finished && Sound(s)
    requires destroyed || s.all[g].winner.Some?
    ensures var t := Finish(s, g, preserve);
      g < |t.all| && Keeps(s, SetGroup(t, g, Outcome(t.all[g], destroyed)), g)
  {
    hide Finish, IndexSound, LiveSound, GroupOk, Advances, OthersKept, OnlyGroup;
    FinishKeeps(s, g, preserve);
    OutcomeIsOk(s.all[g], destroyed);
    CountKeeps(s, Finish(s, g, preserve), g, Outcome(Done(s.all[g]), destroyed));
  }

  lemma RecountMap<K(!new)>(m: map<K, Place>, all: seq<Group>, keyOf: Candidate -> Option<K>, g: nat, x: Group)
    requires g < |all| && MapSound(m, all, keyOf)
    requires x.cands == all[g].cands && x.finished == all[g].finished
    ensures MapSound(m, all[g := x], keyOf)
  {
    var all' := all[g := x];
    forall k | k in m ensures Active(all', m[k]) && keyOf(CandOf(all', m[k])) == Some(k) {
      assert Active(all, m[k]);
    }
  }

  /** The fields of a group that neither the index nor the registers look at. */
  lemma RecountKeeps(s: State, g: nat, x: Group)
    requires g < |s.all| && IndexSound(s) && LiveSound(s)
    requires x.cands == s.all[g].cands && x.finished == s.all[g].finished && x.host == s.all[g].host
    ensures IndexSound(SetGroup(s, g, x)) && LiveSound(SetGroup(s, g, x))
  {
    RecountMap(s.sig, s.all, SigOf, g, x);
    RecountMap(s.nonce, s.all, NonceOf, g, x);
    RecountMap(s.pcs, s.all, PcOf, g, x);
    hide MapSound;
  }

  lemma CountKeeps(s: State, t: State, g: nat, x: Group)
    requires Sound(s) && OnlyGroup(s, t, g) && IndexSound(t) && LiveSound(t)
    requires x.cands == t.all[g].cands && x.finished == t.all[g].finished && x.host == t.all[g].host
    requires Advances(s.all[g], x) && GroupOk(x)
    ensures Keeps(s, SetGroup(t, g, x), g)
  {
    RecountKeeps(t, g, x);
    hide IndexSound, LiveSound, OthersKept, GroupOk, Advances;
  }

  lemma GiveUpKeeps(s: State, g: nat, throws: Sends)
    requires g < |s.all| && !s.all[g].finished && Sound(s)
    ensures Keeps(s, GiveUp(s, g, throws), g)
  {
    hide CloseFrom, Finish;
    var r := CloseFrom(s, g, 0, None, throws);
    CloseFromKeeps(s, g, 0, None, throws);
    ClosesKeep(s, r.s, g);
    if r.ok {
      OutcomeKeeps(r.s, g, false, true);
      KeepsTrans(s, r.s, GiveUp(s, g, throws), g);
    }
  }

  lemma SoundKeeps(s: State, g: nat)
    requires g < |s.all| && Sound(s)
    ensures Keeps(s, s, g)
  {
    hide Sound;
    OnlyGroupRefl(s, g);
  }

  lemma CleanupKeeps(s: State, g: nat, throws: Sends)
    requires g < |s.all| && Sound(s)
    ensures Keeps(s, Cleanup(s, g, throws), g)
  {
    hide Keeps, Sound;
    SoundKeeps(s, g);
    if !s.all[g].finished { GiveUpKeeps(s, g, throws); }
  }

  lemma FailHandoffKeeps(s: State, g: nat, throws: Sends)
    requires g < |s.all| && Sound(s)
    ensures Keeps(s, FailHandoff(s, g, throws), g)
  {
    hide Keeps, Sound;
    SoundKeeps(s, g);
    if !s.all[g].finished { GiveUpKeeps(s, g, throws); }
  }

  lemma CompleteHandoffKeeps(s: State, g: nat)
    requires g < |s.all| && Sound(s)
    ensures Keeps(s, CompleteHandoff(s, g), g)
  {
    hide Keeps, Sound;
    SoundKeeps(s, g);
    if s.all[g].winner.Some? && !s.all[g].finished { OutcomeKeeps(s, g, true, false); }
  }

  lemma CloseOneKeeps(s: State, p: Place, throws: Sends)
    requires At(s, p) && Sound(s)
    ensures Keeps(s, Close(s, p, throws).s, p.group)
  {
    CloseKeeps(s, p, throws);
    ClosesKeep(s, Close(s, p, throws).s, p.group);
  }

  lemma CloseAndCheckKeeps(s: State, p: Place, throws: Sends)
    requires At(s, p) && Sound(s)
    ensures Keeps(s, CloseAndCheck(s, p, throws), p.group)
  {
    CloseOneKeeps(s, p, throws);
    var t := Close(s, p, throws).s;
    CleanupKeeps(t, p.group, throws);
    hide Keeps, Cleanup;
    KeepsTrans(s, t, Cleanup(t, p.group, throws), p.group);
  }

  lemma LockedMap<K(!new)>(m: map<K, Place>, all: seq<Group>, keyOf: Candidate -> Option<K>, p: Place)
    requires In(all, p) && MapSound(m, all, keyOf)
    requires forall c: Candidate, st: Status :: keyOf(c.(status := st)) == keyOf(c)
    ensures MapSound(m, Marked(all, p, Winner), keyOf)
  {
    var all' := Marked(all, p, Winner);
    forall k | k in m ensures Active(all', m[k]) && keyOf(CandOf(all', m[k])) == Some(k) {
      assert Active(all, m[k]);
      if m[k] != p { assert CandOf(all', m[k]) == CandOf(all, m[k]); }
    }
  }

  lemma LockedKeeps(s: State, p: Place)
    requires At(s, p) && Sound(s) && s.all[p.group].winner == None && Cand(s, p).status == Ringing
    requires !s.all[p.group].finished
    ensures Keeps(s, Locked(s, p), p.group)
  {
    var t := s.(all := Marked(s.all, p, Winner));
    LockedMap(s.sig, s.all, SigOf, p);
    LockedMap(s.nonce, s.all, NonceOf, p);
    LockedMap(s.pcs, s.all, PcOf, p);
    LockedCount(s, p);
    hide MapSound, GroupOk;
    CountKeeps(s, t, p.group, t.all[p.group].(winner := Some(p.index), timer := false));
  }

  lemma LockedCount(s: State, p: Place)
    requires At(s, p) && GroupOk(s.all[p.group]) && s.all[p.group].winner == None && Cand(s, p).status == Ringing
    requires !s.all[p.group].finished
    ensures var t := s.(all := Marked(s.all, p, Winner));
      var x := t.all[p.group].(winner := Some(p.index), timer := false);
      OnlyGroup(s, t, p.group) && Advances(s.all[p.group], x) && GroupOk(x)
  {
  }

  lemma PickupKeeps(s: State, p: Place, throws: Sends)
    requires At(s, p) && Sound(s) && !s.all[p.group].finished
    ensures Keeps(s, Pickup(s, p, throws), p.group)
  {
    hide Close, Locked, OnlyGroup, IndexSound;
    SoundKeeps(s, p.group);
    CloseOneKeeps(s, p, throws);
    if Cand(s, p).status != Closed && s.all[p.group].winner == None {
      FirstPickupKeeps(s, p, throws);
    }
  }

  lemma FirstPickupKeeps(s: State, p: Place, throws: Sends)
    requires At(s, p) && Sound(s) && s.all[p.group].winner == None && Cand(s, p).status == Ringing
    requires !s.all[p.group].finished
    ensures Keeps(s, Pickup(s, p, throws), p.group)
  {
    var g, s1 := p.group, Locked(s, p);
    assert s1.all[g].winner.Some? && s1.all[g].wins == 0;
    var r := CloseFrom(s1, g, 0, Some(p.index), throws);
    hide Locked, CloseFrom, IndexSound, GroupOk, LiveSound, OnlyGroup, OthersKept, Advances;
    LockedKeeps(s, p);
    CloseFromKeeps(s1, g, 0, Some(p.index), throws);
    ClosesKeep(s1, r.s, g);
    KeepsTrans(s, s1, r.s, g);
    if r.ok { WinKeeps(s, r.s, g); }
  }

  lemma WinKeeps(s: State, t: State, g: nat)
    requires g < |s.all| && Sound(s) && Keeps(s, t, g) && t.all[g].wins == 0 && t.all[g].winner.Some?
    ensures Keeps(s, SetGroup(t, g, t.all[g].(wins := t.all[g].wins + 1)), g)
  {
    hide MapSound, OthersKept, LiveSound;
    CountKeeps(s, t, g, t.all[g].(wins := t.all[g].wins + 1));
  }

  // ---- Starting a group -------------------------------------------------------------------

  lemma GrownMap<K(!new)>(m: map<K, Place>, all: seq<Group>, keyOf: Candidate -> Option<K>, x: Group)
    requires MapSound(m, all, keyOf)
    ensures MapSound(m, all + [x], keyOf)
  {
    forall k | k in m ensures Active(all + [x], m[k]) && keyOf(CandOf(all + [x], m[k])) == Some(k) {
      assert Active(all, m[k]);
    }
  }

  lemma PutMap<K(!new)>(m: map<K, Place>, all: seq<Group>, keyOf: Candidate -> Option<K>, p: Place)
    requires MapSound(m, all, keyOf) && Active(all, p)
    ensures MapSound(Put(m, keyOf(CandOf(all, p)), p), all, keyOf)
  {
  }

  lemma {:induction false} TrackFromKeeps(s: State, g: nat, i: nat)
    requires g < |s.all| && i <= |s.all[g].cands| && IndexSound(s) && !s.all[g].finished
    requires forall j :: 0 <= j < |s.all[g].cands| ==> s.all[g].cands[j].status == Ringing
    ensures IndexSound(TrackFrom(s, g, i))
    decreases |s.all[g].cands| - i
  {
    if i < |s.all[g].cands| {
      PutMap(s.sig, s.all, SigOf, Place(g, i));
      PutMap(s.nonce, s.all, NonceOf, Place(g, i));
      PutMap(s.pcs, s.all, PcOf, Place(g, i));
      hide MapSound;
      TrackFromKeeps(Track(s, Place(g, i)), g, i + 1);
    }
  }

  lemma {:induction false} CloseUninvitedKeeps(s: State, g: nat, invitees: seq<Invitee>, i: nat)
    requires g < |s.all| && i <= |invitees| == |s.all[g].cands| && Sound(s)
    ensures Keeps(s, CloseUninvited(s, g, invitees, i), g)
    decreases |invitees| - i
  {
    hide Keeps, Sound, Close;
    SoundKeeps(s, g);
    if i < |invitees| {
      var t := if invitees[i].invited then s else Close(s, Place(g, i), p => false).s;
      CloseOneKeeps(s, Place(g, i), p => false);
      KeepsIsSound(s, t, g);
      CloseUninvitedKeeps(t, g, invitees, i + 1);
      KeepsTrans(s, t, CloseUninvited(t, g, invitees, i + 1), g);
    }
  }

  lemma KeepsIsSound(s: State, t: State, g: nat)
    requires Keeps(s, t, g)
    ensures Sound(t) && GroupsKept(s.all, t.all, g)
  {
  }

  lemma NewGroupIsOk(host: SessionId, invitees: seq<Invitee>)
    ensures GroupOk(NewGroup(host, invitees))
  {
  }

  lemma RegisteredKeeps(s: State, gateway: string, invitees: seq<Invitee>)
    requires Sound(s)
    ensures Sound(TrackFrom(Registered(s, gateway, invitees), |s.all|, 0))
  {
    hide MapSound, LiveSound, GroupOk;
    var t := Registered(s, gateway, invitees);
    var x := NewGroup(Inbound(gateway, |s.all| + 1), invitees);
    NewGroupIsOk(Inbound(gateway, |s.all| + 1), invitees);
    GrownMap(s.sig, s.all, SigOf, x);
    GrownMap(s.nonce, s.all, NonceOf, x);
    GrownMap(s.pcs, s.all, PcOf, x);
    RegisteredLive(s, gateway, invitees);
    TrackFromKeeps(t, |s.all|, 0);
    TrackedLive(t, TrackFrom(t, |s.all|, 0));
  }

  lemma TrackedLive(s: State, t: State)
    requires LiveSound(s) && t.all == s.all && t.live == s.live && t.hosts == s.hosts
    ensures LiveSound(t)
  {
  }

  lemma RegisteredLive(s: State, gateway: string, invitees: seq<Invitee>)
    requires LiveSound(s)
    ensures LiveSound(Registered(s, gateway, invitees))
  {
  }
}
