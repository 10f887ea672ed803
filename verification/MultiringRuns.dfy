/** The coordinator over whole runs: soundness, isolation, one winner, one outcome. */
module MultiringRuns {
  import opened MultiringModel
  import opened Multiring

  // ---- One event ------------------------------------------------------------------------

  /** The group an event other than a start can touch. */
  function Target(s: State, e: Event): Option<nat> {
    match e
    case Start(_, _) => None
    case HttpRefusal(nonceKey, sigKey, name) => GroupOf(ForOffer(s, nonceKey, sigKey, name))
    case DcRefusal(host, wallet, from, sig) =>
      if HostsInRange(s) then GroupOf(ForMeta(s, host, wallet, from, sig)) else None
    case DcAnswer(host, wallet, from, sig) =>
      if HostsInRange(s) then GroupOf(ForMeta(s, host, wallet, from, sig)) else None
    case TransportClosed(pc) => if pc in s.pcs then Some(s.pcs[pc].group) else None
    case Timeout(g) => if g < |s.all| then Some(g) else None
    case HandoffDone(g) => if g < |s.all| then Some(g) else None
    case HandoffFailed(g) => if g < |s.all| then Some(g) else None
  }

  function GroupOf(p: Option<Place>): Option<nat> {
    if p.Some? then Some(p.value.group) else None
  }

  lemma ForMetaInRange(s: State, host: SessionId, wallet: string, name: string, sigKey: string)
    requires Sound(s)
    ensures HostsInRange(s)
    ensures var r := ForMeta(s, host, wallet, name, sigKey);
      r.Some? ==> At(s, r.value) && !s.all[r.value.group].finished
  {
  }

  lemma ForOfferInRange(s: State, nonceKey: string, sigKey: string, name: string)
    requires Sound(s)
    ensures var r := ForOffer(s, nonceKey, sigKey, name); r.Some? ==> At(s, r.value)
  {
  }

  lemma TimerKeeps(s: State, g: nat)
    requires g < |s.all| && Sound(s)
    ensures Keeps(s, SetGroup(s, g, s.all[g].(timer := false)), g)
  {
    SoundKeeps(s, g);
    hide IndexSound, LiveSound, OthersKept;
    CountKeeps(s, s, g, s.all[g].(timer := false));
  }

  lemma TimeoutKeeps(s: State, g: nat, throws: Sends)
    requires g < |s.all| && Sound(s)
    ensures var t := SetGroup(s, g, s.all[g].(timer := false)); Keeps(s, Cleanup(t, g, throws), g)
  {
    hide Sound, OnlyGroup, Cleanup;
    var t := SetGroup(s, g, s.all[g].(timer := false));
    TimerKeeps(s, g);
    CleanupKeeps(t, g, throws);
    KeepsTrans(s, t, Cleanup(t, g, throws), g);
  }

  /** What an event did to its group: the state stays sound and no other group is touched. */
  ghost predicate Isolated(s: State, e: Event, t: State) {
    Sound(t) && (if Target(s, e).Some? then OnlyGroup(s, t, Target(s, e).value) else t == s)
  }

  lemma RefusalsAreIsolated(s: State, e: Event, throws: Sends)
    requires Sound(s) && (e.HttpRefusal? || e.DcRefusal?)
    ensures Isolated(s, e, Step(s, e, throws))
  {
    var r := match e
      case HttpRefusal(nonceKey, sigKey, name) => ForOffer(s, nonceKey, sigKey, name)
      case DcRefusal(host, wallet, from, sig) => if HostsInRange(s) then ForMeta(s, host, wallet, from, sig) else None
      case _ => None;
    if e.HttpRefusal? {
      ForOfferInRange(s, e.nonceKey, e.sigKey, e.name);
    } else {
      ForMetaInRange(s, e.host, e.wallet, e.from, e.sig);
    }
    hide Sound, OnlyGroup, CloseAndCheck, ForOffer, ForMeta;
    if r.Some? { SoundKeeps(s, r.value.group); CloseAndCheckKeeps(s, r.value, throws); }
  }

  lemma AnswersAreIsolated(s: State, e: Event, throws: Sends)
    requires Sound(s) && e.DcAnswer?
    ensures Isolated(s, e, Step(s, e, throws))
  {
    ForMetaInRange(s, e.host, e.wallet, e.from, e.sig);
    var r := ForMeta(s, e.host, e.wallet, e.from, e.sig);
    hide Sound, OnlyGroup, Pickup, ForMeta;
    if r.Some? { PickupKeeps(s, r.value, throws); }
  }

  lemma PcIsActive(s: State, pc: nat)
    requires Sound(s) && pc in s.pcs
    ensures Active(s.all, s.pcs[pc])
  {
  }

  lemma ClosuresAreIsolated(s: State, e: Event, throws: Sends)
    requires Sound(s) && e.TransportClosed?
    ensures Isolated(s, e, Step(s, e, throws))
  {
    hide Sound, OnlyGroup, CloseAndCheck, FailHandoff;
    if e.pc in s.pcs {
      var p := s.pcs[e.pc];
      PcIsActive(s, e.pc);
      FailHandoffKeeps(s, p.group, throws);
      CloseAndCheckKeeps(s, p, throws);
    }
  }

  /** Isolation: an event other than a start changes one group, and leaves the other groups
      and every entry of theirs in every map as they were. */
  lemma EventsAreIsolated(s: State, e: Event, throws: Sends)
    requires Sound(s) && !e.Start?
    ensures Isolated(s, e, Step(s, e, throws))
  {
    hide Sound, OnlyGroup, Cleanup, CompleteHandoff, FailHandoff;
    match e
    case HttpRefusal(_, _, _) => RefusalsAreIsolated(s, e, throws);
    case DcRefusal(_, _, _, _) => RefusalsAreIsolated(s, e, throws);
    case DcAnswer(_, _, _, _) => AnswersAreIsolated(s, e, throws);
    case TransportClosed(_) => ClosuresAreIsolated(s, e, throws);
    case Timeout(g) => if g < |s.all| { SoundKeeps(s, g); TimeoutKeeps(s, g, throws); }
    case HandoffDone(g) => if g < |s.all| { CompleteHandoffKeeps(s, g); }
    case HandoffFailed(g) => if g < |s.all| { FailHandoffKeeps(s, g, throws); }
  }

  // ---- A start --------------------------------------------------------------------------

  /** The entries of m under keys that no candidate of x uses are still in n. */
  ghost predicate UnusedKept<K(!new), V>(m: map<K, V>, n: map<K, V>, keyOf: Candidate -> Option<K>, x: Group) {
    forall k :: k in m && (forall i :: 0 <= i < |x.cands| ==> keyOf(x.cands[i]) != Some(k)) ==> k in n && n[k] == m[k]
  }

  lemma KeptIsUnusedKept<K(!new), V>(m: map<K, V>, keyOf: Candidate -> Option<K>, x: Group)
    ensures UnusedKept(m, m, keyOf, x)
  {
  }

  lemma UnusedAfterPut<K(!new)>(m: map<K, Place>, n: map<K, Place>, keyOf: Candidate -> Option<K>, x: Group, i: nat, p: Place)
    requires i < |x.cands| && UnusedKept(Put(m, keyOf(x.cands[i]), p), n, keyOf, x)
    ensures UnusedKept(m, n, keyOf, x)
  {
  }

  lemma {:induction false} TrackFromUnused(s: State, g: nat, i: nat)
    requires g < |s.all| && i <= |s.all[g].cands|
    ensures var t, x := TrackFrom(s, g, i), s.all[g];
      UnusedKept(s.sig, t.sig, SigOf, x) && UnusedKept(s.nonce, t.nonce, NonceOf, x) && UnusedKept(s.pcs, t.pcs, PcOf, x)
    decreases |s.all[g].cands| - i
  {
    hide UnusedKept, Put;
    var x := s.all[g];
    if i == |x.cands| {
      KeptIsUnusedKept(s.sig, SigOf, x);
      KeptIsUnusedKept(s.nonce, NonceOf, x);
      KeptIsUnusedKept(s.pcs, PcOf, x);
    } else {
      var p, t := Place(g, i), TrackFrom(s, g, i);
      TrackFromUnused(Track(s, p), g, i + 1);
      UnusedAfterPut(s.sig, t.sig, SigOf, x, i, p);
      UnusedAfterPut(s.nonce, t.nonce, NonceOf, x, i, p);
      UnusedAfterPut(s.pcs, t.pcs, PcOf, x, i, p);
    }
  }

  // The shared pair index may hold any session's entries, so what keeps them is their key.

  function PairOf(c: Candidate): Option<string> { Some(c.pairKey) }

  /** Entries under keys that no candidate of g uses are as before, and g uses the same keys. */
  ghost predicate PairsSpared(s: State, t: State, g: nat) {
    && g < |s.all| == |t.all| && |t.all[g].cands| == |s.all[g].cands|
    && (forall i :: 0 <= i < |s.all[g].cands| ==> t.all[g].cands[i].pairKey == s.all[g].cands[i].pairKey)
    && UnusedKept(s.pairs, t.pairs, PairOf, s.all[g])
  }

  lemma PairsSparedTrans(s: State, t: State, u: State, g: nat)
    requires PairsSpared(s, t, g) && PairsSpared(t, u, g)
    ensures PairsSpared(s, u, g)
  {
    var x, y := s.all[g], t.all[g];
    forall k | k in s.pairs && (forall i :: 0 <= i < |x.cands| ==> PairOf(x.cands[i]) != Some(k))
      ensures k in u.pairs && u.pairs[k] == s.pairs[k]
    {
      assert k in t.pairs && t.pairs[k] == s.pairs[k];
      forall i | 0 <= i < |y.cands| ensures PairOf(y.cands[i]) != Some(k) { assert PairOf(x.cands[i]) != Some(k); }
    }
  }

  lemma CloseSparesPairs(s: State, p: Place, throws: Sends)
    requires At(s, p)
    ensures PairsSpared(s, Close(s, p, throws).s, p.group)
  {
    assert PairOf(Cand(s, p)) == Some(Cand(s, p).pairKey);
    hide Drop;
  }

  lemma TrackSparesPairs(s: State, p: Place)
    requires At(s, p)
    ensures Track(s, p).all == s.all && PairsSpared(s, Track(s, p), p.group)
  {
    hide Put;
    assert PairOf(Cand(s, p)) == Some(Cand(s, p).pairKey);
  }

  lemma UntrackSparesPairs(s: State, p: Place, preserve: bool)
    requires At(s, p)
    ensures Untrack(s, p, preserve).all == s.all && PairsSpared(s, Untrack(s, p, preserve), p.group)
  {
    hide Drop;
    assert PairOf(Cand(s, p)) == Some(Cand(s, p).pairKey);
  }

  lemma {:induction false} TrackFromSparesPairs(s: State, g: nat, i: nat)
    requires g < |s.all| && i <= |s.all[g].cands|
    ensures PairsSpared(s, TrackFrom(s, g, i), g)
    decreases |s.all[g].cands| - i
  {
    if i < |s.all[g].cands| {
      hide Track, PairsSpared;
      var t := Track(s, Place(g, i));
      TrackSparesPairs(s, Place(g, i));
      TrackFromSparesPairs(t, g, i + 1);
      PairsSparedTrans(s, t, TrackFrom(t, g, i + 1), g);
    }
  }

  lemma UntrackNext(s: State, g: nat, i: nat, keep: Option<nat>)
    requires g < |s.all| && i < |s.all[g].cands|
    ensures var t := Untrack(s, Place(g, i), keep == Some(i));
      t.all == s.all && UntrackFrom(s, g, i, keep) == UntrackFrom(t, g, i + 1, keep)
  {
    hide Drop, DropPair;
  }

  lemma {:induction false} UntrackFromSparesPairs(s: State, g: nat, i: nat, keep: Option<nat>)
    requires g < |s.all| && i <= |s.all[g].cands|
    ensures PairsSpared(s, UntrackFrom(s, g, i, keep), g)
    decreases |s.all[g].cands| - i
  {
    if i < |s.all[g].cands| {
      UntrackNext(s, g, i, keep);
      UntrackSparesPairs(s, Place(g, i), keep == Some(i));
      hide Untrack, UntrackFrom, PairsSpared;
      var t := Untrack(s, Place(g, i), keep == Some(i));
      UntrackFromSparesPairs(t, g, i + 1, keep);
      PairsSparedTrans(s, t, UntrackFrom(t, g, i + 1, keep), g);
    }
  }

  lemma {:induction false} CloseUninvitedSparesPairs(s: State, g: nat, invitees: seq<Invitee>, i: nat)
    requires g < |s.all| && i <= |invitees| == |s.all[g].cands|
    ensures PairsSpared(s, CloseUninvited(s, g, invitees, i), g)
    decreases |invitees| - i
  {
    if i < |invitees| {
      var t := if invitees[i].invited then s else Close(s, Place(g, i), p => false).s;
      CloseSparesPairs(s, Place(g, i), p => false);
      assert PairsSpared(s, t, g);
      assert |t.all[g].cands| == |invitees|;
      hide Close, PairsSpared;
      CloseUninvitedSparesPairs(t, g, invitees, i + 1);
      PairsSparedTrans(s, t, CloseUninvited(t, g, invitees, i + 1), g);
    }
  }

  lemma {:induction false} CloseFromSparesPairs(s: State, g: nat, i: nat, spare: Option<nat>, throws: Sends)
    requires g < |s.all| && i <= |s.all[g].cands|
    ensures PairsSpared(s, CloseFrom(s, g, i, spare, throws).s, g)
    decreases |s.all[g].cands| - i
  {
    if i < |s.all[g].cands| {
      var r := if spare == Some(i) then Res(s, true) else Close(s, Place(g, i), throws);
      CloseSparesPairs(s, Place(g, i), throws);
      assert PairsSpared(s, r.s, g);
      assert |r.s.all[g].cands| == |s.all[g].cands|;
      hide Close, PairsSpared;
      if r.ok {
        CloseFromSparesPairs(r.s, g, i + 1, spare, throws);
        PairsSparedTrans(s, r.s, CloseFrom(r.s, g, i + 1, spare, throws).s, g);
      }
    }
  }

  lemma CleanupSparesPairs(s: State, g: nat, throws: Sends)
    requires g < |s.all|
    ensures PairsSpared(s, Cleanup(s, g, throws), g)
  {
    CloseFromSparesPairs(s, g, 0, None, throws);
    var t := CloseFrom(s, g, 0, None, throws).s;
    hide CloseFrom;
    var x := SetGroup(t, g, t.all[g].(finished := true, timer := false));
    UntrackFromSparesPairs(x, g, 0, None);
    hide UntrackFrom;
    var u := GiveUp(s, g, throws);
    assert PairsSpared(t, u, g);
    PairsSparedTrans(s, t, u, g);
  }

  /** A start leaves every earlier group alone, and every entry it does not itself reuse. */
  ghost predicate Grows(s: State, t: State) {
    && |t.all| == |s.all| + 1
    && (forall g :: 0 <= g < |s.all| ==> t.all[g] == s.all[g])
    && s.live <= t.live
    && (forall h :: h in s.hosts ==> h in t.hosts && t.hosts[h] == s.hosts[h])
    && var x := t.all[|s.all|];
      UnusedKept(s.sig, t.sig, SigOf, x) && UnusedKept(s.nonce, t.nonce, NonceOf, x) && UnusedKept(s.pcs, t.pcs, PcOf, x)
      && UnusedKept(s.pairs, t.pairs, PairOf, x)
  }

  lemma UnusedThenKept<K(!new)>(m: map<K, Place>, n: map<K, Place>, u: map<K, Place>, all: seq<Group>,
                                keyOf: Candidate -> Option<K>, x: Group, y: Group)
    requires UnusedKept(m, n, keyOf, x) && OthersKept(n, u, |all|) && Keyed(m, all, keyOf)
    requires |x.cands| == |y.cands| && forall i :: 0 <= i < |x.cands| ==> keyOf(x.cands[i]) == keyOf(y.cands[i])
    ensures UnusedKept(m, u, keyOf, y)
  {
    forall k | k in m && (forall i :: 0 <= i < |y.cands| ==> keyOf(y.cands[i]) != Some(k))
      ensures k in u && u[k] == m[k]
    {
      assert In(all, m[k]);
      assert forall i :: 0 <= i < |x.cands| ==> keyOf(x.cands[i]) != Some(k) by {
        forall i | 0 <= i < |x.cands| ensures keyOf(x.cands[i]) != Some(k) { assert keyOf(y.cands[i]) != Some(k); }
      }
      assert k in n && n[k] == m[k];
    }
  }

  lemma PairsUnusedThenSpared(s: State, t: State, u: State)
    requires |t.all| == |s.all| + 1 && PairsSpared(t, u, |s.all|)
    requires UnusedKept(s.pairs, t.pairs, PairOf, t.all[|s.all|])
    ensures UnusedKept(s.pairs, u.pairs, PairOf, u.all[|s.all|])
  {
    var x, y := t.all[|s.all|], u.all[|s.all|];
    forall k | k in s.pairs && (forall i :: 0 <= i < |y.cands| ==> PairOf(y.cands[i]) != Some(k))
      ensures k in u.pairs && u.pairs[k] == s.pairs[k]
    {
      forall i | 0 <= i < |x.cands| ensures PairOf(x.cands[i]) != Some(k) { assert PairOf(y.cands[i]) != Some(k); }
      assert k in t.pairs;
    }
  }

  lemma GrowsThenKeeps(s: State, t: State, u: State)
    requires Sound(s) && Grows(s, t) && Keeps(t, u, |s.all|) && |s.all| !in s.live
    requires forall h :: h in s.hosts ==> s.hosts[h] < |s.all|
    requires PairsSpared(t, u, |s.all|)
    ensures Grows(s, u)
  {
    var x, y := t.all[|s.all|], u.all[|s.all|];
    PairsUnusedThenSpared(s, t, u);
    UnusedThenKept(s.sig, t.sig, u.sig, s.all, SigOf, x, y);
    UnusedThenKept(s.nonce, t.nonce, u.nonce, s.all, NonceOf, x, y);
    UnusedThenKept(s.pcs, t.pcs, u.pcs, s.all, PcOf, x, y);
    hide UnusedKept, IndexSound, OthersKept, Advances, GroupOk;
  }

  lemma RegisteredGrows(s: State, gateway: string, invitees: seq<Invitee>)
    requires Sound(s)
    ensures Grows(s, TrackFrom(Registered(s, gateway, invitees), |s.all|, 0))
  {
    TrackFromUnused(Registered(s, gateway, invitees), |s.all|, 0);
    TrackFromSparesPairs(Registered(s, gateway, invitees), |s.all|, 0);
    hide UnusedKept, IndexSound, GroupOk, TrackFrom;
    assert Inbound(gateway, |s.all| + 1) !in s.hosts;
  }

  lemma TimerOnKeeps(s: State, g: nat)
    requires g < |s.all| && Sound(s) && s.all[g].winner == None && !s.all[g].finished
    ensures Keeps(s, SetGroup(s, g, s.all[g].(timer := true)), g)
  {
    SoundKeeps(s, g);
    hide IndexSound, LiveSound, OthersKept;
    CountKeeps(s, s, g, s.all[g].(timer := true));
  }

  lemma {:induction false} CloseUninvitedFrame(s: State, g: nat, invitees: seq<Invitee>, i: nat)
    requires g < |s.all| && i <= |invitees| == |s.all[g].cands|
    ensures SameFrame(s.all[g], CloseUninvited(s, g, invitees, i).all[g])
    decreases |invitees| - i
  {
    if i < |invitees| {
      CloseUninvitedFrame(if invitees[i].invited then s else Close(s, Place(g, i), p => false).s, g, invitees, i + 1);
    }
  }

  /** After a start exactly the candidates whose invitation went out are open. */
  lemma {:induction false} CloseUninvitedOpens(s: State, g: nat, invitees: seq<Invitee>, i: nat)
    requires g < |s.all| && i <= |invitees| == |s.all[g].cands|
    ensures var x, y := s.all[g], CloseUninvited(s, g, invitees, i).all[g];
      forall k :: 0 <= k < |invitees| ==>
        y.cands[k].status == if k >= i && !invitees[k].invited then Closed else x.cands[k].status
    decreases |invitees| - i
  {
    if i < |invitees| {
      var t := if invitees[i].invited then s else Close(s, Place(g, i), p => false).s;
      CloseCloses(s, Place(g, i), p => false);
      hide Close;
      CloseUninvitedOpens(t, g, invitees, i + 1);
    }
  }

  /** A start adds one sound group and disturbs no other. */
  lemma StartsAreIsolated(s: State, gateway: string, targets: seq<Invitee>)
    requires Sound(s)
    ensures var t := StartGroup(s, gateway, targets);
      Sound(t) && (if targets == [] then t == s else Grows(s, t))
  {
    var invitees, g := Slice(targets), |s.all|;
    if invitees != [] {
      RegisteredKeeps(s, gateway, invitees);
      RegisteredGrows(s, gateway, invitees);
      var t := TrackFrom(Registered(s, gateway, invitees), g, 0);
      var u := CloseUninvited(t, g, invitees, 0);
      CloseUninvitedFrame(t, g, invitees, 0);
      assert t.all[g] == NewGroup(Inbound(gateway, g + 1), invitees);
      assert g !in s.live && forall h :: h in s.hosts ==> s.hosts[h] < |s.all|;
      hide Sound, OnlyGroup, Grows, TrackFrom, CloseUninvited, Cleanup, Registered;
      CloseUninvitedKeeps(t, g, invitees, 0);
      CloseUninvitedSparesPairs(t, g, invitees, 0);
      var v := StartGroup(s, gateway, targets);
      if !AnyActive(u.all[g]) {
        CleanupKeeps(u, g, p => false);
        CleanupSparesPairs(u, g, p => false);
      } else {
        TimerOnKeeps(u, g);
        assert PairsSpared(u, v, g);
      }
      KeepsTrans(t, u, v, g);
      PairsSparedTrans(t, u, v, g);
      GrowsThenKeeps(s, t, v);
    }
  }

  // ---- Runs ---------------------------------------------------------------------------------

  datatype Item = Item(event: Event, throws: Sends)

  function Run(s: State, items: seq<Item>): State
    decreases |items|
  {
    if items == [] then s
    else Run(Step(s, items[0].event, items[0].throws), items[1..])
  }

  /** Every group of s is still there in t and has only moved forward. */
  predicate AllAdvance(s: State, t: State) {
    |s.all| <= |t.all| && forall g :: 0 <= g < |s.all| ==> Advances(s.all[g], t.all[g])
  }

  lemma StepAdvances(s: State, e: Event, throws: Sends)
    requires Sound(s)
    ensures Sound(Step(s, e, throws)) && AllAdvance(s, Step(s, e, throws))
  {
    hide Sound, Step, OthersKept;
    if e.Start? {
      StartsAreIsolated(s, e.gateway, e.targets);
      StepOfStart(s, e, throws);
    } else {
      EventsAreIsolated(s, e, throws);
    }
  }

  lemma StepOfStart(s: State, e: Event, throws: Sends)
    requires e.Start?
    ensures Step(s, e, throws) == StartGroup(s, e.gateway, e.targets)
  {
  }

  /** Over every run, whatever the end messages throw: the index is sound, and no group ever
      loses or changes a winner, reports two wins or has two outcomes. */
  lemma {:induction false} EveryRunIsSound(s: State, items: seq<Item>)
    requires Sound(s)
    ensures Sound(Run(s, items)) && AllAdvance(s, Run(s, items))
    decreases |items|
  {
    if items != [] {
      hide Sound, Step, Advances;
      var t := Step(s, items[0].event, items[0].throws);
      StepAdvances(s, items[0].event, items[0].throws);
      EveryRunIsSound(t, items[1..]);
      AdvanceTrans(s, t, Run(t, items[1..]));
    }
  }

  lemma AdvanceTrans(s: State, t: State, u: State)
    requires AllAdvance(s, t) && AllAdvance(t, u)
    ensures AllAdvance(s, u)
  {
  }

  // ---- Runs in which no end message throws --------------------------------------------------

  /** Once there is a winner everybody else is closed, a finished group rings nobody, and a
      group with no winner and nobody ringing is finished. */
  predicate Decided(x: Group) {
    && (x.winner.Some? ==> forall i :: 0 <= i < |x.cands| && i != x.winner.value ==> x.cands[i].status == Closed)
    && (x.finished ==> forall i :: 0 <= i < |x.cands| ==> x.cands[i].status != Ringing)
    && (x.winner == None && !AnyActive(x) ==> x.finished)
    && (x.winner.Some? ==> x.wins == 1)
  }

  predicate AllDecided(s: State) {
    forall g :: 0 <= g < |s.all| ==> Decided(s.all[g])
  }

  predicate AllClosed(x: Group) {
    forall i :: 0 <= i < |x.cands| ==> x.cands[i].status == Closed
  }

  lemma GiveUpEnds(s: State, g: nat, throws: Sends)
    requires g < |s.all| && !s.all[g].finished && Sound(s) && Quiet(throws)
    ensures var x := GiveUp(s, g, throws).all[g];
      && x.finished && AllClosed(x) && x.winner == s.all[g].winner && x.wins == s.all[g].wins
  {
    var r := CloseFrom(s, g, 0, None, throws);
    QuietCloses(s, g, 0, None, throws);
    CloseFromCloses(s, g, 0, None, throws);
    CloseFromKeeps(s, g, 0, None, throws);
    ClosesKeep(s, r.s, g);
    FinishKeeps(r.s, g, false);
    hide CloseFrom, Finish, Sound, OnlyGroup, IndexSound, LiveSound, GroupOk;
  }

  lemma CleanupDecides(s: State, g: nat, throws: Sends)
    requires g < |s.all| && Sound(s) && Quiet(throws)
    requires s.all[g].winner.Some? || s.all[g].finished ==> Decided(s.all[g])
    ensures Decided(Cleanup(s, g, throws).all[g])
  {
    if s.all[g].winner == None && !s.all[g].finished {
      assert s.all[g].wins == 0;
      GiveUpEnds(s, g, throws);
      hide GiveUp, Sound;
    }
  }

  lemma FailHandoffDecides(s: State, g: nat, throws: Sends)
    requires g < |s.all| && Sound(s) && Quiet(throws) && Decided(s.all[g])
    ensures Decided(FailHandoff(s, g, throws).all[g])
  {
    if !s.all[g].finished {
      GiveUpEnds(s, g, throws);
      hide GiveUp, Sound;
    }
  }

  lemma CompleteHandoffDecides(s: State, g: nat)
    requires g < |s.all| && Sound(s) && Decided(s.all[g])
    ensures Decided(CompleteHandoff(s, g).all[g])
  {
    if s.all[g].winner.Some? && !s.all[g].finished {
      FinishKeeps(s, g, true);
      assert GroupOk(s.all[g]);
      hide Finish, Sound, OnlyGroup, IndexSound, LiveSound;
    }
  }

  lemma CloseAndCheckDecides(s: State, p: Place, throws: Sends)
    requires At(s, p) && Sound(s) && Quiet(throws) && Decided(s.all[p.group])
    requires Keeps(s, CloseAndCheck(s, p, throws), p.group)
    ensures Decided(CloseAndCheck(s, p, throws).all[p.group])
  {
    var t, g := Close(s, p, throws).s, p.group;
    CloseOneKeeps(s, p, throws);
    CloseCloses(s, p, throws);
    assert SameFrame(s.all[g], t.all[g]);
    hide Sound, OnlyGroup, Close;
    if !AnyActive(t.all[g]) { CleanupDecides(t, g, throws); }
  }

  lemma PickupDecides(s: State, p: Place, throws: Sends)
    requires At(s, p) && Sound(s) && Quiet(throws) && Decided(s.all[p.group])
    ensures Decided(Pickup(s, p, throws).all[p.group])
  {
    var g := p.group;
    if Cand(s, p).status != Closed {
      if s.all[g].winner.Some? {
        CloseCloses(s, p, throws);
        assert SameFrame(s.all[g], Close(s, p, throws).s.all[g]);
        hide Sound, Close;
      } else {
        assert s.all[g].wins == 0 && !s.all[g].finished;
        LockedDecides(s, p, throws);
      }
    }
  }

  lemma LockedDecides(s: State, p: Place, throws: Sends)
    requires At(s, p) && Quiet(throws) && s.all[p.group].winner == None && s.all[p.group].wins == 0
    requires !s.all[p.group].finished && Cand(s, p).status != Closed
    ensures Decided(Pickup(s, p, throws).all[p.group])
  {
    var g, t := p.group, Locked(s, p);
    QuietCloses(t, g, 0, Some(p.index), throws);
    CloseFromCloses(t, g, 0, Some(p.index), throws);
    CloseFromFrame(t, g, 0, Some(p.index), throws);
    hide CloseFrom;
  }

  lemma CloseSameFrame(s: State, p: Place, throws: Sends)
    requires At(s, p)
    ensures var t := Close(s, p, throws).s;
      |t.all| == |s.all| && |t.all[p.group].cands| == |s.all[p.group].cands| && SameFrame(s.all[p.group], t.all[p.group])
  {
  }

  lemma {:induction false} CloseFromFrame(s: State, g: nat, i: nat, spare: Option<nat>, throws: Sends)
    requires g < |s.all| && i <= |s.all[g].cands|
    ensures SameFrame(s.all[g], CloseFrom(s, g, i, spare, throws).s.all[g])
    decreases |s.all[g].cands| - i
  {
    if i < |s.all[g].cands| {
      CloseSameFrame(s, Place(g, i), throws);
      hide Close;
      CloseFromFrame(if spare == Some(i) then s else Close(s, Place(g, i), throws).s, g, i + 1, spare, throws);
    }
  }

  /** The touched group is decided, so with isolation all of them still are. */
  lemma TargetDecides(s: State, e: Event, throws: Sends)
    requires Sound(s) && AllDecided(s) && Quiet(throws) && !e.Start? && Target(s, e).Some?
    requires GroupsKept(s.all, Step(s, e, throws).all, Target(s, e).value)
    requires Decided(Step(s, e, throws).all[Target(s, e).value])
    ensures AllDecided(Step(s, e, throws))
  {
    hide Sound, Step, Decided, Advances;
  }

  lemma RefusalsDecide(s: State, e: Event, throws: Sends)
    requires Sound(s) && AllDecided(s) && Quiet(throws) && (e.HttpRefusal? || e.DcRefusal?)
    ensures AllDecided(Step(s, e, throws))
  {
    EventsAreIsolated(s, e, throws);
    var r := match e
      case HttpRefusal(nonceKey, sigKey, name) => ForOffer(s, nonceKey, sigKey, name)
      case DcRefusal(host, wallet, from, sig) => if HostsInRange(s) then ForMeta(s, host, wallet, from, sig) else None
      case _ => None;
    if e.HttpRefusal? {
      ForOfferInRange(s, e.nonceKey, e.sigKey, e.name);
    } else {
      ForMetaInRange(s, e.host, e.wallet, e.from, e.sig);
    }
    hide Sound, CloseAndCheck, ForOffer, ForMeta, Decided, Advances, OthersKept;
    if r.Some? {
      CloseAndCheckKeeps(s, r.value, throws);
      CloseAndCheckDecides(s, r.value, throws);
      TargetDecides(s, e, throws);
    }
  }

  lemma AnswersDecide(s: State, e: Event, throws: Sends)
    requires Sound(s) && AllDecided(s) && Quiet(throws) && e.DcAnswer?
    ensures AllDecided(Step(s, e, throws))
  {
    EventsAreIsolated(s, e, throws);
    ForMetaInRange(s, e.host, e.wallet, e.from, e.sig);
    var r := ForMeta(s, e.host, e.wallet, e.from, e.sig);
    hide Sound, Pickup, ForMeta, Decided, Advances, OthersKept;
    if r.Some? { PickupDecides(s, r.value, throws); TargetDecides(s, e, throws); }
  }

  lemma ClosuresDecide(s: State, e: Event, throws: Sends)
    requires Sound(s) && AllDecided(s) && Quiet(throws) && e.TransportClosed?
    ensures AllDecided(Step(s, e, throws))
  {
    EventsAreIsolated(s, e, throws);
    if e.pc in s.pcs {
      var p := s.pcs[e.pc];
      PcIsActive(s, e.pc);
      hide Sound, CloseAndCheck, FailHandoff, Decided, Advances, OthersKept;
      FailHandoffDecides(s, p.group, throws);
      CloseAndCheckKeeps(s, p, throws);
      CloseAndCheckDecides(s, p, throws);
      TargetDecides(s, e, throws);
    }
  }

  lemma GroupEventsDecide(s: State, e: Event, throws: Sends)
    requires Sound(s) && AllDecided(s) && Quiet(throws) && (e.Timeout? || e.HandoffDone? || e.HandoffFailed?)
    ensures AllDecided(Step(s, e, throws))
  {
    EventsAreIsolated(s, e, throws);
    if e.group < |s.all| {
      var g, t := e.group, SetGroup(s, e.group, s.all[e.group].(timer := false));
      TimerKeeps(s, g);
      assert Decided(t.all[g]);
      hide Sound, Cleanup, FailHandoff, CompleteHandoff, Decided, Advances, OthersKept;
      CleanupDecides(t, g, throws);
      FailHandoffDecides(s, g, throws);
      CompleteHandoffDecides(s, g);
      TargetDecides(s, e, throws);
    }
  }

  /** A new group before it is known whether anybody is left in it. */
  predicate JustStarted(s: State, u: State) {
    && |u.all| == |s.all| + 1
    && (forall g :: 0 <= g < |s.all| ==> u.all[g] == s.all[g])
    && u.all[|s.all|].winner == None && !u.all[|s.all|].finished
  }

  lemma GroupStarted(s: State, gateway: string, invitees: seq<Invitee>)
    requires Sound(s)
    ensures var t := TrackFrom(Registered(s, gateway, invitees), |s.all|, 0);
      && |t.all[|s.all|].cands| == |invitees|
      && var u := CloseUninvited(t, |s.all|, invitees, 0);
        Sound(u) && JustStarted(s, u)
  {
    hide Sound, CloseUninvited, TrackFrom;
    var g := |s.all|;
    RegisteredKeeps(s, gateway, invitees);
    var t := TrackFrom(Registered(s, gateway, invitees), g, 0);
    assert t.all[g] == NewGroup(Inbound(gateway, g + 1), invitees);
    assert JustStarted(s, t);
    hide Registered, NewGroup;
    CloseUninvitedFrame(t, g, invitees, 0);
    CloseUninvitedKeeps(t, g, invitees, 0);
    hide Advances, OthersKept;
  }

  lemma StartDecides(s: State, gateway: string, targets: seq<Invitee>)
    requires Sound(s) && AllDecided(s)
    ensures AllDecided(StartGroup(s, gateway, targets))
  {
    hide Sound, CloseUninvited, TrackFrom, Registered, Cleanup, Decided, OthersKept, Advances, AnyActive;
    var invitees, g := Slice(targets), |s.all|;
    if invitees != [] {
      GroupStarted(s, gateway, invitees);
      var u := CloseUninvited(TrackFrom(Registered(s, gateway, invitees), g, 0), g, invitees, 0);
      if !AnyActive(u.all[g]) {
        CleanupKeeps(u, g, p => false);
        CleanupDecides(u, g, p => false);
      } else {
        UndecidedYet(u.all[g]);
      }
    }
  }

  lemma UndecidedYet(x: Group)
    requires x.winner == None && !x.finished && AnyActive(x)
    ensures Decided(x.(timer := true))
  {
    assert AnyActive(x.(timer := true));
  }

  lemma StepDecides(s: State, e: Event, throws: Sends)
    requires Sound(s) && AllDecided(s) && Quiet(throws)
    ensures AllDecided(Step(s, e, throws))
  {
    hide Sound, AllDecided, Step;
    match e
    case Start(gateway, targets) =>
      StepOfStart(s, e, throws);
      StartDecides(s, gateway, targets);
    case HttpRefusal(_, _, _) => RefusalsDecide(s, e, throws);
    case DcRefusal(_, _, _, _) => RefusalsDecide(s, e, throws);
    case DcAnswer(_, _, _, _) => AnswersDecide(s, e, throws);
    case TransportClosed(_) => ClosuresDecide(s, e, throws);
    case Timeout(_) => GroupEventsDecide(s, e, throws);
    case HandoffDone(_) => GroupEventsDecide(s, e, throws);
    case HandoffFailed(_) => GroupEventsDecide(s, e, throws);
  }

  ghost predicate AllQuiet(items: seq<Item>) {
    forall i :: 0 <= i < |items| ==> Quiet(items[i].throws)
  }

  /** In every run whose end messages do not throw, every group is decided at every moment. */
  lemma {:induction false} QuietRunsDecide(s: State, items: seq<Item>)
    requires Sound(s) && AllDecided(s) && AllQuiet(items)
    ensures AllDecided(Run(s, items))
    decreases |items|
  {
    if items != [] {
      hide Sound, AllDecided, Step;
      var e, throws := items[0].event, items[0].throws;
      StepAdvances(s, e, throws);
      StepDecides(s, e, throws);
      QuietRunsDecide(Step(s, e, throws), items[1..]);
    }
  }

  // ---- A candidate that arrives late ----------------------------------------------------------

  /** One more candidate of a group whose start is still creating them (_trackCandidate): nothing
      there asks whether the group has a winner or is finished. */
  function Arrive(s: State, g: nat, c: Candidate): State
    requires g < |s.all|
  {
    var x := s.all[g];
    Track(SetGroup(s, g, x.(cands := x.cands + [c.(status := Ringing)])), Place(g, |x.cands|))
  }

  lemma LongerMap<K(!new)>(m: map<K, Place>, all: seq<Group>, keyOf: Candidate -> Option<K>, g: nat, x: Group)
    requires g < |all| && MapSound(m, all, keyOf) && x.finished == all[g].finished && all[g].cands <= x.cands
    ensures MapSound(m, all[g := x], keyOf)
  {
    var all' := all[g := x];
    forall k | k in m ensures Active(all', m[k]) && keyOf(CandOf(all', m[k])) == Some(k) {
      assert Active(all, m[k]);
      assert CandOf(all', m[k]) == CandOf(all, m[k]);
    }
  }

  lemma ArrivalIndex(s: State, g: nat, c: Candidate)
    requires g < |s.all| && IndexSound(s) && !s.all[g].finished
    ensures IndexSound(Arrive(s, g, c))
  {
    hide MapSound, Put;
    var p, x := Place(g, |s.all[g].cands|), s.all[g];
    var y := x.(cands := x.cands + [c.(status := Ringing)]);
    var all' := s.all[g := y];
    LongerMap(s.sig, s.all, SigOf, g, y);
    LongerMap(s.nonce, s.all, NonceOf, g, y);
    LongerMap(s.pcs, s.all, PcOf, g, y);
    assert Active(all', p);
    PutMap(s.sig, all', SigOf, p);
    PutMap(s.nonce, all', NonceOf, p);
    PutMap(s.pcs, all', PcOf, p);
  }

  lemma ArrivalGroup(s: State, g: nat, c: Candidate)
    requires g < |s.all| && Sound(s) && Decided(s.all[g])
    ensures var t := Arrive(s, g, c);
      && GroupsOk(t) && LiveSound(t)
      && (Decided(t.all[g]) <==> !s.all[g].finished && s.all[g].winner == None)
  {
    hide IndexSound, Put;
    var x, y := s.all[g], Arrive(s, g, c).all[g];
    assert y.cands[|x.cands|].status == Ringing;
    assert AnyActive(y);
    assert GroupOk(x) && GroupOk(y);
  }

  /** The candidates of a start are created one by one while events go on. An arrival keeps the
      index sound exactly when the group is not finished by then, and keeps it decided exactly
      when it has no winner either: after that the newcomer rings on beside the winner, or in a
      group that nothing closes any more. */
  lemma ArrivalKeepsExactly(s: State, g: nat, c: Candidate)
    requires g < |s.all| && Sound(s) && Decided(s.all[g])
    ensures var t := Arrive(s, g, c);
      && (Sound(t) <==> !s.all[g].finished)
      && (Decided(t.all[g]) <==> !s.all[g].finished && s.all[g].winner == None)
  {
    var t, p := Arrive(s, g, c), Place(g, |s.all[g].cands|);
    ArrivalGroup(s, g, c);
    if s.all[g].finished {
      assert t.sig[c.sigKey] == p && !Active(t.all, p);
    } else {
      hide Arrive, GroupsOk, LiveSound, IndexSound;
      ArrivalIndex(s, g, c);
    }
  }

  function ArriveAll(s: State, g: nat, invitees: seq<Invitee>, i: nat): State
    requires g < |s.all| && i <= |invitees|
    decreases |invitees| - i
  {
    if i == |invitees| then s else ArriveAll(Arrive(s, g, invitees[i].cand), g, invitees, i + 1)
  }

  /** A group with all its candidates in place. */
  function Peopled(s: State, g: nat, invitees: seq<Invitee>): State
    requires g < |s.all|
  {
    SetGroup(s, g, s.all[g].(cands := NewGroup(s.all[g].host, invitees).cands))
  }

  lemma ArrivalIsTracked(s: State, g: nat, invitees: seq<Invitee>, i: nat)
    requires g < |s.all| && i < |invitees|
    requires s.all[g].cands == NewGroup(s.all[g].host, invitees).cands[..i]
    ensures var t, u := Arrive(s, g, invitees[i].cand), Peopled(s, g, invitees);
      && |t.all| == |s.all| && t.all[g].host == s.all[g].host
      && t.all[g].cands == NewGroup(t.all[g].host, invitees).cands[..i + 1]
      && Peopled(t, g, invitees) == Track(u, Place(g, i))
  {
    hide Put;
    var all := NewGroup(s.all[g].host, invitees).cands;
    var t, u := Arrive(s, g, invitees[i].cand), Peopled(s, g, invitees);
    assert all[..i] + [all[i]] == all[..i + 1];
    assert Peopled(t, g, invitees).all == u.all;
  }

  lemma {:induction false} ArrivalsAreTracked(s: State, g: nat, invitees: seq<Invitee>, i: nat)
    requires g < |s.all| && i <= |invitees|
    requires s.all[g].cands == NewGroup(s.all[g].host, invitees).cands[..i]
    ensures ArriveAll(s, g, invitees, i) == TrackFrom(Peopled(s, g, invitees), g, i)
    decreases |invitees| - i
  {
    if i < |invitees| {
      ArrivalIsTracked(s, g, invitees, i);
      var u := Peopled(s, g, invitees);
      assert |u.all[g].cands| == |invitees|;
      hide Arrive, Peopled, Track;
      ArrivalsAreTracked(Arrive(s, g, invitees[i].cand), g, invitees, i + 1);
    } else {
      var all := NewGroup(s.all[g].host, invitees).cands;
      assert all[..i] == all;
      assert Peopled(s, g, invitees).all == s.all;
    }
  }

  /** A start whose candidates arrive with nothing in between is the one step of the runs. */
  lemma StartIsArrivals(s: State, gateway: string, invitees: seq<Invitee>)
    ensures ArriveAll(Registered(s, gateway, []), |s.all|, invitees, 0)
      == TrackFrom(Registered(s, gateway, invitees), |s.all|, 0)
  {
    var t := Registered(s, gateway, []);
    assert t.all[|s.all|].cands == [];
    ArrivalsAreTracked(t, |s.all|, invitees, 0);
    assert Peopled(t, |s.all|, invitees).all == Registered(s, gateway, invitees).all;
  }

  // ---- What a group can rely on ----------------------------------------------------------------

  lemma EmptyIsSound()
    ensures Sound(Empty) && AllDecided(Empty)
  {
  }

  predicate OneWinner(x: Group) {
    forall i, j :: 0 <= i < j < |x.cands| && x.cands[i].status == Winner ==> x.cands[j].status != Winner
  }

  /** First answer wins: over any run and any continuation of it a group reports at most one
      win, and a winner, an outcome or a closed candidate is final. */
  lemma SingleWinner(items: seq<Item>, more: seq<Item>, g: nat)
    requires g < |Run(Empty, items).all|
    ensures var t := Run(Empty, items);
      var u := Run(t, more);
      && g < |u.all| && u.all[g].wins <= 1
      && (t.all[g].winner.Some? ==> u.all[g].winner == t.all[g].winner)
      && (forall i :: 0 <= i < |t.all[g].cands| && t.all[g].cands[i].status == Closed ==>
            i < |u.all[g].cands| && u.all[g].cands[i].status == Closed)
      && OneWinner(u.all[g])
  {
    EmptyIsSound();
    var t := Run(Empty, items);
    EveryRunIsSound(Empty, items);
    EveryRunIsSound(t, more);
    var u := Run(t, more);
    hide IndexSound, LiveSound;
    assert Advances(t.all[g], u.all[g]) && GroupOk(u.all[g]);
    forall i | 0 <= i < |t.all[g].cands| && t.all[g].cands[i].status == Closed
      ensures i < |u.all[g].cands| && u.all[g].cands[i].status == Closed
    {
      assert StatusAdvances(t.all[g].cands[i].status, u.all[g].cands[i].status);
    }
  }

  /** Exactly one outcome: a group is finished exactly when it was handed off or its host
      session destroyed, never both and never twice, and then nothing refers to it. */
  lemma OneOutcome(items: seq<Item>, g: nat)
    requires g < |Run(Empty, items).all|
    ensures var s := Run(Empty, items);
      && s.all[g].handoffs + s.all[g].destroys == (if s.all[g].finished then 1 else 0)
      && (s.all[g].handoffs == 1 ==> s.all[g].winner.Some?)
      && (g in s.live <==> !s.all[g].finished)
      && (s.all[g].finished ==>
            && (forall k :: k in s.sig ==> s.sig[k].group != g)
            && (forall k :: k in s.nonce ==> s.nonce[k].group != g)
            && (forall k :: k in s.pcs ==> s.pcs[k].group != g)
            && (forall h :: h in s.hosts ==> s.hosts[h] != g))
  {
    EmptyIsSound();
    EveryRunIsSound(Empty, items);
    var s := Run(Empty, items);
    assert GroupOk(s.all[g]);
    hide GroupOk, Keyed;
    if s.all[g].finished {
      forall k | k in s.sig ensures s.sig[k].group != g { assert Active(s.all, s.sig[k]); }
      forall k | k in s.nonce ensures s.nonce[k].group != g { assert Active(s.all, s.nonce[k]); }
      forall k | k in s.pcs ensures s.pcs[k].group != g { assert Active(s.all, s.pcs[k]); }
    }
  }

  // ---- When an end message throws ---------------------------------------------------------------

  /** j is an open candidate, not the spared one, whose end message throws. */
  predicate Throws(x: Group, g: nat, j: nat, spare: Option<nat>, throws: Sends) {
    j < |x.cands| && spare != Some(j) && x.cands[j].status != Closed && throws(Place(g, j))
  }

  /** Closing a group runs to its end exactly when no open candidate's message throws; the
      candidates after the first one that does are not reached. */
  lemma {:induction false} CloseFromExactly(s: State, g: nat, i: nat, spare: Option<nat>, throws: Sends)
    requires g < |s.all| && i <= |s.all[g].cands|
    ensures var r, x := CloseFrom(s, g, i, spare, throws), s.all[g];
      && (r.ok <==> forall j :: i <= j < |x.cands| ==> !Throws(x, g, j, spare, throws))
      && forall j, k :: i <= j < k < |x.cands| && Throws(x, g, j, spare, throws) ==> r.s.all[g].cands[k] == x.cands[k]
    decreases |s.all[g].cands| - i
  {
    if i < |s.all[g].cands| {
      if spare == Some(i) {
        CloseFromExactly(s, g, i + 1, spare, throws);
      } else {
        var r := Close(s, Place(g, i), throws);
        CloseCloses(s, Place(g, i), throws);
        assert r.ok <==> !Throws(s.all[g], g, i, spare, throws);
        hide Close;
        if r.ok {
          CloseFromExactly(r.s, g, i + 1, spare, throws);
          assert forall j :: i < j < |s.all[g].cands| ==>
            Throws(r.s.all[g], g, j, spare, throws) == Throws(s.all[g], g, j, spare, throws);
        }
      }
    }
  }

  /** A first pickup is reported as won exactly when no loser's end message throws. When one
      does, the winner is locked all the same and the losers after it go on ringing. */
  lemma WinReportedExactly(s: State, p: Place, throws: Sends)
    requires At(s, p) && Sound(s) && Cand(s, p).status == Ringing && s.all[p.group].winner == None
    ensures var t, x := Pickup(s, p, throws), s.all[p.group];
      && t.all[p.group].winner == Some(p.index)
      && (t.all[p.group].wins == 1 <==>
            forall j :: 0 <= j < |x.cands| ==> !Throws(x, p.group, j, Some(p.index), throws))
      && (forall j, k :: 0 <= j < k < |x.cands| && k != p.index && Throws(x, p.group, j, Some(p.index), throws) ==>
            t.all[p.group].cands[k] == x.cands[k])
  {
    var g, t := p.group, Locked(s, p);
    assert s.all[g].wins == 0;
    CloseFromExactly(t, g, 0, Some(p.index), throws);
    CloseFromFrame(t, g, 0, Some(p.index), throws);
    hide CloseFrom, Sound;
    assert forall j :: 0 <= j < |s.all[g].cands| ==>
      Throws(t.all[g], g, j, Some(p.index), throws) == Throws(s.all[g], g, j, Some(p.index), throws);
  }

  /** Nobody is left, and the group is still registered. */
  predicate Abandoned(x: Group) {
    !AnyActive(x) && !x.finished
  }

  /** The closing loop from i on stopped at the first message that throws, j's: everybody up
      to j is closed and nobody after it is touched. */
  predicate StoppedAt(x: Group, y: Group, g: nat, i: nat, j: nat, spare: Option<nat>, throws: Sends) {
    && i <= j && |y.cands| == |x.cands| && Throws(x, g, j, spare, throws)
    && (forall k :: i <= k < j ==> !Throws(x, g, k, spare, throws))
    && (forall k :: i <= k <= j && spare != Some(k) ==> y.cands[k].status == Closed)
    && (forall k :: 0 <= k < |x.cands| && (k < i || k > j || spare == Some(k)) ==> y.cands[k] == x.cands[k])
  }

  lemma StoppedEarlier(x: Group, x': Group, y: Group, g: nat, i: nat, j: nat, spare: Option<nat>, throws: Sends)
    requires i < |x.cands| == |x'.cands| && StoppedAt(x', y, g, i + 1, j, spare, throws)
    requires forall k :: 0 <= k < |x.cands| && k != i ==> x'.cands[k] == x.cands[k]
    requires if spare == Some(i) then x' == x else x'.cands[i].status == Closed && !Throws(x, g, i, spare, throws)
    ensures StoppedAt(x, y, g, i, j, spare, throws)
  {
    assert forall k :: i < k < |x.cands| ==> Throws(x', g, k, spare, throws) == Throws(x, g, k, spare, throws);
  }

  lemma {:induction false} CloseFromStops(s: State, g: nat, i: nat, spare: Option<nat>, throws: Sends) returns (j: nat)
    requires g < |s.all| && i <= |s.all[g].cands| && !CloseFrom(s, g, i, spare, throws).ok
    ensures StoppedAt(s.all[g], CloseFrom(s, g, i, spare, throws).s.all[g], g, i, j, spare, throws)
    decreases |s.all[g].cands| - i
  {
    hide StoppedAt;
    var x, y := s.all[g], CloseFrom(s, g, i, spare, throws).s.all[g];
    var r := if spare == Some(i) then Res(s, true) else Close(s, Place(g, i), throws);
    CloseCloses(s, Place(g, i), throws);
    assert r.ok <==> !Throws(x, g, i, spare, throws);
    hide Close;
    if r.ok {
      j := CloseFromStops(r.s, g, i + 1, spare, throws);
      StoppedEarlier(x, r.s.all[g], y, g, i, j, spare, throws);
    } else {
      j := i;
      StoppedHere(x, y, g, i, spare, throws);
    }
  }

  lemma StoppedHere(x: Group, y: Group, g: nat, i: nat, spare: Option<nat>, throws: Sends)
    requires |y.cands| == |x.cands| && Throws(x, g, i, spare, throws) && y.cands[i].status == Closed
    requires forall k :: 0 <= k < |x.cands| && k != i ==> y.cands[k] == x.cands[k]
    ensures StoppedAt(x, y, g, i, i, spare, throws)
  {
  }

  /** The one message that throws is the last open candidate's. */
  predicate OnlyLastThrows(x: Group, g: nat, throws: Sends) {
    exists j :: 0 <= j < |x.cands| && OnlyThrower(x, g, j, throws)
  }

  predicate OnlyThrower(x: Group, g: nat, j: nat, throws: Sends) {
    && Throws(x, g, j, None, throws)
    && (forall k :: 0 <= k < |x.cands| && k != j ==> !Throws(x, g, k, None, throws))
    && (forall k :: j < k < |x.cands| ==> x.cands[k].status == Closed)
  }

  /** A group that is given up, by its timer or, with a winner, by a failed handoff, is
      abandoned exactly when the message of its last open candidate throws and no other does. */
  lemma GiveUpAbandonsExactly(s: State, g: nat, throws: Sends)
    requires g < |s.all| && Sound(s) && !s.all[g].finished
    ensures Abandoned(GiveUp(s, g, throws).all[g]) <==> OnlyLastThrows(s.all[g], g, throws)
  {
    var x, r := s.all[g], CloseFrom(s, g, 0, None, throws);
    CloseFromFrame(s, g, 0, None, throws);
    CloseFromExactly(s, g, 0, None, throws);
    if r.ok {
      CloseFromKeeps(s, g, 0, None, throws);
      ClosesKeep(s, r.s, g);
      FinishKeeps(r.s, g, false);
      hide CloseFrom, Finish, Sound, OnlyGroup, IndexSound, LiveSound, GroupOk;
      assert GiveUp(s, g, throws).all[g].finished;
    } else {
      var j := CloseFromStops(s, g, 0, None, throws);
      hide CloseFrom, Finish, Sound;
      if forall k :: j < k < |x.cands| ==> x.cands[k].status == Closed {
        assert OnlyThrower(x, g, j, throws);
      } else {
        var k :| j < k < |x.cands| && x.cands[k].status != Closed;
        assert r.s.all[g].cands[k] == x.cands[k];
      }
    }
  }

  /** No candidate but p is open. */
  predicate LastOpen(x: Group, i: nat) {
    forall k :: 0 <= k < |x.cands| && k != i ==> x.cands[k].status == Closed
  }

  /** A refusal or a lost transport of a group's last open candidate, and no other, abandons
      the group: when its end message throws, or always when it is the winner. */
  lemma RefusalAbandonsExactly(s: State, p: Place, throws: Sends)
    requires At(s, p) && Sound(s) && Cand(s, p).status != Closed
    ensures var x := s.all[p.group];
      Abandoned(CloseAndCheck(s, p, throws).all[p.group]) <==>
        !x.finished && LastOpen(x, p.index) && (x.winner.Some? || throws(p))
  {
    var t, g := Close(s, p, throws).s, p.group;
    CloseOneKeeps(s, p, throws);
    CloseCloses(s, p, throws);
    CloseSameFrame(s, p, throws);
    assert Close(s, p, throws).ok <==> !throws(p);
    assert AnyActive(t.all[g]) <==> !LastOpen(s.all[g], p.index) by {
      if k :| 0 <= k < |s.all[g].cands| && k != p.index && s.all[g].cands[k].status != Closed {
        assert t.all[g].cands[k].status != Closed;
      }
    }
    hide Sound, OnlyGroup, Close, GiveUp;
    if !throws(p) && !AnyActive(t.all[g]) && t.all[g].winner == None && !t.all[g].finished {
      GiveUpAbandonsExactly(t, g, throws);
    }
  }
}
