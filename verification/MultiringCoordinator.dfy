/** The coordinator as the object whose maps its handlers update in place, each handler proved
    equal to the event function the run theorems are about. */
module MultiringCoordinators {
  import opened MultiringModel
  import opened Multiring
  import opened MultiringRuns

  /** What a start tells its caller. */
  datatype Started = NoTargets | NobodyInvited | Invited(count: nat)

  predicate NobodyIn(invitees: seq<Invitee>) {
    forall k :: 0 <= k < |invitees| ==> !invitees[k].invited
  }

  function CountInvited(invitees: seq<Invitee>): nat {
    if invitees == [] then 0 else (if invitees[0].invited then 1 else 0) + CountInvited(invitees[1..])
  }

  function CountActive(cands: seq<Candidate>): nat {
    if cands == [] then 0 else (if cands[0].status != Closed then 1 else 0) + CountActive(cands[1..])
  }

  predicate OpensInvited(cands: seq<Candidate>, invitees: seq<Invitee>) {
    |cands| == |invitees| && forall k :: 0 <= k < |invitees| ==> (cands[k].status != Closed <==> invitees[k].invited)
  }

  lemma {:induction false} CountsInvited(cands: seq<Candidate>, invitees: seq<Invitee>)
    requires OpensInvited(cands, invitees)
    ensures CountActive(cands) == CountInvited(invitees)
  {
    if cands != [] {
      assert cands[0].status != Closed <==> invitees[0].invited;
      assert forall k :: 0 <= k < |cands| - 1 ==> cands[1..][k] == cands[k + 1] && invitees[1..][k] == invitees[k + 1];
      CountsInvited(cands[1..], invitees[1..]);
    }
  }

  lemma OpenAreInvited(x: Group, invitees: seq<Invitee>)
    requires OpensInvited(x.cands, invitees)
    ensures AnyActive(x) <==> !NobodyIn(invitees)
    ensures CountActive(x.cands) == CountInvited(invitees)
  {
    CountsInvited(x.cands, invitees);
    if k :| 0 <= k < |invitees| && invitees[k].invited { assert x.cands[k].status != Closed; }
  }

  class MultiringCoordinator {
    var all: seq<Group>
    var live: set<nat>
    var hosts: map<SessionId, nat>
    var sig: map<string, Place>
    var nonce: map<string, Place>
    var pcs: map<nat, Place>
    var pairs: map<string, SessionId>

    constructor ()
      ensures View() == Empty && Sound(View())
    {
      all, live, hosts := [], {}, map[];
      sig, nonce, pcs, pairs := map[], map[], map[], map[];
      new;
      EmptyIsSound();
    }

    function View(): State
      reads this
    {
      State(all, live, hosts, sig, nonce, pcs, pairs)
    }

    method TrackCandidate(p: Place)
      requires At(View(), p)
      modifies this`sig, this`nonce, this`pcs, this`pairs
      ensures View() == Track(old(View()), p)
    {
      var c := all[p.group].cands[p.index];
      pairs := pairs[c.pairKey := all[p.group].host];
      sig := sig[c.sigKey := p];
      nonce := nonce[c.nonceKey := p];
      if c.pc.Some? { pcs := pcs[c.pc.value := p]; }
    }

    method UntrackCandidate(p: Place, preservePair: bool)
      requires At(View(), p)
      modifies this`sig, this`nonce, this`pcs, this`pairs
      ensures View() == Untrack(old(View()), p, preservePair)
    {
      var c := all[p.group].cands[p.index];
      if !preservePair && c.pairKey in pairs && pairs[c.pairKey] == all[p.group].host {
        pairs := pairs - {c.pairKey};
      }
      if c.sigKey in sig && sig[c.sigKey] == p { sig := sig - {c.sigKey}; }
      if c.nonceKey in nonce && nonce[c.nonceKey] == p { nonce := nonce - {c.nonceKey}; }
      if c.pc.Some? && c.pc.value in pcs && pcs[c.pc.value] == p { pcs := pcs - {c.pc.value}; }
    }

    method CloseCandidate(p: Place, throws: Sends) returns (ok: bool)
      requires At(View(), p)
      modifies this`all, this`sig, this`nonce, this`pcs, this`pairs
      ensures Res(View(), ok) == Close(old(View()), p, throws)
    {
      if all[p.group].cands[p.index].status == Closed { return true; }
      all := Marked(all, p, Closed);
      UntrackCandidate(p, false);
      ok := !throws(p);
    }

    /** The loops over a group's candidates: all but `spare` are closed, in order. */
    method CloseAll(g: nat, spare: Option<nat>, throws: Sends) returns (ok: bool)
      requires g < |all|
      modifies this`all, this`sig, this`nonce, this`pcs, this`pairs
      ensures Res(View(), ok) == CloseFrom(old(View()), g, 0, spare, throws)
    {
      hide Close;
      var i := 0;
      while i < |all[g].cands|
        invariant g < |all| && i <= |all[g].cands|
        invariant CloseFrom(View(), g, i, spare, throws) == CloseFrom(old(View()), g, 0, spare, throws)
        decreases |all[g].cands| - i
      {
        if spare != Some(i) {
          ghost var s := View();
          CloseCloses(s, Place(g, i), throws);
          var sent := CloseCandidate(Place(g, i), throws);
          if !sent { return false; }
        }
        i := i + 1;
      }
      ok := true;
    }

    method FinishGroup(g: nat, preserveWinnerPair: bool)
      requires g < |all|
      modifies this
      ensures View() == Finish(old(View()), g, preserveWinnerPair) && |all| == |old(all)|
    {
      if all[g].finished { return; }
      var keep := if preserveWinnerPair then all[g].winner else None;
      all := all[g := all[g].(finished := true, timer := false)];
      ghost var s1 := View();
      var i := 0;
      while i < |all[g].cands|
        invariant g < |all| && i <= |all[g].cands|
        invariant UntrackFrom(View(), g, i, keep) == UntrackFrom(s1, g, 0, keep)
        decreases |all[g].cands| - i
      {
        UntrackCandidate(Place(g, i), keep == Some(i));
        i := i + 1;
      }
      live := live - {g};
      var host := all[g].host;
      if host in hosts && hosts[host] == g { hosts := hosts - {host}; }
    }

    /** A throw out of a closing loop leaves the rest undone. */
    method GiveUpGroup(g: nat, throws: Sends)
      requires g < |all|
      modifies this
      ensures View() == GiveUp(old(View()), g, throws)
    {
      hide CloseFrom, Finish;
      var ok := CloseAll(g, None, throws);
      if ok {
        FinishGroup(g, false);
        all := all[g := all[g].(destroys := all[g].destroys + 1)];
      }
    }

    method CleanupNoAnswer(g: nat, throws: Sends)
      requires g < |all|
      modifies this
      ensures View() == Cleanup(old(View()), g, throws)
    {
      hide GiveUp;
      if all[g].finished || all[g].winner.Some? { return; }
      GiveUpGroup(g, throws);
    }

    method FailHandoff(g: nat, throws: Sends)
      requires g < |all|
      modifies this
      ensures View() == MultiringModel.FailHandoff(old(View()), g, throws)
    {
      hide GiveUp;
      if all[g].finished { return; }
      GiveUpGroup(g, throws);
    }

    method CompleteHandoff(g: nat)
      requires g < |all|
      modifies this
      ensures View() == MultiringModel.CompleteHandoff(old(View()), g)
    {
      hide Finish;
      if all[g].winner.None? || all[g].finished { return; }
      FinishGroup(g, true);
      all := all[g := all[g].(handoffs := all[g].handoffs + 1)];
    }

    method CloseAndGiveUp(p: Place, throws: Sends)
      requires At(View(), p)
      modifies this
      ensures View() == CloseAndCheck(old(View()), p, throws)
    {
      CloseCloses(View(), p, throws);
      hide Close, Cleanup;
      var ok := CloseCandidate(p, throws);
      if !ok || AnyActive(all[p.group]) { return; }
      CleanupNoAnswer(p.group, throws);
    }

    /** startInbound: the group registered, its candidates tracked, those whose invitation
        failed closed again, and the group given up when none is left. */
    method StartInbound(gateway: string, targets: seq<Invitee>, ghost throws: Sends) returns (r: Started)
      requires Sound(View())
      modifies this
      ensures View() == Step(old(View()), Start(gateway, targets), throws)
      ensures Sound(View())
      ensures r.NoTargets? <==> targets == []
      ensures r.NobodyInvited? <==> targets != [] && NobodyIn(Slice(targets))
      ensures r.Invited? ==> r.count == CountInvited(Slice(targets))
    {
      StepAdvances(View(), Start(gateway, targets), throws);
      hide Sound, AllAdvance, Cleanup, CloseUninvited, TrackFrom, Registered, Put;
      var invitees, g := Slice(targets), |all|;
      if invitees == [] { return NoTargets; }
      RegisterGroup(gateway, invitees);
      TrackAll(g);
      CloseFailed(g, invitees);
      OpenAreInvited(all[g], invitees);
      if !AnyActive(all[g]) {
        r := NobodyInvited;
        CleanupNoAnswer(g, p => false);
      } else {
        r := Invited(CountActive(all[g].cands));
        all := all[g := all[g].(timer := true)];
      }
    }

    method RegisterGroup(gateway: string, invitees: seq<Invitee>)
      modifies this
      ensures View() == Registered(old(View()), gateway, invitees)
      ensures |all| == |old(all)| + 1 && |all[|old(all)|].cands| == |invitees|
      ensures forall k :: 0 <= k < |invitees| ==> all[|old(all)|].cands[k].status == Ringing
    {
      var g := |all|;
      var host := Inbound(gateway, g + 1);
      all, live, hosts := all + [NewGroup(host, invitees)], live + {g}, hosts[host := g];
    }

    method TrackAll(g: nat)
      requires g < |all|
      modifies this`sig, this`nonce, this`pcs, this`pairs
      ensures View() == TrackFrom(old(View()), g, 0)
    {
      var i := 0;
      while i < |all[g].cands|
        invariant i <= |all[g].cands|
        invariant TrackFrom(View(), g, i) == TrackFrom(old(View()), g, 0)
      {
        TrackCandidate(Place(g, i));
        i := i + 1;
      }
    }

    method CloseFailed(g: nat, invitees: seq<Invitee>)
      requires g < |all| && |all[g].cands| == |invitees|
      modifies this`all, this`sig, this`nonce, this`pcs, this`pairs
      ensures View() == CloseUninvited(old(View()), g, invitees, 0) && |all| == |old(all)|
      ensures |all[g].cands| == |invitees|
      ensures forall k :: 0 <= k < |invitees| ==>
        all[g].cands[k].status == if !invitees[k].invited then Closed else old(all[g].cands[k].status)
    {
      hide Close;
      CloseUninvitedOpens(View(), g, invitees, 0);
      var i := 0;
      while i < |invitees|
        invariant |all| == |old(all)| && i <= |all[g].cands| == |invitees|
        invariant CloseUninvited(View(), g, invitees, i) == CloseUninvited(old(View()), g, invitees, 0)
      {
        if !invitees[i].invited {
          CloseCloses(View(), Place(g, i), p => false);
          var _ := CloseCandidate(Place(g, i), p => false);
        }
        i := i + 1;
      }
    }

    /** reject and cancel over HTTP. */
    method HandleHttpRefusal(nonceKey: string, sigKey: string, name: string, throws: Sends)
      requires Sound(View())
      modifies this
      ensures View() == Step(old(View()), HttpRefusal(nonceKey, sigKey, name), throws)
      ensures Sound(View())
    {
      StepAdvances(View(), HttpRefusal(nonceKey, sigKey, name), throws);
      ForOfferInRange(View(), nonceKey, sigKey, name);
      hide Sound, ForOffer, CloseAndCheck, AllAdvance;
      var found := ForOffer(View(), nonceKey, sigKey, name);
      if found.Some? && all[found.value.group].cands[found.value.index].status == Ringing {
        CloseAndGiveUp(found.value, throws);
      }
    }

    /** reject, cancel and end on a candidate's data channel. */
    method HandleRefusal(host: SessionId, wallet: string, from: string, sigKey: string, throws: Sends)
      requires Sound(View())
      modifies this
      ensures View() == Step(old(View()), DcRefusal(host, wallet, from, sigKey), throws)
      ensures Sound(View())
    {
      StepAdvances(View(), DcRefusal(host, wallet, from, sigKey), throws);
      ForMetaInRange(View(), host, wallet, from, sigKey);
      hide Sound, ForMeta, CloseAndCheck, AllAdvance;
      var found := ForMeta(View(), host, wallet, from, sigKey);
      if found.Some? && all[found.value.group].cands[found.value.index].status != Closed {
        CloseAndGiveUp(found.value, throws);
      }
    }

    /** A pickup on a candidate's data channel; `won` is what the caller is told, false also
        when it is told nothing because a loser's message threw. */
    method HandleAnswer(host: SessionId, wallet: string, from: string, sigKey: string, throws: Sends)
      returns (won: bool, duplicate: bool)
      requires Sound(View())
      modifies this
      ensures View() == Step(old(View()), DcAnswer(host, wallet, from, sigKey), throws)
      ensures Sound(View()) && |all| == |old(all)|
      ensures won && !duplicate <==>
        exists g :: 0 <= g < |old(all)| && all[g].wins == old(all[g].wins) + 1
    {
      ghost var s := View();
      StepAdvances(s, DcAnswer(host, wallet, from, sigKey), throws);
      ForMetaInRange(s, host, wallet, from, sigKey);
      hide Sound, ForMeta, AllAdvance;
      won, duplicate := false, false;
      var found := ForMeta(View(), host, wallet, from, sigKey);
      if found.None? { return; }
      var p := found.value;
      won, duplicate := Pick(p, throws);
    }

    method Pick(p: Place, throws: Sends) returns (won: bool, duplicate: bool)
      requires At(View(), p)
      modifies this
      ensures View() == Pickup(old(View()), p, throws) && |all| == |old(all)|
      ensures forall g :: 0 <= g < |all| ==>
        all[g].wins == old(all[g].wins) + (if won && !duplicate && g == p.group then 1 else 0)
      ensures won && duplicate <==>
        old(all[p.group].cands[p.index].status) != Closed && old(all[p.group].winner) == Some(p.index)
    {
      hide Close, CloseFrom;
      ghost var s := View();
      won, duplicate := false, false;
      var g := p.group;
      CloseCloses(s, p, throws);
      CloseFrame(s, p, throws);
      if all[g].cands[p.index].status == Closed { return; }
      if all[g].winner.Some? {
        if all[g].winner.value != p.index {
          var _ := CloseCandidate(p, throws);
          return;
        }
        return true, true;
      }
      all := Marked(all, p, Winner);
      all := all[g := all[g].(winner := Some(p.index), timer := false)];
      CloseFromOthers(View(), g, 0, Some(p.index), throws);
      var ok := CloseAll(g, Some(p.index), throws);
      if ok {
        all := all[g := all[g].(wins := all[g].wins + 1)];
        won := true;
      }
    }

    method HandleTransportClosed(pc: nat, throws: Sends)
      requires Sound(View())
      modifies this
      ensures View() == Step(old(View()), TransportClosed(pc), throws)
      ensures Sound(View())
    {
      StepAdvances(View(), TransportClosed(pc), throws);
      if pc !in pcs { return; }
      var p := pcs[pc];
      assert Active(all, p);
      hide Sound, CloseAndCheck, AllAdvance, MultiringModel.FailHandoff;
      if all[p.group].cands[p.index].status == Winner {
        FailHandoff(p.group, throws);
      } else {
        CloseAndGiveUp(p, throws);
      }
    }

    method TimerFires(g: nat, throws: Sends)
      requires Sound(View())
      modifies this
      ensures View() == Step(old(View()), Timeout(g), throws)
      ensures Sound(View())
    {
      StepAdvances(View(), Timeout(g), throws);
      hide Sound, Cleanup, AllAdvance;
      if g >= |all| || !all[g].timer { return; }
      all := all[g := all[g].(timer := false)];
      CleanupNoAnswer(g, throws);
    }
  }

  lemma CloseFrame(s: State, p: Place, throws: Sends)
    requires At(s, p)
    ensures var t := Close(s, p, throws).s;
      |t.all| == |s.all| && forall g :: 0 <= g < |s.all| ==> t.all[g].wins == s.all[g].wins
  {
  }

  lemma {:induction false} CloseFromOthers(s: State, g: nat, i: nat, spare: Option<nat>, throws: Sends)
    requires g < |s.all| && i <= |s.all[g].cands|
    ensures var t := CloseFrom(s, g, i, spare, throws).s;
      |t.all| == |s.all| && forall h :: 0 <= h < |s.all| ==> t.all[h].wins == s.all[h].wins
    decreases |s.all[g].cands| - i
  {
    if i < |s.all[g].cands| {
      var t := if spare == Some(i) then s else Close(s, Place(g, i), throws).s;
      CloseFrame(s, Place(g, i), throws);
      CloseFromOthers(t, g, i + 1, spare, throws);
    }
  }
}
