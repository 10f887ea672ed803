/** First answer wins: one inbound call rung at several candidates, as functions on the
    coordinator's maps (MultiringCoordinator.js). Starting a group is one step. */
module MultiringModel {

  datatype Option<+T> = None | Some(value: T)

  datatype Status = Ringing | Winner | Closed

  /** A session's id: a group's own host session, numbered as the group was, or any other. */
  datatype SessionId = Inbound(gateway: string, number: nat) | Elsewhere(id: string)

  /** One candidate, its status and the keys it is tracked under. */
  datatype Candidate = Candidate(
    wallet: string, name: string, pairKey: string, sigKey: string, nonceKey: string,
    pc: Option<nat>, status: Status)

  /** `winner` is the place of the winner among the candidates. `wins`, `handoffs` and
      `destroys` count the "won and not a duplicate" results returned for the group, its
      completed handoffs and the destructions of its host session. */
  datatype Group = Group(
    host: SessionId, cands: seq<Candidate>, winner: Option<nat>, finished: bool, timer: bool,
    wins: nat, handoffs: nat, destroys: nat)

  datatype Place = Place(group: nat, index: nat)

  /** `all` is every group ever started, in order; `live` and the maps are the
      coordinator's. `pairs` is the index shared with the rest of the system. */
  datatype State = State(
    all: seq<Group>, live: set<nat>, hosts: map<SessionId, nat>,
    sig: map<string, Place>, nonce: map<string, Place>, pcs: map<nat, Place>,
    pairs: map<string, SessionId>)

  const Empty := State([], {}, map[], map[], map[], map[], map[])

  predicate In(all: seq<Group>, p: Place) {
    p.group < |all| && p.index < |all[p.group].cands|
  }

  function CandOf(all: seq<Group>, p: Place): Candidate
    requires In(all, p)
  {
    all[p.group].cands[p.index]
  }

  predicate At(s: State, p: Place) {
    In(s.all, p)
  }

  function Cand(s: State, p: Place): Candidate
    requires At(s, p)
  {
    CandOf(s.all, p)
  }

  function SetGroup(s: State, g: nat, x: Group): State
    requires g < |s.all|
  {
    s.(all := s.all[g := x])
  }

  /** The groups with p's status set. */
  function Marked(all: seq<Group>, p: Place, status: Status): seq<Group>
    requires In(all, p)
  {
    all[p.group := all[p.group].(cands := all[p.group].cands[p.index := CandOf(all, p).(status := status)])]
  }

  // ---- Tracking --------------------------------------------------------------------

  function SigOf(c: Candidate): Option<string> { Some(c.sigKey) }

  function NonceOf(c: Candidate): Option<string> { Some(c.nonceKey) }

  function PcOf(c: Candidate): Option<nat> { c.pc }

  /** Deletes the entry under k when it still belongs to p. */
  function Drop<K>(m: map<K, Place>, k: Option<K>, p: Place): map<K, Place> {
    if k.Some? && k.value in m && m[k.value] == p then m - {k.value} else m
  }

  function Put<K>(m: map<K, Place>, k: Option<K>, p: Place): map<K, Place> {
    if k.Some? then m[k.value := p] else m
  }

  function DropPair(pairs: map<string, SessionId>, key: string, host: SessionId): map<string, SessionId> {
    if key in pairs && pairs[key] == host then pairs - {key} else pairs
  }

  function Untrack(s: State, p: Place, preservePair: bool): State
    requires At(s, p)
  {
    var c, host := Cand(s, p), s.all[p.group].host;
    s.(pairs := if preservePair then s.pairs else DropPair(s.pairs, c.pairKey, host),
       sig := Drop(s.sig, SigOf(c), p),
       nonce := Drop(s.nonce, NonceOf(c), p),
       pcs := Drop(s.pcs, PcOf(c), p))
  }

  function Track(s: State, p: Place): State
    requires At(s, p)
  {
    var c := Cand(s, p);
    s.(pairs := s.pairs[c.pairKey := s.all[p.group].host],
       sig := Put(s.sig, SigOf(c), p),
       nonce := Put(s.nonce, NonceOf(c), p),
       pcs := Put(s.pcs, PcOf(c), p))
  }

  /** Which end messages throw something other than "no open data channel", which is caught. */
  type Sends = Place -> bool

  datatype Res = Res(s: State, ok: bool)

  /** closeCandidate; `ok` is false when its end message threw. */
  function Close(s: State, p: Place, throws: Sends): (r: Res)
    requires At(s, p)
  {
    if Cand(s, p).status == Closed then Res(s, true)
    else Res(Untrack(s.(all := Marked(s.all, p, Closed)), p, false), !throws(p))
  }

  predicate SameShape(s: State, t: State) {
    && |t.all| == |s.all|
    && forall g :: 0 <= g < |s.all| ==> |t.all[g].cands| == |s.all[g].cands|
  }

  /** Closing the candidates of a group from `i` on, but not `spare`; a throw stops it. */
  function CloseFrom(s: State, g: nat, i: nat, spare: Option<nat>, throws: Sends): (r: Res)
    requires g < |s.all| && i <= |s.all[g].cands|
    ensures SameShape(s, r.s)
    decreases |s.all[g].cands| - i
  {
    if i == |s.all[g].cands| then Res(s, true)
    else if spare == Some(i) then CloseFrom(s, g, i + 1, spare, throws)
    else
      var r := Close(s, Place(g, i), throws);
      if !r.ok then r else CloseFrom(r.s, g, i + 1, spare, throws)
  }

  function UntrackFrom(s: State, g: nat, i: nat, keep: Option<nat>): (t: State)
    requires g < |s.all| && i <= |s.all[g].cands|
    ensures t.all == s.all && t.live == s.live && t.hosts == s.hosts
    decreases |s.all[g].cands| - i
  {
    if i == |s.all[g].cands| then s
    else UntrackFrom(Untrack(s, Place(g, i), keep == Some(i)), g, i + 1, keep)
  }

  /** _finishGroup. */
  function Finish(s: State, g: nat, preserveWinnerPair: bool): State
    requires g < |s.all|
  {
    if s.all[g].finished then s
    else
      var s1 := SetGroup(s, g, s.all[g].(finished := true, timer := false));
      var s2 := UntrackFrom(s1, g, 0, if preserveWinnerPair then s.all[g].winner else None);
      var host := s.all[g].host;
      s2.(live := s2.live - {g},
          hosts := if host in s2.hosts && s2.hosts[host] == g then s2.hosts - {host} else s2.hosts)
  }

  function Destroy(s: State, g: nat): State
    requires g < |s.all|
  {
    SetGroup(s, g, s.all[g].(destroys := s.all[g].destroys + 1))
  }

  /** Every candidate closed, the group finished, its host session destroyed. */
  function GiveUp(s: State, g: nat, throws: Sends): State
    requires g < |s.all|
  {
    var r := CloseFrom(s, g, 0, None, throws);
    if !r.ok then r.s else Destroy(Finish(r.s, g, false), g)
  }

  /** _cleanupNoAnswer. */
  function Cleanup(s: State, g: nat, throws: Sends): State
    requires g < |s.all|
  {
    if s.all[g].finished || s.all[g].winner.Some? then s else GiveUp(s, g, throws)
  }

  /** failHandoff. */
  function FailHandoff(s: State, g: nat, throws: Sends): State
    requires g < |s.all|
  {
    if s.all[g].finished then s else GiveUp(s, g, throws)
  }

  /** completeHandoff. */
  function CompleteHandoff(s: State, g: nat): State
    requires g < |s.all|
  {
    if s.all[g].winner.None? || s.all[g].finished then s
    else
      var t := Finish(s, g, true);
      SetGroup(t, g, t.all[g].(handoffs := t.all[g].handoffs + 1))
  }

  predicate AnyActive(x: Group) {
    exists i :: 0 <= i < |x.cands| && x.cands[i].status != Closed
  }

  /** A refusal or a lost transport: close, and give up if nobody is left. */
  function CloseAndCheck(s: State, p: Place, throws: Sends): State
    requires At(s, p)
  {
    var r := Close(s, p, throws);
    if !r.ok || AnyActive(r.s.all[p.group]) then r.s else Cleanup(r.s, p.group, throws)
  }

  // ---- Finding the candidate an event is about ------------------------------------------

  function FirstByWallet(x: Group, wallet: string, i: nat): (r: Option<nat>)
    requires i <= |x.cands|
    ensures r.Some? ==> r.value < |x.cands| && x.cands[r.value].wallet == wallet
    ensures r.None? ==> forall j :: i <= j < |x.cands| ==> x.cands[j].wallet != wallet
    decreases |x.cands| - i
  {
    if i == |x.cands| then None
    else if x.cands[i].wallet == wallet then Some(i)
    else FirstByWallet(x, wallet, i + 1)
  }

  function FirstByLabel(x: Group, name: string, ringing: bool, i: nat): (r: Option<nat>)
    requires i <= |x.cands|
    ensures r.Some? ==> r.value < |x.cands| && x.cands[r.value].name == name
    ensures r.Some? && ringing ==> x.cands[r.value].status == Ringing
    decreases |x.cands| - i
  {
    if i == |x.cands| then None
    else if x.cands[i].name == name && (ringing ==> x.cands[i].status == Ringing) then Some(i)
    else FirstByLabel(x, name, ringing, i + 1)
  }

  /** _candidateForMeta: by wallet, by name, by signaling session, inside the host's group. */
  function ForMeta(s: State, host: SessionId, wallet: string, name: string, sigKey: string): (r: Option<Place>)
    requires forall h :: h in s.hosts ==> s.hosts[h] < |s.all|
  {
    if host !in s.hosts then None
    else
      var g := s.hosts[host];
      var x := s.all[g];
      var byWallet := if wallet == "" then None else FirstByWallet(x, wallet, 0);
      if byWallet.Some? then Some(Place(g, byWallet.value))
      else
        var byLabel := if name == "" then None else FirstByLabel(x, name, false, 0);
        if byLabel.Some? then Some(Place(g, byLabel.value))
        else if sigKey != "" && sigKey in s.sig && s.sig[sigKey].group == g then Some(s.sig[sigKey])
        else None
  }

  function ScanGroups(s: State, name: string, g: nat): (r: Option<Place>)
    requires g <= |s.all|
    ensures r.Some? ==> At(s, r.value) && Cand(s, r.value).status == Ringing && r.value.group in s.live
    decreases |s.all| - g
  {
    if g == |s.all| then None
    else if g in s.live && FirstByLabel(s.all[g], name, true, 0).Some? then
      Some(Place(g, FirstByLabel(s.all[g], name, true, 0).value))
    else ScanGroups(s, name, g + 1)
  }

  /** _candidateForOffer: by call nonce, by signaling session, else any ringing candidate
      with the caller's name. */
  function ForOffer(s: State, nonceKey: string, sigKey: string, name: string): Option<Place> {
    if nonceKey != "" && nonceKey in s.nonce then Some(s.nonce[nonceKey])
    else if sigKey in s.sig then Some(s.sig[sigKey])
    else if name == "" then None
    else ScanGroups(s, name, 0)
  }

  // ---- Events ------------------------------------------------------------------------------

  datatype Invitee = Invitee(cand: Candidate, invited: bool)

  datatype Event =
    | Start(gateway: string, targets: seq<Invitee>)
    | HttpRefusal(nonceKey: string, sigKey: string, name: string)
    | DcRefusal(host: SessionId, wallet: string, from: string, sig: string)
    | DcAnswer(host: SessionId, wallet: string, from: string, sig: string)
    | TransportClosed(pc: nat)
    | Timeout(group: nat)
    | HandoffDone(group: nat)
    | HandoffFailed(group: nat)

  const MAX_TARGETS: nat := 5

  function TrackFrom(s: State, g: nat, i: nat): (t: State)
    requires g < |s.all| && i <= |s.all[g].cands|
    ensures t.all == s.all && t.live == s.live && t.hosts == s.hosts
    decreases |s.all[g].cands| - i
  {
    if i == |s.all[g].cands| then s else TrackFrom(Track(s, Place(g, i)), g, i + 1)
  }

  /** Closing the candidates whose invitation failed. */
  function CloseUninvited(s: State, g: nat, invitees: seq<Invitee>, i: nat): (t: State)
    requires g < |s.all| && i <= |invitees| == |s.all[g].cands|
    ensures SameShape(s, t)
    decreases |invitees| - i
  {
    if i == |invitees| then s
    else CloseUninvited(if invitees[i].invited then s else Close(s, Place(g, i), p => false).s,
                        g, invitees, i + 1)
  }

  function Slice(xs: seq<Invitee>): seq<Invitee> {
    if |xs| <= MAX_TARGETS then xs else xs[..MAX_TARGETS]
  }

  function NewGroup(host: SessionId, invitees: seq<Invitee>): Group {
    Group(host, seq(|invitees|, i requires 0 <= i < |invitees| => invitees[i].cand.(status := Ringing)),
          None, false, false, 0, 0, 0)
  }

  /** The group registered, before its candidates are tracked. */
  function Registered(s: State, gateway: string, invitees: seq<Invitee>): State {
    var g := |s.all|;
    var host := Inbound(gateway, g + 1);
    s.(all := s.all + [NewGroup(host, invitees)], live := s.live + {g}, hosts := s.hosts[host := g])
  }

  /** startInbound on its first five targets. */
  function StartGroup(s: State, gateway: string, targets: seq<Invitee>): State {
    var invitees, g := Slice(targets), |s.all|;
    if invitees == [] then s
    else
      var t := CloseUninvited(TrackFrom(Registered(s, gateway, invitees), g, 0), g, invitees, 0);
      if !AnyActive(t.all[g]) then Cleanup(t, g, p => false)
      else SetGroup(t, g, t.all[g].(timer := true))
  }

  /** The winner recorded and the timer cleared, before the losers are closed. */
  function Locked(s: State, p: Place): (t: State)
    requires At(s, p)
  {
    var all := Marked(s.all, p, Winner);
    s.(all := all[p.group := all[p.group].(winner := Some(p.index), timer := false)])
  }

  /** A pickup on a live candidate's data channel. */
  function Pickup(s: State, p: Place, throws: Sends): State
    requires At(s, p)
  {
    var g := s.all[p.group];
    if Cand(s, p).status == Closed then s
    else if g.winner.Some? then
      if g.winner.value == p.index then s else Close(s, p, throws).s
    else
      var r := CloseFrom(Locked(s, p), p.group, 0, Some(p.index), throws);
      if !r.ok then r.s
      else SetGroup(r.s, p.group, r.s.all[p.group].(wins := r.s.all[p.group].wins + 1))
  }

  function HostsInRange(s: State): bool {
    forall h :: h in s.hosts ==> s.hosts[h] < |s.all|
  }

  function Step(s: State, e: Event, throws: Sends): State {
    match e
    case Start(gateway, targets) => StartGroup(s, gateway, targets)
    case HttpRefusal(nonceKey, sigKey, name) =>
      (match ForOffer(s, nonceKey, sigKey, name)
       case Some(p) => if At(s, p) && Cand(s, p).status == Ringing then CloseAndCheck(s, p, throws) else s
       case None => s)
    case DcRefusal(host, wallet, from, sig) =>
      (match if HostsInRange(s) then ForMeta(s, host, wallet, from, sig) else None
       case Some(p) => if At(s, p) && Cand(s, p).status != Closed then CloseAndCheck(s, p, throws) else s
       case None => s)
    case DcAnswer(host, wallet, from, sig) =>
      (match if HostsInRange(s) then ForMeta(s, host, wallet, from, sig) else None
       case Some(p) => if At(s, p) then Pickup(s, p, throws) else s
       case None => s)
    case TransportClosed(pc) =>
      if pc !in s.pcs || !At(s, s.pcs[pc]) then s
      else if Cand(s, s.pcs[pc]).status == Winner then FailHandoff(s, s.pcs[pc].group, throws)
      else CloseAndCheck(s, s.pcs[pc], throws)
    case Timeout(g) =>
      if g < |s.all| && s.all[g].timer then
        Cleanup(SetGroup(s, g, s.all[g].(timer := false)), g, throws) else s
    case HandoffDone(g) => if g < |s.all| then CompleteHandoff(s, g) else s
    case HandoffFailed(g) => if g < |s.all| then FailHandoff(s, g, throws) else s
  }
}
