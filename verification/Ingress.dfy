/** What a leg does with its own client's messages (SessionLeg.js lines 183-342,
    SipLeg.js lines 89-100). */
module Ingress {
  import opened LegStates
  import opened ReconcileRules

  /** EndSignal covers END and END_RENEGOTIATION; `answer` says whether the payload is the
      client's answer to an end-call offer. Aux covers ICE, DTMF and HOLD. */
  datatype ClientEvent =
    | TransportOpen | TransportClose | Offer | Accept
    | EndSignal(answer: bool) | RemoteBye | CancelSignal | RejectSignal | Aux

  /** The state set at once, and the state set after the transport operation succeeds. */
  datatype Plan = Plan(now: Option<LegState>, later: Option<LegState>)

  const Absorb := Plan(None, None)

  function EndPlan(s: LegState, answer: bool): Plan {
    if s == Ending && answer then Plan(None, Some(Connected))
    else if answer && (s == Calling || s == Ringing || s == Answering) then Absorb
    else if IsTerminal(s) || s == Ending || s == EndRequested || s == Connected || s == Disconnected then Absorb
    else Plan(Some(EndRequested), None)
  }

  function Handle(kind: Kind, s: LegState, ev: ClientEvent): Plan {
    match ev
    case TransportOpen =>
      if kind == WebRtc && (s == Disconnected || s == Connecting) then Plan(Some(Connected), None) else Absorb
    case TransportClose =>
      if IsTeardown(s) || s == Ended || s == Canceled || s == Rejected then Absorb
      else Plan(Some(Failed), None)
    case Offer =>
      if s == InCall || s == Ringing then Absorb else Plan(None, Some(Calling))
    case Accept =>
      if s == Ending then Plan(None, Some(Connected))
      else if s == Connected || s == Calling || s == Ringing || s == Answering then Plan(None, Some(InCall))
      else Absorb
    case EndSignal(answer) => EndPlan(s, answer)
    case RemoteBye =>
      if IsTerminal(s) || s == Disconnected then Absorb else Plan(None, Some(Disconnected))
    case CancelSignal =>
      if IsTerminal(s) || s == Canceling then Absorb else Plan(Some(Canceling), Some(Canceled))
    case RejectSignal =>
      if IsTerminal(s) || s == Rejecting then Absorb else Plan(Some(Rejecting), Some(Rejected))
    case Aux => Absorb
  }
}
