/** The vocabulary of one call leg: its states, the intents the coordinator may
    issue, and which intent is legal in which state (states.js, ports.js,
    LegStateBehavior.js). */
module LegStates {

  datatype LegState =
    | Disconnected | Connecting | Connected
    | Calling | Ringing | Answering | InCall
    | EndRequested | Ending | Ended
    | Canceling | Canceled | Rejecting | Rejected
    | Failed

  /** The transport behind a leg. */
  datatype Kind = WebRtc | Sip

  /** Which of the two legs of a pair. */
  datatype Ref = A | B {
    function Peer(): Ref {
      match this case A => B case B => A
    }
  }

  datatype Intent = Connect | Ring | AckConnected | AckRing | Answer | AckEnd | End | Cancel | Reject

  predicate IsTeardown(s: LegState) {
    s.EndRequested? || s.Ending? || s.Canceling? || s.Rejecting? || s.Failed?
  }

  predicate CallViable(s: LegState) {
    s.Calling? || s.Ringing? || s.Answering? || s.InCall?
  }

  predicate IsActiveCall(s: LegState) {
    CallViable(s) || s.Ending?
  }

  predicate CanBeRung(s: LegState) {
    s.Connected? || s.Ended? || s.Canceled? || s.Rejected?
  }

  predicate NeedsEnding(s: LegState) {
    IsActiveCall(s) && !IsTeardown(s)
  }

  /** A settled end of life: further teardown must not re-cycle the leg. */
  predicate IsTerminal(s: LegState) {
    s.Ended? || s.Canceled? || s.Rejected? || s.Failed?
  }

  /** A leg that wants a call and drives the peer toward it. */
  predicate IsCaller(s: LegState) {
    s.Calling? || s.Ringing?
  }

  function LegalIntents(s: LegState): set<Intent> {
    match s
    case Disconnected => {Connect}
    case Connecting => {Connect, Cancel, End}
    case Connected => {Connect, Ring, End, Cancel}
    case Calling => {Ring, AckConnected, AckRing, Answer, End, Cancel, Reject}
    case Ringing => {Ring, AckConnected, AckRing, Answer, End, Cancel, Reject}
    case Answering => {Answer, End, Cancel}
    case InCall => {End}
    case EndRequested => {AckEnd, End}
    case Ending => {End}
    case Ended => {Connect, Ring}
    case Canceling => {Cancel}
    case Canceled => {Connect, Ring}
    case Rejecting => {Reject}
    case Rejected => {Connect, Ring}
    case Failed => {Connect}
  }

  predicate IsLegal(s: LegState, i: Intent) {
    i in LegalIntents(s)
  }

  /** The intents whose failure marks the leg FAILED. */
  predicate FailsLeg(i: Intent) {
    i.Ring? || i.Connect? || i.Answer? || i.AckConnected? || i.AckRing?
  }
}
