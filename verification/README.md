# A verified model of the call core of webRTCservice

This project models the part of the service that decides what happens in a call, and proves what
that part promises over whole runs. It is written in Dafny 4.11; `dafny verify dfyconfig.toml` checks
everything.

## What is modelled

**The call coordinator** (`LegStates`, `ReconcileRules`, `CallModel`, `PolySession`). Two legs, WebRTC or
SIP, each in one of fifteen states, and a drain loop that takes a snapshot of the pair, asks the rules
for actions, runs them over fallible transports, recovers failed legs, and goes round again while a leg
change has marked the pair dirty, fifty times at most. A transport call is given by an oracle: it
succeeds, defers, settles on a state of its own, reports a lost data channel, or throws, and while it is
awaited any list of leg changes may land. `PolySession` is the object itself, with its fields updated in
place and its loops; each method is proved equal to a function of `CallModel` or `CallRuns`, and the
theorems are about those functions:

- `DrainExit`: what is true of a pair whenever the loop stops by itself, under every interleaving and
  every failure. `Offers` proves the stronger form for everything but an offer that lands in a pass
  connecting media; `Stalls` has the case in which it fails.
- `Convergence`, `Transit`: a rank on pairs of states that every undisturbed pass lowers, so five passes
  suffice between disturbances and the cap is out of reach for up to nine of them; a cancel or reject
  that completes inside a drain disturbs one pass.
- `CallRuns`, `SequentialRuns`, `Legality`, `CallCycles`, `Storms`: invariants over every run, caller
  progress, legality of intents, reuse of a pair over any number of calls, teardown storms.
- `Disposals`: a dispose at any moment of any run, and what the pair still does after it.
- `Witnesses`: inputs on which the expected properties fail, next to the exact statements.

**First answer wins** (`MultiringModel`, `Multiring`, `MultiringRuns`, `MultiringCoordinator`). The
fan-out of one inbound call over its candidates, with five maps and a shared index, over any sequence of
HTTP, data-channel, transport, timer and handoff events, including end messages that throw.

**The ledger** (`MinuteCounter`, `Billing`). Monthly balances per service and identity, and their
composition with the coordinator's activity hooks.

**The registry** (`Text`, `CallPairs`, `PolySessionRegistry`). Identity labels, keys of unordered pairs,
and the maps from keys and endpoints to sessions.

**The LightPBX reader** (`LightPbx`, `LightPbxRuns`, `LightPbxReader`). Validation of a routing payload,
two caches and the guard against older revisions, for reads that overlap.

**Session descriptions** (`SdpLines`, `SdpCodecNegotiator`, `EndCallSdp`, `EndCallTransforms`,
`EndCallPromises`). Codec narrowing and the two end-call transforms, from text to text.

## Where the code and its comments or expectations part

- The comment at PolySession.js:308 says ENDING is not an active call; `isActiveCall` (states.js:54-60)
  includes it. The model follows the code.
- The cap clears the dirty flag before it stops (PolySession.js:194-198), so nothing is claimed of a pair
  whose drain was cut.
- A drain does not always leave an IN_CALL leg beside IN_CALL or ANSWERING: a pass that only releases
  media can hide a pending ring. `Witnesses.PickupCanStall` gives the run (a client that hangs up and
  redials while media is being connected); `Offers.DrainSettles` and `Offers.OfferFreeRunsSettle` show
  that only such an offer can do it, and `Stalls.SettlesExactly` has the exact condition on the start.
- A leg change during the activity hook queues no drain and is not processed until the next event
  (PolySession.js:165-171, 218): `Witnesses.HookCanSwallowChange`, `CallRuns.AwakeExactly`.
- If an acknowledgement to a leg fails and the same action list acts on that leg again, the later intent is
  refused as illegal (`Legality.FailedAckRefusesRing`), and nothing else is ever refused:
  `Legality.RefusedExactly`.
- When a loser's end message throws, the winner stays locked, the caller is not told it won, and the
  losers after the throw go on ringing: `MultiringRuns.WinReportedExactly`. When the last open candidate's
  message throws, or the winner itself refuses, the group stays registered with nobody in it:
  `MultiringRuns.RefusalAbandonsExactly`, `MultiringRuns.GiveUpAbandonsExactly`.
- A candidate whose creation ends after its group has a winner or is finished rings on, and in a finished
  group it stays in the index (MultiringCoordinator.js:105-119): `MultiringRuns.ArrivalKeepsExactly`.
- A dispose neither clears the dirty flag nor stops the loop, and clears the handle only after its own
  disconnect has returned (PolySession.js:192-217, 360-375). So the rest of the pass, and one more pass
  when the pair was dirty, can leave a connect that nobody disconnects, or disconnect the handle twice:
  `Disposals.DisposeMidPassLeaksExactly`, `Disposals.DisposeAtRestLeaksExactly`, and the run in
  `Witnesses.DisposeDuringPickupLeaks`.
- `listByEndpoint` takes the label of a label, so it loses the sessions of a dotted mailbox:
  `PolySessionRegistries.ListsExactlyWhenStable`, `CallPairs.DottedMailboxIsUnstable`.
- A label may contain the key separator, and then two pairs share a key:
  `CallPairs.CollidesExactly`, `PolySessionRegistries.CollisionMisroutes`,
  `PolySessionRegistries.ResolveFindsExactly`.
- A leg whose id is the other party's label is returned in its place:
  `PolySessionRegistries.ResolveFindsExactly`.
- A tenant name with a capital is accepted at construction and then refuses every read:
  `LightPbxRuns.AdmitsExactly`.
- Without a bundle attribute in the session section, the end-call transforms append one to the text of its
  last line; one that can read nothing keeps them from setting any:
  `EndCallPromises.BundleIsSetExactly`, `EndCallPromises.NormalizesOnceExactly`.
- A bundle attribute without mids on its own line reads on over line ends (sdp.js:43-44, 62), and the line
  it reads is lost when it is replaced: `EndCallPromises.BundleTakesLinesExactly`.
- A mid is not aligned into a section with an empty mid line or with an m-line that no CRLF ends, nor where
  an m-line that ends with its zero port takes the mid onto itself: `EndCallPromises.MidsAlignExactly`,
  `EndCallPromises.InsertedMidIsLost`.
- The last replacement of both end-call transforms never finds anything: `EndCallSdp.NormalCollapses`.

## Model

| member | source | states |
|---|---|---|
| `ReconcileRules.ToEndExactly` | webRTCservice/modules/calls/poly/ReconcileRules.js:49-67 | the list of legs to end holds a leg exactly when the policy must end it, and never both |
| `ReconcileRules.EndsExactly` | webRTCservice/modules/calls/poly/ReconcileRules.js:37-152 | over the whole rule table: END for a leg is among the actions exactly when that leg must be ended (its peer is tearing down and it still needs ending, outside the soft-ending exception), and never for both legs of one snapshot |
| `ReconcileRules.RulesAreSymmetric` | webRTCservice/modules/calls/poly/ReconcileRules.js:37-152 | swapping the two legs swaps the actions, as lists up to the order of actions on different legs; the one exception is two callers, where leg B is rung once media is released |
| `CallModel.Move` | webRTCservice/modules/calls/poly/SessionLeg.js:71-80 | a state change writes that leg alone, marks the pair dirty and records the event, and does nothing when the state is the same |
| `CallModel.Drain` | webRTCservice/modules/calls/poly/PolySession.js:188-222 | the loop stops clean, within fifty passes, and media connects minus disconnects move with the handle whatever the transports do |
| `DrainExit.MovingIntentMoves` | webRTCservice/modules/calls/poly/PolySession.js:250-300 | an intent that must change its leg leaves the pair dirty, under every outcome: success, failure, interference or an illegal state |
| `DrainExit.CleanListIsInert` | webRTCservice/modules/calls/poly/PolySession.js:200-216 | a pass that ended clean held no intent that had to move a leg |
| `DrainExit.CleanPassSettled` | webRTCservice/modules/calls/poly/PolySession.js:188-222 | a clean pass left both legs where the snapshot had them, in a torn-down shape, and in the full shape unless held media masked pending actions |
| `DrainExit.DrainExits` | webRTCservice/modules/calls/poly/PolySession.js:188-222 | whenever the loop stops below the cap, under arbitrary interleaving and failures: not dirty; an IN_CALL leg sits beside a viable peer; a FAILED leg beside ENDING; a teardown beside a leg that needs ending is ENDING beside CALLING; held media implies both IN_CALL; both IN_CALL without media implies the last connect failed; and the full shape (no caller left beside an idle peer) unless the last pass was masked by a media release |
| `Witnesses.SettledIsAnExit` | webRTCservice/modules/calls/poly/PolySession.js:188-222 | the full shape is exact: from every pair of that shape there is a run that stops there after one pass |
| `Convergence.CalmIntent` | webRTCservice/modules/calls/poly/PolySession.js:250-300 | an undisturbed intent lands its leg on one of the states listed for it and leaves the other leg alone, for both kinds of leg and every outcome but a lost channel |
| `Convergence.CalmPassDrops` | webRTCservice/modules/calls/poly/ReconcileRules.js:37-152 | an undisturbed pass that leaves the pair dirty lowers its rank, over all pairs of states |
| `Convergence.Converges` | webRTCservice/modules/calls/poly/PolySession.js:188-222 | a drain with k disturbed passes takes at most 5(k+1) passes, so with up to nine of them it is not cut by the cap; a pass is disturbed when it loses a data channel, when an end settles its leg on a state that is not idle, or when an outside change makes it end differently |
| `Transit.LandingDrainsConverge` | webRTCservice/modules/calls/poly/SessionLeg.js:320-337 | with t legs in CANCELING or REJECTING, whose second halves may land anywhere, a drain that loses no data channel takes at most 5(t+1) passes and is never cut |
| `Witnesses.LostChannelReachesCap` | webRTCservice/modules/calls/poly/PolySession.js:188-222 | the hypothesis is needed: a data channel lost on every ring drives a redialled pair round a cycle into the cap, from any point of it |
| `Offers.PassLeavesNoHeldCaller` | webRTCservice/modules/calls/poly/PolySession.js:322-342 | a pass that holds media afterwards leaves neither leg calling, whatever landed while it ran, unless it connected media and an offer landed in it |
| `Offers.DrainSettles` | webRTCservice/modules/calls/poly/PolySession.js:188-222 | for every script of failures and interleaved changes, a drain that is not cut ends in the full shape unless it started stuck or an offer landed in one of its passes that connect media; hang-ups, drops, pickups, cancels and rejects may land anywhere, offers in every other pass |
| `Offers.OfferFreeRunsSettle` | webRTCservice/modules/calls/poly/PolySession.js:165-241 | over every interleaved run: a clean pair after an uncut drain is in the full shape unless an offer landed in a pass that connected media, or while media was held in a hook or between queued drains |
| `Offers.MessagesAtRestAreFree` | webRTCservice/modules/calls/poly/SessionLeg.js:205-230 | a message that reaches a pair at rest is never such an offer |
| `Stalls.TamePassBridged` | webRTCservice/modules/calls/poly/PolySession.js:322-342 | in a pass into which no client change lands but the second half of a cancel or reject, media held afterwards means IN_CALL beside IN_CALL or beside a leg that has left the call |
| `Stalls.StuckStalls` | webRTCservice/modules/calls/poly/ReconcileRules.js:41-77 | a pair that holds media and shows a pending ring behind a releasing teardown stops after one pass with the ring not sent |
| `Stalls.SettlesExactly` | webRTCservice/modules/calls/poly/PolySession.js:188-222 | the special case with an exact condition: over drains into which no client change lands but the second half of a cancel or reject, one that is not cut ends in the full shape if and only if it did not start from a pair holding media in a torn-down but unsettled shape |
| `Witnesses.PickupCanStall` | webRTCservice/modules/calls/poly/PolySession.js:322-342 | a client that hangs up and redials while media is being connected leaves its peer IN_CALL beside a CALLING leg at a clean exit |
| `CallRuns.EveryRunIsSound` | webRTCservice/modules/calls/poly/PolySession.js:165-241 | over every interleaved run from the start: connects minus disconnects is 0 or 1 and equals the held handle, activity hooks strictly alternate starting with a start, a clean pair has its activity flag equal to both IN_CALL, and a clean uncut pair satisfies the exit theorem |
| `CallRuns.DisposedBalances` | webRTCservice/modules/calls/poly/PolySession.js:360-375 | after any run and a dispose between two drains every media connect has its disconnect and no handle is held |
| `Disposals.DisposeMidPassLeaksExactly` | webRTCservice/modules/calls/poly/PolySession.js:188-222 | a dispose at any moment of any pass of any run, between two actions or while one is awaited, whenever its own disconnect returns: at most one connect is left without a disconnect, and one is if and only if the rest of the pass connects and the list after it does not release, or the list after it connects; there is such a list if and only if the pair was dirty at the dispose, below the cap; and the handle is disconnected a second time if and only if one of the two lists starts its release before the first disconnect has returned |
| `Disposals.DisposeAtRestLeaksExactly` | webRTCservice/modules/calls/poly/PolySession.js:360-375 | a dispose between two drains of any run, or in a hook, with any client changes after it: nothing is open at once, and a connect is left open if and only if the one drain that still finds the pair dirty connects |
| `Disposals.ListIsPlaced` | webRTCservice/modules/calls/poly/ReconcileRules.js:37-152 | an action list has one media action at most: a release comes first and only while media is held, a connect last and only while it is not |
| `Witnesses.DisposeDuringPickupLeaks` | webRTCservice/modules/calls/poly/PolySession.js:192-217 | a callee picks up while the ring is acknowledged and the dispose follows: no connect is left in the pass, the next pass connects, and nobody releases it |
| `CallRuns.DirtiesExactly` | webRTCservice/modules/calls/poly/PolySession.js:165-171 | a list of changes leaves a clean pair clean if and only if none of them would move its leg |
| `CallRuns.AwakeExactly` | webRTCservice/modules/calls/poly/PolySession.js:165-178 | a pair with unprocessed changes has a drain queued, and loses that exactly when the last queued drain is in its hook and a change landing there would move the leg the drain left |
| `CallRuns.StaysAwake` | webRTCservice/modules/calls/poly/PolySession.js:165-222 | over every run without such a change, unprocessed changes always have a drain queued |
| `Witnesses.HookCanSwallowChange` | webRTCservice/modules/calls/poly/PolySession.js:218-241 | a call that arrives while the activity hook is awaited stays unprocessed with no drain queued |
| `SequentialRuns.SequentialRunsRest` | webRTCservice/modules/calls/poly/PolySession.js:147-178 | between the messages of every sequential run whose drains are not cut, with any failures: nothing queued, media and activity flag in agreement, and no CALLING or RINGING leg beside an idle peer |
| `SequentialRuns.LeavingACallUnsticks` | webRTCservice/modules/calls/poly/ReconcileRules.js:41-77 | from a settled pair, a leg that a client message takes out of its call never lands in the one shape in which held media hides a pending ring |
| `SequentialRuns.CalmRunsNeverCut` | webRTCservice/modules/calls/poly/PolySession.js:188-222 | sequential runs that lose no data channel, and whose ends settle on an idle leg, never reach the cap, over any number of messages; cancels and rejects may complete inside their own drains |
| `SequentialRuns.CalmRunsRest` | webRTCservice/modules/calls/poly/PolySession.js:147-178 | so over every such run the pair rests, settled, between any two messages: caller progress with no assumption but on the transports |
| `Legality.ReconcileIsLegal` | webRTCservice/modules/calls/poly/LegStateBehavior.js:12-31 | every action list is legal as a whole: each intent is legal in the snapshot state of its leg, and two intents to one leg come as an acknowledgement that keeps the state, then a move |
| `Legality.ListLegalExactly` | webRTCservice/modules/calls/poly/LegStateBehavior.js:12-31 | a list the rules produce is issued without a refusal if and only if no acknowledgement in it fails that a later action on the same leg follows, whatever else fails or lands |
| `Legality.RefusedExactly` | webRTCservice/modules/calls/poly/LegStateBehavior.js:12-31 | over every sequential run, with any failures, every intent is legal when it is issued if and only if no acknowledgement fails that a later action of its list on the same leg follows |
| `Legality.NothingRefused` | webRTCservice/modules/calls/poly/LegStateBehavior.js:12-31 | over every sequential run in which no coordinator-driven transport call fails, no executed intent ever fails the legality check; cancels and rejects may complete inside their own drains |
| `Legality.FailedAckRefusesRing` | webRTCservice/modules/calls/poly/ReconcileRules.js:97-142 | glare with a failing acknowledgement: the list rings the same leg after its acknowledgement failed it, and that ring is refused |
| `CallCycles.PairIsReusable` | webRTCservice/modules/calls/poly/SessionLeg.js:205-309 | after any number n of fail-free WebRTC calls, begun and ended by either side each time, both legs are CONNECTED with n connects, n disconnects and n start-end pairs of hooks |
| `CallCycles.StormIsAbsorbed` | webRTCservice/modules/calls/poly/SessionLeg.js:264-309 | once the drains of a hang-up are done, any number of END and END_RENEGOTIATION messages on either leg issues no intent and fires no hook; the only change they make is ENDING to CONNECTED |
| `Storms.HangUpIsIngress` | webRTCservice/modules/calls/poly/SessionLeg.js:264-309 | an END message that lands during a drain does what the ingress table says in the state it finds, and an answer taken in ENDING sets CONNECTED even on a leg that has dropped since |
| `Storms.StormsAreDealtWithOnce` | webRTCservice/modules/calls/poly/ReconcileRules.js:49-77 | however many END messages both clients send, and wherever they land, inside the drains of the ending included, each leg is sent one intent at most, and exactly one once it is out of the call; ends may fail, acknowledging one must not |
| `Storms.FullCallEndsOnce` | webRTCservice/modules/calls/poly/ReconcileRules.js:49-77 | from a full call, at most one intent for each leg |
| `CallCycles.RedialIsRung` | webRTCservice/modules/calls/poly/ReconcileRules.js:18-22 | a redial while the peer is still ENDING is acknowledged and not ended, and the peer is rung as soon as it reaches CONNECTED |
| `PolySessions.Rules` | webRTCservice/modules/calls/poly/ReconcileRules.js:37-152 | the rule program, pushing onto its two lists, returns exactly the actions of the policy function |
| `PolySessions.PolySession.constructor` | webRTCservice/modules/calls/poly/PolySession.js:28-67 | a new pair is the start of every run |
| `PolySessions.PolySession.SetState` | webRTCservice/modules/calls/poly/PolySession.js:165-171 | a leg change updates the leg in place and, while the pair listens to it, the dirty flag and the last event, and queues a drain unless one is running |
| `PolySessions.PolySession.Invite` | webRTCservice/modules/calls/poly/legs/SipLeg.js:52-87 | the retry loop of the SIP invite, with its resets, has the effect and the verdict of its function |
| `PolySessions.PolySession.Reach` | webRTCservice/modules/calls/poly/SessionLeg.js:86-108 | connect and ring, for both kinds of leg |
| `PolySessions.PolySession.Settle` | webRTCservice/modules/calls/poly/SessionLeg.js:110-168 | the other intents, their optimistic states and their rollbacks |
| `PolySessions.PolySession.ExecuteIntent` | webRTCservice/modules/calls/poly/PolySession.js:250-300 | an intent, its legality check and what its failure does to the leg |
| `PolySessions.PolySession.ExecuteMedia` | webRTCservice/modules/calls/poly/PolySession.js:322-342 | media connect and disconnect: an error leaves no handle, and a second connect does nothing |
| `PolySessions.PolySession.RecoverFailedLegs` | webRTCservice/modules/calls/poly/PolySession.js:302-320 | a FAILED leg whose peer is in no active call goes back to DISCONNECTED |
| `PolySessions.PolySession.DrainLoop` | webRTCservice/modules/calls/poly/PolySession.js:188-222 | the while loop has the result, the cut and the media accounting of the drain function |
| `PolySessions.PolySession.SettleCallActivity` | webRTCservice/modules/calls/poly/PolySession.js:230-241 | one hook on each edge of both legs being IN_CALL, none otherwise |
| `PolySessions.PolySession.RunDrain` | webRTCservice/modules/calls/poly/PolySession.js:188-222 | a queued drain, its hook and what lands during the hook, as one step of a run |
| `PolySessions.PolySession.Client` | webRTCservice/modules/calls/poly/SessionLeg.js:183-342 | a state change by a client message, as one step of a run |
| `PolySessions.PolySession.SettleChain` | webRTCservice/modules/calls/poly/PolySession.js:173-178 | a dirty pair queues a drain, as one step of a run |
| `PolySessions.PolySession.Dispose` | webRTCservice/modules/calls/poly/PolySession.js:360-375 | the first call stops listening to both legs, releases the handle, runs the teardown hooks and disposes the legs; any other does nothing |
| `MultiringRuns.EventsAreIsolated` | webRTCservice/modules/calls/webrtc/MultiringCoordinator.js:332-434 | every event but a start keeps the state sound and changes one group at most: other groups, and all their entries in every map and in the shared index, are as before, also when labels collide or a send throws |
| `MultiringRuns.StartsAreIsolated` | webRTCservice/modules/calls/webrtc/MultiringCoordinator.js:272-330 | a start adds one sound group, leaves every earlier group as it was and keeps every entry, in its own maps and in the shared pair index, under a key it does not use itself |
| `MultiringRuns.CloseUninvitedOpens` | webRTCservice/modules/calls/webrtc/MultiringCoordinator.js:250-268 | after a start exactly the candidates whose invitation went out are open |
| `MultiringRuns.StartIsArrivals` | webRTCservice/modules/calls/webrtc/MultiringCoordinator.js:219-270 | a start whose candidates are created with nothing in between is the one step of the runs |
| `MultiringRuns.ArrivalKeepsExactly` | webRTCservice/modules/calls/webrtc/MultiringCoordinator.js:105-119 | a candidate created while other events go on keeps the index sound if and only if its group is not finished by then, and the group decided if and only if it has no winner either |
| `MultiringRuns.EveryRunIsSound` | webRTCservice/modules/calls/webrtc/MultiringCoordinator.js:105-217 | over every event sequence, whatever throws: every signaling, nonce and peer-connection entry refers to an open candidate of an unfinished group under its own key, the registers hold exactly the unfinished groups, and groups only move forward |
| `MultiringRuns.SingleWinner` | webRTCservice/modules/calls/webrtc/MultiringCoordinator.js:364-408 | over every run and every continuation of it a group reports at most one win, its winner never changes, no two candidates are winners, and a closed candidate stays closed |
| `MultiringRuns.OneOutcome` | webRTCservice/modules/calls/webrtc/MultiringCoordinator.js:189-217 | a group is finished exactly when it was handed off or its host session destroyed, never both and never twice; a handoff needs a winner, and nothing refers to a finished group |
| `MultiringRuns.QuietRunsDecide` | webRTCservice/modules/calls/webrtc/MultiringCoordinator.js:155-217 | over every run in which no end message throws: with a winner everybody else is closed and the win was reported, a finished group rings nobody, and a group with no winner and nobody open is finished |
| `MultiringRuns.GiveUpAbandonsExactly` | webRTCservice/modules/calls/webrtc/MultiringCoordinator.js:207-217 | a group given up, by its timer or with a winner by a failed handoff, is left registered with nobody open if and only if the message of its last open candidate throws and no other does |
| `MultiringRuns.RefusalAbandonsExactly` | webRTCservice/modules/calls/webrtc/MultiringCoordinator.js:345-350 | a refusal or lost transport leaves its group so if and only if it was the last open candidate of an unfinished group and its message throws or the group has a winner |
| `MultiringRuns.CloseFromExactly` | webRTCservice/modules/calls/webrtc/MultiringCoordinator.js:155-181 | closing a group runs to its end exactly when no open candidate's message throws, and the candidates after the first that does are untouched |
| `MultiringRuns.WinReportedExactly` | webRTCservice/modules/calls/webrtc/MultiringCoordinator.js:381-407 | a first pickup is reported as won exactly when no loser's end message throws; the winner is locked either way |
| `MultiringCoordinators.MultiringCoordinator.constructor` | webRTCservice/modules/calls/webrtc/MultiringCoordinator.js:43-47 | an empty coordinator is sound |
| `MultiringCoordinators.MultiringCoordinator.UntrackCandidate` | webRTCservice/modules/calls/webrtc/MultiringCoordinator.js:121-143 | each map loses an entry only if it still belongs to the candidate |
| `MultiringCoordinators.MultiringCoordinator.CloseCandidate` | webRTCservice/modules/calls/webrtc/MultiringCoordinator.js:155-181 | a candidate is closed and untracked before its message is sent |
| `MultiringCoordinators.MultiringCoordinator.CloseAll` | webRTCservice/modules/calls/webrtc/MultiringCoordinator.js:396-398 | the closing loop, left at the first throw |
| `MultiringCoordinators.MultiringCoordinator.FinishGroup` | webRTCservice/modules/calls/webrtc/MultiringCoordinator.js:189-205 | a group leaves every map and register, the winner's pair entry apart where asked, and only once |
| `MultiringCoordinators.MultiringCoordinator.StartInbound` | webRTCservice/modules/calls/webrtc/MultiringCoordinator.js:272-330 | the start as one event of a run, and what its caller is told: no targets, nobody invited, or the number of candidates invited |
| `MultiringCoordinators.MultiringCoordinator.HandleHttpRefusal` | webRTCservice/modules/calls/webrtc/MultiringCoordinator.js:332-355 | reject and cancel over HTTP as one event of a run |
| `MultiringCoordinators.MultiringCoordinator.HandleRefusal` | webRTCservice/modules/calls/webrtc/MultiringCoordinator.js:364-379 | reject, cancel and end on a data channel as one event of a run |
| `MultiringCoordinators.MultiringCoordinator.HandleAnswer` | webRTCservice/modules/calls/webrtc/MultiringCoordinator.js:381-407 | a pickup as one event of a run; won and not duplicate is returned exactly when some group's count of wins went up |
| `MultiringCoordinators.MultiringCoordinator.HandleTransportClosed` | webRTCservice/modules/calls/webrtc/MultiringCoordinator.js:410-422 | a lost transport as one event of a run |
| `MultiringCoordinators.MultiringCoordinator.TimerFires` | webRTCservice/modules/calls/webrtc/MultiringCoordinator.js:323-323 | the inbound timeout as one event of a run |
| `MultiringCoordinators.MultiringCoordinator.CompleteHandoff` | webRTCservice/modules/calls/webrtc/MultiringCoordinator.js:424-427 | a handoff finishes a group with a winner once |
| `MultiringCoordinators.MultiringCoordinator.FailHandoff` | webRTCservice/modules/calls/webrtc/MultiringCoordinator.js:429-434 | a failed handoff closes all, finishes and destroys once |
| `MinuteCounters.MonthlyIsWorth` | webRTCservice/modules/callFeatures/minuteCounter/MinuteCounter.js:68-121 | normalising an entry dates it, keeps what it is worth this month and zeroes an earlier month's balance |
| `MinuteCounters.CreditAdds` | webRTCservice/modules/callFeatures/minuteCounter/MinuteCounter.js:173-194 | a credit raises this month's used seconds by exactly the seconds, on a missing, bare, malformed, stale or dated entry |
| `MinuteCounters.TouchKeepsUsed` | webRTCservice/modules/callFeatures/minuteCounter/MinuteCounter.js:123-134 | reading a balance rewrites the entry and does not change what is used |
| `MinuteCounters.LedgerConserves` | webRTCservice/modules/callFeatures/minuteCounter/MinuteCounter.js:68-194 | over any run of starts, finishes and queries over many sessions in ascending months, an identity's balance is the sum of the rounded-up durations of its calls finished in the month, plus the stored balance while no earlier month of the run has touched it; other identities' operations do not enter |
| `MinuteCounters.RefusedExactlyAtCap` | webRTCservice/modules/callFeatures/minuteCounter/MinuteCounter.js:136-157 | after any such run a start is refused exactly when that sum has reached the identity's own cap, or the default cap where it has none |
| `MinuteCounters.CallCountedOnce` | webRTCservice/modules/callFeatures/minuteCounter/MinuteCounter.js:159-194 | between its start and its first finish a call survives any operations of other sessions, is counted once with its length rounded up to seconds, and a second finish does nothing |
| `MinuteCounters.SessionsAreSeparate` | webRTCservice/modules/callFeatures/minuteCounter/MinuteCounter.js:159-194 | operations of other sessions leave a session's record alone |
| `MinuteCounters.CapSurvives` | webRTCservice/modules/callFeatures/minuteCounter/MinuteCounter.js:136-146 | no normalisation, month change or credit alters an identity's cap |
| `MinuteCounters.MinuteCounter.GetUsedSeconds` | webRTCservice/modules/callFeatures/minuteCounter/MinuteCounter.js:123-134 | what it returns and the entry it writes back |
| `MinuteCounters.MinuteCounter.AssertCanStart` | webRTCservice/modules/callFeatures/minuteCounter/MinuteCounter.js:148-157 | it refuses exactly when the cap is reached, and normalises the identity's entry and nothing else |
| `MinuteCounters.MinuteCounter.Start` | webRTCservice/modules/callFeatures/minuteCounter/MinuteCounter.js:159-171 | a counted call puts an unfinished record on its session |
| `MinuteCounters.MinuteCounter.Finish` | webRTCservice/modules/callFeatures/minuteCounter/MinuteCounter.js:173-194 | the record is marked finished first and credited at most once |
| `Billing.CounterFollowsHooks` | webRTCservice/webRTCmanager.js:2108-2163 | after any alternating list of hooks the counter is running exactly inside a conversation, since the hook that opened it, and the ledger holds one charge per ended conversation |
| `Billing.OthersDoNotMatter` | webRTCservice/modules/callFeatures/minuteCounter/MinuteCounter.js:159-194 | in any list of operations, those on one session leave its record and charge as if the others were not there |
| `Billing.NoStartOverwrites` | webRTCservice/modules/calls/poly/PolySession.js:230-241 | over every run of a pair, among any operations of other sessions, no start hook finds an unfinished record |
| `Billing.EveryConversationIsBilledOnce` | webRTCservice/webRTCmanager.js:1219-1224 | over every run of a pair, among any operations of other sessions, each ended conversation is charged once, and the finish at teardown charges an open one and nothing else |
| `CallPairs.IndexOf` | webRTCservice/modules/runtime/CallPairRef.js:1-9 | the first place of the mark, or none |
| `CallPairs.PairKeyIsSymmetric` | webRTCservice/modules/runtime/CallPairRef.js:22-26 | a key does not depend on the order of the two parties |
| `CallPairs.PairKeyIsInjective` | webRTCservice/modules/runtime/CallPairRef.js:22-26 | for labels without a bar two pairs have the same key if and only if they have the same two labels |
| `CallPairs.CollidesExactly` | webRTCservice/modules/runtime/CallPairRef.js:22-26 | another pair of strings has the key of two labels if and only if the key has a second bar that leaves its two sides in order |
| `CallPairs.BarsCollide` | webRTCservice/modules/runtime/CallPairRef.js:22-26 | such collisions happen between labels of identities: a whole family of different pairs with one key |
| `CallPairs.DottedMailboxIsUnstable` | webRTCservice/modules/runtime/CallPairRef.js:1-9 | the label of a dotted mailbox is its local part, and the label of that is shorter |
| `PolySessionRegistries.EveryRunIsCoherent` | webRTCservice/modules/calls/poly/PolySessionRegistry.js:59-103 | over any resolves and destroys every endpoint entry is the key of a live session of that endpoint, and every session is under the key of its own parties |
| `PolySessionRegistries.ResolveFindsExactly` | webRTCservice/modules/calls/poly/PolySessionRegistry.js:59-74 | after any run, over any labels and targets, a resolve fails if and only if the target's label is blank or the pair that owns the key, the first resolved to it since the last destroy, has no leg that answers to it; otherwise it returns a stored leg that answers, and that leg is the target itself if and only if it is one of that pair and the first leg does not have the label as its id alone |
| `PolySessionRegistries.BarFreeFindsExactly` | webRTCservice/modules/calls/poly/PolySessionRegistry.js:59-74 | over bar-free labels a resolve aimed at one of its two parties fails if and only if that party's label is blank |
| `PolySessionRegistries.DefaultIdsFindTheParty` | webRTCservice/modules/calls/poly/PolySessionRegistry.js:59-74 | where callers name no ids of their own, the leg returned is the requested party |
| `PolySessionRegistries.ResolveIsOrderIndependent` | webRTCservice/modules/calls/poly/PolySessionRegistry.js:59-74 | naming the parties the other way round returns the same session and leg and creates nothing |
| `PolySessionRegistries.ResolveIsIdempotent` | webRTCservice/modules/calls/poly/PolySessionRegistry.js:59-74 | resolving twice is resolving once, errors included |
| `PolySessionRegistries.KeyIsOfThePair` | webRTCservice/modules/calls/poly/PolySessionRegistry.js:59-74 | a session found under a pair's key is the session of those two labels |
| `PolySessionRegistries.CollisionMisroutes` | webRTCservice/modules/calls/poly/PolySessionRegistry.js:59-74 | where keys meet, the second pair gets an error aimed at its own party |
| `PolySessionRegistries.LookupIsSound` | webRTCservice/modules/calls/poly/PolySessionRegistry.js:34-38 | a lookup by endpoint returns a session of that party |
| `PolySessionRegistries.CreatedIsFound` | webRTCservice/modules/calls/poly/PolySessionRegistry.js:76-93 | a session just created is found by both of its parties |
| `PolySessionRegistries.DestroyRemovesExactly` | webRTCservice/modules/calls/poly/PolySessionRegistry.js:95-103 | a destroy removes one session and exactly the endpoint entries that led to it |
| `PolySessionRegistries.ListsExactlyWhenStable` | webRTCservice/modules/calls/poly/PolySessionRegistry.js:41-51 | listing returns a party's sessions in every registry if and only if the party's label is its own label |
| `PolySessionRegistries.PolySessionRegistry.ResolvePair` | webRTCservice/modules/calls/poly/PolySessionRegistry.js:59-74 | the method updates both maps and returns as its function says, errors included, and stays coherent |
| `PolySessionRegistries.PolySessionRegistry.DestroySession` | webRTCservice/modules/calls/poly/PolySessionRegistry.js:95-103 | the loop over the endpoint entries removes exactly those of the session |
| `PolySessionRegistries.PolySessionRegistry.ListSessions` | webRTCservice/modules/calls/poly/PolySessionRegistry.js:41-51 | the loop over the sessions collects exactly those that answer |
| `LightPbx.Identities` | webRTCservice/modules/routing/LightPbxProvisionReader.js:165-167 | the targets kept are the valid identities, in lower case, each once, none lost |
| `LightPbxRuns.LetThroughIsCanonical` | webRTCservice/modules/routing/LightPbxProvisionReader.js:62-198 | a payload that passes yields a route of the called identity with the right number of distinct valid targets, no rejected one unless MULTI_RING, a valid owner and its own revision |
| `LightPbxRuns.AdmitsExactly` | webRTCservice/modules/routing/LightPbxProvisionReader.js:355-370 | a tenant with a capital refuses every read; any other admits a read without an identity exactly when its label is digits |
| `LightPbxRuns.HitIsLogged` | webRTCservice/modules/routing/LightPbxProvisionReader.js:311-320 | a cache entry found for an identity and a key is a route once accepted for both |
| `LightPbxRuns.NoRollback` | webRTCservice/modules/routing/LightPbxProvisionReader.js:283-320 | however reads overlap, time out and expire, the routes accepted for an identity since the last clear never go back to an older revision, and each is canonical |
| `LightPbxRuns.HitsAreEarlierFetches` | webRTCservice/modules/routing/LightPbxProvisionReader.js:311-320 | a cache hit returns a route accepted earlier for the same identity and key, and its revision is the highest recorded |
| `LightPbxRuns.RefusedExactlyWhenOlder` | webRTCservice/modules/routing/LightPbxProvisionReader.js:283-294 | a fetched route that passes the checks is refused if and only if a newer one was accepted for its identity since the last clear |
| `LightPbxReaders.LightPbxReader.FetchProvision` | webRTCservice/modules/routing/LightPbxProvisionReader.js:257-296 | the method returns and records as its function says, in every error case |
| `LightPbxReaders.LightPbxReader.ReadLightPbxProvision` | webRTCservice/modules/routing/LightPbxProvisionReader.js:298-395 | a read that nothing overlaps is the run of its three events, and a route is returned exactly when it was logged |
| `LightPbxReaders.LightPbxReader.ClearCache` | webRTCservice/modules/routing/LightPbxProvisionReader.js:397-404 | all three maps are emptied |
| `SdpLines.TextOfSections` | webRTCservice/modules/calls/poly/negotiation/sdp.js:5-12 | cutting a text into sections and joining them gives the text back |
| `SdpLines.SectionsOfText` | webRTCservice/modules/calls/poly/negotiation/sdp.js:5-12 | joining sections and cutting the text gives the sections back |
| `SdpCodecNegotiators.SectionIsNarrowed` | webRTCservice/modules/media/negotiation/SdpCodecNegotiator.js:8-23 | an audio section that offers an allowed payload keeps exactly the allowed ones in order and with their multiplicity, keeps its first three words, loses every numeric rtpmap, fmtp or rtcp-fb line of another payload and no other line; any other section is untouched |
| `SdpCodecNegotiators.NarrowsEverySection` | webRTCservice/modules/media/negotiation/SdpCodecNegotiator.js:3-24 | the text function is the section function on every section, for any number of them, and its early returns change nothing |
| `SdpCodecNegotiators.NarrowingIsIdempotent` | webRTCservice/modules/media/negotiation/SdpCodecNegotiator.js:3-24 | narrowing twice is narrowing once, on every text |
| `EndCallSdp.SplitThenJoin` | webRTCservice/modules/calls/poly/negotiation/sdp.js:5-12 | joining the split sections gives the text with its line ends made CRLF |
| `EndCallSdp.JoinThenSplit` | webRTCservice/modules/calls/poly/negotiation/sdp.js:5-12 | a clean list of sections is what its joined text splits into |
| `EndCallSdp.NormalCollapses` | webRTCservice/modules/calls/poly/negotiation/sdp.js:55-55 | the last replacement changes no text whose line ends are CRLF |
| `EndCallTransforms.SectionsAreKept` | webRTCservice/modules/calls/poly/negotiation/sdp.js:50-76 | both transforms keep the number of sections and the kind of each media section, on every text |
| `EndCallTransforms.MidIsSetExactly` | webRTCservice/modules/calls/poly/negotiation/sdp.js:22-26 | a section gets the mid if and only if it has a mid that is not empty, or no mid line and an m-line that a CRLF ends |
| `EndCallPromises.MidsAlignExactly` | webRTCservice/modules/calls/poly/negotiation/sdp.js:58-76 | in an aligned answer a section carries the offer's mid of the same index if and only if it could take one and the port change does not take the mid's line onto the m-line |
| `EndCallPromises.CompleteKeepsMid` | webRTCservice/modules/calls/poly/negotiation/sdp.js:30-34 | on an m-line with something after its port the mid always stays |
| `EndCallPromises.InsertedMidIsLost` | webRTCservice/modules/calls/poly/negotiation/sdp.js:30-34 | on an m-line that ends with its zero port an inserted mid is always taken onto it |
| `EndCallPromises.BundleIsSetExactly` | webRTCservice/modules/calls/poly/negotiation/sdp.js:41-48 | the session section gets the bundle if and only if it has a bundle attribute that reads something, over line ends too, or has none and ends with an empty line; otherwise it has none afterwards |
| `EndCallPromises.BundleTakesLinesExactly` | webRTCservice/modules/calls/poly/negotiation/sdp.js:41-48 | replacing a bundle attribute keeps the lines before it and those behind what it reads, and loses lines if and only if it has no mids on its own line and text somewhere behind it |
| `EndCallPromises.NormalizesOnceExactly` | webRTCservice/modules/calls/poly/negotiation/sdp.js:50-56 | over all texts, normalising an offer is idempotent if and only if the port change leaves no mid to list, or the session section has a bundle attribute that can read nothing, or the mids listed stay the same and their attribute is a line of its own that reads only itself |

## Left out

- CallRuns.DisposedBalances: for a dispose with nothing running; `Disposals` has every other moment. `rotate` is two leg changes, a drain and a dispose, so this lemma covers it as a run.
- Disposals.DisposeMidPassLeaksExactly: media only; what the activity hook does at the end of a loop that goes on after a dispose is not modelled.
- PolySessions.PolySession.Dispose: with no drain running; a drain that goes on after it is modelled on values in `Disposals`.
- CallCycles.PairIsReusable: for WebRTC pairs only, because a SIP leg is DISCONNECTED and not CONNECTED between calls.
- MultiringRuns.StartsAreIsolated: a start is one step, up to the timer, and its targets are taken to have distinct wallets; `MultiringRuns.ArrivalKeepsExactly` says what a candidate created in between other events keeps, but the runs do not go on from there.
- MultiringCoordinators.MultiringCoordinator.StartInbound: one step, as above.
- MultiringRuns.SingleWinner: counts the results returned for a group, not what the handoff does with them.
- SequentialRuns.SequentialRunsRest: assumes that no drain is cut; `SequentialRuns.CalmRunsRest` does not, and assumes instead that no data channel is lost, without which a drain can be cut (`Witnesses.LostChannelReachesCap`).
- SequentialRuns.CalmRunsNeverCut: an end is taken to settle its leg on DISCONNECTED or CONNECTED, as both negotiations do.
- EndCallPromises.BundleIsSetExactly: for mids that are not all blanks; `EndCallPromises.NormalizesOnceExactly` has those too.
- LightPbxRuns.NoRollback: a route is cached in the step that records its revision; the one microtask between the two is not modelled, nor a clear inside it. A read is logged when its route is accepted, which is when its caller gets it.
- MinuteCounters.LedgerConserves: months are numbers in calendar order; seconds are exact; Infinity, failed file writes and a counter configured without a file (which does nothing) are left out.
- Listener wiring: the pair's listener is part of `PolySession.SetState`; the `from` and `cause` fields, `activeCall` and the call-id checks are left out.
- The CANCEL and REJECT intents exist in the leg but no rule emits them; clients reach the same states by message, and that is modelled in two stages.
- Transport internals (WebRTC and SIP negotiation, ICE, timers, retry delays) appear as outcomes only; a hook failure is logged in the source and has no effect here.
- The cap on the remaining balance of one call (webRTCmanager.js:2129-2158) is an END message at some time, which every run already allows.
- HTTP answers and data-channel opening in multiring set flags that nothing modelled reads.
- Text is ASCII: lower case and blanks beyond it, lone carriage returns inside a description, and dollar patterns in replacement strings are left out.
- Service resolvers, routing strategies, the legacy state machine, notifications, authentication, audio sample conversion and session-store links would add straight-line code, foreign libraries or no invariant.
