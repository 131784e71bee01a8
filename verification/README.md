# callx: the call machine, its analyser and its packets

callx extracts calls from captured VoIP traffic. A SIP processor follows every call: its dialog,
its transactions, and the RTP sinks that collect its media. A watchdog retires calls that are too
old or silent, a decoder turns the collected packets into PCM audio, and an analyser classifies
callers by the events the SIP processor makes. This project models these parts in Dafny and proves
what they keep, over every packet, every run and every interleaving of the threads' atomic steps.

## How it is organised

Two layers describe the same code.

*Objects.* `Objects`, `SharedState`, `SipProcessors`, `Watchdogs`, `Containers`, `UdpHandlers`,
`Pcm`, `Decoders`, `Output` and `Analyser.SigBasedAna` have the classes of the program, with the fields the
program updates in place, its loops, and one method for each handler. Each is proved against a
specification on values.

*Values and theorems.* `SipTypes`, `Media`, `Signalling`, `SipMachine` and `SystemModel` are that
specification: the value of the whole shared state, what each handler makes of it (`Outcome`), one
pass of the SIP worker (`SipMachine.Step`), and runs of all threads (`SystemModel.Run`) as
interleaved actions: SIP packet, RTP packet, the three stages of the watchdog (snapshot, check of
one call, commit), decoding, destruction of a call nobody refers to, and the clock. Runs begin in
the empty state. The theorems are about that:

| module | about |
|---|---|
| `PacketEffects`, `RoundEffects` | what each kind of packet, and each stage of watchdog and decoder, does, by the fields alone |
| `Causes` | every event shows what packets of the run said, in its place and time |
| `SinkLabels`, `Arrivals` | whose audio a sink collects, and that it stores exactly what comes, in order |
| `CallInvariant`, `Reachable` | dialog, re-INVITE flag and transactions in every reachable state |
| `CallPhases`, `SinkSafety` | the global sink map leads to live sinks only |
| `SinkAgreement`, `IndexAgreement` | global and local sink maps agree; unsettled sinks need a handshake |
| `Reinvite` | commit and rollback of a re-INVITE; the call that refuses all later ones |
| `Retransmission` | when a repeated packet is absorbed |
| `HandOver` | every call leaves the call map once |
| `Races`, `OddRuns` | runs in which the conditions of the exact theorems fail |
| `EventTraces`, `Completion` | the events a run makes, and what the analyser makes of them |
| `Analyser`, `ConcurrentCalls` | the concurrent-calls sweep is an offline maximum, and counts the calls of a run |
| `Recording`, `Inactivity` | recording stops for good; silence is measured soundly |
| `PacketPool`, `PoolMoves` | every packet is in one place |
| `Pcm`, `Output` | audio is assembled exactly and sent up to a bound |

`SipProcessors.SipProcessor.Step` (one pass of the worker on the objects) is proved equal to
`SipMachine.Step`, the watchdog's stages and the decoder's pass to the actions of `SystemModel`, and
`Watchdogs.CallMapWatchdog.HandleCallTimeouts` to a run of them, so the theorems speak about the
objects too.

## What is assumed

* A request's method is the method of its CSeq header (section 8.1.1.5 of RFC 3261). This is
  `Packet.WellFormed`, and `WellFormedPackets` for a run.
* For the hand-over of calls, Call-IDs are not reused (section 8.1.1.4 of RFC 3261): `FreshCallIds`.
  `Races.TakeoverLosesCall` shows that it is needed.
* That the global map leads to live sinks depends on the watchdog's commits: `SinkSafety.AliveIff`
  has the exact condition, and `Races.LateOfferLeavesDeadSink` a run in which it fails. All theorems
  about runs interleave the stages of the watchdog freely.
* A pass of the SIP worker is one atomic step. The program finds the call of a packet before it
  locks it; `HandOver.LateDispatchIff` says what a commit of the watchdog in between does.
* Agreement of the maps and the re-INVITE theorems: calls that are not destroyed do not hold the
  same socket (`OwnSockets`, `OffersOwn`).
* A packet is an already parsed record; whether it parses, whether the caller has an incident
  (`noRtp`), and the time are inputs. The clock never goes back, and is one clock.
* Calls, sinks and stored transactions are named by the order in which they are made, so identity
  of objects is equality of numbers. The current packet, call and transaction of the SIP processor
  are parameters of its handlers.
* Activity times of calls and transactions are never read, so they are not modelled.
* The order of a `std::map` is modelled where it decides something: the first INVITE transaction
  is the one with the least branch. Loops over sinks are proved for every order.
* The G.711 table is any function from bytes to 16-bit samples, stored little-endian. An RTP packet
  has at least the 12 bytes of its header.
* A packet that reaches the SIP test of the UDP worker needs a `minSipSize` of at least the length of
  the ident string: the unsigned bound of the loop wraps around otherwise, and it reads beyond the
  payload.

## Where the code is not what its comments say

The model follows the code.

* A re-INVITE sets the dialog back to INIT (`src/sip/SipProcessor.cpp:316`), and a rejected one
  never clears the re-INVITE flag (409-443). The call then refuses every later INVITE
  (`Reinvite.WedgedForever`).
* The re-INVITE flag is cleared at line 637, before the ACK event is made at line 485. So a
  successful re-INVITE counts as a second completed call (`Completion.ReinviteCompletesTwice`).
* A CANCEL with another CSeq number than its INVITE is logged and then handled (385-389).
* `handleProvisionalOnNonInvite` (544-555) is never called: a provisional response to another
  request changes nothing.
* A response with the CSeq method ACK on the branch of an INVITE is taken for one to the INVITE
  (164-172, `PacketEffects.InviteResponseEffect`).
* A request labels its sink by the To tag alone (787-797). If neither or both of its tags are the
  caller's, the label is the wrong one (`SinkLabels.LabelIsRightIff`).
* A socket whose local sink is TERMINATED and which is offered again gets a new sink in the global
  map but keeps the old one in the local map (811-813).
* The ACK on a success is compared with the first INVITE transaction in map order. If the ACK of an
  earlier INVITE was not seen, the ACK of a later re-INVITE is ignored (`OddRuns.LostAckStopsCommit`).
* Recording is stopped for the sinks in the local map only, so a sink left in the global map goes on
  storing (`OddRuns.StraySinkGoesOn`).
* An ACK may hit twice: with two INVITE transactions that have its CSeq number, the repeated ACK
  finishes the second one (`OddRuns.RepeatedAckHitsTwice`). `Retransmission.RetransmissionAbsorbedIff`
  says when exactly.
* `RtpSink::inactiveFor` never updates its old packet count (`src/audio/RtpSink.cpp:72-82`), so
  inactivity falls short by up to one polling gap (`Inactivity.ReportIsClose`).
* A CANCEL pushes the event of its INVITE again, with code 0, so a call that is cancelled before its
  answer counts as two attempts (`Completion.CancelCountsTwice`).
* The search for the SIP ident string compares two letters only, and stops before an ident that
  ends exactly at `minSipSize` (`UdpHandlers.SipTestFails`).
* A call that was refused counts as up in the sweep for concurrent calls if a BYE for it is answered
  (`ConcurrentCalls.RefusedByeCounts`).
* A Call-ID with two acknowledged INVITEs is counted twice in the sweep for concurrent calls
  (`ConcurrentCalls.ReinviteCountsTwice`); `ConcurrentCalls.SweepIsRightIff` says when the result is right.

## Model

| member | source | states |
|---|---|---|
| `Reachable.EveryCallIsInOrder` | src/sip/SipProcessor.cpp:76-748 | In every state every interleaving reaches, each call has at most one INVITE transaction not terminated on both sides, its dialog is INIT or EARLY while one exists, the re-INVITE flag implies INIT or EARLY, every other stored transaction is (TRYING, TRYING), and no call in the map is TERMINATING. |
| `CallInvariant.OnPacketKeeps` | src/sip/SipProcessor.cpp:164-212 | The invariant behind it is kept by every packet in every call that has it, and a packet that makes a call TERMINATING also takes it out of the call map. |
| `PacketEffects.UnknownCallId` | src/sip/SipProcessor.cpp:95-148 | A packet that does not parse, or has an unknown Call-ID and is neither an INVITE nor an OPTIONS request, changes nothing. These two make a call, created now, which records unless told otherwise. |
| `PacketEffects.OtherCallsStay` | src/sip/SipProcessor.cpp:103-158 | A packet changes no call but that of its Call-ID, and never Call-ID or creation time. |
| `PacketEffects.InviteEffect` | src/sip/SipProcessor.cpp:275-324 | An INVITE on a new branch is taken exactly in a call without dialog, from its From and To headers, and in a confirmed one without the flag, as a re-INVITE; with the transaction, one event and the offer it makes. |
| `PacketEffects.PlainRequestEffect` | src/sip/SipProcessor.cpp:326-350 | BYE and OPTIONS on a new branch: the transaction stored and the event, whatever the dialog is. |
| `PacketEffects.CancelEffect` | src/sip/SipProcessor.cpp:352-407 | A CANCEL is taken exactly if there is an INVITE on its branch with its sent-by; the transaction, the flag and both events. |
| `PacketEffects.AckEffect` | src/sip/SipProcessor.cpp:446-502 | An ACK on a new branch acknowledges the INVITE transaction with the least branch exactly if that has its sent-by and CSeq number: one event with the flag, the transaction gone, offer and commit. |
| `PacketEffects.AckOnRefusalEffect` | src/sip/SipProcessor.cpp:409-444 | An ACK on the branch of an INVITE ends it exactly if it was refused; the call is rejected unless the flag is set. |
| `PacketEffects.OtherRequestEffect` | src/sip/SipProcessor.cpp:219-257 | Requests of other methods, and those in a stored transaction, are ignored. |
| `PacketEffects.InviteResponseEffect` | src/sip/SipProcessor.cpp:516-670 | A response to a pending INVITE by its code: 100, 101 to 199, 200 to 299, and all others; dialog, callee, flag, transaction, event with code and reason, offer and rollback of each. |
| `PacketEffects.PlainResponseEffect` | src/sip/SipProcessor.cpp:672-748 | A response to a BYE, CANCEL or OPTIONS that waits: a final one removes the transaction and makes one event with its code and reason; for a BYE the call is handed over. A provisional one is ignored. |
| `PacketEffects.OtherResponseEffect` | src/sip/SipProcessor.cpp:205-211 | Responses without transaction, or to an INVITE that has its final response, are ignored. |
| `SipTypes.LeqIsLexicographic` | src/sip/sip.hpp:101 | The order of branches: the first difference decides, and a prefix comes first. |
| `Causes.EventsAreTrue` | src/sip/Transaction.hpp:130-201 | In every run each event has its packets: its caller sent an INVITE of the call, a request of its kind came from its initiator, a response on that branch has its code and reason, and a CANCEL or ACK for that request came if it says so. Each list is in the order of time, its events are about that caller and not older than their call, and a BYE shows the milliseconds since the call was made. |
| `Causes.CallsAreTrue` | src/sip/SipProcessor.cpp:275-641 | In every run what calls and transactions store came in packets: caller, callee, branch, sent-by, CSeq number, initiator, final response; a dialog is CONFIRMED only after a 2xx to an INVITE, and EARLY only after a response from 101 to 199. |
| `Causes.WindowsAreSlices` | src/sba/SigBasedAna.cpp:428-433 | In every run, what an analysis looks at is a contiguous part of the caller's list: the events from one second to the period old. |
| `SinkLabels.LabelIsRightIff` | src/sip/SipProcessor.cpp:787-799 | A sink a packet adds is for the socket of its description; it is labelled as the caller's audio exactly if the sender of the description is not the caller, if and only if the packet is a response or exactly one of its From and To tags is the caller's. |
| `SinkLabels.LabelsStay` | src/audio/RtpSink.cpp:39-40 | In every continuation a sink keeps its label, its call and its socket. |
| `SinkLabels.BothAreLabelled` | src/sip/SipProcessor.cpp:787-799 | A run of INVITE and 2xx with descriptions: what comes to the caller's socket is the callee's audio, and the other way round. |
| `SinkLabels.OfferEffect` | src/sip/SipProcessor.cpp:750-816 | What a description does to sinks and maps, field by field: a new sink, active if the call records, or at most the status of a known one in a re-INVITE. |
| `SinkLabels.SettleEffect` | src/sip/SipProcessor.cpp:818-855 | Statuses and global entries after confirming and annulling, for every socket of the call. |
| `SinkLabels.AckConfirmsItsOffer` | src/sip/SipProcessor.cpp:489-495 | A socket that is new in the ACK on a success is confirmed at once. |
| `Arrivals.DequeIsArrivals` | src/audio/RtpSink.cpp:57-70 | In every interleaving, the deque of a sink, until the decoder takes it, is exactly the packets that came for its socket while it was active and global, in the order in which they came. |
| `Arrivals.DequeGrows` | src/audio/RtpSink.cpp:57-70 | The same from any state on. |
| `Arrivals.ReceiveEffect` | src/network/UdpHandler.cpp:86-95 | An RTP packet is counted and stored by the sink the global map has for its socket, and changes nothing else. |
| `RoundEffects.SnapshotEffect` | src/container/CallMap.cpp:82-85 | A round begins with exactly the calls of the map. |
| `RoundEffects.CheckEffect` | src/container/CallMap.cpp:87-150 | The check puts a call on the temporary queue once if it and all its sinks are silent for more seconds than the limit, and once if it is older than the maximum age; then its sockets leave the global map. |
| `RoundEffects.CheckStopsRecording` | src/sip/Call.cpp:109-138 | Recording stops exactly if the call is older than the maximum recording time, and then every sink it holds is inactive; each sink it holds is polled. |
| `RoundEffects.CommitStep` | src/container/CallMap.cpp:155-165 | The commit takes the temporary queue in order: a call whose Call-ID is still in the map goes to the end of the decode queue, and its Call-ID goes. |
| `RoundEffects.DestroyEffect` | src/sip/Call.cpp:51-54 | A call nothing refers to is destroyed, and its sockets leave the global map. |
| `RoundEffects.DecodeEffect` | src/audio/AudioHandler.cpp:88-121 | The decoder takes the next call and the deque of every sink it holds, and nothing else. |
| `CallPhases.OnPacketMoves` | src/sip/SipProcessor.cpp:219-748 | A call whose first INVITE waits for its answer got there by that INVITE's offer; one whose first INVITE failed, by a rollback; only an ACK to such a failure rejects a call, with a rollback; and the hand-over neither offers nor settles. |
| `Retransmission.RetransmissionAbsorbedIff` | src/sip/SipProcessor.cpp:97-213 | In every state with the invariant, processing any packet twice in a row gives exactly the state of processing it once, if and only if the packet is not an ACK that the next INVITE transaction of the call matches as well. |
| `OddRuns.RepeatedAckHitsTwice` | src/sip/SipProcessor.cpp:446-502 | The condition fails in a run: INVITE and 2xx whose ACK is not seen, re-INVITE with the same CSeq number and 2xx with a description. The ACK confirms the socket; the same ACK once more finishes the second transaction, terminates the socket and takes it out of the global map. |
| `Retransmission.OrderlyAcksHitOnce` | src/sip/SipProcessor.cpp:409-502 | With distinct CSeq numbers among a call's INVITE transactions, and an ACK with the number of the INVITE on its branch, no ACK hits twice. |
| `Retransmission.OrderlyPacketsAreAbsorbed` | src/sip/SipProcessor.cpp:97-213 | So under that condition every retransmission is absorbed, whenever it comes. |
| `Retransmission.LeavesByAckOrResponse` | src/sip/SipProcessor.cpp:865-886 | A call leaves the call map only on an ACK or a response, and never on an ACK that hits twice. |
| `HandOver.EveryCallLeavesOnce` | src/container/CallMap.cpp:73-166 | In every interleaving of SIP packets with the watchdog's stages, if Call-IDs are not reused, every call ever made is in the map, was pushed to the decode queue, or was rejected; the first excludes the others, the queue has no call twice and no rejected call. |
| `HandOver.PartitionIff` | src/container/CallMap.cpp:73-166 | Whether Call-IDs are reused or not: this holds in every state of a run if and only if no commit meets a Call-ID that another call has taken over. |
| `HandOver.CommitIsExactIff` | src/container/CallMap.cpp:155-165 | For every temporary queue, with repetitions, the commit keeps this if and only if each Call-ID it erases still leads to the call that is pushed. |
| `HandOver.FreshRunsHaveNoTakeover` | src/container/CallMap.cpp:82-165 | Without reuse of Call-IDs that condition holds at every commit of every run. |
| `HandOver.LateDispatchIff` | src/sip/SipProcessor.cpp:103-114 | A commit after the SIP worker found the call and before it locks it: the call is still handed over exactly once if and only if the packet is neither the ACK on its failed INVITE, outside a re-INVITE, nor a final response to its BYE. |
| `HandOver.LeavesIff` | src/sip/SipProcessor.cpp:409-698 | These two packets, and no others, take a call out of the call map. |
| `HandOver.LateResponseQueuesTwice` | src/sip/SipProcessor.cpp:882-886 | It does not for the response to a BYE: the call is on the decode queue twice. |
| `Races.TakeoverLosesCall` | src/container/CallMap.cpp:155-165 | A run in which a Call-ID is reused during a round: the rejected call is pushed for decoding, and the new call is in no place. |
| `SinkSafety.AliveIff` | src/container/CallMap.cpp:73-166 | In every interleaving of all threads with the single stages of the watchdog, the global map leads to live sinks in every state of the run if and only if each commit finds no sink of a call with a Call-ID it is about to erase. |
| `SinkSafety.GlobalSinksAreAlive` | src/audio/RtpSink.cpp:57-90 | In every state of such a run, a sink the global map leads to belongs to a call still in the call map, under a socket the call holds locally, and still has its packet deque, so the UDP thread never meets a deque the decoder has taken. |
| `SinkSafety.CommitIsSafeIff` | src/container/CallMap.cpp:155-165 | For every state and temporary queue, the commit leaves live sinks only if and only if that condition holds before it. |
| `SinkSafety.RetiredAreSpared` | src/container/CallMap.cpp:105-165 | The condition holds at every commit of a run in which no packet comes for a call between its check and the commit, and no Call-ID was taken over when its call is checked. |
| `SinkSafety.WholeRoundsAreSafe` | src/container/CallMap.cpp:73-166 | In particular in runs with no SIP packet between the stages of a round. |
| `SinkSafety.StepKeepsSinks` | src/sip/SipProcessor.cpp:750-886 | Every SIP packet keeps the sinks of the global map live, in every state with the invariants and every stage of the watchdog. |
| `Races.LateOfferLeavesDeadSink` | src/container/CallMap.cpp:105-165 | A run that violates the condition, with a packet between check and commit: the global map leads to a sink of a call that is gone, its deque taken. |
| `SinkAgreement.StepKeepsApart` | src/sip/SipProcessor.cpp:750-855 | When calls do not share sockets, every SIP packet keeps that each sink a call in the map holds locally, and which is not TERMINATED, is the object the global map holds for the socket; except for any set of calls that are out of agreement already. |
| `SinkAgreement.StepKeepsHandshakes` | src/sip/SipProcessor.cpp:311-641 | Every SIP packet keeps that a call with a sink in INIT or CONFIRMED_INIT stores an INVITE transaction. |
| `IndexAgreement.SinksAgreeInEveryRun` | src/sip/Call.cpp:156-168 | In every interleaving of all threads with the single stages of the watchdog, if no packet offers a socket another undestroyed call holds: both hold in every state, the first for every call of the map that is not on the watchdog's temporary queue. |
| `Reinvite.RejectedReinviteRollsBack` | src/sip/SipProcessor.cpp:409-444 | From a call with all sinks settled: re-INVITE, any 1xx, a non-2xx, any 1xx, its ACK, with any packets of other calls in between. Every earlier socket has its sink and status back, every new one is TERMINATED and not global, the global entries are as before unless a TERMINATED socket was offered again; and the call is left with its re-INVITE flag set. |
| `Reinvite.SuccessfulReinviteCommits` | src/sip/SipProcessor.cpp:446-502 | Re-INVITE, any 1xx, a 2xx, any 1xx, an ACK without description, in the same surroundings, no TERMINATED socket offered. If the ACK has sent-by and CSeq number of the first INVITE transaction stored: exactly the sockets offered in INVITE and 2xx are CONFIRMED, and global with the local sink; all others are TERMINATED and, unless they were TERMINATED and global before, gone from the global map. If it has not: the ACK changes nothing at all. |
| `OddRuns.LostAckStopsCommit` | src/sip/Call.cpp:90-99 | The second case happens: INVITE and 2xx whose ACK is not seen, re-INVITE with any other CSeq number and 2xx with a description. The first transaction is the unacknowledged one, the ACK of the re-INVITE changes nothing, and the socket stays INIT. |
| `Reinvite.ReopensIff` | src/sip/SipProcessor.cpp:287-316 | In the same surroundings, after the final response and also after the ACK, the call takes further INVITEs if and only if the response was a 2xx. |
| `Reinvite.StoredIff` | src/sip/SipProcessor.cpp:279-315 | Taking an INVITE means: on a new branch its transaction is stored if and only if the guard of the handler does not refuse. |
| `Reinvite.WedgedForever` | src/sip/SipProcessor.cpp:287-295 | In every continuation after a rejected re-INVITE, every INVITE for the call changes nothing at all. |
| `EventTraces.TracesAreShaped` | src/sip/Transaction.hpp:130-201 | In every run, the first event of an INVITE transaction has code 0 and no ACK; a later one keeps its final code, never takes cancel or ACK back, and none follows an acknowledged one; a transaction has its events in one list; and a call has at most one BYE event with a final response in all lists. |
| `EventTraces.StepKeepsTraces` | src/sip/SipProcessor.cpp:319-697 | Every SIP packet keeps the invariant behind it: the last event of a stored transaction shows its present state. |
| `EventTraces.PairFollows` | src/sip/Transaction.hpp:194-201 | In a list built by pushes that fit the last event of the transaction, this holds for every pair of events of a transaction. |
| `EventTraces.FirstIsFirst` | src/sip/Transaction.hpp:194-201 | And for the first event of every transaction. |
| `Completion.CompletionIsAPercentage` | src/sba/SigBasedAna.cpp:225-256 | In every run without re-INVITEs, over the whole list of a caller, completed calls never exceed attempts, and the rounded percentage is in 0..100 and within one half of the true ratio. |
| `Completion.WindowIsBalanced` | src/sba/SigBasedAna.cpp:225-250 | The exact difference, for every window of every shaped list. |
| `Completion.AttemptsAreTries` | src/sba/SigBasedAna.cpp:241-242 | In any list, attempts are the transactions tried and the attempts of those tried before. |
| `Completion.CancelIsAnAttempt` | src/sip/SipProcessor.cpp:401-406 | A CANCEL pushes an event of the INVITE that counts as one more attempt, if and only if the INVITE has no final response and no re-INVITE is under way. |
| `Completion.CancelCountsTwice` | src/sba/SigBasedAna.cpp:241-242 | A run of INVITE and CANCEL: one call, one transaction, two attempts. |
| `Completion.RefusalIsNotCompleted` | src/sba/SigBasedAna.cpp:241-245 | A run of INVITE, 486, ACK: one attempt, no completed call, 0 percent, although the refusal was acknowledged. |
| `Completion.WindowIsAPercentage` | src/sba/SigBasedAna.cpp:225-256 | In every window of every run, completed calls and attempts differ exactly by the transactions completed but not tried in it, against those tried but not completed and those tried again; so completed calls do not exceed attempts if and only if the former are not more. The percentage is within one half of the true ratio, and at most 100 exactly if that is below 201 to 200. |
| `Completion.CutWindowExceeds` | src/sba/SigBasedAna.cpp:232-234 | A list of two calls and a window that cuts off one attempt: one attempt, two completed calls. |
| `Completion.ReinviteCompletesTwice` | src/sip/SipProcessor.cpp:637 | A run with one successful re-INVITE has one attempt and two completed calls: 200 percent. |
| `Recording.RecordingStopsForGood` | src/sip/Call.cpp:109-176 | From any state of any run in which a call's rtpSinksAreActivated is false, in every continuation it stays false, every sink in its local map is inactive and has no more packets than before, and no sink made for the call from then on stores a packet, whichever map it is in. |
| `Recording.GrowsIff` | src/sip/Call.cpp:109-122 | In every such state, a sink made for the call can still grow in some continuation if and only if the global map leads to it, it is active, its deque was not taken, and the local map does not hold it. |
| `OddRuns.StraySinkGoesOn` | src/sip/SipProcessor.cpp:811-813 | There is such a sink: a run in which a socket with a TERMINATED local sink is offered again, recording is stopped, and the next RTP packet is stored for the call all the same. |
| `Inactivity.ReportIsClose` | src/audio/RtpSink.cpp:72-82 | What a sink reports is never more than the true silence, and less than a second and one polling gap short of it. |
| `Inactivity.RetiredOnlyIfInactive` | src/sip/Call.cpp:124-138 | In every run, the watchdog retires a call for inactivity only if the call is older than the limit and the last packet of every sink it holds is more than the limit ago. |
| `Inactivity.InactiveIsRetired` | src/container/CallMap.cpp:109-120 | And if it polls within a gap, it retires every call that is older than the limit and silent for the limit, a second and the gap. |
| `Analyser.SigBasedAna.SweepCallsConcurrent` | src/sba/SigBasedAna.cpp:158-204 | The one-pass sweep gives the maximum over all prefixes of the window of the counter there plus the later BYEs whose INVITE is outside the window; the counter is the number of open Call-IDs plus the repeated ones. |
| `Analyser.OthersCountNothing` | src/sba/SigBasedAna.cpp:170-188 | An INVITE that is not acknowledged, in a re-INVITE, or with a code outside 200 to 299, a BYE without final response, and events of other kinds change neither counter nor loads nor which calls are up. |
| `Analyser.StartCountsOne` | src/sba/SigBasedAna.cpp:173-180 | An acknowledged initial INVITE with a code from 200 to 299 adds one from then on. |
| `Analyser.EndCountsOne` | src/sba/SigBasedAna.cpp:181-199 | A BYE with a final response takes one off if its call was started in the window, and else adds one to all earlier loads. |
| `Analyser.LoadIsCallsUp` | src/sba/SigBasedAna.cpp:170-200 | If each call ends at most once, after its starts, the load at every prefix is the number of calls that are up then, as far as the window shows, and that of starts repeated until then. |
| `Analyser.LoadsAreRightIff` | src/sba/SigBasedAna.cpp:170-200 | So all loads are the numbers of calls up if and only if no start is repeated. |
| `Analyser.PeakIsMostUpIff` | src/sba/SigBasedAna.cpp:158-204 | And the sweep finds the greatest number of calls up at any time if and only if, with the starts repeated by then, the calls up never exceed it. |
| `Analyser.PeakIsMostCallsUp` | src/sba/SigBasedAna.cpp:158-204 | In particular, if each call also starts at most once, the sweep's result is exactly that number. |
| `Analyser.RepeatedStartCountsTwice` | src/sba/SigBasedAna.cpp:173-180 | Two acknowledged INVITEs with the same Call-ID count as two calls where one is up. |
| `ConcurrentCalls.SweepIsRightIff` | src/sba/SigBasedAna.cpp:158-204 | In every run without reuse of Call-IDs, re-INVITEs included, for every caller, analysis time and period: the load is the number of calls up and that of starts repeated; no load is wrong if and only if no start is repeated; and the result is the greatest number of calls up if and only if the calls up and the starts repeated by then never exceed it. |
| `ConcurrentCalls.SweepCountsCallsUp` | src/sba/SigBasedAna.cpp:158-204 | In every run without re-INVITEs and reuse of Call-IDs, for every caller, analysis time and period: no start is repeated, and the sweep's result is the greatest number of the caller's calls up at any time. |
| `ConcurrentCalls.RefusedIsNeverUp` | src/sba/SigBasedAna.cpp:170-200 | In every run, for every caller and window: a call whose INVITEs got no 2xx, in particular one that was refused, and which got no final response to a BYE, is never up. |
| `ConcurrentCalls.RefusedByeCounts` | src/sba/SigBasedAna.cpp:194-199 | The second condition is needed: after INVITE, 486, BYE and 200 the refused call counts as one that was up. |
| `ConcurrentCalls.ReinviteCountsTwice` | src/sip/SipProcessor.cpp:637 | The condition fails in a run with one successful re-INVITE: one call is up, and the sweep finds two. |
| `Analyser.SigBasedAna.AnalyzeCallsConcurrent` | src/sba/SigBasedAna.cpp:158-223 | An incident is recorded exactly if the peak exceeds the maximum, with the peak as its value, and nothing else changes. |
| `Analyser.SigBasedAna.SweepCallCompletion` | src/sba/SigBasedAna.cpp:225-250 | Attempts are the events of initial INVITEs with code 0 in the window, completed calls the acknowledged ones with code 200. |
| `Analyser.TallyByFields` | src/sba/SigBasedAna.cpp:236-246 | Nothing else counts: one more event adds an attempt exactly if it is an initial INVITE with code 0, and a completed call exactly if it is an acknowledged one with code 200. |
| `Analyser.SigBasedAna.AnalyzeCallCompletion` | src/sba/SigBasedAna.cpp:225-273 | An incident is recorded exactly if there are enough attempts and the rounded percentage is below the minimum. A window without attempts that the configuration accepts may give any ratio. |
| `Analyser.PercentIsRounded` | src/sba/SigBasedAna.cpp:252-256 | The percentage is the nearest whole number, in 0..100 for a part of the whole, and at most 100 if and only if the ratio is below 201 to 200. |
| `Analyser.SigBasedAna.SweepCallAttempts` | src/sba/SigBasedAna.cpp:112-140 | Attempts are the distinct Call-IDs of the answered initial INVITEs in the window. |
| `Analyser.SigBasedAna.AnalyzeCallAttempts` | src/sba/SigBasedAna.cpp:112-156 | An incident is recorded exactly if their number exceeds the maximum, with it as its value. |
| `Analyser.PeriodIsAnInterval` | src/sba/SigBasedAna.cpp:428-433 | The window is the events at least one second and less than the period in minutes old. |
| `Analyser.SigBasedAna.InsertIncident` | src/sba/SigBasedAna.cpp:435-443 | The caller's incidents get one more, also if an equal one is there; a new set if there was none; other callers keep theirs. |
| `PacketPool.EachPacketIsInOnePlace` | src/network/TlayerPacketRecycler.hpp:46-57 | After any moves of the threads, each packet of a pool of any size is in exactly one of pool, queue, sink or hand, and there are no others. |
| `PacketPool.QueuesAreFifo` | src/container/ThreadFriendlyQueue.hpp:51-81 | No move changes the order of the pool, of a queue or of what a sink stores. |
| `PacketPool.DecoderReturnsAll` | src/audio/AudioHandler.cpp:145-219 | The decoder's loop returns every packet it takes exactly once and in order, those it skips by continue and the one left in its hand included. |
| `PoolMoves.PassIsMoves` | src/network/UdpHandler.cpp:63-161 | One pass of the UDP worker on the objects is a run of these moves: queues, hand, pool and sinks are afterwards as the moves say. |
| `PoolMoves.DecodeIsMoves` | src/audio/AudioHandler.cpp:127-228 | So is the decoding of a deque, whichever packets are skipped. |
| `UdpHandlers.UdpHandler.Pass` | src/network/UdpHandler.cpp:63-161 | One pass takes the first packet; it goes to the sink of its socket, to the SIP queue or stays in hand, the packet in hand before goes to the pool, and so does one for an inactive sink; nothing else changes. By the bytes: with a first byte from 0x80 to 0xBF and a known socket it is stored at the end of an active sink, or left to the pool by an inactive one; with any other no sink changes. |
| `UdpHandlers.UdpHandler.RoutedByBytes` | src/network/UdpHandler.cpp:63-161 | Which packets are for a sink and which are taken for SIP, by their bytes. |
| `UdpHandlers.UdpHandler.IsSip` | src/network/UdpHandler.cpp:111-155 | The nested loops find exactly the payloads with S and I at a position from which the whole ident fits before minSipSize. |
| `UdpHandlers.SipIsNotMissed` | src/network/UdpHandler.cpp:111-155 | A payload with the whole ident string at such a position passes the test. |
| `UdpHandlers.SipTestFails` | src/network/UdpHandler.cpp:111-155 | A payload without the ident anywhere that passes, and one whose ident ends at minSipSize that does not. |
| `UdpHandlers.UdpHandler.RollIn` | src/network/UdpHandler.cpp:98-109 | The packet leaves the hand for the sink, and from an inactive sink for the pool. |
| `Pcm.AudioHandler.DecodeRtpPacketDeque` | src/audio/AudioHandler.cpp:127-228 | For every deque, chunk size and formats: the concatenated chunks are, two bytes a sample, the mu-law values (payload type 0) and A-law values (type 8) of bytes 12 to 171 of the packets of these types that have so many, in arrival order, and nothing of any other packet; every chunk but the last has floor(S/320) frames, there are ceil(n / floor(S/320)) chunks, and every packet is back in the pool in order; the process exits exactly if a frame does not fit an empty chunk. |
| `Decoders.CallDecoder.DecodeNext` | src/audio/AudioHandler.cpp:88-121 | The decoder takes the next call of the queue and the deque of every sink the call holds, each once and with its label; on the objects this is the action Decode. |
| `Pcm.PackingIsExact` | src/audio/AudioHandler.cpp:180-228 | Greedy packing of frames of 320 bytes has this shape. |
| `Pcm.FrameInStream` | src/audio/AudioHandler.cpp:200-219 | Frame j is at byte 320 j of the stream. |
| `Pcm.FrameSamples` | src/audio/G711Decoder.cpp:55-60 | Sample i of a frame is the table's value for coded byte i. |
| `Pcm.SampleOfBytes` | src/audio/G711Decoder.cpp:55-60 | A 16-bit sample is read back from its two bytes. |
| `Pcm.G711Decoder.Decode` | src/audio/G711Decoder.cpp:55-60 | Decoding writes the frame where it is told and nothing else. |
| `Pcm.MemChunk.Declare` | src/audio/MemChunk.hpp:74-85 | Space is given exactly if it is there, right behind what is declared already. |
| `Pcm.AudioHandler.Store` | src/audio/AudioHandler.cpp:180-219 | One decoded frame is packed into the open chunk, or a new one if it is full. |
| `Output.OutputHandler.SendChunks` | src/output/OutputHandler.cpp:269-308 | For any partial writes and errors, the bytes sent are some first bytes of each chunk in order, are counted, and never exceed the maximum, in unsigned 32-bit arithmetic that does not wrap; if all writes are full, they are the first min(maxBytes, total) bytes of the chunks. Each write takes what the socket takes, also after a short write, until the first error, cut chunk or reached maximum, and no earlier. |
| `Output.OutputHandler.PushToFile` | src/output/OutputHandler.cpp:144-169 | The file gets the concatenated chunks. |
| `Containers.ThreadFriendlyQueue.Push` | src/container/ThreadFriendlyQueue.hpp:51-59 | The value is appended; the greatest length is the maximum of all lengths so far. |
| `Containers.ThreadFriendlyQueue.WaitAndPop` | src/container/ThreadFriendlyQueue.hpp:61-73 | An active queue gives its first value and loses it; a deactivated one gives nothing and keeps all. |
| `Containers.ThreadFriendlyQueue.TryPop` | src/container/ThreadFriendlyQueue.hpp:75-81 | The first value, if there is one. |
| `Containers.ThreadFriendlyMap.Insert` | src/container/ThreadFriendlyMap.hpp:50-55 | An entry that is there is never overwritten; the greatest size is kept. |
| `Containers.ThreadFriendlyMap.Erase` | src/container/ThreadFriendlyMap.hpp:67-70 | The key is gone, and the count says whether it was there. |
| `Containers.TlayerPacketRecycler.Recycle` | src/network/TlayerPacketRecycler.hpp:46-57 | A packet that is there goes to the end of the pool. |
| `Watchdogs.CallMapWatchdog.HandleCallTimeouts` | src/container/CallMap.cpp:73-166 | On the objects, a round is a run of the stages Snapshot, Check of each call of the map in some order, and Commit. |
| `Watchdogs.CallMapWatchdog.TakeSnapshot` | src/container/CallMap.cpp:82-85 | The first stage on the objects, from any state, is the action Snapshot. |
| `Watchdogs.CallMapWatchdog.CheckStage` | src/container/CallMap.cpp:87-150 | The check of one call, from whatever state other threads left, is the action Check. |
| `Watchdogs.CallMapWatchdog.CommitStage` | src/container/CallMap.cpp:155-165 | The last stage, from whatever state other threads left, is the action Commit. |
| `Watchdogs.RoundIs` | src/container/CallMap.cpp:73-166 | Checking the calls of the map one after the other and then committing is such a run, in whatever order. |
| `Watchdogs.CallMapWatchdog.CheckSnapshot` | src/container/CallMap.cpp:82-150 | The first loop: recording time, inactivity and age of every call of the snapshot, each once. |
| `Watchdogs.CallMapWatchdog.CheckSinks` | src/container/CallMap.cpp:87-150 | One pass of it: the call comes on the temporary queue once for inactivity and once for age, and then its sinks are unregistered. |
| `Watchdogs.CallMapWatchdog.GetRtpInactivityTime` | src/sip/Call.cpp:124-138 | The limit is exceeded exactly if the age and every sink's report exceed it; all sinks of the call, and no others, are polled. |
| `Watchdogs.CallMapWatchdog.CheckRecordingTime` | src/sip/Call.cpp:109-122 | Recording stops if the call is too old and records; then all its sinks, and no others, are deactivated. |
| `Watchdogs.CallMapWatchdog.Commit` | src/container/CallMap.cpp:155-165 | The last loop pushes exactly the calls whose Call-ID was still in the map when it came to them. |
| `SipProcessors.SipProcessor.Step` | src/sip/SipProcessor.cpp:76-217 | One pass of the worker on the objects is SipMachine.Step on the value of the shared state, and keeps the links between the maps. |
| `SipProcessors.SipProcessor.FindOrCreateCall` | src/sip/SipProcessor.cpp:103-154 | A call is there after it exactly if one was, or the packet is an INVITE or OPTIONS request; a new call records unless told otherwise. |
| `SipProcessors.SipProcessor.DispatchPacket` | src/sip/SipProcessor.cpp:156-212 | The rest of the pass changes this call, its sinks and the shared maps as the outcome says, and no other call. |
| `SipProcessors.SipProcessor.MatchTransaction` | src/sip/SipProcessor.cpp:164-172 | The transaction with branch and CSeq method of the packet, or for an ACK the INVITE transaction on its branch. |
| `SipProcessors.SipProcessor.HandleInitialRequest` | src/sip/SipProcessor.cpp:219-245 | A request without stored transaction goes to the handler of its method; the call stays in the map. |
| `SipProcessors.SipProcessor.HandleRequestWithinTransaction` | src/sip/SipProcessor.cpp:247-257 | In a stored transaction only an ACK does anything, and it never hands the call to the decoder. |
| `SipProcessors.SipProcessor.HandleResponse` | src/sip/SipProcessor.cpp:259-273 | Responses by category: call, sinks, events, call map and decode queue after each. |
| `SipProcessors.SipProcessor.HandleInvite` | src/sip/SipProcessor.cpp:275-324 | An INVITE in a dead, initiating or early dialog or with the flag set changes nothing; otherwise dialog, flag, transaction, offer and event. |
| `SipProcessors.SipProcessor.HandlePlainRequest` | src/sip/SipProcessor.cpp:326-350 | BYE and OPTIONS: the transaction is stored as (TRYING, TRYING) and its event pushed. |
| `SipProcessors.SipProcessor.HandleCancel` | src/sip/SipProcessor.cpp:352-407 | A CANCEL with the sent-by of the INVITE transaction on its branch is stored and marks that one, with an event for each, whatever its CSeq number is; any other changes nothing. |
| `SipProcessors.SipProcessor.HandleAckOnNonSuccess` | src/sip/SipProcessor.cpp:409-444 | The ACK ends a (TERMINATED, COMPLETED) INVITE transaction, annuls the sinks, and rejects the call unless the re-INVITE flag is set. |
| `SipProcessors.SipProcessor.HandleAckOnSuccess` | src/sip/SipProcessor.cpp:446-502 | The ACK with sent-by and CSeq number of the first INVITE transaction acknowledges it with an event, offers, confirms the sinks, and deletes the transaction; any other changes nothing. |
| `SipProcessors.SipProcessor.HandleProvisionalOnInvite` | src/sip/SipProcessor.cpp:516-542 | A pending INVITE transaction proceeds; above 100 the dialog gets the callee of the response, and is early if that has a tag. |
| `SipProcessors.SipProcessor.HandleProvisional` | src/sip/SipProcessor.cpp:504-514 | A provisional response to another request changes nothing. |
| `SipProcessors.SipProcessor.HandleSuccess` | src/sip/SipProcessor.cpp:558-577 | A 2xx goes to the handler of its CSeq method. |
| `SipProcessors.SipProcessor.HandleNonSuccess` | src/sip/SipProcessor.cpp:579-598 | So does any other final response. |
| `SipProcessors.SipProcessor.HandleSuccessOnInvite` | src/sip/SipProcessor.cpp:600-641 | A pending INVITE transaction is answered and the dialog confirmed; the event still has the re-INVITE flag; then the description is offered and the flag cleared. |
| `SipProcessors.SipProcessor.HandleNonSuccessOnInvite` | src/sip/SipProcessor.cpp:643-670 | A pending INVITE transaction is refused, the event pushed and the sinks annulled. |
| `SipProcessors.SipProcessor.HandleResponseOnBye` | src/sip/SipProcessor.cpp:672-698 | A final response to a pending BYE deletes the transaction after its event and moves the call to the decode queue, its sinks gone from the global map. |
| `SipProcessors.SipProcessor.HandleResponseOnOptions` | src/sip/SipProcessor.cpp:700-748 | A final response to OPTIONS or CANCEL deletes the pending transaction after its event. |
| `SipProcessors.SipProcessor.PrepareCallToDecode` | src/sip/SipProcessor.cpp:865-886 | The call leaves the call map and its sinks the global map, and it is pushed for decoding. |
| `SipProcessors.SipProcessor.ProcessSdp` | src/sip/SipProcessor.cpp:750-816 | A known socket keeps its sink, and a CONFIRMED one becomes CONFIRMED_INIT in a re-INVITE; any other gets a new sink, inactive if the call does not record. |
| `SipProcessors.SipProcessor.ConfirmRtpSinks` | src/sip/SipProcessor.cpp:818-836 | Commit, for the sinks in any order: INIT and CONFIRMED_INIT become CONFIRMED; CONFIRMED becomes TERMINATED and leaves the global map. |
| `SipProcessors.SipProcessor.AnnulRtpSinks` | src/sip/SipProcessor.cpp:838-855 | Rollback, for the sinks in any order: INIT becomes TERMINATED and leaves the global map; CONFIRMED_INIT becomes CONFIRMED. |
| `SharedState.SharedMaps.MoveToDecodeQueue` | src/sip/SipProcessor.cpp:865-886 | The call leaves the map for the end of the decode queue; the objects stay tied to the values. |
| `SharedState.SharedMaps.UnregisterRtpSinks` | src/sip/Call.cpp:156-168 | Exactly the sockets in the local map leave the global map. |
| `SharedState.SharedMaps.CreateAndPushEvent` | src/sip/Transaction.hpp:130-192 | An INVITE, BYE, CANCEL or OPTIONS transaction pushes one event with its present codes and flags and the re-INVITE flag of the call, into the list of the dialog's caller; any other pushes none. |
| `SharedState.SharedMaps.PushEvent` | src/sip/Transaction.hpp:194-201 | The caller's list gets the event at its end, and is made if there is none; other lists stay. |
| `Objects.RtpSink.RollIn` | src/audio/RtpSink.cpp:57-70 | An active sink stores the packet at the end, an inactive one returns it to the pool; both count it. |
| `Objects.RtpSink.InactiveFor` | src/audio/RtpSink.cpp:72-82 | The seconds reported, and the reset of counter and time if packets came. |
| `Objects.Call.FindInviteTransaction` | src/sip/Call.cpp:90-99 | The INVITE transaction with the least branch, if there is one. |
| `Objects.Call.CheckRecordingTime` | src/sip/Call.cpp:109-122 | A recording call that is too old stops, with all its sinks; otherwise nothing changes. |
| `Objects.Call.GetRtpInactivityTime` | src/sip/Call.cpp:124-138 | The least of the call's age and the reports of its sinks, attained by one of them; each sink is polled once. |

## Left out

* Packet capture, sockets, the database, files and their renaming, the console, logging, the
  configuration file, printers and singletons.
* The texts of SIP and SDP (`src/sip/SipPacket.cpp`) and the pointer arithmetic over captured
  headers (`src/network/TlayerPacket.cpp`): a packet is a parsed record, or its payload.
* Mutexes, condition variables, starting and stopping of threads, and liveness: threads take atomic
  steps.
* Destruction of the objects as such: what `Call::~Call` does to the global sink map is the action
  `Destroy`, possible as soon as no map, queue or thread refers to the call.
* Several passes of the SIP worker in one loop: `SipProcessors.SipProcessor.Step` is one pass;
  runs of passes, and all theorems about them, are about `SipMachine.Step`.
* GSM decoding, which is disabled, and the values of the G.711 table.
* The analyses of call duration (average, cumulative) and of calls closed by the callee
  (`src/sba/SigBasedAna.cpp:275-426`): sums and ratios like those modelled.
* The round-off of floating point: percentages are computed on rationals.
* The connect, separator and retry parts of `pushToSocket` around the loop over the chunks.
* The steps of a writer that fails half way: `Output.TcpSocket` follows any script of partial
  writes and errors, and a file takes everything.
- Containers.ThreadFriendlyQueue.WaitAndPop: the waiting itself is not modelled, only what happens once the queue has a value or is deactivated.
- IndexAgreement.SinksAgreeInEveryRun: leaves out calls the watchdog is about to retire, whose sinks it has unregistered already.
- Watchdogs.CallMapWatchdog.HandleCallTimeouts: no other thread comes in between the stages of this method; the stages one by one, from any state, are TakeSnapshot, CheckStage and CommitStage.
- Reinvite.RejectedReinviteRollsBack: says nothing about global entries of other calls, whose packets may come in between and change them.
- Completion.CompletionIsAPercentage: is about the whole list of a caller; Completion.WindowIsAPercentage is about windows.
- PoolMoves.PassIsMoves: the moves of capture, dispatcher and SIP worker are not tied to objects, which are not modelled for these threads.
