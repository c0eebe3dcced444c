# DuckSoup: verified model

DuckSoup relays audio and video between the users of an *interaction* (a room with 1 to 8 seats). This project models
the four hand-written protocols of its `sfu` package, with the pipeline counters of `gst`, and proves what they keep
over every run.

| file | models |
|---|---|
| `RateControl.dfy` | the loss-driven bitrate controller of one receiver |
| `MixerSlices.dfy` | a slice: its receivers' controllers and its encoder target |
| `Signaling.dfy` | what a signaling pass computes: tracks per connection, offers, retries, fan-out |
| `Mixers.dfy` | the mutable mixer, peer servers and connections, proved against `Signaling` |
| `Rooms.dfy` | one interaction: each region held under its lock, and the mutable object |
| `RoomRuns.dfy` | all interleavings of a room's connections, track goroutines and timers |
| `RoomGuarantees.dfy` | what those interleavings guarantee |
| `RoomWitnesses.dfy` | reachable runs in which the conditions of those guarantees fail |
| `Connections.dfy` | connection numbers and the peer index: when they go wrong, and only then |
| `Deletions.dfy` | deleting rooms, with the check, the mark and the store as three steps |
| `Stores.dfy` | the store of interactions, with any number of rooms and reused ids |
| `StoreRefinement.dfy` | every run of the store is a run of `Deletions` |
| `Evictions.dfy` | what deletions do to the store: without races, and exactly when a successor is evicted |
| `Pipelines.dfy` | start and stop of the pipeline that one user's slices share |
| `Identity.dfy` | sanitised names, room ids, recording names |
| `JointRuns.dfy` | a room's goroutines and its mixer run together: fan-out of a complete room |
| `Recordings.dfy` | when two connections record under one name |
| `Common.dfy` | counting facts |

Objects whose methods update fields are classes. Each method is proved equal to a function of the old state (or, where
map order or failures leave a choice, to a relation), and the theorems are about runs of those functions. Calls whose
code is outside the repository (WebRTC, websocket, GStreamer) succeed or fail as an environment parameter says, so every
theorem holds for all their outcomes. A channel is a count of its closings.

Some words recur. A close is *stale* when it takes effect although its user has joined again since that connection was
made: `peerServer.close` always reaches `disconnectUser`, whose guard is per user id. A join is *early* when it is
accepted while an earlier connection of its user may still read its number. A deletion *has gone through* when it has
reached the store, after the room was marked deleted; it *races* when a second deleter has passed the check of that mark
before the first one sets it.

What the proofs say that the code and its comments do not:

- The code raises the rate for report values below 5, the draft for those up to 5 (5/256 is 1.95%); they lower it for
  the same ones (`RateControl.DraftRegimes`).
- A departed receiver's last rate caps the encoder target for good, because controllers are never removed
  (`MixerSlices.SilentReceiverStillCaps`).
- Whether a pass succeeds is settled before it starts, whatever the order of the peers (`Signaling.PassSucceedsIff`).
- A pass can succeed exactly when no connected peer has an unanswered offer (`Signaling.CanSucceedIff`), and one client
  that does not answer makes every later pass fail (`Signaling.UnansweredOfferBlocksEveryPass`).
- In a ready room, an increment short of the complete out tracks asks for a pass exactly when an even number of users have
  an odd number of running slices. So a second slice waits for another user's, and an audio-only room misses a third
  user's return (`RoomGuarantees.TriggerIff`, `RoomWitnesses.ReturnIsMissed`).
- Readiness means that everybody is there exactly when nobody delivered a track too many before; one user with an audio
  and a video track makes an audio-only room for two ready (`RoomGuarantees.ReadinessMeansEverybody`,
  `RoomWitnesses.OneUserMakesReady`).
- Two connections of a user can get one number, and so one recording name, exactly from an early join on
  (`Connections.RepeatIffEarlyJoin`, `Recordings.EarlyJoinRecordsTwice`).
- A close stops the pipeline under a running slice exactly when it completes the needed number of closes while another
  slice runs; a second slice of a needed kind starts it again (`Pipelines.StopUnderRunningIff`,
  `Pipelines.SecondStartIff`).
- An old room can evict its successor from the store exactly when its mark was set in a race; a room whose last user
  leaves while its abort timer is past the check does so (`Evictions.EvictionIffRace`, `Evictions.LiveRoomIsLost`).
- A user whose peer connection could not be created keeps her seat and is refused as a duplicate from then on
  (`Connections.AbandonedLocksOut`).

## Model

| member | source | states |
|---|---|---|
| `RateControl.SenderController.constructor` | sfu/sender_controller.go:29-51 | a new controller starts at the default bitrate of its kind, without a congestion-control estimate |
| `RateControl.SenderController.UpdateRateFromLoss` | sfu/sender_controller.go:87-111 | one report replaces the loss-based rate by the capped adjusted rate and touches nothing else |
| `RateControl.SenderController.HandleReceiverReport` | sfu/sender_controller.go:184-189 | a report changes the rate by the run of exactly those blocks that carry this sender's SSRC, in order |
| `RateControl.SenderController.OnTargetBitrateChange` | sfu/sender_controller.go:126-130 | the congestion-control rate is the estimator's target capped to the limits |
| `RateControl.CapIsNearest` | sfu/sender_controller.go:69-76 | capping gives the nearest bitrate within the limits, so one that is within is left alone |
| `RateControl.ReportByLoss` | sfu/sender_controller.go:94-105 | one report on a rate within the limits: below value 5 it is multiplied by 269/256 up to Max, from 5 to 25 kept, above 25 the new rate is the floor of rate * (1 - p/2), down to Min |
| `RateControl.ReportRegimes` | sfu/sender_controller.go:94-105 | a report lowers the rate exactly above 10% of loss and raises it exactly below value 5, short of the limits |
| `RateControl.LossesOfConcat` | sfu/sender_controller.go:184-189 | the losses taken from two reports in a row are those of the first, then those of the second |
| `RateControl.LossesOfOne` | sfu/sender_controller.go:184-189 | a single block counts exactly if it has this SSRC |
| `RateControl.RateStaysInLimits` | sfu/sender_controller.go:69-76 | after any non-empty run of reports the rate is within [Min, Max], whatever it was before |
| `RateControl.ReportPreservesOrder` | sfu/sender_controller.go:94-105 | one report that is no better never leaves a higher rate |
| `RateControl.RunPreservesOrder` | sfu/sender_controller.go:87-111 | over whole runs, a receiver that starts no lower and has pointwise no worse reports keeps a rate no lower |
| `RateControl.ExactRunDominates` | sfu/sender_controller.go:94-105 | the integer run never exceeds the run of the same controller on exact rationals |
| `RateControl.DraftRegimes` | sfu/sender_controller.go:85-103 | lowering happens exactly above 10% loss, as in the draft; raising exactly for report values below 5, while the draft's "below 2%" is exactly the values up to 5 |
| `RateControl.DraftDecrease` | sfu/sender_controller.go:97-100 | the decrease is the floor of rate times (1 - p/2), with p = loss/256 |
| `RateControl.DraftIncrease` | sfu/sender_controller.go:94-96 | the increase is at most 5.1% and, from 1280 bit/s on, at least the draft's 5% |
| `RateControl.ProductsFitIn32Bits` | sfu/sender_controller.go:96-99 | in every reachable state both products fit in 32 signed bits while Max is at most 4194303 |
| `RateControl.LowLossRun` | sfu/sender_controller.go:94-105 | under low loss a run capped at each report equals the uncapped run capped once at the end |
| `RateControl.HighLossRun` | sfu/sender_controller.go:97-105 | under high loss a run is at Min or no higher than that many of the mildest decreases |
| `RateControl.FifteenReportsDouble` | sfu/sender_controller.go:94-105 | with Min at least 256, fifteen low-loss reports reach Max or at least double the rate |
| `RateControl.FourteenReportsHalve` | sfu/sender_controller.go:97-105 | fourteen high-loss reports reach Min or at least halve the rate |
| `RateControl.ReachesMax` | sfu/sender_controller.go:94-105 | 15 times ceil(log2(Max/rate)) low-loss reports reach Max, and any further ones hold it |
| `RateControl.ReachesMin` | sfu/sender_controller.go:97-105 | 14 times ceil(log2(rate/Min)) high-loss reports reach Min, and any further ones hold it |
| `MixerSlices.MinInt` | sfu/mixer_slice.go:66-76 | the smallest value of a list, 0 for the empty one |
| `MixerSlices.MixerSlice.constructor` | sfu/mixer_slice.go:105-125 | a new slice has no receivers and no target |
| `MixerSlices.MixerSlice.AddSender` | sfu/mixer_slice.go:159-172 | exactly a sender with one encoding gets (or replaces) the controller of its user, starting at the default rate |
| `MixerSlices.MixerSlice.CollectRates` | sfu/mixer_slice.go:346-351 | the rates in force of all indexed receivers and no others |
| `MixerSlices.MixerSlice.EncoderTick` | sfu/mixer_slice.go:344-359 | one turn of the encoder loop is the tick of the specification |
| `MixerSlices.ControllerUpdatesSlice` | sfu/sender_controller.go:87-111 | what a loss report does to a controller is a step of the slice that indexes it, and of no other receiver's entry |
| `MixerSlices.EstimatorUpdatesSlice` | sfu/sender_controller.go:126-130 | the same for the congestion-control callback |
| `MixerSlices.TickFollowsSlowest` | sfu/mixer_slice.go:344-359 | a tick updates the target exactly when a video slice has receivers all with a positive rate; it is then the rate of one of them and above none |
| `MixerSlices.TickByLoss` | sfu/sender_controller.go:78-83 | outside congestion control a tick sets the target to the least loss-based rate if all are positive, whatever the estimates are |
| `MixerSlices.TickByEstimate` | sfu/sender_controller.go:78-83 | under congestion control it sets it to the least estimate if all are positive, whatever the loss-based rates are |
| `MixerSlices.AddSenderStartsAfresh` | sfu/mixer_slice.go:159-172 | exactly a sender with one encoding starts its user afresh at the default rate, and no other user |
| `MixerSlices.ReceiverFollowsItsOwn` | sfu/sender_controller.go:113-137 | over whole runs a video receiver's loss-based rate is that of its own reports in loss mode, its estimate the latest of its own under congestion control, and nothing else ever changes |
| `MixerSlices.TargetSafety` | sfu/mixer_slice.go:284-296 | in every reachable state, in loss and congestion-control modes, the target was never set or is within [Min, Max] |
| `MixerSlices.NoEstimateNoUpdate` | sfu/sender_controller.go:78-83 | under congestion control, a receiver without an estimate freezes the target over any run that brings it none |
| `MixerSlices.SilentReceiverStillCaps` | sfu/mixer_slice.go:346-356 | entries are never removed: over any run without steps of a receiver, its last rate stays and the target is unchanged or at most that rate |
| `MixerSlices.EncoderNeverOutpacesReceivers` | gst/pipeline.go:340-363 | after an updating tick the encoder property, in its unit, asks for no more than any receiver's rate and less than 1 kbit/s below the target; the NVENC peak stays within 280/256 of it |
| `Signaling.CleanedLive` | sfu/peer_server.go:110-129 | cleaning keeps every indexed track and drops every other one whose removal succeeds |
| `Signaling.UpdateIsExact` | sfu/peer_server.go:131-174 | what an update leaves on one connection, also when adding stopped half-way; complete, it is the wanted tracks plus those whose removal failed |
| `Signaling.SentCountIsLive` | sfu/peer_server.go:135-158 | a connection that never sends a track twice uses exactly one sender for each track it sends |
| `Signaling.RunKeepsInv` | sfu/mixer.go:50-61 | every run of passes, updates, offers, answers, arrivals and departures keeps: no track sent twice, none back to its owner (but in a mirror), offers and answers balanced |
| `Signaling.OfferOutcome` | sfu/peer_server.go:176-231 | the client's last offer changes exactly with a successful call, and once an offer is set locally, sent or not, no further call succeeds or changes anything until an answer |
| `Signaling.AnswerOutcome` | sfu/peer_server.go:373-383 | after a pending offer, another one can be shared exactly if the answer applied |
| `Signaling.CleanedAt` | sfu/peer_server.go:110-129 | sender by sender, exactly a track no longer indexed whose removal succeeds is taken off |
| `Signaling.UpdateSucceedsIff` | sfu/peer_server.go:131-242 | an update succeeds if and only if no offer is pending, the four calls of sharing one succeed, and every indexed track not the user's own (any in a mirror) and not yet sent can be added |
| `Signaling.NothingOfferedUnlessAdded` | sfu/peer_server.go:233-242 | an update that cannot add everything changes nothing but senders |
| `Signaling.PassSucceedsIff` | sfu/mixer.go:50-61 | in whatever order peers are visited, a pass succeeds if and only if the update of each of them will |
| `Signaling.FailedPassStops` | sfu/mixer.go:55-59 | a pass fails at one peer whose update will not succeed; every other peer was updated and offered its tracks, or is as it was |
| `Signaling.AtMostOneOutstandingOffer` | sfu/peer_server.go:176-231 | in every run, offers set locally equal answers applied plus one if an offer is pending |
| `Signaling.SuccessfulPassIsExact` | sfu/mixer.go:50-61 | after a pass that returned true every peer sends exactly the wanted tracks (plus stuck removals), each once, and its last sent offer lists exactly what it sends |
| `Signaling.SecondPassChangesNoSender` | sfu/mixer.go:50-61 | once exact, another pass on the same index adds and removes nothing, whatever its outcome |
| `Signaling.MissingNeverGrows` | sfu/mixer.go:64-88 | failed passes, answers and renegotiations never remove a wanted track and never increase the missing (peer, track) pairs |
| `Signaling.FailedPassMakesProgress` | sfu/mixer.go:64-88 | any pass that added a track strictly decreases the number of missing pairs |
| `Signaling.ProgressIsBounded` | sfu/mixer.go:64-88 | over any run of retries, the passes and updates that added something plus the pairs still missing are at most the pairs missing at the start |
| `Signaling.RetriesConverge` | sfu/mixer.go:64-88 | the first successful pass after any number of failures leaves the same tracks as a pass that succeeds at once |
| `Signaling.UnansweredOfferBlocksEveryPass` | sfu/peer_server.go:182-185 | while one connected client has an offer that is not answered, no pass succeeds |
| `Signaling.RunKeepsControlled` | sfu/peer_server.go:163-170 | with one encoding per sender, in every run each indexed track a peer sends has a controller for that peer |
| `Signaling.PassControls` | sfu/peer_server.go:163-170 | a pass gives a slice a controller for a user exactly if it added the track there on one encoding |
| `Signaling.WantedCount` | sfu/peer_server.go:151-162 | with k slices per user, a peer wants k(n-1) tracks, or k n in a mirror |
| `Signaling.PassFansOut` | sfu/mixer.go:50-61 | a successful pass puts exactly the wanted number of tracks on a peer, each on one sender and with a controller |
| `Signaling.FanOut` | sfu/mixer.go:50-61 | from any reachable state with one audio and one video slice for each of n users, a successful pass leaves 2(n-1) tracks per peer (2 in a mirror), each controlled |
| `Signaling.CanSucceedIff` | sfu/peer_server.go:182-185 | from a given state some pass succeeds if and only if no connected peer has an unanswered offer |
| `Signaling.AnswersUnblock` | sfu/peer_server.go:373-383 | from any state the answers of the clients are enough for a pass to be able to succeed |
| `Signaling.BlockedAtOnce` | sfu/peer_server.go:182-185 | a reachable state in which no pass can succeed: a connection that has just been sent its first offer |
| `Signaling.MirrorFansOut` | sfu/peer_server.go:159-161 | the premises of `FanOut` can be met: in a reachable mirror a user with two slices is sent exactly her own 2 tracks |
| `Signaling.TwoUsersFanOut` | sfu/peer_server.go:159-161 | and by two users with two slices each, who are each sent the other's two |
| `Signaling.UpdateIsPass` | sfu/peer_server.go:71-73 | the update of a newly connected peer is a pass restricted to it |
| `Mixers.PeerConn.SetRemoteDescription` | sfu/peer_server.go:373-383 | an answer is applied only to a pending offer, and settles it |
| `Mixers.PeerServer.CleanOutTracks` | sfu/peer_server.go:110-129 | exactly the senders of unindexed tracks are emptied, unless their removal fails |
| `Mixers.PeerServer.AlreadySent` | sfu/peer_server.go:136-148 | the indexed tracks this connection already sends |
| `Mixers.PeerServer.SendTrack` | sfu/peer_server.go:163-170 | adding a track appends a sender and, on one encoding, gives the slice a controller with that encoding's SSRC; a failure changes nothing |
| `Mixers.PeerServer.PrepareOutTracks` | sfu/peer_server.go:131-174 | the missing wanted tracks are appended, all of them exactly if each can be added, otherwise up to a failing one; the slices gain exactly their controllers |
| `Mixers.PeerServer.ShareOffer` | sfu/peer_server.go:176-231 | an offer needs no pending one; once set locally it stays pending even when it is not sent |
| `Mixers.PeerServer.UpdateTracksAndShareOffer` | sfu/peer_server.go:233-242 | cleaning, then adding, then offering; returns true exactly when no offer was pending, all missing tracks can be added and the calls of sharing an offer succeed |
| `Mixers.Mixer.IndexMixerSlice` | sfu/mixer.go:30-36 | a slice is indexed under its own track id, replacing any other under that id, and everything else stays |
| `Mixers.Mixer.RemoveMixerSlice` | sfu/mixer.go:39-44 | a slice is taken out of the index; connections keep sending it until the next pass |
| `Mixers.Mixer.UpdateSignaling` | sfu/mixer.go:50-61 | the loop over peers, in any order and up to the first failure, is a pass of the specification, and returns true exactly when the update of every connected peer will succeed |
| `Mixers.Mixer.UpdatePeer` | sfu/mixer.go:55-59 | one turn of that loop extends the pass by one peer, or ends it |
| `Mixers.Mixer.ManagedSignalingForEveryone` | sfu/mixer.go:64-88 | a deleted interaction is left alone; otherwise a retry is due exactly when the pass failed |
| `Rooms.NewRoomKeepsSeats` | sfu/interaction.go:119-135 | a new room has 1 to 8 seats and needs one track a seat if audio-only, else two; exactly the sizes from 1 to 8 and the durations from 1 to 1200 are taken as asked, others replaced by 2 or 8, and 30 or 1200 |
| `Rooms.JoinDecision` | sfu/interaction.go:212-239 | exactly newcomers to a full room are refused as full and exactly connected users as duplicates, which changes nothing; exactly a user admitted before is a reconnection, and exactly a newcomer with a free seat joins as new |
| `Rooms.JoinKeepsSeats` | sfu/interaction.go:229-238 | no join exceeds the seats, and an accepted one adds its user to those admitted |
| `Rooms.JoinIsLocal` | sfu/interaction.go:224-235 | an accepted join counts once for its user and touches nobody else |
| `Rooms.DisconnectDecision` | sfu/interaction.go:425-455 | a disconnection takes out one connected user or nothing, and deletes the room, with its abort timer stopped, exactly when it was the last one of a room that is not ready |
| `Rooms.Interaction.constructor` | sfu/interaction.go:110-180 | size, duration and needed tracks are normalised and the creator is connected |
| `Rooms.Interaction.Join` | sfu/interaction.go:212-239 | the join of the specification, with its result |
| `Rooms.Interaction.UnguardedConnectedUserCount` | sfu/interaction.go:241-251 | the loop counts exactly the connected users |
| `Rooms.Interaction.AllUsersConnected` | sfu/interaction.go:255-260 | true exactly when as many users are connected as there are seats |
| `Rooms.Interaction.ConnectPeerServer` | sfu/interaction.go:391-408 | the connection becomes the one indexed for its user |
| `Rooms.Interaction.DisconnectUser` | sfu/interaction.go:425-455 | the disconnection of the specification; tells whether this call marked the room deleted, and that it asks for a pass only if the room was deleted before |
| `Rooms.Interaction.DeleteCheck` | sfu/interaction.go:412-414 | passes exactly when the room is not marked |
| `Rooms.Interaction.DeleteMark` | sfu/interaction.go:415 | marks the room |
| `Rooms.Interaction.UnguardedDelete` | sfu/interaction.go:411-423 | one after the other: marks the room deleted; only the first call goes on to the store |
| `Rooms.Interaction.Start` | sfu/interaction.go:267-286 | counts a started pipeline and starts the room once there are enough |
| `Rooms.Interaction.IsAlreadyReady` | sfu/interaction.go:330-332 | first critical section of the in-track count |
| `Rooms.Interaction.IncInTracksReadyCount` | sfu/interaction.go:343-352 | second critical section: readiness, and the stop of the abort timer, come with the count that completes the tracks |
| `Rooms.Interaction.IncOutTracksReadyCount` | sfu/interaction.go:365-382 | counts, and requests a pass when complete or, in a ready room, at an even count |
| `Rooms.Interaction.DecOutTracksReadyCount` | sfu/interaction.go:384-389 | takes one off the out-track count |
| `Rooms.Interaction.AbortCheck` | sfu/interaction.go:310-312 | after its timer, the abort goes on exactly when the room is not ready |
| `Rooms.Interaction.AbortClose` | sfu/interaction.go:294 | and then closes the aborted channel, whatever became of the room |
| `Rooms.Interaction.End` | sfu/interaction.go:288-292 | the graceful end closes the done channel |
| `Rooms.Interaction.ClearReady` | sfu/interaction.go:297 | stopping ends readiness and changes nothing else |
| `RoomRuns.StepKeepsLifecycle` | sfu/interaction.go:511-546 | every step of every goroutine keeps the channel and timer invariants, also when two goroutines are between the two critical sections together |
| `RoomRuns.StepKeepsSeats` | sfu/interaction.go:212-239 | every step keeps seats, joins, leaves and connected users in balance |
| `RoomRuns.StepKeepsInTracks` | sfu/interaction.go:343-347 | the tracks counted until readiness number the in-track count, cut at the needed tracks |
| `RoomRuns.StepKeepsOutTracks` | sfu/interaction.go:365-389 | the out-track count stays the number of goroutines between increment and decrement, and waiting or looping slices stay indexed |
| `RoomRuns.RunKeepsInv` | sfu/interaction.go:511-546 | all of these hold in every state of every interleaving |
| `RoomGuarantees.LifecycleOrder` | sfu/interaction.go:267-354 | done implies started implies ready, ready exactly when enough tracks were counted, started exactly with a second pipeline (a first one for size 1), and no channel is closed twice |
| `RoomGuarantees.ReadyInTimeIsNeverAborted` | sfu/interaction.go:306-315 | a room that got ready before its abort timer fired is never aborted in any continuation |
| `RoomGuarantees.ReadinessLasts` | sfu/interaction.go:288-304 | a room is ready only after its tracks were counted, from then until one of its stops ends that, and never after a graceful one has |
| `RoomGuarantees.StopEndsReadiness` | sfu/interaction.go:297 | either stop ends readiness |
| `RoomGuarantees.StopDeletes` | sfu/interaction.go:288-304 | each stop, left alone, ends with the room marked deleted |
| `RoomGuarantees.AbortDecision` | sfu/interaction.go:306-315 | after its timer fired, a room can be aborted in some continuation if and only if it was not ready when the goroutine looked |
| `RoomGuarantees.StartDecision` | sfu/interaction.go:267-286 | a pipeline that comes up is counted; the room is started by the second one, or the first in a room for one, and that starts its graceful countdown |
| `RoomGuarantees.WaitingWaits` | sfu/interaction.go:500-509 | a waiting goroutine stays so over every run in which neither the ready nor the aborted channel is closed |
| `RoomGuarantees.LateTrackCounts` | sfu/interaction.go:329-341 | a track that arrives after readiness is counted in again exactly if two goroutines completed the count together |
| `RoomGuarantees.SeatsAndConservation` | sfu/interaction.go:425-455 | at most `size` users are ever admitted, an admitted one is never refused as full, joins minus effective leaves is 1 or 0 as the user is connected or not, and the join counter equals the successful joins |
| `RoomGuarantees.ReadinessMeansEverybody` | sfu/interaction.go:329-354 | at readiness every seat is taken and each user delivered exactly the expected tracks if and only if no user delivered more |
| `RoomGuarantees.OutTrackConservation` | sfu/interaction.go:365-389 | the out-track count equals the running slice goroutines, and those still looping are indexed |
| `RoomGuarantees.TriggerIff` | sfu/interaction.go:365-382 | in every room an increment requests a pass if and only if it completes the out tracks, or the room is ready and an even number of users have an odd number of running slices |
| `RoomGuarantees.CompleteUsersAreSignaled` | sfu/interaction.go:365-382 | so a completing increment does, and in a ready room one after which every user has an even number of running slices; all looping slices are then indexed |
| `RoomGuarantees.AudioOnlyTrigger` | sfu/interaction.go:378-380 | and in a ready audio-only room a return does if and only if all seats or an even number of users are present |
| `RoomWitnesses.ReturnIsMissed` | sfu/interaction.go:378-380 | a reachable run: four users run, two leave, one comes back, and no pass is requested for the three |
| `RoomWitnesses.OneUserMakesReady` | sfu/interaction.go:343-352 | a reachable run: one user delivers two tracks to an audio-only room for two, which gets ready with a seat empty |
| `Connections.NumbersAreDistinct` | sfu/peer_server.go:52 | as long as no join was early, no two connections of a room share user and connection number |
| `Connections.RepeatIffEarlyJoin` | sfu/peer_server.go:52 | an accepted join can lead, without further joins, to a repeated number if and only if it is early; connections whose set-up failed do not make it so |
| `Connections.EarlyJoinRepeats` | sfu/peer_server.go:52 | from any reachable state an early join and two reads give the same number twice |
| `Connections.NeverStaleNeverEarly` | sfu/peer_server.go:260-261 | a join is early only after a stale close |
| `Connections.NumbersAreDistinctUnlessStale` | sfu/peer_server.go:260-261 | so without stale closes no two connections of a room share user and connection number |
| `Connections.PeerIndexAgrees` | sfu/interaction.go:391-408 | without stale closes a user's indexed peer server is exactly that of the latest connection of a connected user |
| `Connections.StaleCloseRepeatsNumber` | sfu/peer_server.go:260-261 | a reachable run with one stale close in which two connections read the same number |
| `Connections.AbandonedLocksOut` | sfu/peer_server.go:507-513 | without stale closes, a user whose peer connection could not be created stays connected in every continuation, and every further join of hers is a duplicate |
| `Connections.AbandonedAtOnce` | sfu/peer_server.go:507-513 | a reachable state with such a user |
| `Deletions.NoRaceNoEviction` | sfu/interaction.go:411-415 | with check, mark and store call as separate steps of any number of deleters: without races every deletion takes out its own room's binding |
| `Deletions.EvictionIffRace` | sfu/interaction.go:299-303 | setting a room's mark can end, in any continuation, in its evicting a successor if and only if a second deleter has passed the check before |
| `Deletions.RaceEvicts` | sfu/interaction.go:299-303 | from any state, such a race can be followed by an eviction |
| `Deletions.RaceIsReachable` | sfu/interaction.go:299-303 | a reachable race of a departure with the abort timer, and so a possible eviction |
| `Stores.EveryRoomIsReachable` | sfu/interaction_store.go:28-43 | under one store, with any number of rooms, each room is in a reachable state of a room on its own, created by a join with its id, so every guarantee of a room holds of it |
| `Stores.EveryRoomIsSound` | sfu/interaction_store.go:28-43 | in particular each keeps the invariants of a room on its own |
| `Stores.NumbersAreDistinctEverywhere` | sfu/interaction_store.go:28-43 | and without early joins no room under the store repeats a connection number |
| `StoreRefinement.RunRefines` | sfu/interaction.go:411-423 | every run of the store, with whole rooms under it, is a run of `Deletions`, and one without races is one without races |
| `Evictions.IndexAgreement` | sfu/interaction_store.go:28-50 | in every state reached without a race an id leads to a room exactly when that room was created with it and its deletion has not gone through; unmarked rooms are always found |
| `Evictions.DeleteIsExact` | sfu/interaction_store.go:45-50 | there, a deletion finds its own room under its id, removes that binding, and leaves every other live room reachable |
| `Evictions.OldRoomNeverEvicts` | sfu/interaction.go:299-303 | there, after its deletion nothing an old room does, including its delayed delete, changes the store, so a successor with its id stays |
| `Evictions.EvictionIffRace` | sfu/interaction.go:299-303 | there, a step that marks a room can end, in any continuation, in that room's evicting a successor if and only if another of its timers has passed the check and still has to mark it |
| `Evictions.RaceEvicts` | sfu/interaction.go:299-303 | from any reachable state, races or not before, such a step can be followed by an eviction |
| `Evictions.RaceIsReachable` | sfu/interaction.go:299-315 | whoever joins: a reachable state in which her departure races with the abort timer of her room |
| `Evictions.LiveRoomIsLost` | sfu/interaction.go:299-315 | the run in full: a room just created under the reused id is no longer found |
| `Stores.IdsAreReused` | sfu/interaction_store.go:37-42 | right after a deletion went through, the next join with its id creates a fresh room and indexes it, races or not |
| `Stores.InteractionStore.Join` | sfu/interaction_store.go:28-43 | joins the indexed room, or creates and indexes one; other rooms are untouched |
| `Stores.JoinRepresents` | sfu/interaction_store.go:28-43 | what that does to the object's rooms is what a join does to a world |
| `Stores.DeleteRepresents` | sfu/interaction_store.go:45-50 | the same for a deletion |
| `Stores.AdvanceRepresents` | sfu/interaction_store.go:45-50 | a step of a room shows in the object exactly while its id leads to it |
| `Stores.InteractionStore.Delete` | sfu/interaction_store.go:45-50 | the room's id is taken out of the index |
| `Pipelines.Pipeline.BindTrackAutoStart` | gst/pipeline.go:184-191 | binds the output of one kind and starts when what is needed is bound |
| `Pipelines.Pipeline.UpdateReady` | gst/pipeline.go:193-201 | starts for audio alone when audio-only, otherwise when both outputs are bound |
| `Pipelines.Pipeline.Stop` | gst/pipeline.go:221-238 | the native stop comes with the call that completes the needed number |
| `Pipelines.PipelineBracket` | sfu/mixer_slice.go:200-215 | with one slice per needed kind: started exactly once all have bound, stopped exactly once all have closed, never under a running slice |
| `Pipelines.StopsOnceAfterStart` | gst/pipeline.go:221-238 | whatever slices there are: stopped at most once, exactly when as many slices closed as kinds are needed, and never before started |
| `Pipelines.StopUnderRunningIff` | gst/pipeline.go:221-238 | a close stops the pipeline under a running slice if and only if it completes the needed number while another slice runs |
| `Pipelines.SecondStartIff` | gst/pipeline.go:193-218 | after the start a further bind closes the started channel again exactly when its slice is of a needed kind |
| `Pipelines.SecondAudioRestarts` | gst/pipeline.go:193-218 | a reachable run in which it does: a second audio slice |
| `Pipelines.VideoStopsAudioOnly` | gst/pipeline.go:226-237 | a reachable run in which a video slice of an audio-only interaction stops the pipeline under running audio |
| `Identity.ParseStringFixpoints` | sfu/ws_conn.go:64-71 | the names left alone are exactly the clean ones of at most 50 characters; sanitising always yields one, is idempotent, and leaves no '#' |
| `Identity.OnlyAllowedConcat` | sfu/ws_conn.go:64-66 | what is kept of two names in a row is what is kept of the first, then of the second |
| `Identity.OnlyAllowedOne` | sfu/ws_conn.go:65 | of one character: itself if it is a letter, a digit, a dash or an underscore (by character code) |
| `Identity.ParseStringCut` | sfu/ws_conn.go:67-70 | at most 50 kept characters stay all, of more the first 49 |
| `Identity.WsConn.ReadJoin` | sfu/ws_conn.go:130-175 | which error a first message gives, and that the request is sanitised and the connection takes its names whenever it has them |
| `Identity.SanitisedFixpoints` | sfu/ws_conn.go:73-111 | the requests left alone are exactly those with clean names, a known format and recording mode and no zero dimension; sanitising always gives one and is idempotent |
| `Identity.SanitisedDefaults` | sfu/defaults.go:5-11 | what takes the place of an unknown format or mode, or of a zero dimension or framerate |
| `Identity.JoinErrorCases` | sfu/ws_conn.go:130-175 | exactly which message gives which error; a name is missing exactly if it has no allowed character |
| `Identity.SameRoomIff` | sfu/interaction.go:76-78 | two sanitised joins share a room id if and only if origin, namespace and name agree, whatever the origin contains |
| `Identity.FilePrefixIsInjective` | gst/pipeline.go:96-103 | two recording prefixes are equal if and only if room, moment, user and connection number are, even with dashes in user names |
| `Identity.DecimalRoundTrip` | gst/pipeline.go:96-103 | reading the written connection number back gives the number |
| `Identity.MarksAreAmbiguous` | gst/pipeline.go:96-103 | without the random id two different rooms could share a prefix |
| `JointRuns.MixerFollowsRoom` | sfu/mixer.go:30-44 | in every joint run the mixer indexes exactly the slices the goroutines put in, under their users, and its peers are those of the room |
| `JointRuns.SentTracksWereBuilt` | sfu/peer_server.go:163-170 | whatever a peer connection still sends comes from a slice that was built |
| `JointRuns.RoomStepAgrees` | sfu/interaction.go:511-546 | no step of the room is held up by the mixer, and both halves still agree after it |
| `JointRuns.RoomOf` | sfu/interaction.go:511-546 | the room's part of a joint run is a run of the room |
| `JointRuns.JointOf` | sfu/interaction.go:511-546 | every run of a room is the room's part of some joint run |
| `JointRuns.RunKeepsControlled` | sfu/peer_server.go:163-170 | with one encoding per sender, in every joint run each indexed track a peer sends has a controller for that peer |
| `JointRuns.IndexIsFull` | sfu/interaction.go:525-546 | with complete out tracks and nobody over the expected number, the index is the running slices, as many as expected for each of all seats |
| `JointRuns.CompleteRoomFansOut` | sfu/interaction.go:529-538 | in every joint run: once the out tracks are complete and no user has more slices indexed than expected, a successful pass gives each connected peer the tracks of all other seats, each with a controller |
| `JointRuns.TwoUsersFanOut` | sfu/interaction.go:529-538 | the premises can be met: two users who join, deliver and are sent each other's track |
| `Recordings.RecordingsNeverCollide` | gst/pipeline.go:96-103 | as long as no join was early, two connections of a room never record under the same prefix, even at the same moment |
| `Recordings.EarlyJoinRecordsTwice` | gst/pipeline.go:96-103 | an early join can make two connections record under the same prefix at the same moment |

## Left out

- WebRTC, SDP contents, ICE, the websocket and GStreamer calls: only their success or failure; a new sender is always
  appended, and senders without a track may be present from the start.
- A websocket write that fails inside a pass also closes its peer server; the pass is modelled as failing with the offer
  pending, and the close as a later departure of that peer.
- Locks: each region held under a lock is one step, and deadlocks are not excluded (store and room locks are taken in
  both orders, a close inside a pass waits for the room lock the pass holds, and an abort goroutine that finds the room
  ready keeps its read lock).
- In `Stores` a departure's check and mark of a deletion are one step (it holds the room's lock, the timers do not);
  `Deletions` has them apart, for rooms that are nothing but their marks.
- `Signaling.AtMostOneOutstandingOffer`: sharing an offer is one step, though `shareOffer` takes no lock; two calls that
  overlap on one connection, both past the check of the pending description, are not modelled.
- The update of a newly connected peer, outside any lock in the source, is one step.
- The mixer's index in `RoomRuns` is a set of track ids, and remote track ids are fresh; a slice enters it in one step
  with being built.
- Wall-clock time: timers are armed, fired or stopped; remaining seconds, ending delay, tickers and sleeps are absent.
- Messages to clients (start, end, files, other_joined, other_left, ending), picture-loss requests, logs and plots.
- Effect control and interpolation, which work on float32 values.
- JSON decoding of the first message, and the effects, GPU and overlay fields of a join.
- `Mixers.Mixer.ManagedSignalingForEveryone`: the retry after two seconds is told by the result; it is a later pass of the
  runs in `Signaling`.
- SSRC index, logger store, pipeline store, recording file lists, templates, configuration, HTTP server, statistics and front end.
- `Signaling.SuccessfulPassIsExact` speaks of the end of a pass: between passes an ended track stays on connections, since
  a disconnection asks for a pass only when the room is deleted, where the pass does nothing.
