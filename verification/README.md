# Verification of the selective forwarding unit

A Dafny model of the parts of the SFU that hold state or do modular arithmetic, with proofs about all inputs, all
runs and all interleavings.

- **Packet rewriter** (`Bits`, `Counter`, `CounterRuns`, `Identifiers`, `Rewriter`, `RewriterRuns`, `RewriterGrowth`,
  `EndToEnd`). RTP sequence numbers (16 bits) and timestamps (32 bits), the fields of section 5.1 of RFC 3550, are
  unwrapped, renumbered across simulcast layers and cut again. Masks, shifts and ors are defined bit by bit and proved to
  be remainders, quotients and sums. The end-to-end results compare the rewriter with a renumbering over indices that
  never wrap.
- **Published track** (`Layers`, `TrackModel`, `TrackSystem`, `Traces`, `PublishedTrack`, `FeedSources`,
  `TrackToSubscriber`). Registrations, the publishers' sets of fed subscriptions and each subscription's layer, under
  every interleaving of the operations with the goroutines of publishers and subscriptions. `PublishedTrack` holds the
  objects, changed in place, each method proved against the operation on values.
- **Tracker and conference** (`Conference`, `ConferenceRuns`, `ConferenceTraces`, `Descriptions`, `Offers`, `Tracker`,
  `ConferenceObjects`). Participants, tracks, subscriptions and stream metadata over any run of the main loop; what
  messages do to tracks; what each participant is offered; which channels are closed. Each track of the conference is a
  full published track with its own steps.
- **Concurrency** (`Worker`, `VideoSubscription`, `StatusObserver`, `Sink`, `Publisher`). State machines over atomic
  steps with histories, composed from the publisher's fan-out, and in `TrackToSubscriber` from the whole track, to what
  a subscriber can recover. Their classes follow the machines one atomic step at a time.

Objects whose methods update fields are classes, and loops over Go maps visit keys in an arbitrary order. A method that
changes state is proved to end in the state that a function on values gives; invariants and runs are about that function.

## Where the code departs from its comments

The model follows the code.

- `pkg/conference/publisher/status.go:47` copies the atomic flag, so `IsStalled` never sees what the closures set. The
  set of publishers flagged as stalled is therefore arbitrary in every request, which covers both readings; the flag of
  the closures is the one that `StatusObserver` speaks of.
- `pkg/conference/publisher/status.go:54-57` closes the status channel without waiting for the worker
  (`StopPanicsIff`, `StopCanPanicIff`).
- `pkg/conference/track/track_handler.go:114-126` announces that the stopped publisher's subscriptions are moved, but
  reshuffles a survivor's (`StopOnlyRemovesPublisher`, `StopLosesSubscriptions`, `StopOfLayerlessTrack`).
- `pkg/conference/track/track.go:212`, `:252` and `:270` call methods on a publisher that may be missing
  (`SubscribePanicsIff`, `UnsubscribePanicsIff`, `LeaveCrashesIff`; reached in `AllFlaggedThenResubscribeCrashes`,
  `LastStopThenSubscribeCrashes` and `OrphanedSubscriberCannotLeave`).
- `pkg/conference/track/track.go:203` compares layers, not publishers: once the publisher of a layer has been replaced,
  asking for that layer again changes nothing (`RequestPlaces`, `RestartedLayerStaysUnfed`).
- `pkg/conference/track/subscription.go:49` deletes by subscriber, whichever subscription is registered
  (`EndedKeepsRegisteredIff`, `LateCleanupRun`).
- `pkg/conference/track/track_handler.go:195` takes layer "none" for "orphan" (`RecoveredSoundIff`, `MixingFeedsTwice`).
- `pkg/conference/subscription/rewriter/rewriter.go:68` and `:110` use SSRC 0 for "nothing forwarded yet"
  (`SwitchAdvancesIff`).
- `pkg/conference/state.go:45-47` forgets whole streams on a departure, also those that another owner's tracks belong to
  (`DepartureKeepsOthersIff`, `SharedStreamLeavesWithFirstOwner`).
- `pkg/conference/peer_message_processing.go:44-48` removes by track ID, whichever track has it now
  (`ReportStopsIff`, `LateReportRemovesSuccessor`, `LateReportRun`).

## Model

| member | source | states |
|---|---|---|
| Bits.WrapIsMod | pkg/conference/subscription/rewriter/identifiers.go:15-60 | the wrapping of each integer width, on one window to either side, is the remainder modulo 2^16, 2^32 and 2^64 |
| Bits.MaskIsLow | pkg/conference/subscription/rewriter/expand.go:12-18 | and-ing a word with 2^w - 1, bit by bit, leaves its remainder modulo 2^w |
| Bits.LowIsMod | pkg/conference/subscription/rewriter/expand.go:12-39 | the repeated subtraction that stands for remainders and quotients by a variable is just that, for every modulus |
| Bits.ShrIsDiv | pkg/conference/subscription/rewriter/expand.go:21-21 | shifting right by w, bit by bit, counts the whole windows of 2^w below a word |
| Bits.ShlIsMul | pkg/conference/subscription/rewriter/expand.go:12-39 | shifting left by w, bit by bit, multiplies by 2^w where the product is at most 2^64, which itself becomes 0 |
| Bits.OrIsAdd | pkg/conference/subscription/rewriter/expand.go:39-39 | or-ing a multiple of 2^w with a word below 2^w adds them |
| Counter.ExpandCounter | pkg/conference/subscription/rewriter/expand.go:10-47 | for every width, with masks, shifts and ors on 64-bit words, the call returns the unwrapped index (reduced to 64 bits) and leaves the larger of it and the latest index behind the pointer; widths 0 and above 64 degenerate as stated |
| Counter.Reassemble | pkg/conference/subscription/rewriter/expand.go:16-39 | for the ROC the branches pick, the shifted ROC or-ed with the masked counter is the unwrapped index modulo 2^64 |
| Counter.UnwrapCongruent | pkg/conference/subscription/rewriter/expand.go:39-39 | the unwrapped index has the truncated counter as its residue |
| Counter.UnwrapNearest | pkg/conference/subscription/rewriter/expand.go:26-39 | no non-negative index with that residue is closer to the latest index |
| Counter.ExpandFits | pkg/conference/subscription/rewriter/expand.go:27-39 | the 64-bit result is the unbounded index except in the roll-over out of the last 64-bit window, where it starts over |
| Counter.ExpandNearestIff | pkg/conference/subscription/rewriter/expand.go:10-47 | the 64-bit result is a nearest index if and only if that roll-over is not taken |
| Counter.UnwrapRecovers | pkg/conference/subscription/rewriter/expand.go:26-39 | an index comes back from truncation and unwrapping if and only if it is less than half a window from the latest one, half a window away in the same window, or above it in the first window |
| Counter.SurvivesIff | pkg/conference/subscription/rewriter/expand.go:10-47 | the same equivalence for the 64-bit result, with the one extra family behind the last window |
| Counter.SameAsRfc3711Iff | pkg/conference/subscription/rewriter/expand.go:26-36 | for width 16 the result equals the index estimate of Appendix A of RFC 3711 if and only if neither the roll-under at ROC 0 nor the roll-over at the largest ROC arises |
| CounterRuns.UnwrappingExactIff | pkg/conference/subscription/rewriter/expand.go:10-47 | a run of truncated indices is unwrapped to the original run if and only if each index survives as seen from the maximum of its predecessors |
| CounterRuns.UnwrappingExact | pkg/conference/subscription/rewriter/rewriter.go:72-78 | indices within half a window of the running maximum are all recovered and the latest index is their maximum |
| CounterRuns.GrowthBound | pkg/conference/subscription/rewriter/expand.go:41-44 | one 64-bit counter on arbitrary input: the latest index never falls, n packets raise it by at most n half windows above the first window, and below that ceiling it cannot start over |
| CounterRuns.GrowthStep | pkg/conference/subscription/rewriter/expand.go:41-44 | one packet raises the latest index by at most half a window, and outside the last roll-over its own index is at most half a window behind |
| RewriterGrowth.SequenceGrowth | pkg/conference/subscription/rewriter/rewriter.go:72-75 | any packets of one layer in any order: from at most n half windows above the first one, up to 131070 - n more cannot fill the 32-bit sequence store, and each raises it by at most half a window |
| RewriterGrowth.TimestampGrowth | pkg/conference/subscription/rewriter/rewriter.go:77-78 | likewise 8589934590 packets for the 64-bit timestamp |
| RewriterGrowth.LayerLasts | pkg/conference/subscription/rewriter/rewriter.go:92-102 | both counts from the first packet of a layer |
| RewriterGrowth.RunFitsIff | pkg/conference/subscription/rewriter/rewriter.go:62-127 | up to 65537 arbitrary packets over any number of switches: nothing is ever cut off if and only if no packet is numbered below zero, in particular when none precedes its layer's first |
| Identifiers.TruncationCommutes | pkg/conference/subscription/rewriter/identifiers.go:46-60 | cutting identifiers to their wire width commutes with wrapping addition and subtraction, whatever overflows |
| Identifiers.OffsetUndone | pkg/conference/subscription/rewriter/identifiers.go:15-28 | an offset between truncated identifiers can be undone, so it is injective |
| Rewriter.ForwardingState.Process | pkg/conference/subscription/rewriter/rewriter.go:62-88 | the object moves exactly as the forwarding function on values and returns its identifiers |
| Rewriter.ForwardingState.Reset | pkg/conference/subscription/rewriter/rewriter.go:92-127 | likewise for the start of a layer |
| Rewriter.PacketRewriter.ProcessIncoming | pkg/conference/subscription/rewriter/rewriter.go:27-39 | the object makes one step of the rewriter: SSRC and everything else about the packet stay, the identifiers are the truncated outgoing ones |
| RewriterRuns.WireKeepsMedia | pkg/conference/subscription/rewriter/rewriter.go:34-38 | a run makes one packet of each, in order, with its payload and its SSRC |
| RewriterRuns.LayerOffset | pkg/conference/subscription/rewriter/rewriter.go:72-87 | inside one layer every outgoing number is the incoming one plus one fixed offset modulo 2^16 and 2^32, for any packets in any order and any overflow |
| RewriterRuns.LayerOrderIrrelevant | pkg/conference/subscription/rewriter/rewriter.go:72-87 | two runs of one layer give two packets the same outgoing numbers if and only if their incoming numbers are equal, so loss, repetition and reordering of others change nothing |
| RewriterRuns.LockstepIff | pkg/conference/subscription/rewriter/rewriter.go:72-87 | the advance of the layer equals the advance of the output after a packet if and only if neither component falls below zero nor is cut (the two timestamp overflows may cancel) |
| RewriterRuns.SwitchLockstepIff | pkg/conference/subscription/rewriter/rewriter.go:92-127 | a layer starts in lockstep if and only if the outgoing identifiers do not overflow |
| RewriterRuns.FreshAcrossSwitch | pkg/conference/subscription/rewriter/rewriter.go:104-121 | in runs without cut identifiers and without packets before their layer's first, everything after a switch is at least 2 above in sequence and 1 above in timestamp everything before it |
| RewriterRuns.PrecedingPacketReuses | pkg/conference/subscription/rewriter/rewriter.go:84-87 | the assumption is needed: a packet just before its layer's first gets the very identifiers of the previous layer's latest packet |
| RewriterRuns.AboveBaseIff | pkg/conference/subscription/rewriter/rewriter.go:84-87 | in a run of one layer nothing falls below the layer's first outgoing identifiers, in either component, if and only if no packet precedes the layer's first |
| RewriterRuns.FreshAfterSwitchIff | pkg/conference/subscription/rewriter/rewriter.go:104-121 | after a switch everything is at least two numbers and one tick above all that was sent before if and only if no packet precedes the layer's first |
| RewriterRuns.FreshRunIff | pkg/conference/subscription/rewriter/rewriter.go:62-127 | over whole runs with any number of switches, from any state in which nothing is being forwarded, all pairs across all switches keep that distance if and only if no packet precedes the first of its layer |
| RewriterRuns.FreshFromTheStart | pkg/conference/subscription/rewriter/rewriter.go:42-60 | in particular from a new rewriter |
| RewriterRuns.SwitchAdvancesIff | pkg/conference/subscription/rewriter/rewriter.go:110-120 | a switch moves past everything sent if and only if the layer that is left has a nonzero SSRC; leaving SSRC 0 repeats the latest identifiers |
| EndToEnd.ReceiverExactIff | pkg/conference/subscription/rewriter/rewriter.go:27-39 | a receiver in step recovers the expanded identifiers of a run if and only if each survives as seen from the latest sent so far |
| EndToEnd.ReceiverRoundTripFrom | pkg/conference/subscription/rewriter/rewriter.go:27-127 | a receiver in step with the rewriter recovers every expanded identifier and stays in step, over any number of layer switches |
| EndToEnd.ReceiverRoundTrip | pkg/conference/subscription/rewriter/rewriter.go:27-127 | starting from zero, over any number of layer switches, unwrapping the rewritten packets gives exactly the rewriter's expanded identifiers, and the receiver's latest are the rewriter's |
| EndToEnd.RefinementStep | pkg/conference/subscription/rewriter/rewriter.go:62-127 | one packet through truncation and the rewriter is one step of the ideal renumbering over indices that never wrap |
| EndToEnd.SenderToReceiver | pkg/conference/subscription/rewriter/rewriter.go:27-127 | from the sender's true indices to the receiver's unwrapped ones the whole chain is the ideal renumbering, packet by packet, and every packet arrives with the payload and the SSRC sent |
| EndToEnd.ShortRunsArrive | pkg/conference/subscription/rewriter/rewriter.go:72-78 | for runs of up to 131070 packets that needs no assumption on field widths |
| Layers.OptimalIsAvailable | pkg/conference/track/simulcast.go:16-48 | the chosen layer is one of the available ones, or none exactly when there are none or one has no layer: the last fallback is never reached |
| Layers.OptimalIsClosest | pkg/conference/track/simulcast.go:31-43 | it is the available layer closest to the desired one, the lower of two equally close ones |
| Layers.DesiredByComparison | pkg/conference/track/simulcast.go:54-71 | for positive sizes the ratio tests are the comparisons `full <= size` and `full <= 2*size` |
| Layers.DesiredForNegative | pkg/conference/track/simulcast.go:54-71 | for a negative request they are those comparisons with the signs turned: the sizes are compared as if both were negated |
| Layers.OptimalIsMonotoneIff | pkg/conference/track/simulcast.go:16-71 | for sizes of any sign, a request keeps its layer or gets a higher one whenever it grows, if and only if it is not negative, the size of the track is unknown, or no lower layer is there than the one that its quotient asks for |
| Layers.RoundingKeepsLayer | pkg/conference/track/simulcast.go:64-68 | for sums between 0 and 2^24, rounding the quotient to the nearest binary32 number cannot change the layer |
| TrackModel.UnsubscribePanicsIff | pkg/conference/track/track.go:261-273 | an unsubscription calls a publisher that is not there if and only if a registered video subscription stands on a layer without publisher |
| TrackModel.SubscribePanicsIff | pkg/conference/track/track.go:175-258 | a subscription does so if and only if a publisher is needed and none is both present and unflagged; it is refused if and only if the track was seen closed or, for a new subscriber, there is nothing to subscribe to |
| TrackModel.StopOnlyRemovesPublisher | pkg/conference/track/track_handler.go:112-126 | the shuffle after a stop has no effect whichever survivor is visited: the stopped publisher's subscriptions stay where they were |
| TrackModel.RecoveredSoundIff | pkg/conference/track/track_handler.go:194-199 | a recovery keeps every subscription on one feed if and only if it does not take a subscription fed without a layer for an orphan |
| TrackModel.FedOnce | pkg/conference/track/track.go:250-254 | with one feed per subscription no two publishers hold the same one |
| TrackModel.SubscribeTouchesOne | pkg/conference/track/track.go:246-254 | a new subscription is fed and leaves layer and feed of every other subscription alone |
| TrackModel.ResubscribeTouchesOne | pkg/conference/track/track.go:193-218 | a repeated request leaves layer and feed of every other subscription alone |
| TrackModel.SubscribeSettles | pkg/conference/track/track.go:193-258 | after any successful request the subscriber is registered and, on a video track whose publishers have layers, stands on the chosen layer |
| TrackModel.RequestSucceedsIff | pkg/conference/track/track.go:175-258 | on a video track with layers, one of them unflagged, a request succeeds if and only if the track was not seen closed and, for a new subscriber, the WebRTC track could be made |
| TrackModel.RequestPlaces | pkg/conference/track/track.go:193-258 | it then stands on the unflagged layer closest to the desired one, the lower of two equally close ones, and is fed if and only if it is new, has moved, or was fed before |
| TrackModel.AddedPublisherIsAvailable | pkg/conference/track/track.go:133-162 | a publisher is added unless the track was seen closed or the publisher does not match; under a new layer it joins the others, can be chosen from then on and feeds nobody yet, under a known one nothing changes |
| TrackModel.UnsubscribeTakesOff | pkg/conference/track/track.go:261-273 | the subscriber leaves the register, a video subscription every feed, and nobody else is touched |
| TrackModel.SubscribeIdempotent | pkg/conference/track/track.go:193-218 | repeating a request changes nothing |
| TrackModel.StallMovesExactly | pkg/conference/track/track_handler.go:130-175 | a stall of a muted track changes nothing; an unmuted one moves exactly the stalled publisher's subscriptions: to the low layer if another publisher has it, else off every layer; registrations and publishers stay |
| TrackModel.RecoveryLeavesNoOrphan | pkg/conference/track/track_handler.go:184-202 | after a recovery on a layer nobody registered is left without one, the orphans are fed and nobody else has moved |
| TrackModel.StallThenRecover | pkg/conference/track/track_handler.go:130-202 | a stall without another layer and the recovery after it give back the same feeds, plus the earlier orphans |
| TrackModel.EndedKeepsRegisteredIff | pkg/conference/track/subscription.go:41-49 | the end of a listener keeps what is fed registered if and only if its subscriber has not subscribed again in between with a fed subscription |
| TrackModel.LateCleanupUnregisters | pkg/conference/track/subscription.go:41-49 | the trace: unsubscribe, subscribe again, late cleanup leaves a subscription that is fed but not registered |
| TrackModel.StallThenUnsubscribePanics | pkg/conference/track/track.go:265-272 | the trace: after a stall without another layer the next unsubscription of a cut-off subscriber crashes |
| TrackSystem.StepKeepsInv | pkg/conference/track/track.go:133-298 | each atomic step of the track and its goroutines keeps one feed per subscription and live publishers, and a registered video subscription is fed if and only if no stall or stop has cut it off since it was last put on a feed, with or without layers |
| TrackSystem.RunsKeepInv | pkg/conference/track/track_handler.go:107-202 | so does every interleaving of any length, given that publishers with and without layers are not mixed |
| TrackSystem.ReachableAreFedIff | pkg/conference/track/track.go:175-258 | from a new video track on, under every interleaving, a registered subscription is fed if and only if nothing has cut it off |
| TrackSystem.RegisteredIff | pkg/conference/track/track.go:175-273 | each step: a subscriber enters the register if and only if its own request is accepted, and leaves it if and only if it unsubscribes or the listener of one of its subscriptions ends |
| TrackSystem.MetadataIff | pkg/conference/track/track.go:293-298 | kind and metadata change by nothing but new metadata |
| TrackSystem.DoneIff | pkg/conference/track/track.go:112-126 | over any run a track is done if and only if it was or has been wound down, and then for good |
| TrackSystem.ListenerEndsOnce | pkg/conference/track/subscription.go:30-50 | over any run the listener of a subscription ends at most once |
| TrackSystem.RunsKeepRegistered | pkg/conference/track/subscription.go:30-50 | in every run, on tracks of any kind, in which no listener ends after its subscriber has come back and no fed subscription of an audio track is unsubscribed, what is fed is what is registered |
| TrackSystem.StepKeepsRegisteredIff | pkg/conference/track/subscription.go:30-50 | for a single step that condition is exact: what is fed stays registered if and only if the step meets it |
| TrackSystem.UnsubscribeKeepsRegisteredIff | pkg/conference/track/track.go:261-273 | the unsubscription keeps what is fed registered if and only if it is of a video track, or of somebody unknown or not fed |
| TrackSystem.CrashNeedsLoss | pkg/conference/track/track.go:269-271 | an unsubscription crashes if and only if a registered video subscription has been cut off by a stall or a stop and stands on a layer without publisher |
| TrackSystem.FedAgainIff | pkg/conference/track/track.go:193-218 | a cut-off subscription is fed again if and only if its subscriber asks for another layer of a layered track, or a publisher recovers while it is registered without a layer; until then it stays on its layer |
| TrackSystem.StopLosesSubscriptions | pkg/conference/track/track_handler.go:112-126 | what a stopped publisher was feeding is fed by nobody however the run goes on, until its subscriber asks for another layer or, for those without a layer, some publisher recovers |
| TrackSystem.StopOfLayerlessTrack | pkg/conference/track/track_handler.go:112-126 | the stop of a publisher without a layer leaves no publisher, cuts off everybody registered and makes every unsubscription crash |
| Traces.LastStopThenSubscribeCrashes | pkg/conference/track/track.go:252-252 | from a new track: its only publisher stops and the next new subscriber crashes |
| Traces.MixingFeedsTwice | pkg/conference/track/track_handler.go:194-199 | from a new track: a publisher without and one with a layer, and the recovery of the second feeds a subscription twice |
| Traces.LateCleanupRun | pkg/conference/track/subscription.go:41-49 | from a new track: a subscriber leaves and comes back before the listener of its first subscription ends, and its second subscription is fed but not registered |
| Traces.AllFlaggedThenResubscribeCrashes | pkg/conference/track/track.go:212-212 | from a new track: with its only layer flagged as stalled, the repeated request of a known subscriber crashes |
| Traces.RestartedLayerStaysUnfed | pkg/conference/track/track.go:199-218 | from a new track: a layer's publisher stops, another takes the layer, and the subscriber asking for that layer again stays unfed |
| FeedSources.OneSource | pkg/conference/publisher/publisher.go:146-151 | while a subscription stays on a layer whose publisher does not stop, everything it is handed, under every interleaving of forwarding and track steps, comes from one publisher |
| FeedSources.OneLayerDelivered | pkg/conference/publisher/publisher.go:146-151 | so if each publisher forwards one SSRC, what is delivered in between is one layer for the rewriter |
| FeedSources.DeliveredIsDeliveries | pkg/conference/publisher/publisher.go:146-151 | the feed a subscription sees is exactly what the track's publishers hand it |
| FeedSources.ForwardReachesIff | pkg/conference/publisher/publisher.go:146-151 | a running publisher's packet reaches a subscription if and only if it is fed and the publisher is its layer's |
| FeedSources.FedGetsEverything | pkg/conference/publisher/publisher.go:146-151 | while a subscription stays fed on a layer whose publisher does not stop, it is handed exactly what that publisher forwards, in order |
| PublishedTrackObjects.TrackPublisher.RemoveSubscriptions | pkg/conference/publisher/publisher.go:93-104 | empties the set and hands out each member once |
| PublishedTrackObjects.TrackPublisher.AddSubscription | pkg/conference/publisher/publisher.go:84-91 | adds the subscription once |
| PublishedTrackObjects.TrackPublisher.RemoveSubscription | pkg/conference/publisher/publisher.go:106-111 | removes it and nothing else |
| PublishedTrackObjects.PublishedTrack.UpdateSubscription | pkg/conference/track/track.go:193-218 | moves the subscription's object between feeds as the repeated request on values |
| PublishedTrackObjects.PublishedTrack.NewSubscription | pkg/conference/track/track.go:220-257 | creates, registers and feeds one new object as on values, or fails or crashes in exactly its case |
| PublishedTrackObjects.PublishedTrack.SetMetadata | pkg/conference/track/track.go:293-298 | changes the metadata and nothing else |
| PublishedTrackObjects.PublishedTrack.AddPublisher | pkg/conference/track/track.go:133-162 | adds a publisher for a new layer, leaves everything as it is for a known one, refuses a closed track or a mismatch |
| PublishedTrackObjects.PublishedTrack.Subscribe | pkg/conference/track/track.go:175-258 | the objects end in the state the operation on values gives, or fail, or crash, each in exactly the stated case; if there is an unflagged layer, the subscription's current layer is the best one, and it is in that publisher's set if and only if it is new, has moved, or was |
| PublishedTrackObjects.PublishedTrack.ActiveLayers | pkg/conference/track/track_handler.go:29-38 | the loop collects the layers of the unflagged publishers |
| PublishedTrackObjects.PublishedTrack.Unsubscribe | pkg/conference/track/track.go:261-273 | as on values, with the crash in exactly its case |
| PublishedTrackObjects.PublishedTrack.HandleStalledPublisher | pkg/conference/track/track_handler.go:130-175 | the loops over sets and subscriptions end in the stall on values |
| PublishedTrackObjects.PublishedTrack.RecoverOrphanedSubscriptions | pkg/conference/track/track_handler.go:184-202 | the loop over the registrations, in any order, ends in the recovery on values |
| PublishedTrackObjects.PublishedTrack.PublisherStopped | pkg/conference/track/track_handler.go:111-126 | removing the publisher and reshuffling an arbitrary survivor ends in the stop on values |
| PublishedTrackObjects.PublishedTrack.SubscriptionEnded | pkg/conference/track/subscription.go:41-49 | detaching and deleting by subscriber ends in the end on values |
| PublishedTrackObjects.PublishedTrack.WindDown | pkg/conference/track/track.go:112-126 | the track is marked as done and nothing else changes |
| WorkerModel.RunsKeepLog | pkg/worker/worker.go:48-91 | in every run the accepted tasks are the processed ones, the one in flight and the queue, in order and within the channel size; an exited loop has processed them all |
| WorkerModel.SendAcceptsIff | pkg/worker/worker.go:48-66 | in terms of the histories: a task is accepted if and only if the worker is open and fewer accepted tasks than its channel holds are neither processed nor in flight; otherwise nothing changes |
| WorkerModel.LoopProcesses | pkg/worker/worker.go:76-88 | open or stopped, under every interleaving: the loop is not stuck while an accepted task is unprocessed, and after as many of its own steps as the first n tasks need these are processed |
| WorkerModel.ClosedIff | pkg/worker/worker.go:36-45 | a worker is closed if and only if it was or has been stopped |
| WorkerModel.StopIsFinal | pkg/worker/worker.go:36-66 | after a stop every send fails and nothing more is accepted, whatever runs beside it |
| WorkerModel.DrainProcessesAll | pkg/worker/worker.go:76-88 | under every interleaving with timeouts and late sends, a stopped worker's loop makes exactly the receives and handlers that were left, is never stuck before, and then exits with everything accepted processed |
| WorkerModel.Worker.RunToEnd | pkg/worker/worker.go:76-88 | the goroutine's loop after a stop: it processes everything that is left, in order, and returns |
| WorkerModel.Worker.Send | pkg/worker/worker.go:48-66 | the object takes the task if and only if it is open with a free place, and otherwise answers that it is closed or too busy and changes nothing |
| VideoSubscriptionModel.WrittenIsRewrittenAccepted | pkg/conference/subscription/video.go:100-103 | in every run what was written is a prefix of the rewriter's output on the accepted packets, and all of it once the loop has exited |
| VideoSubscriptionModel.AcceptedGetsWritten | pkg/conference/subscription/video.go:100-103 | under every interleaving the loop is not stuck while an accepted packet is unwritten, and after as many of its own steps as the packets accepted so far need they have been written, renumbered and in order |
| VideoSubscriptionModel.SubscriberRecoversIdentifiers | pkg/conference/subscription/video.go:147-149 | and unwrapping it recovers the expanded identifiers of the processed packets |
| VideoSubscriptionModel.UnsubscribedForGood | pkg/conference/subscription/video.go:89-98 | once unsubscribed, no interleaving of further calls accepts a packet or removes the track a second time |
| VideoSubscriptionModel.StepKeepsRemovedOnce | pkg/conference/subscription/video.go:89-98 | with the compare-and-swap, the stop of the worker and the removal as separate steps of concurrent calls, one call wins and the track is removed once, after the worker is closed |
| VideoSubscriptionModel.RemovalMeansUnsubscribed | pkg/conference/subscription/video.go:89-98 | the track has been removed once if and only if the subscription is stopped, its worker closed and no call on its way |
| VideoSubscriptionModel.VideoSubscription.Unsubscribe | pkg/conference/subscription/video.go:89-98 | the object's compare-and-swap, stop of the worker and removal |
| VideoSubscriptionModel.VideoSubscription.HandlePacket | pkg/conference/subscription/video.go:147-149 | the object processes the task in flight through the rewriter and writes the result, with the task's payload and SSRC |
| StatusObserverModel.ReachableAlternate | pkg/conference/publisher/status.go:32-45 | from a new observer on, under every interleaving, the receiver sees stalls and recoveries strictly alternating, a stall first |
| StatusObserverModel.FlagMatchesLastEvent | pkg/conference/publisher/status.go:32-45 | the flag of the closures is set if and only if the last event decided is a stall |
| StatusObserverModel.PacketEndsStall | pkg/conference/publisher/status.go:40-52 | a packet that arrives at a running observer waits for the loop; in every run without timeouts in which somebody observes the loop is never stuck before it has handled it, takes at most four steps, and then the flag is clear and exactly one recovery has been decided if the flag was set (a stall and a recovery if a timeout was about to set it, nothing otherwise) |
| StatusObserverModel.ClosedIff | pkg/conference/publisher/status.go:54-57 | worker and status channel are closed by nothing but the stop |
| StatusObserverModel.StopPanicsIff | pkg/conference/publisher/status.go:54-57 | in every run after the stop in which no timeout fires, the worker is never stuck before its end, reaches it within the stated number of its own steps, and the end is death on the closed status channel if and only if an event was due at the stop |
| StatusObserverModel.StopCanPanicIff | pkg/conference/publisher/status.go:54-57 | with timeouts at any moment, some run after the stop ends in that death if and only if the loop has not exited and the flag is clear or something is waiting or under way |
| StatusObserverModel.TimeoutAfterStopPanics | pkg/conference/publisher/status.go:35-39 | the trace: nothing is due, yet a timeout after the stop kills the worker |
| StatusObserverModel.StatusObserver.OnTimeout | pkg/conference/publisher/status.go:35-39 | the handler, with the flag's check and the send as two steps: the object moves as on values |
| StatusObserverModel.StatusObserver.OnTask | pkg/conference/publisher/status.go:40-44 | likewise |
| SinkModel.SealIsFinal | pkg/channel/sink.go:40-76 | under every interleaving, with the check and the close of a seal as two steps, a send begun after any seal has returned does not deliver, even if that seal lost the race; the channel is closed at most once; every message names the sink's own sender |
| SinkModel.OnlySealsRefuse | pkg/channel/sink.go:40-76 | while nobody has called seal no send fails and every one can deliver; once a seal is through the channel is closed, so that no sender is left waiting |
| SinkModel.SinkWithSender.Send | pkg/channel/sink.go:40-56 | the object's check and send |
| SinkModel.SinkWithSender.Seal | pkg/channel/sink.go:65-76 | the object's compare-and-swap, check and close |
| SinkModel.TwoWinnersCloseTwice | pkg/channel/sink.go:66-75 | two seals past the compare-and-swap would both close the channel: closing once rests on it alone |
| SinkModel.RunsKeepInv | pkg/channel/sink.go:40-76 | the log holds exactly one entry for each successful send, with its content |
| SinkModel.WaitingSenderMayDeliver | pkg/channel/sink.go:58-64 | a sender already waiting may still deliver after the seal |
| PublisherModel.Publisher.ForwardPacket | pkg/conference/publisher/publisher.go:132-154 | a packet leaves one waiting at a running observer and is put, once and in any order, on the queue of each open subscription with a free place; a read error changes nothing |
| PublisherModel.FeedConserves | pkg/conference/publisher/publisher.go:146-151 | between publisher and worker packets are only lost: the newly accepted ones are the delivered ones in order without the refused ones, counted exactly |
| PublisherModel.NothingLostIff | pkg/conference/subscription/video.go:73-78 | from the start of a subscription everything delivered is accepted if and only if each packet, on delivery, finds it open and fewer than 16 packets waiting |
| PublisherModel.PublisherToSubscriber | pkg/conference/publisher/publisher.go:132-154 | over every interleaving of forwarding, layer changes and worker steps, what goes out is the rewriter's image of the taken packets, with their payloads, and the subscriber recovers the identifiers |
| TrackToSubscriber.TrackReachesSubscriber | pkg/conference/publisher/publisher.go:132-154 | from the remote tracks to the subscriber: under every interleaving of a track's operations, its publishers' forwarding, the subscription's worker and its unsubscription, what goes out is the rewriter's image, in order, of the packets that the publishers feeding it handed over, without the refused ones; it is complete once the worker has exited, it carries their payloads and SSRCs; the subscriber recovers the identifiers; and none is refused if and only if each finds the subscription open with fewer than 16 waiting |
| ConferenceModel.StepTrackKeepsInv | pkg/conference/participant/tracker.go:164-200 | subscribing, unsubscribing or any step of one track keeps owners and subscribers among the participants and all channels open |
| ConferenceModel.RemoveParticipantKeepsInv | pkg/conference/participant/tracker.go:59-89 | a removal leaves the participant neither as owner nor as subscriber and closes its channels for the first time |
| ConferenceRuns.StepKeepsInv | pkg/conference/processing.go:19-35 | every handler of the main loop keeps that invariant |
| ConferenceRuns.RunsKeepInv | pkg/conference/processing.go:13-35 | so does every run of joins, departures, publications, subscriptions, pongs and track steps |
| ConferenceRuns.ReachableIsSynchronized | pkg/conference/participant/tracker.go:16-24 | from an empty conference on, owners and subscribers are participants; nothing is closed twice, no pong goes to a closed channel, and what is held is open |
| Descriptions.MisuseShows | pkg/conference/participant/tracker.go:59-89 | the flag that reachable states never set is set by every report or departure that closes a channel closed already and by every pong to a closed one |
| ConferenceRuns.RunsCloseWhatLeaves | pkg/conference/matrix_message_processing.go:36-93 | over any run a participant keeps its entry if and only if its pong channel has not been closed, so no join overwrites a live participant |
| Descriptions.EntryKeptIff | pkg/conference/matrix_message_processing.go:36-93 | in every step a participant keeps its entry unless it leaves or is invited under another session, and nobody becomes one but by an accepted invitation |
| Descriptions.AdmittedIff | pkg/conference/matrix_message_processing.go:36-93 | after an invitation its sender is a participant, under that session, if and only if the peer connection accepts or it was one under that session, whose entry it keeps; everybody else stays what they were |
| Descriptions.InvitationStreams | pkg/conference/matrix_message_processing.go:36-97 | a refused invitation leaves the stored streams, an accepted one adds its own; those of a replaced session go in both cases |
| Descriptions.InvitationReachesTrack | pkg/conference/matrix_message_processing.go:95-97 | an accepted invitation also reaches the published tracks that its streams name |
| Descriptions.MessageReachesTrack | pkg/conference/state.go:108-147 | new metadata gives each published track that it names the width and height of one of its entries, and mutes it if and only if that stream's media of the entry's kind is muted; nothing else about any track changes |
| Descriptions.PublicationStarts | pkg/conference/participant/tracker.go:93-138 | a new track has its owner, stream and kind, what a stored stream says about its size and muting or nothing, no subscribers, and for video its first publisher under its layer, running |
| Descriptions.PublicationJoins | pkg/conference/participant/tracker.go:93-138 | publishing under a known ID adds the publisher if its layer is new there; the track stays the first owner's and keeps subscriptions and metadata |
| Descriptions.SubscriptionPutsOn | pkg/conference/participant/tracker.go:164-193 | a participant's request for a video track with an unflagged layer goes through and leaves it subscribed on the unflagged layer that fits best; no other track changes |
| Descriptions.UnsubscriptionTakesOff | pkg/conference/participant/tracker.go:196-200 | an unsubscription takes exactly that participant off the track and its feeds; no other track changes |
| Descriptions.TrackActsAlone | pkg/conference/track/track_handler.go:107-202 | a step of a track's goroutines is possible in the conference whenever it is on the track, and changes that track alone |
| Offers.OfferedIff | pkg/conference/state.go:57-85 | a track is listed under a stream if and only if it belongs to it, has another owner and the stream has metadata; it is listed with its kind, under the stored purpose and muting; no listed stream is empty |
| Offers.OwnTracksDoNotMatter | pkg/conference/state.go:61-62 | two conferences that differ only in the participant's own tracks offer it the same |
| Offers.MetadataOnlyAdds | pkg/conference/state.go:108-121 | new metadata withdraws nothing from any offer, adds exactly the tracks of newly described streams, and shows a mentioned stream as the message does |
| Offers.DepartureRemovesStreams | pkg/conference/state.go:43-53 | a departure takes from everybody else's offer exactly the departed participant's streams; a stream is forgotten if and only if one of its tracks was the participant's |
| Offers.DepartureKeepsOthersIff | pkg/conference/state.go:43-53 | the others' tracks stay on offer if and only if no stream is shared between owners |
| ConferenceTraces.SharedStreamLeavesWithFirstOwner | pkg/conference/state.go:45-47 | from an empty conference: two participants publish to one stream, the one who published first leaves, and a third is no longer offered the track of the one who stays |
| Offers.TrackLeavesIff | pkg/conference/participant/tracker.go:67-80 | a track leaves if and only if its end is reported under its ID or its owner leaves or is replaced |
| Offers.TrackKeptOrStopped | pkg/conference/participant/tracker.go:156-161 | a track that stays keeps owner, stream, kind and stop signal; one that leaves is told to stop unless it is done |
| Offers.DepartureWithdraws | pkg/conference/participant/tracker.go:72-80 | once a track's end is reported or its owner leaves or is replaced by another session, the track is offered to nobody in any later state until it is published again |
| Offers.ReportStopsIff | pkg/conference/peer_message_processing.go:44-48 | the report of a track's end stops running publishers if and only if its ID is in use by a track that is not done |
| Offers.LateReportRemovesSuccessor | pkg/conference/peer_message_processing.go:44-48 | the owner leaves or is replaced, somebody publishes the track again: a late report removes and stops this successor, which has a stop signal of its own |
| Offers.RejoinRepublishes | pkg/conference/matrix_message_processing.go:36-93 | in particular when the owner joins again under another session and republishes |
| ConferenceTraces.LateReportRun | pkg/conference/peer_message_processing.go:44-48 | from an empty conference: a participant publishes, comes back under another session and publishes again, and the late report of the first publication takes the second one down |
| Offers.LeaveCrashesIff | pkg/conference/participant/tracker.go:84-86 | a departure ends the process if and only if, on some remaining track, the participant's video subscription stands on a layer without publisher |
| ConferenceTraces.OrphanedSubscriberCannotLeave | pkg/conference/participant/tracker.go:84-86 | from an empty conference: two join, one publishes, the other subscribes, the publisher stalls, and the subscriber's departure crashes |
| TrackerObjects.Tracker.RemovePublishedTrack | pkg/conference/participant/tracker.go:156-161 | the object stops and forgets the track as on values |
| TrackerObjects.Tracker.RemoveTracksOf | pkg/conference/participant/tracker.go:73-80 | the first loop, in any order, removes exactly the owner's tracks, closes their signals and collects their streams |
| TrackerObjects.Tracker.UnsubscribeFromAll | pkg/conference/participant/tracker.go:84-86 | the second loop, in any order, takes the participant off every remaining track, or crashes if and only if one of them is stuck |
| TrackerObjects.Tracker.RemoveParticipant | pkg/conference/participant/tracker.go:59-89 | both loops together are the removal on values, whatever the iteration order |
| TrackerObjects.Tracker.AddPublishedTrack | pkg/conference/participant/tracker.go:93-138 | a new track, another publisher, or nothing, as on values |
| TrackerObjects.Tracker.Subscribe | pkg/conference/participant/tracker.go:164-193 | as on values; the request is reported as accepted if and only if participant and track exist and the track does not refuse it, and otherwise nothing changes |
| TrackerObjects.Tracker.Unsubscribe | pkg/conference/participant/tracker.go:196-200 | removes exactly that subscriber from the track, or crashes in exactly its case |
| TrackerObjects.Tracker.AddParticipant | pkg/conference/participant/tracker.go:37-39 | adds the participant with a channel of its own and touches nothing else |
| TrackerObjects.Tracker.UpdatePublishedTrackMetadata | pkg/conference/participant/tracker.go:148-153 | changes the metadata of that track, if it is there, and of no other |
| ConferenceObjects.Conference.GetAvailableStreamsFor | pkg/conference/state.go:57-85 | for every visiting order the result is what is on offer, in tables of its own, and nothing stored changes |
| ConferenceObjects.Conference.ResendMetadataToAllExcept | pkg/conference/state.go:88-105 | each participant but one is sent its own offer |
| ConferenceObjects.Conference.RemoveParticipant | pkg/conference/state.go:43-53 | the removal on values, and everybody left is sent the earlier offer without the departed streams |
| ConferenceObjects.StreamIntoTrackMetadata | pkg/conference/state.go:123-147 | every track that a stream names is listed, and each listed one with the width and height of one of its entries, muted if and only if that stream's audio or video, whichever the entry is, is muted |
| ConferenceObjects.Conference.LookUp | pkg/conference/peer_message_processing.go:36-37 | what is known about a track is what one of the stored streams says of its size and muting, or nothing |
| ConferenceObjects.Conference.NewTrackPublished | pkg/conference/peer_message_processing.go:32-42 | the track starts with what a stored stream says about it, is added as on values, and the others are sent their offers |
| ConferenceObjects.Conference.UpdateMetadata | pkg/conference/state.go:108-121 | the streams are stored with the message's own tables and the listed tracks updated, as on values |
| ConferenceObjects.Conference.OnNewParticipant | pkg/conference/matrix_message_processing.go:24-111 | an invitation under another session ends the old one first, a repeated one keeps the participant, a failing peer stops there; the answer is the new participant's offer |

## Left out

- WebRTC, SDP, ICE, RTCP, VP8 payloads, data channels: library behaviour. `AddTrack` may fail (`created`), a peer
  connection may reject an offer (`peerOk`), a track may not be created (`ok`); `RemoveTrack` is counted; key-frame
  requests and the replacement of a publisher's remote track leave the modelled state alone.
- Matrix signalling, JSON, configuration, telemetry, logging, profiling, routing between conferences.
- Clocks: timeouts may happen at any moment. The heartbeat is not modelled beyond its pong channel.
- Audio forwarding: an audio subscription is an entry in the registrations.
- Layers.DesiredByComparison: the ratio is taken over the reals. `RoundingKeepsLayer` shows that `float32` rounding does
  not matter for sums between 0 and 2^24; larger and negative sums are not covered by it.
- Go's 64-bit `int`: sizes are unbounded integers.
- `TruncatedPacketIdentifiers.Max`: unused in the repository.
- WorkerModel.Worker.Send: a channel of size 0 refuses every task here, while an unbuffered channel accepts one when the
  loop is waiting; the workers of video subscriptions and status observers have sizes 16 and 1.
- PublishedTrackObjects.PublishedTrack.WindDown: marks the track as done; the unsubscription of each remaining
  subscription just before is the subscriptions' own step, and what a step of theirs does to the track is `DoEnded`.
- TrackerObjects.Tracker.AddPublishedTrack: the tracks in the tracker are values with the full state of a published
  track, not references to the objects of `PublishedTrack`; the steps of a track that has left the tracker are not
  followed.
- ConferenceRuns.RunsKeepInv: a report of a track's end may arrive at any time, also for a track that has not ended, and
  a run may go on after the last participant has left; both allow more runs than the program has.
- The publishers that a stop signal reaches take their last step on their own; that they see the signal is not claimed.
- Crashes end the process, so runs do not go past one; `UnsubscribePanicsIff`, `SubscribePanicsIff` and
  `LeaveCrashesIff` say exactly when one happens.
- TrackSystem.RunsKeepInv: assumes that a publisher without a layer is never added next to others; `RecoveredSoundIff`
  and `MixingFeedsTwice` show what fails otherwise.
