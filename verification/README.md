# A verified model of the media camera source

The repository is a Gazebo camera plugin. It renders on demand, encodes each rendered frame once in hardware, and
serves the stream twice: as compressed video with timing messages for ROS recorders, and as H.264 over RTP for live
viewers. A control endpoint starts and stops it, changes its configuration and takes still images. Five threads work
on it at once (render, ROS publisher, RTP pacer, JPEG worker, control executor) and meet in mailboxes guarded by
mutexes, generation counters and revision numbers. Almost all of this is in `src/xgc_media_camera_plugin.cpp`.

The project models that machinery and proves what it keeps in every run:

| file | what it models |
|---|---|
| `AnnexB.dfy` | splitting an encoder buffer at start codes (section B.1.1 of ITU-T H.264) |
| `RtpPacketizer.dfy` | single NAL unit packets and FU-A fragments (sections 5.6 and 5.8 of RFC 6184), the RTP header, and a receiver that undoes them |
| `RtpPacing.dfy` | how long an access unit is spread, its batch times, and the batch loop |
| `RtpPacer.dfy`, `RtpBranch.dfy` | the RTP queue between render thread and pacer, as a state machine and as a class |
| `RosEpochs.dfy`, `RosBranch.dfy` | the ROS queue with its epochs, as a state machine and as a class; epoch tokens |
| `FreshRenderGate.dfy` | which render callbacks of a reactivated sensor may be used |
| `EncoderSession.dfy` | opening and rebuilding the encoder, transport timestamps, pairing outputs with metadata |
| `StreamRuns.dfy` | gate, encoder session, ROS branch and RTP branch together, with all threads interleaved |
| `ControlProtocol.dfy` | the compare-and-set mailbox between control executor, render thread and publisher |
| `StopDrain.dfy` | the mailbox and the RTP branch together: what an acknowledged stop means |
| `TaggedEncoder.dfy` | the encoder session with the keyframe requests its inputs carry |
| `EncoderAcks.dfy` | the mailbox and the encoder session together: what a completed start and a completed keyframe request mean |
| `ReceiptRing.dfy` | the ring of 32 receipts, request ids, and the held observers |
| `Reconcile.dfy` | a client that reconciles its calibration while replies are lost |
| `Capture.dfy` | still images: one slot for all sources, readback, worker |
| `CaptureOutcome.dfy` | which captures succeed, over what was seen of them |
| `CaptureKeyframe.dfy` | captures and the encoder session together: what the keyframe of a capture is |
| `SourceHost.dfy` | the table of sixteen sources |
| `Sequences.dfy`, `Wrappers.dfy` | two facts about sequences; an optional value and a minimum |

A protocol is a state machine whose steps are the atomic sections of the program: what happens under one lock, one
atomic load or store, one call into foreign code. A run is any sequence of steps of all threads; a step that is not
possible in a state does nothing. Histories (what was offered, stamped, published, sent, consumed, answered) are
part of the state, so the results speak about whole runs. Beside each state machine, a class holds the program's
fields, and its methods are proved to take exactly the machine's steps.

## What the code does not do

Some claims one would make about the program, or that its documentation makes, are not true of the code. The model
keeps the code, shows a run, and proves when the claim holds.

- `docs/encoded_camera_recording.md` says that the first frame published after an overload reports the frames
  discarded. A report can be lost with its own frame (`ReportIsLost`), and a frame taken from the queue and then
  found stale is in no report (`DiscardIsNotReported`). Published reports are a lower bound in every run, and exact
  in exactly the case that `PublishedReportsAreBounds` gives.
- The test for consumers (line 681) and the locked section behind it (693-730) are not one step. If the last
  subscriber leaves in between, the unit in hand joins an epoch whose queue was emptied. Such a frame may be published
  without the frames before it (`RaceIsReachable`) or without its StreamInfo (`SilentFrameIsReachable`). `EveryRun`
  says for each published frame exactly when. If another subscriber connects at the same moment, the unit in hand
  can begin the new epoch before consumers count as active again: the keyframe behind it, which the epoch asked for,
  is dropped, and frames 0 and 1 are published without it and without a report (`SkipIsReachable`). With test and section as one step none of this
  happens (`EveryAtomicRun`).
- An output of the encoder without NAL units is dropped without a keyframe request, and the next delta goes out
  without its reference (`LostOutputBreaksTheChain`). `EveryRunIsDecodable` says exactly which packets that spoils,
  for a synchronous encoder. A frame for ROS loses its reference the same way; `EveryStreamRun` says exactly when
  all outputs between two frames of an epoch are in it.
- Opening an encoder session forgets the source time that was just recorded, so a jump back between a session's
  first and second input is missed (`FirstJumpBackIsMissed`, `SessionTimes`).
- More frames per second than clock ticks make transport timestamps repeat (`ClockMovesWithEveryFrame`); the code
  bounds the rate only from below.
- A calibration that expires unconsumed is reported as applied by the next success (`LostCalibrationIsReported`).
- A keyframe request carries the configured active state. After a stop that expired it switches RTP off, and with a
  ROS consumer it still completes, with a configuration that says active (`KeyframeRequestStops`).
  `CompletionAgrees` says exactly when a completed configuration is the one in use.
- A capture and a mutation in flight together may have the same request id (`CaptureAndMutationShareAnId`); this is
  the only way for two remembered receipts to share one (`SharedIds`).
- A capture that is complete but for its keyframe is not answered at its deadline, although
  `docs/source_control.md` gives captures a budget of four seconds (`CompleteCaptureStaysOpen`, `LateFlushCloses`).
- A capture failure is not matched with its capture and may answer the next one (`FailureHitsTheNextCapture`); it
  does exactly when its own capture was closed and another one is open (`FailureHits`).

## Model

| member | source | states |
|---|---|---|
| AnnexB.ScanFindsFirstCode | src/xgc_media_camera_plugin.cpp:143-157 | the scan stops at the first start code of 3 or 4 bytes, or at the end, and nowhere else |
| AnnexB.SegmentsPartition | src/xgc_media_camera_plugin.cpp:158-172 | behind the skipped prefix, codes and bodies concatenate to the input and no body contains a code |
| AnnexB.SplitAccountsForEveryByte | src/xgc_media_camera_plugin.cpp:142-174 | for any input: no unit is empty or contains a start code, and prefix, codes and units make up the whole input |
| AnnexB.SplitInvertsJoin | src/xgc_media_camera_plugin.cpp:142-174 | splitting undoes joining with 3- or 4-byte codes if and only if no unit that ends in 00 is followed by a 3-byte code |
| AnnexB.StartCodeLength | src/xgc_media_camera_plugin.cpp:143-151 | the test at an offset finds the code the rest of the buffer begins with |
| AnnexB.NextCode | src/xgc_media_camera_plugin.cpp:164-167 | the inner loop stops at the next code |
| AnnexB.SplitAnnexB | src/xgc_media_camera_plugin.cpp:142-174 | the two loops return the units of the reference split |
| RtpPacketizer.FragmentsRoundTrip | src/xgc_media_camera_plugin.cpp:2681-2702 | received in a row, the FU-A fragments of a unit put it together again |
| RtpPacketizer.RoundTrip | src/xgc_media_camera_plugin.cpp:2668-2704 | depacketizing the payloads of any list of units of types 1 to 23 gives back the list |
| RtpPacketizer.PayloadSizes | src/xgc_media_camera_plugin.cpp:2674-2704 | every payload of an access unit has 1 to 1200 bytes |
| RtpPacketizer.UnitSizes | src/xgc_media_camera_plugin.cpp:2674-2684 | a unit of at most 1200 bytes is one payload, itself; a longer one of n bytes makes ceil((n-1)/1198) >= 2 |
| RtpPacketizer.FragmentSizes | src/xgc_media_camera_plugin.cpp:2681-2702 | the number of fragments; each is of type FU-A, carries at least one byte of the unit, and none has both start and end bit |
| RtpPacketizer.PacketRoundTrip | src/xgc_media_camera_plugin.cpp:2706-2722 | parsing a stamped packet gives back version 2, marker, payload type 96, sequence number, timestamp, source 0x58474332 and payload |
| RtpPacketizer.WireRoundTrip | src/xgc_media_camera_plugin.cpp:2668-2722 | packets under any sequence numbers are received as the units; the marker is on the last packet only |
| RtpPacketizer.AccessUnitRoundTrip | src/xgc_media_camera_plugin.cpp:2634-2722 | from the encoder's buffer over the wire the receiver gets exactly the encoder's units |
| RtpPacketizer.AppendRTPPacket | src/xgc_media_camera_plugin.cpp:2706-2722 | one packet is appended, or nothing for an empty or oversized payload |
| RtpPacketizer.PacketizeAccessUnit | src/xgc_media_camera_plugin.cpp:2668-2704 | the loop over the units makes the reference packets of the whole access unit |
| RtpPacketizer.AppendFragments | src/xgc_media_camera_plugin.cpp:2684-2702 | the fragment loop appends the reference fragments, with the marker only at the end of the last unit |
| RtpPacing.SpreadBounds | src/xgc_media_camera_plugin.cpp:994-1004 | the unit takes as long as at the pacing rate, to the nanosecond, or it is cut and leaves 4 ms or a quarter of the frame period free, whichever is less; that much is always left |
| RtpPacing.OneSpread | src/xgc_media_camera_plugin.cpp:994-1004 | no other time does all that |
| RtpPacing.BatchTimesFillTheSpread | src/xgc_media_camera_plugin.cpp:1045-1051 | batch times never go back, stay inside the spread and end exactly at its end |
| RtpPacing.BatchTimesAreEven | src/xgc_media_camera_plugin.cpp:1045-1051 | of several batches each leaves at its share of the spread, rounded down, and any two gaps differ by at most a nanosecond |
| RtpPacing.SendPacedAccessUnit | src/xgc_media_camera_plugin.cpp:1041-1063 | packets leave as a prefix, in order, each once, under consecutive sequence numbers and at their batch's time; the prefix is the whole unit unless a gate closes |
| RtpPacing.SendBatch | src/xgc_media_camera_plugin.cpp:1057-1061 | one batch extends the prefix by at most 32 packets |
| RtpPacer.StepKeepsInv | src/xgc_media_camera_plugin.cpp:924-992 | every step of every thread keeps the queue, the pacer's position, the order of what was sent and the reference chain |
| RtpPacer.EveryRunIsDecodable | src/xgc_media_camera_plugin.cpp:940-1063 | in every interleaving with a synchronous encoder: all packets of all units back to a keyframe were sent before a packet if and only if no output from that keyframe to its unit was without NAL units, and a delta's reference was sent if and only if the output before it was not lost that way |
| RtpPacer.EveryRunSendsInOrder | src/xgc_media_camera_plugin.cpp:1041-1070 | with any encoder: each packet is the next of its unit or the first of a later one, under consecutive 16-bit sequence numbers |
| RtpPacer.ForcedExactly | src/xgc_media_camera_plugin.cpp:2276-2276 | in every run an input is forced if and only if a keyframe was asked for since the request was last read: by any thread, by a consumed command that wants one or switches RTP on, or over a refused delta |
| RtpPacer.KeyframeCommandForces | src/xgc_media_camera_plugin.cpp:1443-1443 | in every run the first input behind a consumed keyframe command is forced, whatever happens in between |
| RtpPacer.StopDrains | src/xgc_media_camera_plugin.cpp:1053-1061 | in every run, from the step that switches RTP off until it is switched on: at most the rest of one batch of 32 packets leaves, and nothing if nothing was in flight |
| RtpPacer.TeardownDrains | src/xgc_media_camera_plugin.cpp:910-922 | in every run, from teardown on at most the rest of one batch of 32 packets leaves, and nothing if nothing was in flight, even if a start command is consumed behind it |
| RtpPacer.LostOutputBreaksTheChain | src/xgc_media_camera_plugin.cpp:2642-2645 | an output without units is dropped without a keyframe request, and the next delta is sent without its reference, with a synchronous encoder |
| RtpBranch.PacedRtpQueue.constructor | src/xgc_media_camera_plugin.cpp:934-938 | the fields start as the initial state |
| RtpBranch.PacedRtpQueue.ClearRTPQueue | src/xgc_media_camera_plugin.cpp:924-932 | empties the queue and bumps the generation |
| RtpBranch.PacedRtpQueue.EnqueueRTPAccessUnit | src/xgc_media_camera_plugin.cpp:940-992 | takes the machine's queueing step; exactly when a unit is queued, and that a refused one leaves a keyframe request |
| RtpBranch.PacedRtpQueue.ApplyActive | src/xgc_media_camera_plugin.cpp:1441-1445 | switches RTP, purges when it goes off, and requests a keyframe exactly if the command wants one or RTP comes on |
| RtpBranch.PacedRtpQueue.StopRTPPacer | src/xgc_media_camera_plugin.cpp:910-922 | stops the pacer, empties the queue and bumps the generation |
| RtpBranch.PacedRtpQueue.PopAccessUnit | src/xgc_media_camera_plugin.cpp:1011-1021 | pops and sets the in-flight flag in one step; the spread is within the frame period |
| RtpBranch.PacedRtpQueue.CompareGeneration | src/xgc_media_camera_plugin.cpp:1022-1033 | a unit overtaken by a purge is dropped |
| RtpBranch.PacedRtpQueue.OpenGate | src/xgc_media_camera_plugin.cpp:1053-1058 | a batch is cleared exactly while the unit is current; behind the last one nothing is in flight |
| RtpBranch.PacedRtpQueue.SendPacedRTPPacket | src/xgc_media_camera_plugin.cpp:1065-1071 | sends the next packet under the next sequence number modulo 65536 |
| RosEpochs.StepKeepsInv | src/xgc_media_camera_plugin.cpp:575-733 | every step of every thread keeps the queue, the stamped and published histories and the ledger |
| RosEpochs.StampedOrder | src/xgc_media_camera_plugin.cpp:714-729 | stamped frames are ordered by epoch and number, without gaps in an epoch, from consecutive offered units of one session |
| RosEpochs.PublishedPrefix | src/xgc_media_camera_plugin.cpp:791-797 | unless a unit joined its epoch behind an emptied queue, what is published of an epoch is 0, 1, ..., k: frame 0 a keyframe with the discontinuity, no other carries one, all from consecutive offered units |
| RosEpochs.GapBreaksPrefix | src/xgc_media_camera_plugin.cpp:655-672 | behind such a unit no frame of the epoch is part of a published prefix |
| RosEpochs.PublishedInOrder | src/xgc_media_camera_plugin.cpp:856-889 | no frame is published twice and epochs are published in order |
| RosEpochs.EveryRun | src/xgc_media_camera_plugin.cpp:575-889 | in every run: a published frame ends a published prefix of its epoch if and only if no unit up to it joined behind an emptied queue, and the StreamInfo of its epoch and encoder session is published if and only if it did not join one with the StreamInfo gone; frames in order and once, one encoder session per epoch, and offered = queued + in flight + published + discarded + all reports + waiting count (reports being exact below 2^32 units), with at most one discard per generation |
| RosEpochs.EpochsSayWhy | src/xgc_media_camera_plugin.cpp:610-703 | in every run the first frame of an epoch has the reason the epoch began for: a connection, a jump back in time, a new encoder or an overflow; and units are taken exactly while somebody is connected, but for the moments of the first and last connection |
| RosEpochs.ForceExactly | src/xgc_media_camera_plugin.cpp:595-712 | exactly which steps ask for a keyframe: a later connection, the beginning of an epoch, and a unit that is offered and not stamped |
| RosEpochs.PublishedReportsAreBounds | src/xgc_media_camera_plugin.cpp:717-728 | in every run published reports never overstate the losses; they are exact if and only if nothing waits to be counted, no popped frame was found stale, and every stamped frame with a report was published |
| RosEpochs.ReportIsLost | src/xgc_media_camera_plugin.cpp:575-588 | a run in which a report is purged with its frame: two units are lost and one is reported |
| RosEpochs.DiscardIsNotReported | src/xgc_media_camera_plugin.cpp:791-797 | a run in which a popped frame is found stale, and no report counts it |
| RosEpochs.EveryAtomicRun | src/xgc_media_camera_plugin.cpp:675-733 | with test and locked section as one step the contract holds for every frame, and no unit is missing before one |
| RosEpochs.RaceIsReachable | src/xgc_media_camera_plugin.cpp:675-694 | one viewer leaving at the wrong moment is enough: frame 1 is published and frame 0 is not |
| RosEpochs.SilentFrameIsReachable | src/xgc_media_camera_plugin.cpp:746-752 | the same moment can publish a frame whose StreamInfo is not |
| RosEpochs.SkipIsReachable | src/xgc_media_camera_plugin.cpp:610-646 | one viewer leaving while another comes: frames 0 and 1 of an epoch are published as a prefix, the keyframe between them is missing, and nothing reports it |
| RosEpochs.PendingEpoch | src/xgc_media_camera_plugin.cpp:605-608 | in every reachable state the two-field test says whether no frame of the epoch was stamped |
| RosBranch.TokensTellEpochsApart | src/xgc_media_camera_plugin.cpp:466-469 | two epochs have the same token if and only if they are a multiple of 2^64 - 1 apart |
| RosBranch.RosFrameQueue.constructor | src/xgc_media_camera_plugin.cpp:334-337 | the fields start as the initial state |
| RosBranch.RosFrameQueue.AdvanceROSEpochLocked | src/xgc_media_camera_plugin.cpp:575-588 | counts and drops the queue and begins the next epoch under the next token |
| RosBranch.RosFrameQueue.BeginROSEpoch | src/xgc_media_camera_plugin.cpp:590-603 | begins an epoch unless disabled or stopping, and requests a keyframe |
| RosBranch.RosFrameQueue.ROSHasPendingEpoch | src/xgc_media_camera_plugin.cpp:605-608 | the two-field test, and with the machine's invariant whether no stamped frame is of the epoch |
| RosBranch.RosFrameQueue.OnROSSubscriberConnected | src/xgc_media_camera_plugin.cpp:610-646 | takes the machine's steps of a first and of a later connection |
| RosBranch.RosFrameQueue.PurgeQueue | src/xgc_media_camera_plugin.cpp:663-672 | the last disconnection empties the queue and bumps the generation |
| RosBranch.RosFrameQueue.OnROSSubscriberDisconnected | src/xgc_media_camera_plugin.cpp:649-673 | takes the machine's steps of a disconnection |
| RosBranch.RosFrameQueue.AppendLocked | src/xgc_media_camera_plugin.cpp:714-729 | the accepted unit is queued as the next frame of the epoch, with its own metadata |
| RosBranch.RosFrameQueue.DropLocked | src/xgc_media_camera_plugin.cpp:708-712 | a refused unit is counted and a keyframe requested |
| RosBranch.RosFrameQueue.EnqueueLocked | src/xgc_media_camera_plugin.cpp:693-731 | the locked section takes the machine's step; a unit that is not queued leaves a keyframe request |
| RosBranch.RosFrameQueue.EnqueueROSAccessUnit | src/xgc_media_camera_plugin.cpp:675-733 | test and locked section in a row |
| RosBranch.RosFrameQueue.TakeNext | src/xgc_media_camera_plugin.cpp:862-880 | the publisher takes a pending StreamInfo before the first frame of the queue |
| RosBranch.RosFrameQueue.FrameIsCurrent | src/xgc_media_camera_plugin.cpp:791-797 | a frame of another generation is discarded, and that is counted |
| RosBranch.RosFrameQueue.InfoIsCurrent | src/xgc_media_camera_plugin.cpp:746-752 | a StreamInfo of another generation is discarded |
| RosBranch.RosFrameQueue.StopROSPublisher | src/xgc_media_camera_plugin.cpp:548-562 | teardown abandons the queue |
| FreshRenderGate.Gate.Observe | src/fresh_render_gate.h:21-37 | a callback is discarded exactly when it begins an activation, and accepted exactly when some callback since then, itself included, showed another source time |
| FreshRenderGate.OneDecision | src/fresh_render_gate.h:21-37 | after any history exactly one decision is right for a callback |
| FreshRenderGate.AcceptanceIsStable | src/fresh_render_gate.h:29-36 | once accepted, every later callback of the activation is |
| EncoderSession.TimestampRounds | src/xgc_media_camera_plugin.cpp:2287-2289 | a transport timestamp is within half a tick of index * 90000 / rate, a half rounded up |
| EncoderSession.ClockMovesWithEveryFrame | src/xgc_media_camera_plugin.cpp:2286-2293 | rounded transport timestamps increase with every frame if and only if the rate is at most 90000 |
| EncoderSession.EncodeKeepsInv | src/xgc_media_camera_plugin.cpp:2250-2375 | one rendered frame, whatever the encoder answers, keeps inputs, pending frames, outputs and source times in order |
| EncoderSession.OneInputPerTimestamp | src/xgc_media_camera_plugin.cpp:2289-2302 | timestamps strictly increase from input to input of a session |
| EncoderSession.EveryOutputIsPaired | src/xgc_media_camera_plugin.cpp:2234-2248 | in every run, with the encoder released at any time: at most 4 frames wait, in timestamp order, and an output gets the metadata of the one input of the running session with its timestamp |
| EncoderSession.TimestampsHandedOutOnce | src/xgc_media_camera_plugin.cpp:2332-2373 | no transport timestamp and no source frame is handed out twice over the plugin's life |
| EncoderSession.InputIsStamped | src/xgc_media_camera_plugin.cpp:2287-2295 | in every run an input has the timestamp of the number of frames that were accepted before it, over all sessions, and its own frame's source time |
| EncoderSession.SmoothRun | src/xgc_media_camera_plugin.cpp:2250-2375 | frames of one size with times in order, answered at once, make one session: the n-th has timestamp round(n * 90000 / rate), its own source time, and comes out with both |
| EncoderSession.FrameAsks | src/xgc_media_camera_plugin.cpp:2216-2372 | exactly when a frame purges RTP, begins an epoch and for which reason, starts a session, and asks for a keyframe |
| EncoderSession.SessionTimes | src/xgc_media_camera_plugin.cpp:2216-2232 | source times never decrease from a session's second input on; all are in order if and only if the second is not before the first |
| EncoderSession.FirstJumpBackIsMissed | src/xgc_media_camera_plugin.cpp:2377-2382 | a jump back before the second input of a session is not noticed |
| EncoderSession.RenderedFrameEncoder.DestroyEncoder | src/xgc_media_camera_plugin.cpp:2589-2615 | forgets pending frames and the source time |
| EncoderSession.RenderedFrameEncoder.ObserveSourceTime | src/xgc_media_camera_plugin.cpp:2216-2232 | a time before the last one purges RTP, begins an epoch, requests a keyframe and destroys the encoder, in this order |
| EncoderSession.RenderedFrameEncoder.EnsureEncoder | src/xgc_media_camera_plugin.cpp:2377-2532 | keeps or opens a session; a later session begins an epoch unless one is pending |
| EncoderSession.RenderedFrameEncoder.TakePendingEncodedFrame | src/xgc_media_camera_plugin.cpp:2234-2248 | the search finds and removes the first pending frame with the timestamp, or changes nothing |
| EncoderSession.RenderedFrameEncoder.HandleOutcome | src/xgc_media_camera_plugin.cpp:2306-2374 | an error, a lost bitstream, an unknown output or a fifth delayed frame rebuilds the encoder; every other answer counts the frame, by one |
| EncoderSession.RenderedFrameEncoder.EncodeRenderedFrame | src/xgc_media_camera_plugin.cpp:2250-2375 | one rendered frame takes the step of the session and does to the other parts, in order, what the model says |
| StreamRuns.FrameScript | src/xgc_media_camera_plugin.cpp:2250-2375 | all a frame does to both branches, on every path, is in an order they allow: a session starts only while no frame of the epoch is stamped, a purge is followed by a request before the request is read |
| StreamRuns.StepKeepsInv | src/xgc_media_camera_plugin.cpp:1688-1721 | every step of every thread keeps all parts and their connection |
| StreamRuns.RenderedKeepsFresh | src/xgc_media_camera_plugin.cpp:2199-2214 | every input the encoder gets is from a callback the gate let pass |
| StreamRuns.RunKeepsHonest | src/xgc_media_camera_plugin.cpp:2285-2306 | a synchronous encoder makes the RTP branch's assumption true in every run |
| StreamRuns.EveryStreamRun | src/xgc_media_camera_plugin.cpp:2199-2375 | for the whole stream: no disorder; each stamped frame has the metadata of its own input, from a callback the gate let pass, and its own timestamp; one session per epoch; all encoder outputs between two frames of an epoch are stamped in it if and only if none was without NAL units or missed the ROS queue; and with a synchronous encoder an RTP packet can be decoded if and only if no output back to its keyframe was without NAL units |
| StreamRuns.EpochIsComplete | src/xgc_media_camera_plugin.cpp:2634-2662 | the outputs between two frames of an epoch: each has NAL units and was not missed if and only if each is a frame of the epoch |
| ControlProtocol.StepKeepsInv | src/xgc_media_camera_plugin.cpp:1414-1518 | every step of control executor, render thread and publisher keeps holders, revisions, commands, CameraInfo and receipts in order |
| ControlProtocol.EveryRun | src/xgc_media_camera_plugin.cpp:1414-1518 | a pending revision is in exactly one of mailbox, awaiting, applied and failed, else nothing is under way; revisions are ordered; an accepted request that names a revision names the one before, and every accepted configuration names one; no mutation has two receipts and each receipt keeps its promise |
| ControlProtocol.RunGrows | src/xgc_media_camera_plugin.cpp:1458-1463 | histories are only extended, and revisions never go back |
| ControlProtocol.DeadlineIsFinal | src/xgc_media_camera_plugin.cpp:1507-1518 | what a deadline cancelled was never consumed and never will be |
| ControlProtocol.OneWinnerPerRevision | src/xgc_media_camera_plugin.cpp:1351-1354 | of all requests that name one revision at most one is accepted |
| ControlProtocol.JudgeExactly | src/xgc_media_camera_plugin.cpp:1334-1395 | exactly which requests are accepted, and which are refused with which answer |
| ControlProtocol.AcceptedAreValid | src/xgc_media_camera_plugin.cpp:1368-1382 | in every run every accepted configuration names a field, has a quality of 50 to 100 and a calibration only where CameraInfo can be published |
| ControlProtocol.RequestsTakeEffect | src/xgc_media_camera_plugin.cpp:1413-1464 | in every run the configured quality, state and calibration are those of the last accepted requests that named one; snapshots have the quality configured when the mutation consumed last was accepted; the applied state is that of the start or stop applied last, unless a start or a keyframe request was given up since, and nothing else ever is; the calibration in use is published or will be |
| ControlProtocol.InfosHaveCauses | src/xgc_media_camera_plugin.cpp:870-872 | in every run the CameraInfo publications made, under way and owed are as many as were asked for, and each asking has one that begins behind it |
| ControlProtocol.CompletionIsAsRequested | src/xgc_media_camera_plugin.cpp:1492-1500 | at each completion the reported quality and calibration are those asked for last, and the state that of the start or stop applied last |
| ControlProtocol.FlushAnswers | src/xgc_media_camera_plugin.cpp:1486-1518 | in every run a flush answers the pending mutation over the histories: failed if it was given up, completed if it was applied and its calibration published, with a deadline error if the caller is late and it was never consumed, and else not |
| ControlProtocol.CompletedCalibrationWasPublished | src/xgc_media_camera_plugin.cpp:1492-1493 | a completed calibration was published with exactly the requested record and its revision |
| ControlProtocol.CompletionAgrees | src/xgc_media_camera_plugin.cpp:1492-1500 | at each completion the applied configuration has the quality in use; its active state is that of RTP if and only if the last keyframe command consumed since the last start, stop or failure, if there is one, carried active; its calibration is the one in use if and only if none was accepted, the last accepted one was consumed, or the last consumed one (or the first) is the same |
| ControlProtocol.LostCalibrationIsReported | src/xgc_media_camera_plugin.cpp:1494-1495 | a calibration that expired is reported as applied by the next success |
| ControlProtocol.KeyframeRequestKeepsRtp | src/xgc_media_camera_plugin.cpp:1424-1426 | a keyframe request leaves RTP on if and only if the configuration says active |
| ControlProtocol.KeyframeRequestStops | src/xgc_media_camera_plugin.cpp:1441-1445 | after an expired stop a keyframe request switches RTP off and completes as active, with no stop acknowledged |
| ControlProtocol.ControlMailbox.constructor | src/xgc_media_camera_plugin.cpp:2859-2867 | the fields start as the initial state |
| ControlProtocol.ControlMailbox.ReadPatch | src/xgc_media_camera_plugin.cpp:1368-1411 | the checks of a configuration patch in their order, and the configuration it asks for |
| ControlProtocol.ControlMailbox.Admit | src/xgc_media_camera_plugin.cpp:1413-1430 | an accepted mutation takes the next revision and fills the mailbox |
| ControlProtocol.ControlMailbox.HandleMutation | src/xgc_media_camera_plugin.cpp:1334-1430 | the checks in their order; a refused request changes nothing |
| ControlProtocol.ControlMailbox.CompleteNativeControl | src/xgc_media_camera_plugin.cpp:1458-1464 | acknowledges the command's revision and active state |
| ControlProtocol.ControlMailbox.ApplyNativeControl | src/xgc_media_camera_plugin.cpp:1434-1456 | consumes the command; a configuration is acknowledged at once |
| ControlProtocol.ControlMailbox.TakeCommand | src/xgc_media_camera_plugin.cpp:1437-1451 | the fields a consumed command sets |
| ControlProtocol.ControlMailbox.CompleteNativeStopIfDrained | src/xgc_media_camera_plugin.cpp:1466-1473 | exactly when a stop is acknowledged |
| ControlProtocol.ControlMailbox.FailNativeEncoderTransition | src/xgc_media_camera_plugin.cpp:1475-1484 | fails a start or keyframe command that is awaited, and no other |
| ControlProtocol.ControlMailbox.FlushControl | src/xgc_media_camera_plugin.cpp:1486-1518 | closes the pending mutation with one receipt, or changes nothing |
| ControlProtocol.ControlMailbox.TakeCameraInfo | src/xgc_media_camera_plugin.cpp:870-872 | the publisher takes the calibration in use |
| ControlProtocol.ControlMailbox.PublishCameraInfo | src/xgc_media_camera_plugin.cpp:839-854 | publishes it and stores its revision |
| StopDrain.StopReallyDrains | src/xgc_media_camera_plugin.cpp:1466-1473 | once a stop is acknowledged, no RTP packet is sent until a start command is consumed, in every interleaving of control, render thread and pacer |
| StopDrain.DrainedStep | src/xgc_media_camera_plugin.cpp:1441-1445 | with RTP off and nothing in flight, every step but a consumed start keeps it so and sends nothing |
| TaggedEncoder.RenderKeepsInv | src/xgc_media_camera_plugin.cpp:2294-2304 | one frame, whatever the encoder answers: an input carries a request only if it was forced and submitted after the request was made, and an output answers only a request its input carries, and only as a keyframe |
| EncoderAcks.CompletedKeyframeIsReal | src/xgc_media_camera_plugin.cpp:2654-2661 | in every run a completed keyframe request was answered by an output that is a keyframe, paired with the metadata of an input that was forced, carries the request's revision and was submitted after the request was consumed |
| EncoderAcks.CompletedStartWasEncoded | src/xgc_media_camera_plugin.cpp:1708-1720 | in every run a completed start has an input that was submitted after the start was consumed, and that the encoder accepted |
| EncoderAcks.StartIsDecided | src/xgc_media_camera_plugin.cpp:1712-1720 | in every run the first frame behind a consumed start decides it: acknowledged if and only if that frame was encoded, failed if and only if it was not |
| EncoderAcks.KeyframeIsDecided | src/xgc_media_camera_plugin.cpp:2276-2301 | in every run the first input behind a consumed keyframe command is forced; while the command is awaited, every input forced since carries its revision, no keyframe came out with one and every frame since was encoded; it fails only over one that was not |
| EncoderAcks.StepKeepsInv | src/xgc_media_camera_plugin.cpp:1708-1720 | every step of control executor, publisher and render thread keeps that, a frame that is not encoded failing what is awaited |
| CaptureKeyframe.CapturedKeyframeIsReal | src/xgc_media_camera_plugin.cpp:2654-2661 | in every run a successful capture that asked for a keyframe has an output that is a keyframe, paired with an input that was forced and submitted after the capture was admitted |
| CaptureKeyframe.WantedKeyframeIsForced | src/xgc_media_camera_plugin.cpp:1327-1327 | in every run the first input behind the admission of a capture that asks for a keyframe is forced, and while that is awaited every input forced since carries the capture's number |
| CaptureKeyframe.StepKeepsInv | src/xgc_media_camera_plugin.cpp:1532-1541 | every step of the capture path and of the encoder keeps that |
| ReceiptRing.ControlReceipts.constructor | src/xgc_media_camera_plugin.cpp:2856-2859 | no receipt and no observer |
| ReceiptRing.ControlReceipts.RememberReceipt | src/xgc_media_camera_plugin.cpp:1239-1254 | the ring stays the last min(32, n) receipts, and the event revision their number n |
| ReceiptRing.ControlReceipts.FindReceipt | src/xgc_media_camera_plugin.cpp:1264-1273 | finds an id if and only if one of the last 32 receipts has it (or a slot was never written and the id is empty) |
| ReceiptRing.ControlReceipts.Observe | src/xgc_media_camera_plugin.cpp:1285-1298 | only an observer of the current revision is held, in the first free of four places |
| ReceiptRing.ControlReceipts.FlushWatchers | src/xgc_media_camera_plugin.cpp:1520-1529 | an event answers every held observer in the same flush; whoever is held behind it waits at exactly the current revision |
| ReceiptRing.ControlReceipts.FlushControl | src/xgc_media_camera_plugin.cpp:1486-1529 | one flush writes, in order and numbered, the receipt of each request that ended, with its operation and outcome, and then answers or keeps each observer |
| ReceiptRing.NoEventIsMissed | src/xgc_media_camera_plugin.cpp:1520-1529 | in every run, a flush answers a held observer with the status if and only if it wrote a receipt and the observer was not cancelled, with a deadline error only if it wrote none, and else keeps it; behind a flush with a receipt nobody is held |
| ReceiptRing.SharedIds | src/xgc_media_camera_plugin.cpp:1301-1304 | two receipts at most 32 apart share an id if and only if the later request was admitted while the earlier was in flight with that id; one is a mutation then, the other a capture |
| ReceiptRing.CaptureAndMutationShareAnId | src/xgc_media_camera_plugin.cpp:1362-1365 | any nonempty id can be shared so |
| Reconcile.ApplyCameraInfoMetadata | scripts/camera_contract_publisher.py:320-331 | the read-then-write attempt: which write it makes, and exactly when it concludes success |
| Reconcile.AppliedAtMostOnce | scripts/camera_peer.py:62-118 | with lost replies and late or repeated writes the owned calibration is consumed at most once, never if already there, and a status that ends the retries is true of the metadata in use |
| Reconcile.StoppingIsRight | scripts/camera_contract_publisher.py:320-331 | a client that concludes success, from a read or from the reply to its write, is right: the owned calibration is in use and was published under the applied revision; and every completed write's reply lets it conclude so |
| Reconcile.WriteWins | scripts/camera_contract_publisher.py:320-329 | a write decided on a status is accepted if it arrives before anything else changes the source |
| Reconcile.UndisturbedAttemptSucceeds | scripts/camera_contract_publisher.py:320-331 | from every reachable state an attempt that nothing disturbs puts the owned calibration into use, and its reply lets the client stop |
| Reconcile.StepKeepsInv | scripts/camera_contract_publisher.py:320-331 | every step of client, network and source keeps that |
| Capture.FireKeepsInv | src/xgc_media_camera_plugin.cpp:1723-2188 | every step of a source keeps: work is outstanding exactly while a submitted capture is incomplete, one piece, its own |
| Capture.HostStepKeepsInv | src/camera_source_control.cpp:142-146 | every step of every source keeps the slot with at most one capture |
| Capture.EveryRunIsExclusive | src/xgc_media_camera_plugin.cpp:1314-1332 | across all sources at most one capture has work outstanding and it holds the slot; the encode queue is free when a result comes; releases and admissions match |
| Capture.EveryRunIsFresh | src/xgc_media_camera_plugin.cpp:1728-1797 | every admitted capture is answered exactly once; a success has metadata and pixels of one callback begun after admission; at most one capture is ever sent round again |
| CaptureOutcome.AnswersExactly | src/xgc_media_camera_plugin.cpp:1537-1618 | in every run an answer is a success if and only if the worker delivered a picture for that capture and the keyframe it asked for, if it did, came |
| CaptureOutcome.FlushAnswersExactly | src/xgc_media_camera_plugin.cpp:1532-1566 | in every run a flush answers the open capture if and only if it has a picture or a failure and its keyframe came or was lost, or the caller is late, there is neither, and no work is under way; as a success exactly with picture and keyframe |
| Capture.ResultsAreDelivered | src/xgc_media_camera_plugin.cpp:2176-2187 | the worker's result always meets the capture it was made for |
| Capture.LateFlushCloses | src/xgc_media_camera_plugin.cpp:1537-1555 | a late caller is answered if and only if no submitted work is left and the capture does not wait for its keyframe alone |
| Capture.CompleteCaptureStaysOpen | src/xgc_media_camera_plugin.cpp:1537-1555 | a run in which a capture has its picture and no work left, and a late flush leaves it open |
| Capture.FailureHits | src/xgc_media_camera_plugin.cpp:2061-2072 | in every run, a failure of the callback answers a capture other than its own if and only if its own is among the closed ones and another is open; that one was admitted last and nothing of it was submitted |
| Capture.FailureHitsTheNextCapture | src/xgc_media_camera_plugin.cpp:2061-2072 | that happens |
| Capture.CaptureSlot.ReserveCapture | src/camera_source_control.cpp:142-145 | succeeds exactly on the free slot |
| Capture.CaptureSlot.ReleaseCapture | src/camera_source_control.cpp:146-146 | frees the slot |
| Capture.SnapshotCapture.AdmitCapture | src/xgc_media_camera_plugin.cpp:1314-1331 | admits a capture with the free slot, and changes nothing otherwise |
| Capture.SnapshotCapture.FlushCapture | src/xgc_media_camera_plugin.cpp:1532-1618 | answers and releases the slot together, or changes nothing |
| Capture.SnapshotCapture.BeginCapture | src/xgc_media_camera_plugin.cpp:1728-1741 | lets one render pass go by, then freezes generation and frame |
| Capture.SnapshotCapture.CompleteSnapshotFailure | src/xgc_media_camera_plugin.cpp:2061-2072 | fails the capture that is there |
| Capture.SnapshotCapture.IssueSnapshotPBOReadback | src/xgc_media_camera_plugin.cpp:1895-1988 | submits the capture if it is still there; a failure gives up pixel buffers for good |
| Capture.SnapshotCapture.PollSnapshotPBOReadback | src/xgc_media_camera_plugin.cpp:1990-2045 | waits, hands the pixels on, or re-arms |
| Capture.SnapshotCapture.RearmSnapshotAfterPBOFailure | src/xgc_media_camera_plugin.cpp:2047-2059 | sends the capture round again without pixel buffers |
| Capture.SnapshotCapture.SubmitCapture | src/xgc_media_camera_plugin.cpp:1820-1827 | submits a synchronous readback if its capture is still there |
| Capture.SnapshotCapture.QueueSnapshotEncode | src/xgc_media_camera_plugin.cpp:2099-2109 | takes the job unless there is one |
| Capture.SnapshotCapture.DeliverResult | src/xgc_media_camera_plugin.cpp:2176-2185 | delivers only to the capture of the result's generation |
| SourceHost.RosterSize | src/camera_source_control.cpp:123-134 | the number of registered sources is the number of places that are taken |
| SourceHost.FreePlace | src/camera_source_control.cpp:129-133 | a place is free if and only if fewer sources are registered than there are places |
| SourceHost.SafeIdentifiers | src/camera_source_control.cpp:29-35 | an identifier has 1 to 128 ASCII letters, digits, hyphens, dots and underscores |
| SourceHost.CameraSourceControlHost.Register | src/camera_source_control.cpp:123-134 | accepts exactly a well-formed identifier that is not registered while fewer than 16 are, and then changes one free place; otherwise nothing |
| SourceHost.CameraSourceControlHost.Unregister | src/camera_source_control.cpp:136-139 | frees the place of the identifier and no other |
| SourceHost.CameraSourceControlHost.Find | src/camera_source_control.cpp:218-223 | a request reaches exactly the registered source |

## Left out

Assumptions and merged steps:

- Subscriber callbacks run on one spinner thread, one after the other; handlers and flushes of all sources run under one mutex, one after the other.
- `CompleteNativeControl` and `FailNativeEncoderTransition` are one step each, though they store several atomics in a row; a request handled between two of those stores is not modelled.
- `ApplyNativeControl` and the deadline branch of `FlushControl` try their locks and give up on contention; here they take place or do not.
- The encoder, OpenGL, the JPEG libraries and the worker are oracles that succeed, delay or fail. RtpPacer calls an encoder synchronous when each output is the current input's, and a keyframe if one was requested and it has NAL units.
- Between freezing a capture's metadata and submitting it, GPU work of a capture whose caller gave up may overlap the next capture; it does not count as submitted work.
- Teardown is one step: the ROS branch stops publisher and subscriber callbacks together, the capture path of a source ends between render callbacks.
- The ROS branch starts as registered with a ROS master; the wait for one is left out.
- In `StreamRuns` a rendered frame comes with the answers it will find (whether an epoch is pending, whether a keyframe was requested). A run in which it finds others stops that frame there; every run of the program is a run with the right answers.
- Gate and encoder read the sensor's measurement time one after the other; within one render callback it is the same.
- The sensor rate is fixed for a run. Rates, spreads and timestamps are fractions and integers: `llround` and `ceil` are exact, floating-point rounding is not modelled.
- Generations, revisions and frame counters do not wrap; epoch tokens, RTP sequence numbers, and the 32-bit limit of a dropped-frames report do.
- In `EncoderAcks` and `CaptureKeyframe` one rendered frame is one step, with its encoder's answer; other threads ask for keyframes between frames. `CaptureKeyframe` is about one source.
- Admission of a capture is one step, though its keyframe request is stored after its fields.
- In `StreamRuns` an access unit is its key flag, packet count and size; that these come from the buffer is proved in `RtpPacketizer`.

Not modelled:

- Sockets, ROS message contents, HTTP, JSON, multipart bodies, inotify and the back-off times of the retry loop: replaced by histories and by steps that may or may not happen.
- `HandleControlRequest` beyond mutations, captures, receipts and observers; the validation of a calibration's numbers is one flag.
- A capture whose encoded payload exceeds its limits is answered as failed; payload sizes are not modelled.
- Admission of a capture beyond the slot: its fields, its identifier, and the active encoder that a keyframe needs.
- Choice of the JPEG backend, row order of pixel buffers, camera matrices and poses: short case splits or floating point.
- Diagnostics, log rate limits, `Load`, resource release order.
- Placement, intrinsics, quaternions, profiles and transforms of the Python scripts.
- Liveness: nothing is proved to happen, since rendering may stop at any time.
