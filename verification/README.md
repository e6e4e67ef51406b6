# voicers: a verified model of the voice daemon

voicers is a peer-to-peer voice daemon. This project models the parts of it whose promises span many calls:
the jitter buffer between network and loudspeaker, the capture resampler and voice processor, the admission
of peers and the scheduling of media ticks, relaying through trusted contacts, ranked dialing with fallback,
the STUN client, the address book, rooms and invites. It is written for Dafny 4.11;
`dafny verify dfyconfig.toml` covers all of it.

Where the program changes state in place, the model has a class with the same fields, and each of its methods
is proved equal to a step function on values. The theorems about whole runs are proved about those step
functions, so they hold of the classes as well. What a step itself does is said a second time, independently of
the functions: in terms of record fields, positions and plain numbers, mostly in the modules whose names end in
Spec, with a lemma that the step meets the description and, where it helps, one that nothing else does.

| Dafny file | program file it follows |
|---|---|
| Jitter, JitterSpec, JitterRuns, JitterProgress | crates/voicersd/src/media/jitter.rs |
| Media, Capture | crates/voicersd/src/media.rs |
| Dsp | crates/voicersd/src/media/dsp.rs |
| Stun | crates/voicersd/src/network/stun.rs |
| Dialing, Fallback, Routing | crates/voicersd/src/network/media_transport.rs, network.rs, network/swarm_events.rs, crates/voicers/src/ui/model.rs |
| Relay | crates/voicersd/src/network.rs, network/swarm_events.rs |
| Session, SessionSpec, SessionRuns, NetworkTask | crates/voicersd/src/network/swarm_events.rs, network/session.rs, network.rs, app.rs |
| Contacts, ContactsSpec, AddressBook | crates/voicersd/src/app/peer_book.rs, network.rs, network/invite.rs, crates/voicers-core/src/lib.rs |
| Rooms, RoomsSpec, Invites | crates/voicersd/src/app/state.rs, app.rs, network/invite.rs |
| Core, Text, Ordering | shared data types, trimming, stable sorting and first-occurrence deduplication |

Things the model cannot see are parameters: which strings parse as multiaddresses or peer ids and which
addresses are relayed or worth advertising (functions on strings; where the parser of multiaddresses matters, it
is assumed to read a text part by part, at its slashes, if it accepts it), default display names, the square root
of the noise gate, the instants at which the jitter buffer is polled and the frames that fail to decode, invite
codes, expiry times and rendered invite texts, and whether the networking library accepted a dial.

## What the proofs brought to light

- A packet that is in the buffer when it falls due is never lost, and this needs no assumption on timestamps.
  The bound on synthesized frames does need them aligned to 960 samples, which the sender and the receiver's
  normalization guarantee: packets between two frame boundaries can keep the buffer concealing for ever
  (`JitterRuns.UnalignedPacketsConcealForever`). It also needs that nothing is evicted: arrivals in perfect
  order, one per frame but eleven frames ahead, evict one by one the packets about to be reached
  (`JitterRuns.ConcealmentCanStarve`). The bound proved, four frames for each eviction and four more, holds
  of every aligned run.
- When nothing arrives any more, polling plays every held packet except, possibly, the last few: fewer than the
  target depth stay in the buffer until others come (`JitterProgress.PollingDrainsTheBuffer`).
- After a rebase the deadline is set to the current instant and then overwritten, in the same call, from the
  old deadline. The model does the same; the rate bound `JitterRuns.PlayoutNeverRunsAhead` is stated with it.
- The resampler drains past its input for some input length exactly when the device rate exceeds 96 kHz
  (`Capture.SafeRates`). A device rate of zero would keep its loop from ending, so `Capture` asks for at least 1.
- A peer that opens a second connection while its first hello waits for approval counts as connected and its
  next hello is accepted unapproved. `SessionRuns.GateOverRuns` states the approval gate with exactly this
  exception, and `SessionRuns.SecondConnectionSkipsApproval` exhibits it.
- A media flow that is closed and started again before its scheduled tick comes in goes on with two ticks. The
  conservation law `SessionRuns.TicksAreConserved` says precisely when a flow has one.
- The offers in a greeting that waits for approval are not kept when it is approved by hand: the peer is no relay
  until it greets again. `SessionRuns.OffersAreTheLastGreeting` says whose offers count over every run, and
  `SessionSpec.ApprovalTakesTheGreeting` what an approval does.
- A rendezvous lookup marks the record of its peer as not connected, even while a connection is up
  (`ContactsSpec.LookupAddsWhatItFound`), so that frames for it look for a relay until the next sighting.
- With two records for one peer id in the address book a target could be chosen as its own relay
  (`Routing.DuplicateRecordRelaysToItself`); ids are unique in every reachable address book, so it is not.
- The dialing preview of the terminal interface looks for `/p2p-circuit/` in the text of an address; the daemon
  parses it. They differ on an address that ends in its circuit, and on a text that has a circuit inside but
  does not parse (invite hints are stored unparsed) or has one only as a host name. `Dialing.ClassifiersAgree`
  says that these are all the cases, and `Dialing.PreviewMatchesDaemon` when they show.

## Model

| member | source | states |
|---|---|---|
| Jitter.JitterBuffer.constructor | crates/voicersd/src/media/jitter.rs:15-27 | a new buffer is empty, with depth 3, no clock and all counters zero, and sound |
| Jitter.JitterBuffer.Insert | crates/voicersd/src/media/jitter.rs:29-52 | an arrival, with its eviction loop, acts as the step function `Offer` on the whole state and keeps soundness |
| Jitter.JitterBuffer.NextPlayoutDecision | crates/voicersd/src/media/jitter.rs:54-129 | a poll acts as `Decide` on the whole state; neither `expect` can fail; the target depth stays in 2..6 and at most 8 packets are held outside an epoch |
| Jitter.JitterBuffer.EmitDueFrame | crates/voicersd/src/media/jitter.rs:90-128 | the second half of a poll: play, wait, underflow, FEC or conceal, with the deadline taken from before the rebase |
| Jitter.JitterBuffer.PlayDueFrame | crates/voicersd/src/media/jitter.rs:94-98 | exactly the due packet leaves the buffer and the clock advances one frame |
| Jitter.JitterBuffer.ReplaceDueFrame | crates/voicersd/src/media/jitter.rs:117-128 | a synthesized frame advances the clock, counts one loss and one concealment and raises the depth |
| Jitter.JitterBuffer.AdvancePlayoutClock | crates/voicersd/src/media/jitter.rs:149-153 | next timestamp 960 samples on, deadline 20 ms on, nothing else changed |
| Jitter.JitterBuffer.RaiseTargetDepth | crates/voicersd/src/media/jitter.rs:155-158 | one deeper, at most 6, stability counter cleared |
| Jitter.JitterBuffer.NoteStableTick | crates/voicersd/src/media/jitter.rs:160-171 | fifty ticks in a row with a surplus shrink the depth by one, at least 2 |
| Jitter.JitterBuffer.StreamState | crates/voicersd/src/media/jitter.rs:131-139 | active with a clock, else idle or primed by whether anything is held |
| Jitter.JitterBuffer.EvictSurplus | crates/voicersd/src/media/jitter.rs:42-51 | the loop leaves what `Evict` leaves and counts each packet it drops |
| Jitter.JitterBuffer.StartClock | crates/voicersd/src/media/jitter.rs:55-68 | with as many packets as the target depth the clock starts at the earliest, dated back by the lead where possible |
| Jitter.JitterBuffer.RebaseClock | crates/voicersd/src/media/jitter.rs:81-88 | a gap of more than four frames is skipped, and only such a gap |
| Jitter.EvictionShape | crates/voicersd/src/media/jitter.rs:42-51 | eviction removes a lower part of the timestamps, never the due packet, stops at eight or at the due packet and never goes below eight |
| Jitter.EvictionIsDetermined | crates/voicersd/src/media/jitter.rs:42-51 | those facts determine the remaining buffer uniquely |
| Jitter.OfferSound | crates/voicersd/src/media/jitter.rs:29-52 | an arrival keeps clock and deadline set together, depth in 2..6 and the idle bound of 8 |
| Jitter.DecideSound | crates/voicersd/src/media/jitter.rs:54-129 | so does a poll |
| JitterRuns.PollOutcome | crates/voicersd/src/media/jitter.rs:54-129 | every poll has one of four outcomes, each described in full: a packet played, a frame recovered from the packet after it exactly when that packet is there, a frame concealed exactly when it is not, or nothing emitted |
| JitterSpec.OneFrameIsDue | crates/voicersd/src/media/jitter.rs:54-95 | at every poll nothing is due, or exactly one frame at one slot |
| JitterSpec.PollMeetsSpec | crates/voicersd/src/media/jitter.rs:54-129 | a poll follows the timing rules in plain numbers: the due packet is played, a missing one is waited for 5 ms, then recovered or concealed, or the epoch ends |
| JitterSpec.PollIsDetermined | crates/voicersd/src/media/jitter.rs:54-129 | those rules leave a poll no choice of state or result |
| JitterSpec.RecoveryIsNeverWithheld | crates/voicersd/src/media/jitter.rs:112-128 | a frame made up for a missing packet is recovered from the next packet, with its payload, if and only if that packet is held, and concealed otherwise |
| JitterSpec.ArrivalMeetsSpec | crates/voicersd/src/media/jitter.rs:29-52 | an arrival before the due frame raises the depth and is counted late; any other is held unless its place is taken, and the earliest give way down to eight |
| JitterSpec.ArrivalIsDetermined | crates/voicersd/src/media/jitter.rs:29-52 | these rules leave an arrival no choice |
| JitterRuns.StartupPlaysAtOnce | crates/voicersd/src/media/jitter.rs:55-98 | a startup always plays the earliest packet in the same call |
| JitterRuns.EveryPacketMeetsOneFate | crates/voicersd/src/media/jitter.rs:29-129 | over every run: packets offered = late + duplicate + evicted + played + still held, as multisets; late and lost counters agree; drift corrections = evictions + rebases |
| JitterRuns.PlayoutNeverRunsAhead | crates/voicersd/src/media/jitter.rs:59-97 | in an epoch begun at time s with depth D at most (now - s)/20 + D frames are emitted, with strictly increasing timestamps, across rebases, FEC and concealment |
| JitterRuns.OfferKeepsInTime | crates/voicersd/src/media/jitter.rs:29-52 | a due packet in the buffer is not evicted or overwritten by any arrival |
| JitterRuns.PollKeepsInTime | crates/voicersd/src/media/jitter.rs:77-98 | a poll before the deadline changes nothing; at or after it the due packet is played |
| JitterRuns.InTimePacketIsPlayedNext | crates/voicersd/src/media/jitter.rs:29-129 | through any arrivals and polls the first frame emitted is exactly the due packet, as soon as a poll reaches its deadline |
| JitterRuns.FecSourceIsPlayedNext | crates/voicersd/src/media/jitter.rs:112-122 | the packet whose redundancy fed an FEC frame is the next frame emitted |
| JitterRuns.SynthesisIsBounded | crates/voicersd/src/media/jitter.rs:81-128 | with aligned timestamps at most 4 * (1 + evictions) frames are synthesized between two played packets |
| JitterRuns.TimestampsFitInWords | crates/voicersd/src/media/jitter.rs:81-128 | with aligned timestamps up to a bound the playout clock never passes it by more than one frame, so the 64-bit sums do not overflow |
| JitterRuns.StreamStateIsHonest | crates/voicersd/src/media/jitter.rs:131-139 | active exactly during an epoch; idle exactly when, outside one, every packet that came has been played, evicted or refused |
| JitterRuns.ConcealmentCanStarve | crates/voicersd/src/media/jitter.rs:42-51 | for every n a timely, aligned run with no late or duplicate packet conceals n frames after one played packet, evicting n |
| JitterRuns.UnalignedPacketsConcealForever | crates/voicersd/src/media/jitter.rs:81-128 | for every n a timely run off the frame grid conceals n frames with no eviction |
| JitterProgress.PollProgress | crates/voicersd/src/media/jitter.rs:54-129 | a poll that has reached the deadline does a frame of work or finds the due packet in its grace period |
| JitterProgress.PollsSettle | crates/voicersd/src/media/jitter.rs:54-129 | polls a frame apart, one for each frame of work and one more, end with no epoch and fewer packets than the target depth |
| JitterProgress.PollingDrainsTheBuffer | crates/voicersd/src/media/jitter.rs:54-129 | after any timely, aligned run, six polls a frame apart for each held packet and six more play every held packet except fewer than the target depth, and drop none |
| Media.SendCounters.StampFrame | crates/voicersd/src/media.rs:478-481 | the n-th frame sent carries sequence n + 1 and timestamp 960 n |
| Media.StampsLieOnTheGrid | crates/voicersd/src/media.rs:1324-1330 | frame n is placed at 960 n whether or not its timestamp field is set, so distinct frames lie at least a frame apart |
| Media.TimestampMeaning | crates/voicersd/src/media.rs:1324-1330 | a sample timestamp is taken as it is whatever the sequence number; only without one does the number count, from one |
| Media.SentFramesAreAligned | crates/voicersd/src/media.rs:1324-1330 | packets from the sender in any order, with losses and repetitions, meet the alignment hypothesis, hence the synthesis bound |
| Media.HoldIsStable | crates/voicersd/src/media/jitter.rs:54-129 | polling again at an instant that emitted nothing emits nothing and changes nothing |
| Media.HeardIs | crates/voicersd/src/media.rs:586-630 | what is heard of a poll is the decision of the buffer, unless it holds or decoding fails |
| Media.BurstDrains | crates/voicersd/src/media.rs:586-630 | a playout burst hands on at most four frames, and if fewer then everything that was due, unless a decoding failed |
| Media.PollsAreABurst | crates/voicersd/src/media.rs:586-630 | any sequence of polls that uses up its budget or ends in one that yields nothing is the burst |
| Media.DrivePlayout | crates/voicersd/src/media.rs:586-630 | the burst loop over one peer's buffer yields the frames and the buffer state of the burst, which a hold or a failed decoding ends |
| Dsp.HighPassFilter.Process | crates/voicersd/src/media/dsp.rs:40-47 | the in-place filter computes the run of the recurrence over the frame and its memory |
| Dsp.HighPassConcat | crates/voicersd/src/media/dsp.rs:40-47 | filtering frame by frame equals filtering the whole stream |
| Dsp.HighPassIsBounded | crates/voicersd/src/media/dsp.rs:40-47 | inputs within M give outputs within 2 alpha M, over any number of frames |
| Dsp.HighPassIsAConvolution | crates/voicersd/src/media/dsp.rs:40-47 | from rest, output n is alpha x[n] less the geometrically fading sum of earlier inputs: the impulse response |
| Dsp.AdaptiveNoiseGate.Process | crates/voicersd/src/media/dsp.rs:63-94 | the gate's new floor and gain follow from the frame's level, and the frame is scaled by the new gain |
| Dsp.GateStaysCalm | crates/voicersd/src/media/dsp.rs:63-94 | the gain stays in [0.12, 1] and the noise floor non-negative for every level |
| Dsp.RmsIsTheMeanSquare | crates/voicersd/src/media/dsp.rs:63-66 | with a true square root the level squared is the mean of the squares of the samples |
| Dsp.GateMeetsSpec | crates/voicersd/src/media/dsp.rs:63-94 | in numbers: the floor goes a fiftieth of the way down or a thousandth of the way up to the level, the target is 1 above the opening threshold, 0.12 below the closing one and in proportion between, the gain goes 35 or 8 of a hundred of the way to it |
| Dsp.GateIsDetermined | crates/voicersd/src/media/dsp.rs:63-94 | no other floor and gain meet this |
| Dsp.LoudFramesOpen | crates/voicersd/src/media/dsp.rs:63-94 | through any run of loud frames what the gain lacks to 1 is multiplied by 0.65 with each |
| Dsp.QuietFramesClose | crates/voicersd/src/media/dsp.rs:63-94 | through any run of quiet frames what the gain exceeds 0.12 by is multiplied by 0.92 with each |
| Dsp.VoiceProcessorChain.ProcessInPlace | crates/voicersd/src/media/dsp.rs:20-23 | filter, then gate, on the frame and on both memories |
| Dsp.ChainIsBounded | crates/voicersd/src/media/dsp.rs:20-23 | inputs within M give chain outputs within 2 alpha M, and the state allows the next frame the same |
| Capture.Resample | crates/voicersd/src/media.rs:1137-1170 | the closed form has one output per position with both neighbours present |
| Capture.ResampleMeaning | crates/voicersd/src/media.rs:1137-1156 | output k is on the straight line between input samples floor(k rate / 48000) and the next, and exists exactly when both do |
| Capture.CountMeaning | crates/voicersd/src/media.rs:1140-1144 | output k exists exactly when sample floor(k rate / 48000) + 1 does |
| Capture.SafeRates | crates/voicersd/src/media.rs:1152-1154 | draining stays in range for every input length if and only if the rate is at most 96000 |
| Capture.FastRatesOverrun | crates/voicersd/src/media.rs:1152-1154 | above 96000 an input one sample short of a second overruns |
| Capture.SampleIsBounded | crates/voicersd/src/media.rs:1146-1149 | interpolation never exceeds the bound of the device samples |
| Capture.CapturePipeline.Interpolate | crates/voicersd/src/media.rs:1141-1149 | the sample at the cursor is the next one of the closed form |
| Capture.CapturePipeline.EmitSample | crates/voicersd/src/media.rs:1146-1156 | one sample of the closed form is appended, the cursor stays in [0, 1), unread input is kept exactly, and the loop measure drops by the rate |
| Capture.CapturePipeline.FinishFrame | crates/voicersd/src/media.rs:1158-1168 | a full frame goes through the processor and the gain now set into the queue, and the buffer starts empty; what the gain does to it is said by `Capture.GainReachesEverySample` |
| Capture.CapturePipeline.RebuildReadyFrames | crates/voicersd/src/media.rs:1137-1170 | the loop ends with exactly the closed form of everything heard, or reports an overrun exactly when the closed form overruns; each frame finished carries the gain now set and lengthens the queue by one |
| Capture.CapturePipeline.Ingest | crates/voicersd/src/media.rs:1085-1106 | however the input is chunked, what has been resampled is the closed form of the whole input since the last rate change; one frame exists for each 960 of its samples, the new ones under the gain now set; the queue is the newest eight of the old queue and the new frames |
| Capture.CapturePipeline.Absorb | crates/voicersd/src/media.rs:1100-1101 | exactly the frames the chunk completes join the queue, in order |
| Capture.CapturePipeline.TrimQueue | crates/voicersd/src/media.rs:1103-1105 | the queue becomes its newest eight frames |
| Capture.CapturePipeline.TakeReadyFrame | crates/voicersd/src/media.rs:1108-1113 | the oldest queued frame is handed out and remembered as the last one |
| Capture.CapturePipeline.SetInputGain | crates/voicersd/src/media.rs:1123-1125 | the gain is clamped to [0, 2] and nothing else changes |
| Capture.CapturePipeline.Reset | crates/voicersd/src/media.rs:1127-1135 | everything heard, every queued frame and the repeated frame are forgotten, the gain is kept |
| Capture.FramesAreBounded | crates/voicersd/src/media.rs:1158-1168 | no sample of a finished frame exceeds 4 alpha times the largest resampled one, over any number of frames and gain changes |
| Capture.ResampleIsBounded | crates/voicersd/src/media.rs:1137-1149 | resampling the whole input never exceeds the bound of the device samples |
| Capture.EncodedFramesAreBounded | crates/voicersd/src/media.rs:1085-1121 | end to end: whatever was ingested at this rate, no sample of a queued frame or of the one repeated when the queue is empty exceeds 4 alpha times the largest device sample |
| Capture.FinishedGrows | crates/voicersd/src/media.rs:1158-1168 | later input and later gains add frames and change none |
| Capture.AmplifiedMeaning | crates/voicersd/src/media.rs:1162-1166 | amplifying multiplies every sample by the gain, exactly unless the gain is within 2^-23 of 1 |
| Capture.GainReachesEverySample | crates/voicersd/src/media.rs:1158-1168 | sample n of finished frame i is gains[i] times what the voice processor made of it, exactly if the gain is more than 2^-23 from 1 and to within that proportion otherwise |
| Capture.GainZeroIsSilence | crates/voicersd/src/media.rs:1162-1166 | a frame finished at gain zero is silent |
| Capture.ProcessedStream | crates/voicersd/src/media.rs:1158-1161 | what the voice processor makes of frame i is that stretch of the one filtered stream times the gain the gate has come to after frames 0 to i |
| Capture.QueueIsTheVoice | crates/voicersd/src/media.rs:1085-1168 | end to end: every queued frame is 960 samples of the processed, resampled input under the gain of its finishing, in order |
| Capture.NewestMeaning | crates/voicersd/src/media.rs:1103-1105 | the queue keeps its last eight frames, or all of fewer |
| Stun.XorTwice | crates/voicersd/src/network/stun.rs:152-196 | masking twice restores the value, for naturals of any width |
| Stun.AddressRoundTrip | crates/voicersd/src/network/stun.rs:152-196 | every IPv4 or IPv6 address and port, plain or masked, is read back from its encoding, whatever follows it; what the encoding is on the wire is said by `Stun.EncodingIsOnTheWire` |
| Stun.XorBits | crates/voicersd/src/network/stun.rs:157-159 | exclusive or sets a bit exactly when one operand has it and the other does not |
| Stun.MaskIsXor | crates/voicersd/src/network/stun.rs:169-191 | an octet is masked exactly if each of its bits is turned over where the mask has it |
| Stun.PortOfBytes | crates/voicersd/src/network/stun.rs:158-160 | masking a port masks its high byte with 0x21 and its low byte with 0x12 |
| Stun.EncodingIsOnTheWire | crates/voicersd/src/network/stun.rs:152-196 | the encoding is, byte by byte, what sections 14.1 and 14.2 of RFC 8489 prescribe: family, port and address, masked bit by bit with 21 12 A4 42 and the transaction id |
| Stun.WireIsRead | crates/voicersd/src/network/stun.rs:152-196 | whatever bytes meet that description of an address are read back as it |
| Stun.AddressErrors | crates/voicersd/src/network/stun.rs:152-196 | an address is read if and only if its bytes are enough and its family known, and each error has exactly its cause |
| Stun.SplitIsALayout | crates/voicersd/src/network/stun.rs:123-147 | every byte string is a sequence of padded attributes plus a remainder too short or cut off; no byte is lost or read twice |
| Stun.SplitInvertsEncoding | crates/voicersd/src/network/stun.rs:123-147 | such a layout has only one reading |
| Stun.ScanIsResolve | crates/voicersd/src/network/stun.rs:123-147 | the offset loop judges exactly the attributes of that reading, in order |
| Stun.ParserReadsEveryMessage | crates/voicersd/src/network/stun.rs:99-150 | on every well-headed message the parser returns what its attributes say |
| Stun.AcceptedIsAResponse | crates/voicersd/src/network/stun.rs:100-121 | whatever is accepted begins with the bytes 01 01, its length, 21 12 A4 42 and this transaction id |
| Stun.AcceptedEchoesRequest | crates/voicersd/src/network/stun.rs:91-121 | the request is 00 01 00 00 21 12 A4 42 and the transaction id, and whatever is accepted repeats its bytes 4 to 19 |
| Stun.HeaderErrors | crates/voicersd/src/network/stun.rs:100-121 | the header is refused for length, type, cut-off body, cookie and transaction id, in this order, and otherwise its body is scanned |
| Stun.XorMappedWins | crates/voicersd/src/network/stun.rs:123-150 | the first XOR-MAPPED-ADDRESS decides, wherever it stands among well-formed MAPPED-ADDRESSes |
| Stun.LastMappedWins | crates/voicersd/src/network/stun.rs:123-150 | without one, the last MAPPED-ADDRESS is returned |
| Stun.MalformedMappedRejects | crates/voicersd/src/network/stun.rs:123-150 | a malformed MAPPED-ADDRESS ahead of every XOR-MAPPED-ADDRESS rejects the message |
| Stun.NoMappedRejects | crates/voicersd/src/network/stun.rs:123-150 | without any mapped address the message is rejected |
| Stun.ResponseRoundTrip | crates/voicersd/src/network/stun.rs:99-200 | a success response carrying among other padded attributes one of type 0x0020 whose bytes are the masked address, as the RFC lays it out, parses to that address |
| Stun.MappedRoundTrip | crates/voicersd/src/network/stun.rs:99-200 | so does one whose last attribute of type 0x0001 has the plain address, with none of type 0x0020 |
| Stun.StunBindingRequest | crates/voicersd/src/network/stun.rs:91-97 | the request is a header of twenty bytes with type, zero length, cookie and transaction id |
| Stun.MaskInPlace | crates/voicersd/src/network/stun.rs:169-191 | octets from an offset are masked in place as far as the mask reaches |
| Stun.ParseStunAddress | crates/voicersd/src/network/stun.rs:152-196 | the imperative address parser computes the address function on every byte string |
| Stun.ScanAttributes | crates/voicersd/src/network/stun.rs:123-150 | the attribute loop ends, stays in bounds and computes the scan function |
| Stun.ParseStunBindingResponse | crates/voicersd/src/network/stun.rs:99-150 | in bounds and terminating on all byte strings, and equal to the parse function with its error cases in order |
| Routing.RelayIsTheBest | crates/voicersd/src/network/media_transport.rs:68-126 | a relay is chosen only out of direct reach; some record with its id is trusted and connected and it has offered the target, and no other such contact has more successes less failures on the first path it was last seen on, or as many and a smaller id |
| Routing.UnreachableMeansNoRelay | crates/voicersd/src/network/media_transport.rs:68-126 | a target is given up if and only if it is out of direct reach and no trusted, connected contact offers it, or its id or the foremost such contact's does not parse |
| Routing.RouteMeetsSpec | crates/voicersd/src/network/media_transport.rs:68-126 | the route is as the rules on record fields say: direct for a connected peer, else through the foremost of the trusted, connected contacts that offer the target, else none |
| Routing.RouteIsDetermined | crates/voicersd/src/network/media_transport.rs:68-126 | no other route meets these rules |
| Routing.RouteExists | crates/voicersd/src/network/media_transport.rs:68-126 | there is a route exactly if the target is connected, or a foremost contact offers it, with readable ids |
| Routing.OneForemost | crates/voicersd/src/network/media_transport.rs:97-115 | at most one contact is foremost |
| Routing.ViaIsNotTheDestination | crates/voicersd/src/network/media_transport.rs:68-126 | with unique ids the relay is never the destination |
| Routing.DuplicateRecordRelaysToItself | crates/voicersd/src/network/media_transport.rs:68-126 | without unique ids it can be |
| Routing.ResolveRouteByScan | crates/voicersd/src/network/media_transport.rs:68-126 | filtering and sorting the address book computes the route function |
| Relay.TransmitIsOrderly | crates/voicersd/src/network.rs:687-739 | sending a tick's frame keeps the network invariant, whatever route is chosen |
| Relay.HandleIsOrderly | crates/voicersd/src/network/swarm_events.rs:979-1049 | so does receiving, forwarding or refusing a frame |
| Relay.RunIsOrderly | crates/voicersd/src/network/swarm_events.rs:979-1049 | the invariant holds at every moment of every run of any network with trust, offers and links changing at will |
| Relay.RelayingTakesAtMostTwoHops | crates/voicersd/src/network/swarm_events.rs:979-1049 | a frame makes at most two hops, the second straight to its destination, is delivered at most once and nowhere else, and exists in one copy |
| Relay.RelayedFrameArrives | crates/voicersd/src/network/swarm_events.rs:1006-1030 | a frame sent through a relay that trusts the target and is linked to it arrives after two receptions |
| Relay.SendingMeaning | crates/voicersd/src/network.rs:687-739 | a frame goes to a connected target as it is, else to the foremost contact offering it, marked for the target, else nowhere |
| Relay.ReceivingMeaning | crates/voicersd/src/network/swarm_events.rs:979-1049 | a plain frame or one that has come to its destination is delivered; any other is passed on if its destination is readable, linked and trusted, and is lost if not |
| Dialing.RankKnownPeerAddresses | crates/voicersd/src/network/media_transport.rs:378-405 | the deduplication loop and the sort compute the ranked list |
| Dialing.RankedSpec | crates/voicersd/src/network/media_transport.rs:378-444 | the ranked list is duplicate-free, holds exactly the requested, last-dialed and saved addresses and is sorted by rank, then text |
| Dialing.RankedIsTheOnly | crates/voicersd/src/network/media_transport.rs:378-444 | no other list has these properties |
| Dialing.RankingIsCanonical | crates/voicersd/src/network/media_transport.rs:378-405 | order and repetition of the saved addresses do not matter |
| Dialing.RankingIsTotal | crates/voicersd/src/network/media_transport.rs:407-444 | the dial rank with the text tie-break is a total order |
| Dialing.RankOfAddress | crates/voicersd/src/network/media_transport.rs:407-444 | the four keys of an address in turn: the credit of its path, whether that path last led to this peer, whether it is the address last dialed, whether it was asked for |
| Dialing.DialOrderMeaning | crates/voicersd/src/network/media_transport.rs:378-444 | one address precedes another if and only if its path has more successes less failures, or as many and it wins the tie on last peer, last dial, request and text |
| Dialing.DaemonOrderIsPreviewOrder | crates/voicers/src/ui/model.rs:529-567 | with the same classifier the interface's list equals the daemon's with no requested address |
| Dialing.PreviewMatchesDaemon | crates/voicers/src/ui/model.rs:529-567 | with two classifiers the lists for an entry of a book with unique ids agree under every score table if and only if the classifiers agree on every saved address or each puts all of them on one path |
| Dialing.TextSearchMeaning | crates/voicers/src/ui/model.rs:658-664 | in any text the interface's search finds exactly the circuits that stand between two slashes |
| Dialing.ClassifiersAgree | crates/voicersd/src/network/media_transport.rs:446-457 | on every text the interface's search and the daemon's parse agree if and only if the text is neither a relayed address whose only circuit is its last component, nor one with a circuit between slashes that does not parse or has it only as a value |
| Dialing.PreviewIsRight | crates/voicers/src/ui/model.rs:529-567 | for a record with no address of these kinds the interface shows the daemon's order |
| Dialing.FinalCircuitIsOverlooked | crates/voicers/src/ui/model.rs:658-664 | any relay's address with the circuit appended is relayed for the daemon and direct for the interface |
| Dialing.UnparsableHintIsMisread | crates/voicersd/src/app/peer_book.rs:141-156 | a stored hint with a circuit inside that does not parse is direct for the daemon and relayed for the interface |
| Dialing.HostNameIsMisread | crates/voicers/src/ui/model.rs:658-664 | so is an address that parses and has the circuit's name only as a value, such as a host name |
| Fallback.TargetSpec | crates/voicersd/src/network/media_transport.rs:304-366 | a dial plan repeats no address and includes a requested address |
| Fallback.TargetOfPeer | crates/voicersd/src/network/media_transport.rs:304-366 | for the id of a known peer its ranked addresses are dialed, or the id itself if it has none |
| Fallback.TargetOfAddress | crates/voicersd/src/network/media_transport.rs:304-366 | an address with a peer id in it joins the ranked addresses of that peer; without a record, or without an id, it is dialed as it is |
| Fallback.RecordCountsOnce | crates/voicersd/src/network.rs:957-980 | an outcome is counted once, as success or failure, on its path, with its peer, and on no other |
| Fallback.FailureMeaning | crates/voicersd/src/network/swarm_events.rs:244-310 | a failure is charged to the kind of path being dialed, direct where nothing is pending; the next fallback becomes current, and is handed to the library exactly if it can be read |
| Fallback.ConnectionMeaning | crates/voicersd/src/network/swarm_events.rs:119-156 | a connection ends the dial of its own peer only and counts as a success of its path |
| Fallback.DialsFollowTheirPlan | crates/voicersd/src/network/swarm_events.rs:244-310 | over every run: addresses tried and remaining follow the plan, none is used twice, at most plan-length attempts are made, each failure is charged to the path of the address then current, and a path's successes are the connections made over it |
| Fallback.QuietOnceConnected | crates/voicersd/src/network/swarm_events.rs:119-124 | with no dial pending no late failure triggers an attempt |
| Fallback.ConnectingEndsTheDial | crates/voicersd/src/network/swarm_events.rs:119-124 | after a connection no fallback is tried until the peer is dialed anew |
| Fallback.DialBook.DialRankedTarget | crates/voicersd/src/network.rs:922-955 | an accepted dial with a known peer id becomes that peer's pending dial |
| Fallback.DialBook.RecordScore | crates/voicersd/src/network.rs:957-980 | the score of the path is found or created and updated in place |
| Fallback.DialBook.OutgoingConnectionError | crates/voicersd/src/network/swarm_events.rs:244-310 | the failure is charged, the first fallback becomes current and is handed out if it parses |
| Fallback.DialBook.ConnectionEstablished | crates/voicersd/src/network/swarm_events.rs:119-156 | the pending dial is dropped and the success recorded |
| Contacts.OperationKeeps | crates/voicersd/src/app/peer_book.rs:6-159 | every operation keeps ids unique, ignored ids known and the views current, drops nobody, unsees nobody, unlists nobody, and leaves friends alone unless it saves, renames or forgets |
| Contacts.OperationIsLocal | crates/voicersd/src/network.rs:986-1043 | an operation on one peer leaves every other record exactly as it was |
| Contacts.BookOverRuns | crates/voicersd/src/app/peer_book.rs:6-159 | the same over every sequence of operations |
| Contacts.ViewsPartition | crates/voicers-core/src/lib.rs:184-200 | each known id is in exactly one of friends, seen users and discovered peers, according to its flags |
| Contacts.UpdatedRecord | crates/voicersd/src/network.rs:986-1043 | what an update leaves of the record: name and connection as given, seen never withdrawn, friendship and whitelisting untouched |
| Contacts.SeedRendezvousKept | crates/voicersd/src/network/invite.rs:185-212 | a rendezvous lookup makes the peer known and keeps everything an operation must keep |
| ContactsSpec.SavingPins | crates/voicersd/src/app/peer_book.rs:6-37 | saving makes a friend, ends the ignoring and copies name, address, connection and session of a live peer, field by field |
| ContactsSpec.RenamingPins | crates/voicersd/src/app/peer_book.rs:39-68 | renaming makes a friend under the new name and does not end the ignoring |
| ContactsSpec.ForgettingIgnores | crates/voicersd/src/app/peer_book.rs:70-91 | forgetting keeps the record, unpinned, and ignores the peer from now on |
| ContactsSpec.ForgettingUndoesSaving | crates/voicersd/src/app/peer_book.rs:6-91 | saving after forgetting leaves the record it would have left before |
| ContactsSpec.FlagsAreSet | crates/voicersd/src/app/peer_book.rs:93-110 | trust, whitelist and connection set one flag each of a known peer, and nothing of an unknown one |
| ContactsSpec.MeetingRecords | crates/voicersd/src/network.rs:986-1043 | an update does nothing to an ignored peer; otherwise each field of its record is as given, kept or extended, and a publishable address is added and dialed first |
| ContactsSpec.InviteAddsItsHints | crates/voicersd/src/app/peer_book.rs:112-159 | the hints of an invite, trimmed and without blanks, are added in order, each once; the first is dialed if there was nothing to dial |
| ContactsSpec.LookupAddsWhatItFound | crates/voicersd/src/network/invite.rs:185-212 | so are the addresses a lookup found, published ones in full; the last is dialed from now on, and the record is marked as not connected |
| ContactsSpec.ChangesAreShown | crates/voicers-core/src/lib.rs:184-200 | whatever changes the records shows the new ones in the three views, except for connections and lookups |
| AddressBook.KnownPeers.RefreshUserViews | crates/voicers-core/src/lib.rs:184-200 | the refill loop computes the three views |
| AddressBook.KnownPeers.UpdateKnownPeer | crates/voicersd/src/network.rs:986-1043 | acts as the update operation; ignored peers are left alone |
| AddressBook.KnownPeers.SaveKnownPeer | crates/voicersd/src/app/peer_book.rs:6-37 | acts as saving; the ignore mark goes even when there is nobody to save |
| AddressBook.KnownPeers.RenameKnownPeer | crates/voicersd/src/app/peer_book.rs:39-68 | acts as renaming, which also makes a friend; fails only for a peer neither known nor live |
| AddressBook.KnownPeers.ForgetKnownPeer | crates/voicersd/src/app/peer_book.rs:70-91 | the record stays, unpinned and ignored; fails for an unknown peer |
| AddressBook.KnownPeers.SetTrustedContact | crates/voicersd/src/app/peer_book.rs:93-110 | sets the trust flag of a known peer, or fails |
| AddressBook.KnownPeers.SetWhitelistedPeer | crates/voicersd/src/app.rs:612-654 | sets the whitelist flag of a known peer |
| AddressBook.KnownPeers.SetPeerConnected | crates/voicersd/src/network/swarm_events.rs:227-234 | sets the connection flag and, as the code, does not refresh the views |
| AddressBook.KnownPeers.SeedInviteHints | crates/voicersd/src/app/peer_book.rs:112-159 | acts as seeding an invite: the peer becomes known, its hints are added once, the first becomes the dial address if there was none |
| AddressBook.KnownPeers.SeedRendezvousInvite | crates/voicersd/src/network/invite.rs:185-212 | acts as the rendezvous operation: the last usable address becomes the dial address, and the views are not refreshed after the addresses go in |
| Session.StepKeepsBook | crates/voicersd/src/network/swarm_events.rs:119-441 | every event of the daemon keeps the address book tidy and changes friends only by save, rename and forget commands |
| Session.BookAfterStep | crates/voicersd/src/network/session.rs:300-333 | every event acts on the address book as at most one of its operations |
| SessionRuns.StepGate | crates/voicersd/src/network/session.rs:118-198 | one event lets an unadmitted peer in, without anybody's leave, exactly if it is a new connection of a queued peer |
| SessionRuns.GateOverRuns | crates/voicersd/src/network/swarm_events.rs:793-830 | through any interleaving in which nobody admits it, a peer stays without peer entry and media flow if and only if it never reconnects while queued |
| SessionRuns.StrangerNeedsApproval | crates/voicersd/src/network/swarm_events.rs:119-189 | a stranger with a single connection is kept out whatever it sends |
| SessionRuns.SecondConnectionSkipsApproval | crates/voicersd/src/network/swarm_events.rs:793-830 | a second connection and a repeated hello start a flow without approval |
| SessionRuns.RecognizedHelloIsAccepted | crates/voicersd/src/network/swarm_events.rs:799-819 | a hello from a connected or whitelisted peer starts its flow and queues nobody |
| SessionRuns.BookThroughRuns | crates/voicersd/src/network/swarm_events.rs:119-441 | over every run of the daemon the address book stays tidy and loses nothing, and friends change only by command |
| SessionRuns.WhitelistingIsPermanent | crates/voicersd/src/app.rs:612-654 | approving with whitelisting takes effect whatever happens before, between and after, and the peer's hello is never queued again |
| SessionRuns.EveryStartIsFresh | crates/voicersd/src/app.rs:85-153 | every start of the daemon since the first, whatever happened in earlier lives, meets the hypothesis of the theorems about runs |
| SessionRuns.RestartsLoseNothing | crates/voicersd/src/app/state.rs:14-24 | known peers, sightings and whitelistings survive any number of restarts |
| SessionRuns.TicksAreConserved | crates/voicersd/src/network/session.rs:235-247 | over every run, for every peer: ticks in flight = active flow + closes of active flows - ticks spent idle; an active flow always has a tick coming, exactly one when every close has been paid for |
| SessionRuns.ReopeningDoublesTheTicks | crates/voicersd/src/network/swarm_events.rs:895-905 | a flow closed and reopened within one tick runs two |
| SessionRuns.FlowEndsForAReason | crates/voicersd/src/network.rs:687-739 | an active flow ends in a step if and only if its connection closes or a tick of it finds no route |
| SessionRuns.FlowsLast | crates/voicersd/src/network.rs:687-739 | over every run without such a step the flow stays active |
| SessionRuns.OffersAreTheLastGreeting | crates/voicersd/src/network/swarm_events.rs:793-906 | over every run the offers relays are chosen by are those of the last greeting taken or answer since the last connection, and never those of a greeting approved by hand |
| SessionSpec.ConnectionIsListed | crates/voicersd/src/network/swarm_events.rs:119-189 | which connections show in the list, and the entry and record each leaves, field by field |
| SessionSpec.CloseEndsTheFlow | crates/voicersd/src/network/swarm_events.rs:190-243 | a closed connection ends the flow, the last one takes the offers and the entry of a stranger with it; the record is marked |
| SessionSpec.IdentityIsRecorded | crates/voicersd/src/network/swarm_events.rs:371-396 | an identified peer that is listed or known gets address, name and connection, anybody else nothing |
| SessionSpec.PingMarksConnected | crates/voicersd/src/network/swarm_events.rs:427-441 | a ping marks a listed peer as connected |
| SessionSpec.GreetingIsTaken | crates/voicersd/src/network/session.rs:200-248 | the greeting of a connected or whitelisted peer: session, name, room, record, flow, one tick if the flow is new, offers, queue |
| SessionSpec.GreetingIsHeldBack | crates/voicersd/src/network/session.rs:146-198 | anybody else's is queued in place of an earlier one, and nothing else changes |
| SessionSpec.AnswerIsTaken | crates/voicersd/src/network/swarm_events.rs:886-906 | an answer to our greeting is always taken, its offers kept and the queue left alone |
| SessionSpec.ApprovalTakesTheGreeting | crates/voicersd/src/network/session.rs:250-274 | approval takes the greeting held back, once, and does not keep its offers |
| SessionSpec.RejectionForgetsTheGreeting | crates/voicersd/src/network/session.rs:276-298 | rejection forgets it, dequeues the peer and admits nobody |
| SessionSpec.CompletionWhitelists | crates/voicersd/src/app.rs:612-670 | the second half of a command dequeues the peer and whitelists it exactly if asked to |
| SessionSpec.SavingCopiesTheEntry | crates/voicersd/src/app/peer_book.rs:6-37 | what saving copies is what the list shows of the peer |
| SessionSpec.RenamingReachesBoth | crates/voicersd/src/app/peer_book.rs:39-68 | renaming changes the entry and the record |
| SessionSpec.CommandsReachTheBook | crates/voicersd/src/app/peer_book.rs:70-159 | forgetting, trusting, invites and lookups change the address book only, by their operation, and a dial only the dials under way |
| SessionSpec.TickGoesOnWithARoute | crates/voicersd/src/network.rs:687-739 | a tick of an active flow leaves the flow active and schedules the next if the target is connected or some trusted, connected contact offers it, with readable ids; otherwise it ends the flow and is spent |
| NetworkTask.NetworkState.ConnectionEstablished | crates/voicersd/src/network/swarm_events.rs:119-189 | the handler acts as the step function on the whole daemon state |
| NetworkTask.NetworkState.ShouldSurface | crates/voicersd/src/network/session.rs:335-354 | the query is: dialed, listed, known or queued |
| NetworkTask.NetworkState.UpsertPeer | crates/voicersd/src/network/session.rs:30-57 | the peer is found or inserted, connected, at least handshaking, and recorded in the address book |
| NetworkTask.NetworkState.GetOrInsertPeer | crates/voicersd/src/network/session.rs:59-103 | index of the peer, after giving it the address or appending it |
| NetworkTask.NetworkState.ConnectionClosed | crates/voicersd/src/network/swarm_events.rs:190-243 | the handler acts as the step function: strangers that leave nothing are dropped, the flow ends, offers go with the last connection |
| NetworkTask.NetworkState.PeerIdentified | crates/voicersd/src/network/swarm_events.rs:371-396 | only a listed or known peer is identified: it is renamed, marked connected and recorded; a stranger changes nothing |
| NetworkTask.NetworkState.PingReceived | crates/voicersd/src/network/swarm_events.rs:427-441 | a listed peer is marked connected; a stranger changes nothing |
| NetworkTask.NetworkState.HelloReceived | crates/voicersd/src/network/swarm_events.rs:793-830 | the handler acts as the step function: accepted or queued |
| NetworkTask.NetworkState.IsRecognized | crates/voicersd/src/network/session.rs:118-130 | the query is: some entry of the peer is connected, or its first known record is whitelisted |
| NetworkTask.NetworkState.HelloAcked | crates/voicersd/src/network/swarm_events.rs:886-906 | the handler acts as the step function |
| NetworkTask.NetworkState.ApplySessionHello | crates/voicersd/src/network/session.rs:300-333 | an accepted hello makes the session active and the peer known |
| NetworkTask.NetworkState.ApplyApprovedSessionHello | crates/voicersd/src/network/session.rs:200-248 | a new flow schedules one tick and leaves the queue; a running one does neither |
| NetworkTask.NetworkState.SendMediaFrame | crates/voicersd/src/network.rs:687-739 | the handler acts as the step function on the whole daemon state, whose two branches `SessionSpec.TickGoesOnWithARoute` tells apart |
| NetworkTask.NetworkState.ApprovePendingPeer | crates/voicersd/src/network/session.rs:250-274 | succeeds exactly for a waiting peer, and then acts as accepting its last hello |
| NetworkTask.NetworkState.RejectPendingPeer | crates/voicersd/src/network/session.rs:276-298 | succeeds exactly for a waiting peer, and then takes it off the queue |
| NetworkTask.NetworkState.FinishCommand | crates/voicersd/src/app.rs:612-670 | the second half of a command: whitelist if asked, and off the queue |
| Rooms.LocalAdminMayInvite | crates/voicersd/src/app/state.rs:124-148 | the permission query grants an invite to a local admin |
| Text.TrimCutsBlanks | crates/voicersd/src/app/state.rs:61-68 | trimming cuts blanks off both ends and nothing else |
| Rooms.NormalizedName | crates/voicersd/src/app/state.rs:61-68 | a room name is trimmed and never empty, and normalizing it again changes nothing |
| Rooms.AdmittedSpec | crates/voicersd/src/app/state.rs:189-234 | the local peer becomes an admin of a room entered, keeping its name and invite |
| Rooms.SyncKeepsOrder | crates/voicersd/src/app/state.rs:150-172 | synchronizing memberships keeps the room invariant |
| Rooms.ObeyKeepsOrder | crates/voicersd/src/app.rs:344-472 | every room command keeps the room invariant |
| Rooms.RoomsOverRuns | crates/voicersd/src/app.rs:672-721 | after any commands: names strictly sorted, exactly the session room engaged, the local peer may invite to it, "main" has no invite, and a rotation succeeds if and only if the session is in a custom room |
| Rooms.EveryLifeIsInOrder | crates/voicersd/src/app.rs:209-222 | the room invariant holds in every life of the daemon since a first start without rooms, through any restarts and commands |
| Rooms.RotationReplacesOneInvite | crates/voicersd/src/app.rs:672-721 | a rotation replaces the session room's invite and touches no other room |
| RoomsSpec.PermissionMeaning | crates/voicersd/src/app/state.rs:124-148 | a peer has a permission if and only if its first record in the first room of the name lists a role whose first definition grants it |
| RoomsSpec.EnteringMeaning | crates/voicersd/src/app/state.rs:70-100 | the room entered is engaged, has an admin role with all four permissions and the local peer as an admin under its own or an unnamed record; every other room is only left |
| RoomsSpec.CreationMeaning | crates/voicersd/src/app.rs:344-371 | creating enters the room; a custom one gets a new invite with code, expiry, creator and share text, and "main" none; other rooms are only left |
| RoomsSpec.AdoptionMeaning | crates/voicersd/src/app.rs:409-419 | adopting enters the room and leaves its invite as it was |
| RoomsSpec.RenamingMeaning | crates/voicersd/src/app.rs:450-472 | a blank display name is refused; any other renames the local peer in every room it is in, and makes it an admin only of an empty one |
| RoomsSpec.RefusalMeaning | crates/voicersd/src/app.rs:672-700 | a rotation is refused exactly outside a custom room, or without the permission, and then changes nothing |
| RoomsSpec.NewAddressesMeaning | crates/voicersd/src/network/invite.rs:221-240 | new addresses change the share text of the session room's invite and nothing else |
| Rooms.RoomBook.CreateOrUpdate | crates/voicersd/src/app/state.rs:70-100 | the list is edited in place as `CreateOrUpdateRoom` says |
| Rooms.RoomBook.EngageOnly | crates/voicersd/src/app/state.rs:76-78 | exactly the rooms of this name are engaged |
| Rooms.RoomBook.SetRoomInvite | crates/voicersd/src/app/state.rs:102-122 | the first room of that name gets the invite |
| Rooms.RoomBook.SyncLocalRoomMemberships | crates/voicersd/src/app/state.rs:150-172 | the loop synchronizes every room |
| Rooms.RoomBook.RefreshShareInvite | crates/voicersd/src/network/invite.rs:221-240 | the engaged room's invite text is renewed, if it has an invite |
| Rooms.RoomBook.HandleCreateRoom | crates/voicersd/src/app.rs:344-371 | acts as the command: enter, set the session, make an invite unless the room is "main" |
| Rooms.RoomBook.AdoptRoomInvite | crates/voicersd/src/app.rs:409-419 | acts as the command: enter without touching an invite |
| Rooms.RoomBook.HandleSetDisplayName | crates/voicersd/src/app.rs:450-472 | refuses an empty name, else renames and synchronizes |
| Rooms.RoomBook.HandleRotateInviteCode | crates/voicersd/src/app.rs:672-721 | acts as the command, with its refusals in order |
| Invites.InviteIsThePrefixOfTheRecord | crates/voicersd/src/network/invite.rs:25-58 | the three capped passes give the first four addresses of the rendezvous record's uncapped deduplication |
| Invites.InviteSpec | crates/voicersd/src/network/invite.rs:243-310 | an invite has at most four addresses, no repetition, and none exactly when there is nothing to publish |
| Invites.PublishedMeaning | crates/voicersd/src/network/invite.rs:312-327 | nothing is published before the peer id is known; after that a usable address is, with its own peer id or else the local one |
| Invites.InviteIsFull | crates/voicersd/src/network/invite.rs:243-310 | an invite holds only published forms of the daemon's addresses, and all of them unless it holds four |
| Invites.EarlierKindsComeFirst | crates/voicersd/src/network/invite.rs:243-262 | external addresses come before observed ones and those before the ones listened on: a later kind is in only behind all of the earlier |
| Invites.CollectShareableInviteAddrs | crates/voicersd/src/network/invite.rs:290-310 | the loop with its break and continues computes one capped pass |
| Invites.BestDirectCallInvite | crates/voicersd/src/network/invite.rs:243-262 | the addresses of the direct-call invite, or none, in terms of the rendezvous record |

## Left out

- Opus, CPAL, PipeWire, CoreAudio, WebRTC and libp2p internals: foreign libraries; the model has the events they raise and the calls made to them.
- JSON and base64 encoding of invites, rendering of share texts: the model has the addresses and fields that go in.
- The terminal interface apart from its dialing preview, the control socket, command line, clipboard and file persistence: input and output.
- Rounding of 32-bit floats: samples are reals and the resampler's cursor is an exact multiple of 1/48000 of a sample; square roots are any non-negative function.
- Widths of counters: packet, score and statistics counters are unbounded; timestamps are justified by `JitterRuns.TimestampsFitInWords`.
- Media.DrivePlayout: does not model what is decoded, gains, levels and output registration; which polls of a burst fail to decode is a parameter, because decoding is a foreign library.
- Session.StepKeepsBook: does not model the list of notes, saved_peer_addrs, outgoing hellos and WebRTC signals, which no property reads.
- Relay.RelayingTakesAtMostTwoHops: does not attribute relayed frames to their origin at the destination, because the code credits the peer that forwarded them.
- Fallback.DialsFollowTheirPlan: does not promise that every fallback is reached, because the code stops at one that does not parse or cannot be dialed.
- Contacts.ViewsPartition: is about ids; after a connection closes or a rendezvous lookup the views hold older copies of the records, because the code does not refresh them there.
- JitterRuns.PlayoutNeverRunsAhead: orders frames within an epoch only; an underflow forgets the clock, so a later epoch may play older timestamps.
- Invites.CollectShareableInviteAddrs: takes the multiaddress classification as a parameter; the protocol flags of is_supported_dial_addr and is_shareable_multiaddr are not modelled.
- Publishing rendezvous records and the DHT queries that fetch them: the model has their effect on the address book.
- Toggling mute, volumes and device selection: easy members with no property across calls.
