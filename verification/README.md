# Verified models of BTstack's streaming, input and client examples

This project models the state-carrying parts of the BTstack examples, and the two library components they rest on, in
Dafny, and proves properties of every run of them. `dafny verify dfyconfig.toml` checks everything.

Where the original changes variables step by step, the model is a class or a method with the same loops, proved
against a specification on values; the theorems are about that specification. Automatic induction is off for every
lemma.

| module | what it models |
|---|---|
| `AccuratePlan`, `AccurateTiming`, `AccurateEnd`, `AccuratePlayback`, `AccurateRuns` | sample-accurate playback of the LE Audio sink: microsecond times to buffer positions |
| `Lc3Ring`, `GenericPlayback` | the 20-slot drop-oldest jitter buffer and playback on demand with start threshold and underrun |
| `IsoPacket`, `IsoTransfer` | HCI ISO Data packets (Bluetooth Core Specification, Vol 4, Part E, section 5.4.5), writer and parser |
| `BroadcastSource` | which generator and stream serves a broadcast isochronous stream |
| `HidKeymap`, `HogKeyboard`, `HogBootHost`, `KeyboardRoundTrip` | typed text to key reports and back |
| `A2dpSink`, `A2dpSource` | the pull pipeline and the pacing of A2DP audio (timestamps of section 5.1 of RFC 3550) |
| `ByteRing`, `Resampler` | `btstack_ring_buffer` and `btstack_resample`, which both A2DP and LE Audio sinks use |
| `GapInquiry`, `HeartRateClient`, `BootHostConnection` | event-driven protocol clients with their environment |
| `StreamerServer` | round-robin notifications for a table of any size |
| `Arith`, `Wrappers` | products, quotients and remainders of unknowns; optional values |

## Main results

- Accurate playback: every sample is on time and no silence is needless (`AccurateTiming.PlanSound`), for exactly the
  end times of `AccurateEnd.NoOverrunExactly` and `AccurateEnd.NoNeedlessSilenceExactly`; the callback with its
  wrapping times, ring and cache follows the plan for any input (`AccuratePlayback.PlayChannel`), and goes on across
  callbacks (`AccurateRuns.Seamless`).
- Generic playback: the output is the sound of the frames in arrival order (`GenericPlayback.GenericSink.Playback`),
  and the ring holds exactly the most recent unread packets (`Lc3Ring.MostRecentUnread`).
- Resampling does not depend on block boundaries (`Resampler.SplitInvariant`) and does not drift
  (`Resampler.NoDrift`).
- ISO packets, keyboard reports and A2DP packets come back as they were sent (`IsoTransfer.Transfer`,
  `KeyboardRoundTrip.ScreenShowsText`, `A2dpSource.SinkReads`).
- Pacing is exact unless a product overflows (`A2dpSource.DriftFree`); the pull pipeline delivers the stream without
  loss (`A2dpSink.Sink.PlaybackHandler`).
- Clients keep their protocols in every run (`HeartRateClient.Safe`, `BootHostConnection.TimerAndAssertions`,
  `BootHostConnection.ReadyEarned`, `GapInquiry.PhaseAsksEachOnce`); every stream and every payload is served once
  (`BroadcastSource.Broadcast.EveryPayloadOnce`), and the streamer is fair (`StreamerServer.Fair`).

## Where the code does not do what one would expect

Each of these is stated exactly, as an equivalence where possible, and the code is modelled as it is.

- A2DP source: the header byte is not counted when a packet is filled. If frames fill the payload limit exactly, every
  packet is one byte too long and `src/classic/avdtp_source.c:205-207` refuses it (`A2dpSource.HeaderByte`).
- A2DP source: a tick at 32-bit time 0 is taken for "no tick yet" (`A2dpSource.PeriodExact`), a period whose product
  with the rate overflows loses samples (`A2dpSource.DriftFree`), and switching the source while a packet is scheduled
  sends an empty packet (`A2dpSource.Source.SendMediaPacket`), which the sink ignores
  (`A2dpSource.EmptyPacketIgnored`).
- A2DP sink: the reader of the one-byte SBC header asks for 12 bytes, so shorter packets are ignored; longer ones
  divide by zero if their frame count is zero or exceeds their bytes (`A2dpSink.DividesByZeroExactly`).
- Accurate playback: the decoded-frame cache is labelled with a slot, so the 20th packet after the one decoded can be
  played with its samples (`AccuratePlayback.PlayedRight`, `AccurateRuns.StaleSamples`). A packet that is cut by the
  end of a buffer is lost if too many packets are stored before the next callback (`AccurateRuns.Seamless`). The
  buffer duration is cached for a number of samples, so after a change to a higher frequency silence is written past
  the buffer, and after a change to a lower one due packets are held back (`AccurateEnd.StaleDuration`,
  `AccurateEnd.StaleOverruns`). Overlapping packets overrun the buffer too, an overlap of 1 us is enough
  (`AccurateEnd.NoOverlapExactly`), and at 44.1 kHz the duration of a packet is taken for 10 ms although its samples
  last longer (`AccurateEnd.LongFramesOverrun`).
- Generic playback: the compensation factor is computed (`le_audio_demo_util_sink.c:701`) but never given to the
  resamplers, so they stay at the neutral factor and only hold one sample back (`Resampler.NeutralStep`).
- Sink and source compute channels differently (`IsoPacket.ChannelsAgree`).
- Heart-rate client: the handle of the location characteristic survives a reconnection
  (`HeartRateClient.LocationRead`, `HeartRateClient.LeftoverRead`), and a failed connection attempt is taken for a
  connection, after which nothing happens any more (`HeartRateClient.ScanningStuckExactly`,
  `HeartRateClient.StuckForGood`).
- Keyboard: a disconnection while something is being sent makes the sender deaf for good
  (`KeyboardRoundTrip.CutExactly`, `KeyboardRoundTrip.CutForGood`), and what was typed without a host waits for the
  next character typed with one (`KeyboardRoundTrip.AllDelivered`).
- Boot host: a failed re-encryption is treated as success (`BootHostConnection.ReadyEarned`). Usage 0 makes character
  0xff typeable, as a key that prints nothing (`KeyboardRoundTrip.RoundTrip` renders it as nothing).
- Streamer: streaming stops when the only connection with a can-send request leaves (`StreamerServer.AwakeUnless`),
  and a write from a connection that found the table full has no entry (`StreamerServer.WriteMisses`).

## Assumptions

- Accurate playback: times within half the clock range and without wrap in one callback, and a decoder whose output
  depends on the packet alone. The theorems about time also need `num_samples_per_frame * 1000000 == duration_us *
  fs`, packets in order that do not overlap, and fewer than 2148 samples per callback; the callback itself is modelled
  without.
- Generic playback: streams whose channels are stored together (1 x 1, 1 x 2).
- Keyboard: can-send requests are kept with the connection (`src/ble/att_server.c:1407-1412`) and go with it.
- A2DP: the decoder calls back at most once per frame, with at most 128 stereo frames; one SBC frame length and one
  sample count per frame in a stream; a little-endian machine; at least one and at most 15 frames per packet.
- Clients: the stack answers each request at most once, completes only the current connection attempt, reports success
  of pairing only for a pairing request, and drops requests and queries of a link that goes down. The controller
  reports "working" once.

## Model

| member | source | states |
|---|---|---|
| `AccuratePlan.CodeExact` | example/le_audio_demo_util_sink.c:288-300 | the 32-bit product and 16-bit quotient of the two divisions are exact while the product fits 32 bits |
| `AccuratePlan.SilenceFits` | example/le_audio_demo_util_sink.c:284-297 | the silence before a packet never exceeds the samples still owed, in spite of two rounding divisions, and the loop stays less than one sample ahead of its clock |
| `AccuratePlan.CopyFits` | example/le_audio_demo_util_sink.c:298-316 | for a packet that has not ended the sample index is below the frame size (the assertion), and copying to its end keeps the loop on track |
| `AccuratePlan.Plan` | example/le_audio_demo_util_sink.c:254-326 | for every queue, end time and loop state the loop ends, filling exactly the samples owed, overrunning the buffer, or failing the assertion on the index |
| `AccuratePlan.PlaybackDone` | example/le_audio_demo_util_sink.c:245-327 | silence, copies and tail are together exactly num_samples for every queue of fitting windows, if the end time is not late |
| `AccuratePlan.LastStays` | example/le_audio_demo_util_sink.c:254-326 | if the last sample of the buffer belongs to a packet, that packet stays the oldest in the ring and is the one in the cache |
| `AccuratePlan.TakenIsOver` | example/le_audio_demo_util_sink.c:259-326 | for fitting windows and an end time that is not late, the callback takes a packet out of the ring only if it had ended when the buffer started or its last sample is in the buffer |
| `AccurateTiming.PlanSound` | example/le_audio_demo_util_sink.c:254-326 | from every loop state on track, every cell is faithful and, if the end time is not early, justified; one induction along the loop |
| `AccurateTiming.TimeFaithful` | example/le_audio_demo_util_sink.c:284-317 | every sample played exists in its packet and is less than one sample late and at most one rounding early for each gap before its packet |
| `AccurateTiming.SilenceJustified` | example/le_audio_demo_util_sink.c:254-326 | no needless silence: at a silent position the packets before it have ended, up to one rounding for each gap before them, and the others start later; the partner of TimeFaithful |
| `AccurateRuns.BufferOnTime` | example/le_audio_demo_util_sink.c:245-327 | in a filled channel every position holds a sample of a packet of the queue that is on time, or zero because nothing is due |
| `AccurateTiming.ResumesAt` | example/le_audio_demo_util_sink.c:300-316 | the next callback goes on with a cut packet at most one sample ahead: it skips none, and repeats at most one and one for each gap |
| `AccurateEnd.NoOverrunExactly` | example/le_audio_demo_util_sink.c:278-296 | the end times for which no fitting queue overruns the buffer are exactly those that are not late, at every supported frequency |
| `AccurateEnd.LateOverruns` | example/le_audio_demo_util_sink.c:278-296 | for every later end time, a fitting queue of two packets that overruns the buffer |
| `AccurateEnd.NoNeedlessSilenceExactly` | example/le_audio_demo_util_sink.c:278-282 | the end times for which no fitting queue has needless silence are exactly those that are not early |
| `AccurateEnd.EarlyWithholds` | example/le_audio_demo_util_sink.c:278-282 | for every earlier end time, a packet that is held back although it is due |
| `AccurateEnd.StaleDuration` | example/le_audio_demo_util_sink.c:234-241 | with a duration cached at another frequency no fitting queue overruns if and only if the frequency did not rise, and none is held back either if and only if it did not change |
| `AccurateEnd.StaleOverruns` | example/le_audio_demo_util_sink.c:234-296 | 480 samples cached at 16 kHz and played at 48 kHz: a packet 20 ms after the start writes 960 silent samples into a buffer of 480 |
| `AccurateEnd.NoOverlapExactly` | example/le_audio_demo_util_sink.c:284-317 | the overlap of packets for which no queue overruns the buffer is exactly none, for buffers that last whole microseconds and are longer than a frame |
| `AccurateEnd.TouchingOverruns` | example/le_audio_demo_util_sink.c:284-317 | for every such buffer, three packets of which two overlap by 1 us and that overrun it |
| `AccurateEnd.OverlapOverruns` | example/le_audio_demo_util_sink.c:284-317 | the loop overruns on concrete windows that overlap by 20 us |
| `AccurateEnd.LongFramesOverrun` | example/le_audio_demo_util_sink.c:284-317 | at 44.1 kHz, where packets last 10884 us and their windows 10000 us, a buffer of 480 to 960 samples that starts with a packet overruns exactly if it has fewer than 518 |
| `AccuratePlayback.DeltaExact` | example/le_audio_demo_util_sink.c:261-285 | wrapping time differences are the true differences for times within half the clock range |
| `AccuratePlayback.DecodeHead` | example/le_audio_demo_util_sink.c:267-276 | in every state of the cache: the sample buffer then holds the samples of the oldest packet if and only if it was decoded now or the cached packet sounds the same |
| `AccuratePlayback.HeardRight` | example/le_audio_demo_util_sink.c:254-276 | every packet of the queue would be decoded with its own samples if and only if the first packet that has not ended is not in the slot of the cache, or sounds like the cached one |
| `AccuratePlayback.PlayedRight` | example/le_audio_demo_util_sink.c:254-326 | the samples a callback plays are those of their packets if and only if the first packet that has not ended is not in the slot of the cache, or those of its samples that are played are the cached ones |
| `AccuratePlayback.CacheSlot` | example/le_audio_demo_util_sink.c:267-276 | a packet shares the slot of the cache exactly if it was stored a multiple of 20 packets before or after the cached one |
| `AccuratePlayback.StorePacket` | example/le_audio_demo_util_sink.c:442-481 | storing enqueues, in every state of the cache, and leaves the cache with the packet it holds |
| `AccuratePlayback.PlayGap` | example/le_audio_demo_util_sink.c:286-297 | the silence loop in 16 and 32 bit arithmetic writes the planned cells, or the outcome is an overrun |
| `AccuratePlayback.PlayPart` | example/le_audio_demo_util_sink.c:298-316 | the copy loop writes the planned samples, or the outcome is the failed assertion |
| `AccuratePlayback.PlayHead` | example/le_audio_demo_util_sink.c:254-318 | one round of the loop on wrapping times, ring indices and any cache follows the plan and makes progress |
| `AccuratePlayback.PlayChannel` | example/le_audio_demo_util_sink.c:246-327 | for every queue, end time and cache: the channel is filled exactly if the plan is, and then holds the plan; the ring keeps exactly the packets the plan leaves, and the cache the packet decoded last; other channels are untouched |
| `AccuratePlayback.AccurateSink.Playback` | example/le_audio_demo_util_sink.c:225-327 | every channel plays the plan of its own queue with the end time in use and the sounds its cache gives, and keeps what the plan leaves; all buffers are filled exactly if all plans are |
| `AccuratePlayback.AccurateSink.PlaybackEnd` | example/le_audio_demo_util_sink.c:234-241 | the end time in use comes from the duration cached for that many samples, whatever frequency it was computed for |
| `AccurateRuns.EnqueuedAll` | example/le_audio_demo_util_sink.c:453-481 | storing several packets leaves the most recent 19 of queue and packets |
| `AccurateRuns.Seamless` | example/le_audio_demo_util_sink.c:245-481 | after a callback and the packets stored since, a packet cut by the end of the buffer is the first thing in the next buffer, with no sample skipped and at most one and one for each gap repeated, if and only if it and what is behind it fit into the ring with the packets stored |
| `AccurateRuns.PlayThenStore` | example/le_audio_demo_util_sink.c:245-481 | the ring a callback and later stores leave is the queue Seamless is about, and a packet that was cut and not dropped goes on with the samples it had |
| `AccurateRuns.StaleSamples` | example/le_audio_demo_util_sink.c:245-481 | a run of two callbacks and 21 packets, one each 10 ms, that plays the samples of packet 0 for packet 20 |
| `Lc3Ring.MostRecentUnread` | example/le_audio_demo_util_sink.c:453-481 | after any run of stores and reads the queue is exactly the packets stored behind the last one read, in order, or the last 19 of them if there are more |
| `Lc3Ring.SlotInjective` | example/le_audio_demo_util_sink.c:202-204 | packets less than a ring apart never share a slot |
| `Lc3Ring.Lc3Data.Empty` | example/le_audio_demo_util_sink.c:206-208 | index equality means that the queue is empty |
| `Lc3Ring.Lc3Data.Full` | example/le_audio_demo_util_sink.c:210-212 | the full test means that 19 packets are queued |
| `Lc3Ring.Lc3Data.Available` | example/le_audio_demo_util_sink.c:214-220 | the index difference is the queue length, across wrap-around |
| `Lc3Ring.Lc3Data.Head` | example/le_audio_demo_util_sink.c:256-257 | the read slot holds the oldest packet |
| `Lc3Ring.Lc3Data.Advance` | example/le_audio_demo_util_sink.c:263-264 | moving the read index removes the oldest packet |
| `Lc3Ring.Lc3Data.StorePacket` | example/le_audio_demo_util_sink.c:453-481 | drop-oldest enqueue; the not-full assertion after a drop holds; lost frames are marked |
| `GenericPlayback.StreamGrows` | example/le_audio_demo_util_sink.c:372-400 | decoding one more frame appends its samples to the sound of the decoded frames |
| `GenericPlayback.SameBlockSize` | example/le_audio_demo_util_sink.c:389-394 | all channels of a build yield equally many samples for the k-th frame, whatever is in it, and never more than the sample buffer holds |
| `GenericPlayback.DecodeNext` | example/le_audio_demo_util_sink.c:372-400 | one channel decodes its oldest frame; played and pending samples stay the sound of the decoded frames |
| `GenericPlayback.PlaySamples` | example/le_audio_demo_util_sink.c:403-410 | one channel copies pending samples in order |
| `GenericPlayback.StoreChannel` | example/le_audio_demo_util_sink.c:453-481 | storing never disturbs what was decoded or played |
| `GenericPlayback.GenericSink.DecodeIfNeeded` | example/le_audio_demo_util_sink.c:367-401 | frames of all channels are decoded together; nothing is decoded exactly if nothing is pending and the ring is empty |
| `GenericPlayback.GenericSink.CopyPending` | example/le_audio_demo_util_sink.c:403-416 | all channels advance by the same number of samples; the frame is released exactly when it is played to its end |
| `GenericPlayback.GenericSink.Fill` | example/le_audio_demo_util_sink.c:366-417 | the loop ends, also when a frame resamples to nothing, with the buffer full or everything played |
| `GenericPlayback.GenericSink.StartIfReady` | example/le_audio_demo_util_sink.c:357-363 | playback starts if and only if the threshold is reached |
| `GenericPlayback.StartThresholdFrames` | example/le_audio_demo_util_sink.c:559-565 | so many frames last exactly 30 ms |
| `GenericPlayback.GenericSink.Playback` | example/le_audio_demo_util_sink.c:343-428 | the output is the next part of the resampled frames of every channel in arrival order minus dropped ones, then silence; channels stay in lockstep; stopped means no half-played frame |
| `GenericPlayback.GenericSink.StorePacket` | example/le_audio_demo_util_sink.c:442-481 | both channels take their part of the SDU, or a lost frame if its length is unexpected, dropping the oldest in lockstep |
| `Resampler.InterpolateExact` | src/btstack_resample.c:79-82 | the unsigned 32-bit arithmetic computes the weighted mean rounded down, which lies between the two samples |
| `Resampler.OutputOnTheLine` | src/btstack_resample.c:79-108 | the output at a position lies on the line between the two frames around it, at its fraction |
| `Resampler.NeutralOutput` | src/btstack_resample.c:69-114 | at the neutral factor the output is the input itself |
| `Resampler.NeutralStep` | src/btstack_resample.c:69-114 | at the neutral factor a block yields one frame for each input frame, the first block one less |
| `Resampler.PositionConserved` | src/btstack_resample.c:75-112 | outputs times step minus inputs is the change of position, and the position left is at least -1 frame |
| `Resampler.MinFactor` | src/btstack_resample.c:60-67 | the least factor whose product with the capacity covers the input |
| `Resampler.OutputFits` | src/btstack_resample.c:60-67 | a step of at least the minimum factor never produces more than the output capacity, from any position a block can leave |
| `Resampler.NoDrift` | src/btstack_resample.c:69-114 | over any sequence of blocks the number of outputs follows the number of inputs with a bounded difference |
| `Resampler.SplitInvariant` | src/btstack_resample.c:69-114 | cutting the stream into blocks does not change the output |
| `Resampler.Resample.ResampleBlock` | src/btstack_resample.c:69-114 | the two loops with the wrapping position produce exactly the interpolated frames and leave the right position |
| `IsoPacket.Layout` | example/le_audio_demo_util_source.c:273-292 | the bytes of a packet: which byte holds which part of handle, flags, lengths, time stamp and sequence number, all little-endian |
| `IsoPacket.ParseReads` | example/le_audio_demo_util_sink.c:632-652 | which bits of any packet the parser takes for which field |
| `IsoPacket.ParseRoundTrip` | example/le_audio_demo_util_sink.c:632-658 | for every handle, sequence number, SDU and optional time stamp, parsing returns what was written |
| `IsoPacket.ChannelsAgree` | example/le_audio_demo_util_sink.c:455-456 | the channel formulas of source and sink agree if and only if it is the first stream or streams have one channel |
| `IsoPacket.SduBytes` | example/le_audio_demo_util_source.c:283-289 | byte b of the i-th frame of an SDU is byte b of the 155 bytes of that channel in the payload buffer |
| `IsoPacket.SduPart` | example/le_audio_demo_util_sink.c:471-474 | cutting an SDU into frames gives back every frame |
| `IsoPacket.SendReceive` | example/le_audio_demo_util_source.c:265-295 | handle, sequence number and length come back, and every channel gets the frame its sender channel encoded |
| `IsoTransfer.Generator.Send` | example/le_audio_demo_util_source.c:265-295 | the packet buffer holds the packet of the stream, with header and frames given byte by byte; only the sequence number of that stream advances, modulo 2^16 |
| `IsoTransfer.Generator.SendPayload` | example/le_audio_demo_util_source.c:283-289 | the copy loop appends the frames of the channels of the stream |
| `IsoTransfer.Sink.ProcessSyncEvent` | example/le_audio_demo_util_sink.c:733-737 | from then on the two clocks coincide as the event says |
| `IsoTransfer.Sink.DueOnLocalClock` | example/le_audio_demo_util_sink.c:445-447 | an SDU is due one presentation delay after the local time at which the Bluetooth clock shows its reference time, for one frame |
| `IsoTransfer.Sink.StoreTwo` | example/le_audio_demo_util_sink.c:442-481 | of two SDUs whose references are one frame apart, the first is stored with that start, and the second starts when the first ends |
| `IsoTransfer.Sink.StorePacket` | example/le_audio_demo_util_sink.c:442-481 | channel stream + i takes frame i with its due time, marked as lost exactly if the length is unexpected; other channels are untouched |
| `IsoTransfer.Sink.Receive` | example/le_audio_demo_util_sink.c:627-661 | what arrives in the rings is what the packet says, with its due time; a packet shorter than its header says is reported |
| `IsoTransfer.Transfer` | example/le_audio_demo_util_source.c:265-295 | sending and receiving one packet puts the current frame of every channel of the stream into its ring with BFI 0 |
| `BroadcastSource.MenuConsistent` | example/le_audio_broadcast_source_lite.c:577-609 | after any sequence of menu keys num_bis is mono + 2 * stereo and at most 4 |
| `BroadcastSource.EveryLayout` | example/le_audio_broadcast_source_lite.c:577-609 | every layout of mono and stereo subgroups that fits is reached by its keys |
| `BroadcastSource.KeysReset` | example/le_audio_broadcast_source_lite.c:577-609 | a menu that does not fit starts over, and a stereo key resets the mono subgroups |
| `BroadcastSource.BuildGenerators` | example/le_audio_broadcast_source_lite.c:362-382 | stereo generators first, and the channel counts sum to num_bis |
| `BroadcastSource.Locate` | example/le_audio_broadcast_source_lite.c:440-451 | the search loop, which runs over BIS, always stops at a generator and finds the generator and stream of the BIS |
| `BroadcastSource.LocatedUnique` | example/le_audio_broadcast_source_lite.c:440-451 | a BIS belongs to one stream of one generator only |
| `BroadcastSource.LocatedOnto` | example/le_audio_broadcast_source_lite.c:440-451 | every stream of every generator is some BIS in range |
| `BroadcastSource.Broadcast.HandleBisCanSendNow` | example/le_audio_broadcast_source_lite.c:437-472 | for every BIS: the stream of the BIS is sent with the current payload of its generator, which is renewed exactly after its last stream; events in order keep closed forms for log and renewals |
| `BroadcastSource.Broadcast.EveryPayloadOnce` | example/le_audio_broadcast_source_lite.c:460-471 | in the log of in-order events each payload of each stream occurs exactly once, at a known position |
| `HidKeymap.LookupKeycode` | example/hog_keyboard_demo.c:229-237 | reports the first match, or none exactly if the character is not in the table |
| `HidKeymap.Keymap.KeyFor` | example/hog_keyboard_demo.c:239-252 | the key found is the first that prints the character, without shift if there is one and else with shift; none is found exactly if neither table has the character |
| `HidKeymap.ShiftBits` | example/hog_boot_host_demo.c:188 | shift is pressed exactly if bit 1 or bit 5 of the modifier byte is set |
| `HidKeymap.UsLayout` | example/hog_boot_host_demo.c:127-163 | the tables are the rows of a US keyboard and its keypad, at usages 4, 30, 40, 44, 51 and 85 |
| `HogKeyboard.Keyboard.KeycodeAndModifierForCharacter` | example/hog_keyboard_demo.c:239-252 | table search without, then with shift |
| `HogKeyboard.Keyboard.StdinProcess` | example/hog_keyboard_demo.c:324-332 | a typed character is appended if it fits, and an idle sender asks to send if there is a host |
| `HogKeyboard.Keyboard.InputReportEnable` | example/hog_keyboard_demo.c:423-429 | a host that writes the report configuration makes con_handle valid, and nothing else changes: what was typed before waits |
| `HogKeyboard.Keyboard.DisconnectionComplete` | example/hog_keyboard_demo.c:406-409 | con_handle is invalid, the open request is gone, and the typing state stays |
| `HogKeyboard.Keyboard.TypingCanSendNow` | example/hog_keyboard_demo.c:284-322 | one can-send event sends a key-down or key-up report and asks again exactly if there is more to do |
| `HogKeyboard.Keyboard.SendFromBuffer` | example/hog_keyboard_demo.c:289-309 | characters without a key are skipped, the next one is sent |
| `HogBootHost.ConsoleAppend` | example/hog_boot_host_demo.c:176-226 | one more report appends what it prints |
| `HogBootHost.ConsoleSpells` | example/hog_boot_host_demo.c:190-222 | the console is the text of the key presses: slots of reports with a printable usage that is in no slot of the report before |
| `HogBootHost.PressesExactly` | example/hog_boot_host_demo.c:190-207 | the key presses are listed in the order of reports and slots, each once, and none is left out |
| `HogBootHost.RepeatPrintsNothing` | example/hog_boot_host_demo.c:199-207 | a report that repeats the one before prints nothing, whatever is held |
| `HogBootHost.OneMoreKey` | example/hog_boot_host_demo.c:199-222 | a new printable usage in an empty slot prints exactly the text of that key |
| `HogBootHost.BootHost.NewUsage` | example/hog_boot_host_demo.c:200-206 | a usage counts as new exactly if it was not held in the previous report |
| `HogBootHost.BootHost.ScanReport` | example/hog_boot_host_demo.c:186-222 | the report loop yields the held keys and the text that ConsoleSpells is about |
| `HogBootHost.BootHost.HandleBootKeyboardEvent` | example/hog_boot_host_demo.c:176-226 | the console is the text of all key presses so far; a repeated report leaves it unchanged |
| `KeyboardRoundTrip.KeyDownPrints` | example/hog_boot_host_demo.c:186-222 | with no key held the report of a character prints exactly its rendering |
| `KeyboardRoundTrip.NoLostWakeUp` | example/hog_keyboard_demo.c:284-332 | in every run at most one can-send request is open, and only for a sender that is not idle and has a host; an idle sender holds exactly what was typed without a host since; each report has one key at most, and key-down and key-up reports alternate |
| `KeyboardRoundTrip.TakesWhileRoom` | example/hog_keyboard_demo.c:324-332 | a typed character is taken exactly if fewer than 20 wait, with or without a host |
| `KeyboardRoundTrip.RoundTrip` | example/hog_keyboard_demo.c:229-332 | for every interleaving of typing, can-send events, connections and disconnections the host shows the rendering of exactly the characters that have left the buffer; when the sender is idle these are all but those typed without a host since |
| `KeyboardRoundTrip.ScreenShowsText` | example/hog_boot_host_demo.c:190-222 | in every session the terminal of the host shows the characters that have left the buffer with their corrections: a delete erases the character before it in the line, on the screen too |
| `KeyboardRoundTrip.CutExactly` | example/hog_keyboard_demo.c:284-409 | a sender waits for an event that was not requested if and only if a disconnection came while it was not idle |
| `KeyboardRoundTrip.CutForGood` | example/hog_keyboard_demo.c:284-409 | from then on no report is sent and no character leaves the buffer, whoever connects and whatever is typed |
| `KeyboardRoundTrip.DeafAfterDisconnect` | example/hog_keyboard_demo.c:324-409 | such a run: a host that leaves before the first character was sent |
| `KeyboardRoundTrip.WorkDone` | example/hog_keyboard_demo.c:284-322 | every can-send event brings the sender closer to idle, unless a disconnection interrupted it |
| `KeyboardRoundTrip.AllDelivered` | example/hog_keyboard_demo.c:284-322 | without such a disconnection, a computable number of can-send events brings the whole text to the host, but what was typed without a host and followed by nothing typed with one |
| `KeyboardRoundTrip.UsKeymapValid` | example/hog_boot_host_demo.c:118-163 | the tables of both programs meet the condition of the theorems |
| `ByteRing.RingBuffer.Reset` | src/btstack_ring_buffer.c:59-63 | empties the queue |
| `ByteRing.RingBuffer.BytesAvailable` | src/btstack_ring_buffer.c:65-70 | the index difference and the full flag give the queue length |
| `ByteRing.RingBuffer.BytesFree` | src/btstack_ring_buffer.c:78-80 | available and free bytes add up to the capacity |
| `ByteRing.RingBuffer.Write` | src/btstack_ring_buffer.c:83-118 | all or nothing: appends the block if it fits, else changes nothing |
| `ByteRing.RingBuffer.Read` | src/btstack_ring_buffer.c:121-153 | removes the oldest bytes, as many as requested and available |
| `A2dpSink.FactorFits` | example/a2dp_sink_demo.c:590-606 | the assertion on the factor holds for every buffer level |
| `A2dpSink.FactorDirection` | example/a2dp_sink_demo.c:596-602 | the factor never falls as the level rises; it is below the neutral one exactly below 60 frames and above it exactly above 80 |
| `A2dpSink.RateFollowsLevel` | example/a2dp_sink_demo.c:596-606 | over any blocks, up to a bounded difference, a low level yields more frames than were decoded and a high level fewer |
| `A2dpSink.SampleBytes` | example/a2dp_sink_demo.c:435-439 | bytes 4i + 2c and 4i + 2c + 1 of resampled frames read as a signed little-endian word are sample c of frame i |
| `A2dpSink.SoundOfPcm` | example/a2dp_sink_demo.c:434-451 | the byte stream is exactly the bytes of the resampled frames, which are 16 bit stereo |
| `A2dpSink.BlockFits` | example/a2dp_sink_demo.c:433-435 | at any allowed factor a decoded SBC frame yields whole frames that fit the 144 frames of the output buffer and of the ring |
| `A2dpSink.Sink.HandlePcmData` | example/a2dp_sink_demo.c:434-451 | the decoded frames are resampled, the request is filled first and the rest is stored; the output fits, and storing never fails, because the PCM ring is empty whenever a frame is decoded |
| `A2dpSink.Sink.DecodeFrame` | example/a2dp_sink_demo.c:406-411 | one round of the loop keeps the stream complete and in order, and the SBC ring at whole frames |
| `A2dpSink.Sink.PlaybackHandler` | example/a2dp_sink_demo.c:383-417 | the buffer gets exactly the next bytes of the resampled stream, and read as words they are its next samples; it is short only if both rings are exhausted; before the first packet it is silent; the frame buffer overruns exactly if a frame above 120 bytes has to be decoded |
| `A2dpSink.Sink.HandleMediaPacket` | example/a2dp_sink_demo.c:547-661 | a packet too short for the header readers changes nothing; any other is stored whole or not at all, with constant frame size the ring holds whole frames; the sound is stretched exactly below 60 buffered frames, compressed exactly above 80, and enough from 60 on; it ends in a division by zero exactly for the packets of DividesByZeroExactly |
| `A2dpSink.DividesByZeroExactly` | example/a2dp_sink_demo.c:552-576 | the division by zero happens if and only if the packet has at least 24 bytes and its frame count is zero or exceeds the bytes behind the header |
| `A2dpSink.DivisionExamples` | example/a2dp_sink_demo.c:614-630 | 11 payload bytes with count 0 or 15 divide by zero; 10 bytes with either count are ignored |
| `A2dpSink.Sink.Pause` | example/a2dp_sink_demo.c:492-508 | pending data is discarded; the resampler goes on from where it is |
| `A2dpSource.DriftFree` | example/a2dp_source_demo.c:427-435 | after ticks of any lengths the samples produced are elapsed time times rate, rounded down once, with the exact remainder below 1000, if and only if no single product overflows 32 bits |
| `A2dpSource.PeriodExact` | example/a2dp_source_demo.c:422-425 | the measured period is the real time between ticks if and only if the previous tick was not at 32-bit time 0, or 10 ms ago |
| `A2dpSource.MeasuresRealTime` | example/a2dp_source_demo.c:416-435 | over a run the periods add up to the real time plus the initial 10 ms |
| `A2dpSource.SamplesFor` | example/a2dp_source_demo.c:427-433 | the carry loop computes one tick of the clock |
| `A2dpSource.FrameAt` | example/a2dp_source_demo.c:404-410 | whole frames can be cut out of a payload again |
| `A2dpSource.HeaderByte` | example/a2dp_source_demo.c:397-398 | the uncounted header byte: storage writes stay in bounds if and only if frames do not fill 1030 bytes exactly, and the transport takes a full packet if and only if frames do not fill its limit exactly |
| `A2dpSource.HeaderByteExample` | example/a2dp_source_demo.c:441-445 | 103-byte frames and a 618-byte limit: every full packet is one byte too long |
| `A2dpSource.SinkReads` | example/a2dp_sink_demo.c:567-569 | the sink recovers frame size and every frame from a packet |
| `A2dpSource.SinkAdmits` | example/a2dp_sink_demo.c:614-630 | a packet of the source is ignored by the sink if and only if its frames take fewer than eleven bytes; any other arrives with its count and frames and never divides by zero |
| `A2dpSource.EmptyPacketIgnored` | example/a2dp_sink_demo.c:614-630 | the empty packet after a source switch is ignored |
| `A2dpSource.Source.Elapse` | example/a2dp_source_demo.c:416-435 | a tick adds to the clock without drift but for counted overflows of the product; samples_ready wraps exactly when the sum exceeds 32 bits |
| `A2dpSource.Source.FillSbcAudioBuffer` | example/a2dp_source_demo.c:392-414 | encodes until samples run out or the packet is full; samples clocked in are waiting or encoded, storage holds whole frames in order |
| `A2dpSource.Source.AudioTimeout` | example/a2dp_source_demo.c:416-446 | keeps the conservation laws, and asks to send exactly when the storage has become full |
| `A2dpSource.Source.SendMediaPacket` | example/a2dp_source_demo.c:374-390 | header, frames and timestamp of the packet are right, timestamps advance by the samples sent modulo 2^32, scheduled packets carry exactly floor(limit / frame length) frames, and are empty exactly if the source was switched meanwhile |
| `A2dpSource.Source.ConfigureAudioSource` | example/a2dp_source_demo.c:347-372 | a source switch starts a new stream of frames but leaves a scheduled packet scheduled |
| `A2dpSource.Source.TimerStart` | example/a2dp_source_demo.c:448-458 | stored frames are dropped, waiting samples and the clock remainder are kept, nothing is scheduled |
| `A2dpSource.Source.TimerStop` | example/a2dp_source_demo.c:460-468 | a stopped stream has an exact, empty clock |
| `GapInquiry.ContinueKeeps` | example/gap_inquiry.c:115-121 | either the next device without a name is asked, or the phase is done and a scan starts |
| `GapInquiry.StepKeeps` | example/gap_inquiry.c:130-232 | every event keeps the invariant of table, outstanding operation and phase history |
| `GapInquiry.RunKeeps` | example/gap_inquiry.c:130-232 | the invariant holds in every reachable state |
| `GapInquiry.OneOutstanding` | example/gap_inquiry.c:168-223 | in every run the table is bounded and free of duplicates, and after the start exactly one scan or name request for an unnamed device is outstanding |
| `GapInquiry.PhaseAsksEachOnce` | example/gap_inquiry.c:202-223 | between two scans exactly the devices without a name are asked, each once and in table order, with as many answers |
| `GapInquiry.PhaseBounded` | example/gap_inquiry.c:202-223 | no name phase goes on beyond 20 answers |
| `GapInquiry.NamesStay` | example/gap_inquiry.c:168-223 | no run loses a device or reverts a fetched name |
| `GapInquiry.TableFromEvents` | example/gap_inquiry.c:171-221 | in every run each device of the table was found by a result, with its data, and has a name if and only if the result brought it or a name request for it succeeded later |
| `GapInquiry.FoundIsListed` | example/gap_inquiry.c:171-200 | every result is in the table from then on, unless the table was full |
| `GapInquiry.Inquiry.GetDeviceIndexForAddress` | example/gap_inquiry.c:79-87 | the first device with the address, if any |
| `GapInquiry.Inquiry.HasMoreRemoteNameRequests` | example/gap_inquiry.c:94-100 | tells whether a device is waiting to be asked |
| `GapInquiry.Inquiry.DoNextRemoteNameRequest` | example/gap_inquiry.c:102-113 | asks the first waiting device with its own paging parameters |
| `GapInquiry.Inquiry.ContinueRemoteNames` | example/gap_inquiry.c:115-121 | starts exactly one operation: the request for the first waiting device, or a scan; equal to the continuation the run theorems are about |
| `GapInquiry.Inquiry.OnWorking` | example/gap_inquiry.c:146-156 | starts the one scan, and only once; the handler is the step the run theorems are about |
| `GapInquiry.Inquiry.OnInquiryResult` | example/gap_inquiry.c:171-200 | appends a device at most once and never beyond 20; the handler is the step the run theorems are about |
| `GapInquiry.Inquiry.RetryRequests` | example/gap_inquiry.c:203-207 | devices asked in vain will be asked again, others are unchanged |
| `GapInquiry.Inquiry.OnInquiryComplete` | example/gap_inquiry.c:202-209 | begins a name phase with every unnamed device waiting; the handler is the step the run theorems are about |
| `GapInquiry.Inquiry.OnNameComplete` | example/gap_inquiry.c:211-223 | marks the named device and goes on with the next one; the handler is the step the run theorems are about |
| `HeartRateClient.StepKeeps` | example/gatt_heart_rate_client.c:138-386 | every event keeps the invariant |
| `HeartRateClient.RunKeeps` | example/gatt_heart_rate_client.c:138-386 | the invariant holds in every reachable state, across reconnections |
| `HeartRateClient.Safe` | example/gatt_heart_rate_client.c:138-386 | in every run at most one send request or query is under way, exactly one while the script is not finished; the callback assertion never fails; listener_registered tells exactly whether the listener is registered, once; the queries of a connection follow the script |
| `HeartRateClient.QueriesEarned` | example/gatt_heart_rate_client.c:138-244 | in every run the client goes on only after success of the first two queries, asks for a disconnect after a failure of one of them, goes on after any outcome of the third, and reads the location only after success of the fourth |
| `HeartRateClient.ScanEnds` | example/gatt_heart_rate_client.c:344-353 | while scanning, an attempt starts exactly with an advertisement of the service |
| `HeartRateClient.LocationRead` | example/gatt_heart_rate_client.c:207-227 | a device is asked for its location exactly when it reported one, if and only if it reported something or no handle is left from an earlier connection |
| `HeartRateClient.LocationOfAnotherDevice` | example/gatt_heart_rate_client.c:207-227 | from every state of the invariant with a leftover handle: after a reconnection a device that reported no location is asked for one |
| `HeartRateClient.LeftoverRead` | example/gatt_heart_rate_client.c:207-382 | a feasible run of 22 events that reads the location of a second device which reported none |
| `HeartRateClient.StuckExactly` | example/gatt_heart_rate_client.c:354-382 | in every run the client waits to send on a link that does not exist if and only if some connection attempt had failed, or a fixed peer was lost before the first query |
| `HeartRateClient.ScanningStuckExactly` | example/gatt_heart_rate_client.c:354-382 | for a scanning client: if and only if some connection complete event reported a failure, which the code does not look at |
| `HeartRateClient.StuckForGood` | example/gatt_heart_rate_client.c:138-386 | from then on nothing changes in the client in any continuation of the run |
| `HeartRateClient.HeartRate.SendNextQuery` | example/gatt_heart_rate_client.c:285-319 | the request becomes one query, the next one of the script; the assertion is unreachable |
| `HeartRateClient.HeartRate.OnQueryComplete` | example/gatt_heart_rate_client.c:138-244 | exactly one of: a request follows, the script is finished, a disconnect is asked for; the listener is registered at most once |
| `HeartRateClient.HeartRate.OnResult` | example/gatt_heart_rate_client.c:207-211 | keeps the invariant; the location handle is the last one reported |
| `HeartRateClient.HeartRate.OnHciEvent` | example/gatt_heart_rate_client.c:326-386 | keeps the invariant across connection, failed connection, disconnection and restart; a disconnection leaves nothing registered or under way |
| `BootHostConnection.StepKeeps` | example/hog_boot_host_demo.c:268-655 | every event keeps the invariant |
| `BootHostConnection.RunKeeps` | example/hog_boot_host_demo.c:268-655 | the invariant holds in every reachable state |
| `BootHostConnection.TimerAndAssertions` | example/hog_boot_host_demo.c:268-592 | in every run the timer is armed exactly in W4_CONNECTED and W4_TIMEOUT_THEN_RECONNECT with the right handler, W4_TIMEOUT_THEN_SCAN is unreachable, the callback assertions never fail, and at most one request, query or pairing is under way |
| `BootHostConnection.FindsDevice` | example/hog_boot_host_demo.c:268-506 | in every run: connects to the bonded device or to an advertised HID device, after the reconnect timer to the device before; scans after a timeout and after a failed query; pauses exactly when a link is lost in READY |
| `BootHostConnection.ReconnectsToPeer` | example/hog_boot_host_demo.c:488-506 | the device to reconnect to is the peer of the latest attempt |
| `BootHostConnection.ReadyEarned` | example/hog_boot_host_demo.c:353-582 | READY only after the security manager answered, both discoveries and both notification enables succeeded on this connection, in this order; the link is then encrypted if and only if that answer was a success; the stored device is the connected one |
| `BootHostConnection.AnsweredGoesOn` | example/hog_boot_host_demo.c:603-655 | from every state with a pairing request, whatever re-encryption answers, READY can follow, encrypted as answered |
| `BootHostConnection.UnencryptedReady` | example/hog_boot_host_demo.c:603-655 | a feasible run of 13 events that reaches READY without encryption |
| `BootHostConnection.HidHost.OnTimerFired` | example/hog_boot_host_demo.c:280-316 | the timer gives up the attempt and scans, or starts one attempt with its own timeout, by the handler it was set up with; the scan branch of the reconnect handler is unreachable |
| `BootHostConnection.HidHost.HogStartConnect` | example/hog_boot_host_demo.c:321-334 | one attempt with its timeout to the bonded device, or a scan without timer |
| `BootHostConnection.HidHost.OnAdvertisement` | example/hog_boot_host_demo.c:476-487 | one attempt with its timeout to the device advertised, and only while scanning |
| `BootHostConnection.HidHost.OnConnectionComplete` | example/hog_boot_host_demo.c:507-516 | the timeout is off before pairing is asked for, once |
| `BootHostConnection.HidHost.OnDisconnected` | example/hog_boot_host_demo.c:488-506 | from READY, and only from there, the reconnect timer is set, for disconnections of the current and of earlier links |
| `BootHostConnection.HidHost.OnSecurityEvent` | example/hog_boot_host_demo.c:603-655 | one request to send a query, exactly if the answer is taken for a success |
| `BootHostConnection.HidHost.SendNextQuery` | example/hog_boot_host_demo.c:527-559 | the request becomes one query, the one the new state waits for; the assertion is unreachable |
| `BootHostConnection.HidHost.SendNextWriteWithoutResponse` | example/hog_boot_host_demo.c:561-582 | READY with the connected device stored; the assertion is unreachable |
| `BootHostConnection.HidHost.OnQueryComplete` | example/hog_boot_host_demo.c:353-457 | success leads to exactly one request, failure to a scan without |
| `StreamerServer.StepKeeps` | example/gatt_streamer_server.c:352-380 | live handles stay distinct, free slots disabled, and the index in range |
| `StreamerServer.RunKeeps` | example/gatt_streamer_server.c:352-427 | the same in every reachable state, for any table size |
| `StreamerServer.WriteMisses` | example/gatt_streamer_server.c:439-460 | a write has no table entry if and only if its connection came when the table was full |
| `StreamerServer.ServesFirst` | example/gatt_streamer_server.c:398-427 | the slot served is the first active one cyclically from the index, and serving another slot brings the index closer to every active one |
| `StreamerServer.ServesNothing` | example/gatt_streamer_server.c:400-412 | nothing is served only if no connection is active |
| `StreamerServer.Approach` | example/gatt_streamer_server.c:398-427 | while a connection stays active every call serves somebody and, until its turn, comes closer to it |
| `StreamerServer.Fair` | example/gatt_streamer_server.c:398-427 | a connection that stays active is served within as many calls as the table has slots, whatever else happens |
| `StreamerServer.NobodyTwice` | example/gatt_streamer_server.c:398-427 | nobody is served twice before it |
| `StreamerServer.EnabledAsAsked` | example/gatt_streamer_server.c:352-460 | in every run a connection of the table is enabled exactly if its latest write since it came asked for it |
| `StreamerServer.AwakeUnless` | example/gatt_streamer_server.c:369-427 | while somebody is active a can-send event is requested; an event breaks this if and only if the only connection with a request leaves while another is active |
| `StreamerServer.WakeUpLost` | example/gatt_streamer_server.c:369-427 | a feasible run of six events after which a connection is active and nothing is requested |
| `StreamerServer.Streamer.ConnectionForConnHandle` | example/gatt_streamer_server.c:130-136 | the first entry with the handle, if any |
| `StreamerServer.Streamer.NextConnectionIndex` | example/gatt_streamer_server.c:138-143 | one step around the table |
| `StreamerServer.Streamer.FindActive` | example/gatt_streamer_server.c:400-412 | the search loop ends at the first active slot, or back at the start if there is none |
| `StreamerServer.Streamer.OnCanSendNow` | example/gatt_streamer_server.c:398-427 | serves what the fairness theorems say, asks for the next event of that connection and moves on |
| `StreamerServer.Streamer.OnConnected` | example/gatt_streamer_server.c:352-361 | takes the first free slot; a full table ignores the connection |
| `StreamerServer.Streamer.OnDisconnected` | example/gatt_streamer_server.c:372-379 | frees and disables the slot of the handle, and no other |
| `StreamerServer.Streamer.OnWrite` | example/gatt_streamer_server.c:439-460 | changes the entry of the handle only, and requests a can-send event exactly when notifications are enabled |

## Left out

- SBC and LC3 codecs, HID parser, advertising data parser, L2CAP, GATT, SM and HCI internals: functions or
  environment.
- 44.1 kHz in the theorems on time: windows do not have the length of their samples there, and as LongFramesOverrun
  shows the buffer can overrun.
- Streams of two times one channel in generic playback: their channels need not advance together.
- AccuratePlan.PlaybackDone: requires windows that do not overlap, which is exact as NoOverlapExactly says; which
  overlapping queues do no harm is not characterised.
- AccurateEnd.NoOverrunExactly: buffers of at least five samples; in smaller ones the rounding of so few samples
  matters.
- AccuratePlayback.PlayChannel: the interleaved buffer is a two-dimensional array, and a decoder with memory between
  frames is not captured; what is overwritten by an overrun is not modelled.
- GenericPlayback.GenericSink.CopyPending: copies channel by channel instead of position by position.
- Resampler.Resample.ResampleBlock: the output is a sequence of frames; 16-bit output counters, blocks of 0x4000
  frames and more, and steps of 2^30 and more are not modelled.
- IsoTransfer.Sink.StorePacket: requires a channel that exists; the assertion on effective_channel also admits the
  channel count itself.
- A2dpSink.Sink.HandleMediaPacket: of the RTP and SBC headers only the length checks and the frame count are modelled,
  as nothing else is used; sample-rate compensation is not modelled.
- BroadcastSource.Broadcast.HandleBisCanSendNow: loopback and counter modes are not modelled.
- HogKeyboard.Keyboard.StdinProcess: the console build, with at most one host connected at a time.
- Encoding of new frames, `data_generator` mode and the ESP32 encoder task of the LE Audio source.
- Liveness after disconnects in intermediate states of the boot host: the code ignores those events.
- Throughput measurement, test data and MTU handling of the streamer; notification contents of the heart-rate client.
- Menus apart from the stream counts, console output, WAV files, SDP records, GAP setup, power control.
- HFP, HSP, AVRCP, mesh, ANCS, GATT browser and LED counter examples, other HID hosts, chipset and port code.
