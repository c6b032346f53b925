# FFB Interceptor: verified model

A game talks DirectInput. A proxy wraps its devices, turns every force-feedback call into an
event and sends the events over two named pipes. A consumer in SimHub decodes them, replays
what the wheel is asked to do, and reports when the commanded force clips. This project models
those parts and proves what they promise each other.

| part | files |
|---|---|
| Wire protocol, serializer, decoders, stream readers | Bytes, Utf8, Utf8Meaning, Protocol, Serializer, RoundTrip, WireMeaning, Decoder, Streams, StreamMeaning |
| Events as the wrappers build them | Capture, Producers, CaptureMeaning |
| Telemetry sinks: producers, two workers, drop notices | Sinks, SinkSteps, SinkSafety, SinkLoops, Telemetry, Emissions, TelemetryTheorems, Settling, NoticeRace |
| Clipping detector | Effects, EffectShapes, PauseClock, Settings, Window, Hysteresis, MeterRuns, WindowChanges, Mixer, MixerLoops, MixerOrder, TickMeaning, Sources, SourceSafety, FrameMeaning, SourceClock, SourceRuns, PlainForce, SourceState, Engine, EngineSafety, EngineRuns, EngineMeters, ConnectionEdges, TransitionQueue, ClippingEngine, DetectorMeaning |
| Pipe server checks and the whole path | Receiver, Delivery, ClientThread, Pipeline, GameToMeter |
| Pipe server threads | PipeServer, ServerLife |
| Command lines | Quoting |
| Device wrapper registry | Registry, RegistryCalls, DeviceRegistry |
| Import patching | IatWalk, IatTwice, IatImports |

Concurrency is modelled as an interleaving of atomic steps: one lock section, one interlocked
operation or one call into Windows each, with every outcome of such a call. Code that updates
objects or arrays in place is a class or a method here, proved to compute a function on values;
the promises are then proved of that function.

Laws whose names say what something means or says (`EmissionSays`, `StrictAccepts`, `CreationStores`, `SnapshotMeans`)
give the outcome in numbers and fields of the wire, the structures and the settings, not through the functions that
compute it, so that they hold the model to the source from outside.

The detector's two levels meet in the contracts of `SourceState` and `ClippingEngine`: each
method's new state is the specified one. Theorems over runs quantify over all sequences of calls.

## Where the code does not do what it says

Each of these is kept as the code has it, and the exact condition is proved.

- A drop notice is documented as exact. It is one short when an emission found no free node
  before the worker read the counter and counted itself after (`NoticeExact`,
  `NoticeCanFallShort`). No event is lost silently: a further notice reports it (`LossIsTold`, `ShortNoticeIsMadeGood`).
- An expired effect can come back to life: while its device is paused, a duration or delay update
  skips the expiry check. It does exactly when the time played had passed the old end and has not
  reached the new one (`StepAgrees`, `UpdateCanRevive`).
- The clip ratio can fall short of the truth after the window setting has grown, because older
  intervals have been pruned. It does exactly when a clipped interval that ends inside the window
  ended at or before an earlier tick's cutoff (`ExactWhenNothingForgotten`, `GrowthForgets`).
- Normalised settings are not always a fixed point: the cut to 31 UTF-16 units can leave a
  trailing space that a second pass removes (`NormalizedTwice`, `NormalizedTwiceDiffers`).
- A source's coming and going need not be announced in turn: a connection that found no place in the
  full table is still reported gone when it closes, and if another connection of the same source has come
  and gone by then, the going is announced again. They alternate exactly when no such report is made
  (`ConnectionsAlternate`, `GoneIsToldTwice`).
- On a tie of equally large effects the gains and the effective level shown for the largest one are
  those of the last in table order. They do not depend on the order exactly when all of them carry
  the same gains (`SelectedOfAnyOrder`, `TieShowsTheLast`); nothing else of a tick does.
- A double quote in the path of the program itself is not survived by the backslash quoting
  (`ReadsBackExactly`). Windows allows no such path.
- `FrameAccumulator.Feed` drops the whole chunk in which a frame is bad, the good frames before it
  in that chunk included, so what a refused stream delivers depends on how it was cut. Frames are
  lost exactly when the refused chunk completed a good one (`LosesOnlyTheChunk`, `ChunkingMatters`).

## Model

| member | source | states |
|---|---|---|
| Telemetry.StepKeeps | src/telemetry.cpp:121-420 | Every lock section, interlocked operation and pipe call of any producer and of either worker, with any outcome, keeps the invariant of both sinks |
| Emissions.EveryEmissionIsOffered | src/telemetry.cpp:121-136 | Read off the actions of a run alone: whenever the emitter is idle, the items drawn and what each found at a sink stand in the same order, and what the sink was offered is exactly those that found it running |
| Emissions.RunningSinkIsOfferedAll | src/telemetry.cpp:132-134 | From a state in which a sink runs on, between idle moments it is offered every item drawn, both sinks alike |
| Emissions.EmissionEnds | src/telemetry.cpp:121-147 | Every step of an emission brings it closer to its end |
| Settling.WorkerSettles | src/telemetry.cpp:335-420 | From any reachable state without an emission under way a worker whose pipe answers is quiescent after a bounded number of its own steps |
| Settling.LossHasCause | src/telemetry.cpp:138-147 | While no call on its pipe fails and every emission finds a free node, a sink loses nothing, and a quiescent worker has sent exactly what was emitted |
| TelemetryTheorems.WireOrder | src/telemetry.cpp:121-136 | In every run, each connection's wire is the greeting (number 0) and then strictly increasing numbers, across batches and injected notices, and events are delivered in emission order |
| Sinks.SortAscending | src/telemetry.cpp:355-373 | Sorting a batch that came off the last-in-first-out list gives ascending sequence numbers |
| TelemetryTheorems.EveryNodeOnce | src/telemetry.cpp:138-147 | In every reachable state each of the 1024 nodes is in exactly one place: free list, pending list, batch, or the hands of the emitter or worker |
| TelemetryTheorems.EveryEventAccounted | src/telemetry.cpp:355-390 | In every reachable state the events emitted while the sink was running are those delivered, lost, pending, in the unsent batch or in the hand of the emitter, each once, and the drop counter agrees |
| TelemetryTheorems.BatchHoldsAll | src/telemetry.cpp:358-370 | A batch of 1024 always holds the whole pending list, so the branch for a longer list drops nothing |
| TelemetryTheorems.Isolation | src/telemetry.cpp:132-134 | A step of one sink's worker or of a producer at one sink leaves the other sink as it was |
| TelemetryTheorems.NoSilentLoss | src/telemetry.cpp:352-417 | Once a worker is quiescent, on its first or any later connection: no notice was sent on it if and only if the data sent on it are exactly the events ever emitted while the sink was running, in order |
| TelemetryTheorems.LossIsTold | src/telemetry.cpp:392-416 | Once a worker is quiescent: every event emitted while the sink was running was delivered or lost, and events were lost if and only if a notice stands on the wire, one of which carries the exact number lost |
| TelemetryTheorems.NoticeCovers | src/telemetry.cpp:405-411 | When a notice gets its number, every event emitted while the sink was running has a lower number and was delivered or is in the drop counter, whatever other producers did in between |
| TelemetryTheorems.NoticeExact | src/telemetry.cpp:392-416 | The value of a notice equals the drop counter at that instant if and only if no emission refused a node before the worker read the counter and counted it after (or the report is saturated); it is never more than one short |
| NoticeRace.NoticeCanFallShort | src/telemetry.cpp:392-416 | A concrete interleaving in which a notice reports one lost event while the counter holds two |
| NoticeRace.ShortNoticeIsMadeGood | src/telemetry.cpp:392-416 | The same run continued: the worker settles on its first connection, two events are lost, and a further notice reports two |
| SinkLoops.SinkLists.Enqueue | src/telemetry.cpp:138-147 | Popping a node, filling it and pushing it, or counting the loss, on fields updated in place |
| SinkLoops.SinkLists.RecycleOrDropPending | src/telemetry.cpp:324-333 | The loop over a flushed list returns every node and counts every event, for a list of any length |
| SinkLoops.SinkLists.SendBatch | src/telemetry.cpp:375-390 | The send loop over a batch: the sent prefix is delivered, and after the first failure the failed event and all later ones are counted as lost and their nodes returned |
| SinkLoops.RecycleIsSteps | src/telemetry.cpp:324-333 | Taken without a producer in between, the loop that drops the queue after a failed connect leaves what the single interleaved steps leave |
| SinkLoops.SendIsSteps | src/telemetry.cpp:375-390 | Taken without a producer in between, the send loop leaves what the worker's single steps leave with the same outcomes of the pipe: the same frames sent, the same lost, the same next phase |
| Serializer.SerializeEvent | src/telemetry_protocol.cpp:229-296 | The appending serializer produces exactly the wire layout, total size in the header included |
| RoundTrip.RoundTrips | simhub/FFBInterceptor.Core/Protocol.cs:121-239 | Every event with texts that are well-formed UTF-8 and counts within the lists becomes a frame of at most 64 KiB that the strict decoder accepts with every field, the presence bits included |
| Producers.EmissionRoundTrips | src/wrapper_effect.cpp:84-200 | The same for every event the wrappers build: for any call of the game, any well-formed device name and any effect structure the emitted event arrives with every field |
| RoundTrip.CSharpIsStricter | simhub/FFBInterceptor.Core/Protocol.cs:121-239 | C# accepts a frame if and only if Python does and the message type, presence bits, redaction flag and the three texts pass the checks only C# makes |
| RoundTrip.PythonAgrees | viewer/src/ffb_visualizer/protocol.py:90-219 | What C# accepts Python accepts with the same fields; they differ at most in presence bits and in kinds and commands outside the defined range |
| WireMeaning.WireSays | src/telemetry_protocol.cpp:229-296 | Every producible event becomes bytes that are a sound frame and carry each field at its byte offset, signed or unsigned, lists, conditions and texts included |
| WireMeaning.FlagsTellPresence | src/telemetry_protocol.cpp:229-296 | Bits 27 and 28 of a creation on the wire are its presence; every other flag bit is the event's |
| WireMeaning.StrictAccepts | simhub/FFBInterceptor.Core/Protocol.cs:121-239 | The C# decoder accepts exactly the frames whose bytes meet the written conditions (magic, version, size, counts, presence bits, redaction, texts, trailer), and gives back what each byte says |
| WireMeaning.PythonAccepts | viewer/src/ffb_visualizer/protocol.py:90-219 | The same for the Python decoder and its looser conditions |
| WireMeaning.HeaderRefusals | simhub/FFBInterceptor.Core/Protocol.cs:121-150 | Bad magic, version, message type and size are each reported exactly when they are the first thing wrong |
| Utf8Meaning.WellFormedMeans | simhub/FFBInterceptor.Core/Protocol.cs:254-268 | The byte-range test accepts exactly the encodings of sequences of Unicode scalar values |
| Decoder.DecodeFrame | simhub/FFBInterceptor.Core/Protocol.cs:121-239 | The reader that advances through the frame decides exactly as the layout says, error by error |
| Streams.DecodePython | viewer/src/ffb_visualizer/protocol.py:90-219 | The fixed-offset unpacking decides exactly as the layout says |
| Utf8.CopyTruncated | src/telemetry_protocol.cpp:88-108 | The bounded copy ends in NUL inside the buffer and, for well-formed UTF-8, is the longest well-formed prefix that fits; null buffers and texts are handled |
| Streams.FrameAccumulator.Feed | simhub/FFBInterceptor.Core/Protocol.cs:329-351 | Feeding a chunk delivers exactly the frames of pending bytes and chunk, keeps the unfinished rest, and refuses to overflow the buffer |
| Streams.FrameAccumulator.Complete | simhub/FFBInterceptor.Core/Protocol.cs:353-356 | At disconnect, leftover bytes are an error, and only they |
| Streams.ByteArray.IterFrames | viewer/src/ffb_visualizer/protocol.py:222-241 | Deleting consumed bytes from the front delivers the maximal valid prefix of the stream |
| Streams.ChunkingInvariance | simhub/FFBInterceptor.Core/Protocol.cs:324-375 | Any split into chunks of at most 64 KiB gives the same error and, on a good stream or in Python, the same frames and the same rest as reading the stream whole |
| Streams.TakenIsDelivered | simhub/FFBInterceptor.Core/Protocol.cs:329-375 | Of any stream in any chunks, refused ones included, the reader delivers exactly the frames of the chunks before the refused one |
| Streams.LosesOnlyTheChunk | simhub/FFBInterceptor.Core/Protocol.cs:329-351 | What C# loses of a refused stream is exactly the good frames completed by the refused chunk, and it loses nothing if and only if there are none |
| Streams.ChunkingMatters | simhub/FFBInterceptor.Core/Protocol.cs:329-351 | For every event: a bad header behind its frame in one chunk delivers nothing, in two chunks delivers the frame |
| Streams.DeliversEvents | simhub/FFBInterceptor.Core/Protocol.cs:324-351 | Any events serialized one after the other and cut anywhere arrive as exactly their frames, with nothing pending and no error |
| StreamMeaning.ReadingMeans | simhub/FFBInterceptor.Core/Protocol.cs:324-375 | Every stream can be cut into whole frames and bytes that stop the reader, and wherever it is cut so the reader yields these frames, this error and this rest |
| Capture.EventBuilder.FillEffectParameters | src/telemetry_protocol.cpp:110-226 | Copying from a structure that may be short or unreadable sets exactly the named fields, or on a bad read leaves a redacted event without lists; counts never exceed 8 |
| Producers.EmittedIsEmittable | src/wrapper_effect.cpp:84-200 | Every event the wrappers build, from a zeroed event, any well-formed name cut by the bounded copy and any effect structure, meets what the round trip asks of an event and is no greeting and no notice |
| Producers.GreetingIsGreeting | src/telemetry.cpp:283-299 | The greeting a sink prepares, with any well-formed program name and an ASCII version, meets what the round trip and the server ask of it; its session id reads back whole |
| Capture.OnlyNamedFields | src/telemetry_protocol.cpp:110-226 | Each parameter is the structure's if the flags name it and keeps its value if they do not: durations, gain, delays, triggers, axes, directions, envelope, type-specific force |
| Capture.OpaqueIsRedacted | src/telemetry_protocol.cpp:110-226 | For custom and unknown effects no part of the force is copied and the event says so |
| CaptureMeaning.CaptureMeans | src/telemetry_protocol.cpp:110-226 | By flag weights, kinds and structure sizes: every scalar, list entry, envelope, force and condition of the captured event is the structure's or the event's own, with the exact numbers of axes and conditions |
| CaptureMeaning.ReadableIs | src/telemetry_protocol.cpp:110-226 | A capture meets no fault exactly when every list, the envelope and the words its kind needs are mapped |
| CaptureMeaning.EmissionSays | src/wrapper_effect.cpp:84-200 | For every call of the game the event carries its address, message type, kind, command, flags and iterations, is zero elsewhere, and holds of the game's structure exactly what the flags name and can be read |
| CaptureMeaning.EveryCallIsTold | src/wrapper_effect.cpp:84-200 | For every call with a defined kind, property or command and any well-formed name there is an event, whatever structure the game passes |
| CaptureMeaning.GreetingSays | src/telemetry.cpp:283-299 | The greeting carries process, clock frequency, pointer width, version, session id and program name, and nothing else |
| GameToMeter.PlayedConstantIsHeard | simhub/FFBInterceptor.Core/ClippingEngine.cs:737-798 | From the game's own calls: an endless constant force it creates and starts is, captured, sent and decoded, heard once its delay is over at its magnitude in ten-thousandths cut at full scale; alone it is all that is heard |
| PauseClock.StepAgrees | simhub/FFBInterceptor.Core/ClippingEngine.cs:893-939 | One step of the shifted schedule and of a clock that stands still while paused agree if and only if the step is no update, while paused, of a schedule whose time played has passed its old end and not its new one |
| PauseClock.PlaysByItsOwnClock | simhub/FFBInterceptor.Core/ClippingEngine.cs:893-939 | After any pauses, continues, starts and updates, unless one revived the schedule, the effect produces at an unpaused instant exactly when it was started and not stopped, its unpaused time since the start has reached the delay, and it is endless in duration or passes or that time is short of the delay plus duration times passes; the window is plain arithmetic on the parameters |
| PauseClock.OverStaysOver | simhub/FFBInterceptor.Core/ClippingEngine.cs:919-927 | A schedule already past when it was paused is still past after any continue |
| PauseClock.UpdateCanRevive | simhub/FFBInterceptor.Core/ClippingEngine.cs:621-622 | A finished effect plays again when its duration is updated while the device is paused |
| SourceClock.FrameFollows | simhub/FFBInterceptor.Core/ClippingEngine.cs:598-735 | Every frame moves every surviving effect's clock by exactly the clock steps the frame stands for, solo starts and all parts of a device command included |
| SourceClock.TickLooks | simhub/FFBInterceptor.Core/ClippingEngine.cs:737-798 | A tick only asks each clock, and hears an effect exactly when it is unpaused, in its window and its actuators are on |
| SourceRuns.HeardByItsOwnClock | simhub/FFBInterceptor.Core/ClippingEngine.cs:380-491 | Over any frames and ticks of a source that keep an effect in the table and revive nothing: a tick hears the effect exactly when its device is running, its actuators are on, and its unpaused time since the start lies in that arithmetic window |
| Effects.RawLevelAt | simhub/FFBInterceptor.Core/ClippingEngine.cs:952-981 | The level of any effect at any instant lies in [0, 1] |
| Effects.EnvelopeWithin | simhub/FFBInterceptor.Core/ClippingEngine.cs:999-1029 | An envelope never leaves the range spanned by its attack, fade and sustain levels |
| Effects.PeriodicWithin | simhub/FFBInterceptor.Core/ClippingEngine.cs:1031-1044 | A periodic effect never exceeds its offset plus its largest amplitude, for every waveform and any sine within [-1, 1] |
| EffectShapes.PassTime | simhub/FFBInterceptor.Core/ClippingEngine.cs:983-991 | The time into the current pass is the time since playback began less whole passes of the duration; an endless or empty pass is never left |
| EffectShapes.EnvelopeStages | simhub/FFBInterceptor.Core/ClippingEngine.cs:999-1029 | The envelope is on the straight line from attack level to sustain in the attack, from sustain to fade level in the fade, and at sustain in between |
| EffectShapes.ConstantLevel | simhub/FFBInterceptor.Core/ClippingEngine.cs:952-981 | A constant force has the level of its magnitude under the envelope, cut at full scale; without envelope times of its magnitude itself |
| EffectShapes.RampLevel | simhub/FFBInterceptor.Core/ClippingEngine.cs:952-981 | A ramp is on the straight line from its start to its end over one pass |
| EffectShapes.PeriodicLevel | simhub/FFBInterceptor.Core/ClippingEngine.cs:1031-1044 | A wave is offset plus amplitude times a sine, square, triangle or saw of the phase, given by cycles and degrees |
| Mixer.CombinedBounds | simhub/FFBInterceptor.Core/ClippingEngine.cs:737-798 | Strongest single level <= unclamped combined level, and effective levels never exceed combined ones, before and after clamping |
| Mixer.NeverUnderstates | simhub/FFBInterceptor.Core/ClippingEngine.cs:737-798 | For any choice of signs the absolute signed sum on any device is at most the unclamped combined level |
| Mixer.SumOfPermutation | simhub/FFBInterceptor.Core/ClippingEngine.cs:737-798 | A device's sum does not depend on the order of its parts |
| TickMeaning.TickMeasures | simhub/FFBInterceptor.Core/ClippingEngine.cs:737-798 | After a tick: the levels are the largest per-device sums over the effects that are playing, supported and audible, clamped and unclamped, the shown effect is a largest one, the counts are tallies and the peaks only grow |
| PlainForce.ConstantIsHeard | simhub/FFBInterceptor.Core/ClippingEngine.cs:737-798 | In frames: a creation and a start of an endless constant force are heard at the magnitude without its sign in ten-thousandths, at most 1, once the delay is over, and alone are all that is heard |
| MixerOrder.LevelsOfAnyOrder | simhub/FFBInterceptor.Core/ClippingEngine.cs:737-798 | For any two iteration orders of the effect table a tick finds the same levels and the same counts of playing, unsupported and trigger-driven effects, and the same largest effect but for the gains and effective level shown with it |
| MixerOrder.SelectedOfAnyOrder | simhub/FFBInterceptor.Core/ClippingEngine.cs:737-798 | What is shown of the largest effect is the same for every iteration order if and only if all equally large effects carry the same gains |
| MixerOrder.TieShowsTheLast | simhub/FFBInterceptor.Core/ClippingEngine.cs:737-798 | Two effects of level 0.5 with gains 1 and 0 show an effective level of 0 or of 0.5, as the order has it |
| MixerOrder.TickOfAnyOrder | simhub/FFBInterceptor.Core/ClippingEngine.cs:419-491 | A whole tick gives the same edge, meter, effects and reliability for any two iteration orders; only what is shown of the largest effect can differ |
| Window.RatioIsTime | simhub/FFBInterceptor.Core/ClippingEngine.cs:800-812 | Ratio times window is the time at limit in the history within the window: pruning takes none of it and the final clamp never binds |
| MeterRuns.ExactWhenNothingForgotten | simhub/FFBInterceptor.Core/ClippingEngine.cs:800-812 | Over ticks with any changes of settings, the published ratio never exceeds the share of the unpruned log, and equals it if and only if no clipped interval of the log that ends inside the window ended at or before an earlier tick's cutoff |
| MeterRuns.ExactUntilWindowGrows | simhub/FFBInterceptor.Core/ClippingEngine.cs:800-812 | It is exact whenever the window is no larger than it has been since the log was last empty, so always while the settings stay |
| WindowChanges.GrowthForgets | simhub/FFBInterceptor.Core/ClippingEngine.cs:803-804 | A concrete run in which the window grows and ten milliseconds at the limit are reported as none |
| MeterRuns.EdgesAreJustified | simhub/FFBInterceptor.Core/ClippingEngine.cs:419-490 | After any ticks under any settings: clipping starts only on the continuous limit or on the trigger share of the held signal since the last clear, always starts on the share unless part of it was pruned, and ends on a reliable tick only after the exit hold below the exit level |
| MeterRuns.EdgesAreExact | simhub/FFBInterceptor.Core/ClippingEngine.cs:419-490 | When no two ticks in a row carry the same time, a reliable tick starts clipping if and only if the log holds the continuous limit or, in what earlier ticks left of it, the trigger share; and it ends clipping if and only if the exit hold below the exit level is over. The log and its restarts are written out with the thresholds in percent |
| Hysteresis.EndedForgets | simhub/FFBInterceptor.Core/ClippingEngine.cs:473-490 | An ended episode leaves no sample that could start the next one, its last sample included (exit <= entry) |
| Hysteresis.TickSees | simhub/FFBInterceptor.Core/ClippingEngine.cs:436-440 | After a reliable tick the source is at its limit exactly when 100 x level reaches the entry percent, and below its exit exactly when 100 x level is under the exit percent |
| EngineMeters.TickedAlone | simhub/FFBInterceptor.Core/ClippingEngine.cs:121-137 | In a tick of the detector every source moves exactly as it would alone |
| EngineMeters.MeterFollows | simhub/FFBInterceptor.Core/ClippingEngine.cs:63-137 | Whatever the call on the detector, a stored source's hysteresis moves by exactly that call's samples |
| EngineMeters.MeterOfRun | simhub/FFBInterceptor.Core/ClippingEngine.cs:33-137 | In any run of calls from a new detector, settings changes, evictions and re-creations included, every stored source's hysteresis is what its samples since its creation make of it |
| EngineMeters.ClippingIsJustified | simhub/FFBInterceptor.Core/ClippingEngine.cs:419-490 | In any such run a source starts to clip only at a reliable tick at which its log since creation or the last clear holds the continuous limit or the trigger share |
| EngineMeters.EndingIsJustified | simhub/FFBInterceptor.Core/ClippingEngine.cs:419-521 | In any such run the call at which a source stops clipping gave its meter a sample: a new loss, its last disconnect or an unreliable tick, or a reliable tick after the exit hold below the exit level |
| EngineMeters.ShareAlwaysStarts | simhub/FFBInterceptor.Core/ClippingEngine.cs:473-490 | In any such run a reliable tick at which the log holds the trigger share, none of it pruned, makes the source clip |
| EngineMeters.ClipsExactly | simhub/FFBInterceptor.Core/ClippingEngine.cs:419-490 | In any such run with samples at different times, a reliable tick leaves a source clipping if and only if its log, at entry and exit percent, says so, by the conditions for starting and for ending |
| EngineMeters.PublishedRatioIsExact | simhub/FFBInterceptor.Core/ClippingEngine.cs:441-472 | In any such run the ratio a reliable tick leaves in a source never exceeds the share of its log, and is that share if and only if no earlier cutoff reached into it |
| Settings.NormalizedIsNormal | simhub/FFBInterceptor.Core/Models.cs:40-57 | Any settings, not-a-number included, normalise into the ranges the detector relies on, exit never above entry |
| DetectorMeaning.SettingsMean | simhub/FFBInterceptor.Core/Models.cs:40-68 | Every setting becomes the nearest value of its written range, exit held at or below entry; the session filter is the text between its outer blanks cut to 31 units |
| Settings.NormalizedTwice | simhub/FFBInterceptor.Core/Models.cs:54-55 | Normalising twice changes nothing if and only if the cut of the trimmed session filter to 31 UTF-16 units does not fall behind a space |
| Settings.NormalizedTwiceDiffers | simhub/FFBInterceptor.Core/Models.cs:54-55 | Two concrete session filters, thirty letters or fifteen surrogate pairs before a space and a letter, for which normalising twice differs from once |
| Settings.EdgesAlternate | simhub/FFBInterceptor.Core/Models.cs:134-148 | The edges a gate raises over any signal alternate |
| Settings.GlobalClippingEventGate.Update | simhub/FFBInterceptor.Core/Models.cs:134-148 | The edges the gate has raised since its last reset are the edges of the signal it was given, each raised on the change it belongs to |
| Settings.SourceCountEventGate.Update | simhub/FFBInterceptor.Core/Models.cs:150-166 | The gate raises a connected or disconnected edge exactly when the non-negative count rises or falls |
| SourceSafety.ApplyKeeps | simhub/FFBInterceptor.Core/ClippingEngine.cs:380-417 | Every frame keeps: at most 64 devices and 1024 effects, each effect under its own key with its device known, refusals remembered, and a source with a gap or a reconnect never clipping |
| SourceSafety.TickKeeps | simhub/FFBInterceptor.Core/ClippingEngine.cs:419-491 | Every tick keeps those limits, keys and marks too, and a level never leaves its range |
| SourceSafety.RefusalIsRemembered | simhub/FFBInterceptor.Core/ClippingEngine.cs:814-840 | A device or effect is admitted exactly when there is room for both, and a refusal makes the source unreliable |
| SourceStates.SourceState.Apply | simhub/FFBInterceptor.Core/ClippingEngine.cs:380-417 | The in-place update of one frame computes the specified source; what the frame puts there, field by field, is the `FrameMeaning` rows |
| FrameMeaning.CreationStores | simhub/FFBInterceptor.Core/ClippingEngine.cs:552-596 | An accepted creation stores an effect at rest with the kind, and, unless the frame says it carries none, the force, gain, envelope, trigger, duration and delay of the frame; nothing else changes |
| FrameMeaning.ParametersSelect | simhub/FFBInterceptor.Core/ClippingEngine.cs:598-658 | An accepted parameter frame takes each of gain, force, trigger, repeat, envelope, duration and delay from the frame if and only if its bit, given by weight, is set, and keeps it otherwise |
| FrameMeaning.CommandKeepsParameters | simhub/FFBInterceptor.Core/ClippingEngine.cs:660-699 | A command changes no parameter of any effect but a kind it names; a release takes its effect out of the table, and only a start brings in one that is not there |
| FrameMeaning.DeviceCommandReads | simhub/FFBInterceptor.Core/ClippingEngine.cs:701-735 | A device command leaves its device paused or running and its actuators on or off as its bits, given by weight, say, and keeps all parameters |
| FrameMeaning.PropertySetsGain | simhub/FFBInterceptor.Core/ClippingEngine.cs:380-417 | A property frame sets its device's gain exactly if it names property 1 |
| FrameMeaning.LossForgets | simhub/FFBInterceptor.Core/ClippingEngine.cs:523-550 | News of more losses empties both tables, silences levels and meter and marks the gap; old news changes nothing |
| SourceStates.SourceState.ApplyDeviceCommand | simhub/FFBInterceptor.Core/ClippingEngine.cs:701-735 | Reset, stop, pause, continue and actuator bits in their order, over all effects of the device |
| SourceStates.SourceState.EvaluateEffects | simhub/FFBInterceptor.Core/ClippingEngine.cs:737-798 | The loop over the effect table computes the maximum over devices of the sums of producing supported effects |
| SourceStates.SourceState.CalculateRatio | simhub/FFBInterceptor.Core/ClippingEngine.cs:800-812 | Pruning from the front in place and summing gives the specified ratio and history |
| SourceStates.SourceState.Judge | simhub/FFBInterceptor.Core/ClippingEngine.cs:436-490 | Interval, counters, ratio and decision in place are one specified hysteresis tick; what that tick sees is `Hysteresis.TickSees`, what it decides `MeterRuns.EdgesAreExact` |
| SourceStates.SourceState.Tick | simhub/FFBInterceptor.Core/ClippingEngine.cs:419-491 | The in-place tick computes the specified source and edge |
| SourceStates.SourceState.ResetAfterDisconnect | simhub/FFBInterceptor.Core/ClippingEngine.cs:500-521 | The in-place reset computes the specified source |
| EngineRuns.CallKeeps | simhub/FFBInterceptor.Core/ClippingEngine.cs:33-137 | Every call on the detector, with any arguments, keeps its invariant |
| EngineRuns.ClipEdgesAlternate | simhub/FFBInterceptor.Core/ClippingEngine.cs:63-98 | Over any run and for each source key, the clip edges raised alternate, beginning with a start, and the source is clipping exactly when the last one is a start; connects, drops, disconnects, eviction and re-creation included |
| EngineRuns.TablesStayBounded | simhub/FFBInterceptor.Core/ClippingEngine.cs:303-310 | Over any run: at most 64 sources and 256 queued transitions, sources under their own keys, tables within their limits |
| EngineRuns.ConnectedStays | simhub/FFBInterceptor.Core/ClippingEngine.cs:303-310 | Making room for a source never touches a connected one |
| ConnectionEdges.ConnectionsAlternate | simhub/FFBInterceptor.Core/ClippingEngine.cs:33-78 | Over any run and for each source key the announcements of coming and going alternate if and only if no call reported a connection gone while the source was stored without one; then the source is online exactly when the last was a coming |
| ConnectionEdges.GoneIsToldTwice | simhub/FFBInterceptor.Core/ClippingEngine.cs:63-78 | Three calls after which a going has been announced twice |
| TransitionQueue.CallQueues | simhub/FFBInterceptor.Core/ClippingEngine.cs:139-151 | Of the transitions a call raises the first ones that find room are queued, up to 256 in all; a dequeue takes the oldest |
| TransitionQueue.NothingIsShed | simhub/FFBInterceptor.Core/ClippingEngine.cs:114-151 | Over any calls that never leave the queue full, what was taken out and what is queued are all transitions raised, in order |
| DetectorMeaning.ConnectMeans | simhub/FFBInterceptor.Core/ClippingEngine.cs:33-61 | A known source gains a connection; a new one takes a free place of 64 or that of the first source longest inactive without a connection; otherwise it is refused and counted; no other source changes |
| DetectorMeaning.DisconnectMeans | simhub/FFBInterceptor.Core/ClippingEngine.cs:63-78 | A connection is taken off its source; the last one leaves its effects stopped, its levels and meter silent and the source marked |
| DetectorMeaning.FrameMeans | simhub/FFBInterceptor.Core/ClippingEngine.cs:80-99 | A frame of an open source's own process is applied to it, one of another process is counted, any other changes nothing |
| EngineRuns.RefusedSourceSilencesAll | simhub/FFBInterceptor.Core/ClippingEngine.cs:224-227 | Once a source has been refused, after any further calls every snapshot claims neither reliability nor clipping for anyone |
| EngineRuns.UnreliableSourceIsSilent | simhub/FFBInterceptor.Core/ClippingEngine.cs:169-246 | From a gap, a reconnect or a refusal on, every snapshot of that source says unreliable, not at limit, not clipping, as long as it stays stored |
| EngineRuns.RefusedInsertSilences | simhub/FFBInterceptor.Core/ClippingEngine.cs:552-840 | A frame sets the capacity mark if and only if it asks for a device or an effect for which there is no room; such a frame changes neither table and leaves the source unreliable |
| ClippingEngines.ClippingEngine.Connect | simhub/FFBInterceptor.Core/ClippingEngine.cs:33-61 | The call on the table of source objects, eviction included, computes the specified detector |
| ClippingEngines.ClippingEngine.Disconnect | simhub/FFBInterceptor.Core/ClippingEngine.cs:63-78 | The call computes the specified detector: the last connection's end raises the clip edge, resets the source and announces it |
| ClippingEngines.ClippingEngine.ProcessFrame | simhub/FFBInterceptor.Core/ClippingEngine.cs:80-99 | The call computes the specified detector: unknown sources are ignored, wrong process ids counted, and a lost episode raises its end |
| ClippingEngines.ClippingEngine.Tick | simhub/FFBInterceptor.Core/ClippingEngine.cs:121-137 | The loop over all source objects computes the specified detector and snapshot |
| ClippingEngines.ClippingEngine.FindOldest | simhub/FFBInterceptor.Core/ClippingEngine.cs:303-310 | The loop finds the first least recently active disconnected source |
| ClippingEngines.ClippingEngine.BuildSnapshot | simhub/FFBInterceptor.Core/ClippingEngine.cs:153-246 | The loops over the sources compute the specified snapshot: selection, totals with saturating sums, reliability |
| DetectorMeaning.SnapshotMeans | simhub/FFBInterceptor.Core/ClippingEngine.cs:153-246 | A snapshot counts the connected sources, shows the wanted source last active, first in order on a tie, with its levels and counters and its verdicts only if nothing is missing, and with none wanted shows saturated totals and claims nothing |
| Receiver.AcceptsOrderly | simhub/FFBInterceptor.Core/SecurePipeServer.cs:302-333 | The per-frame checks let a whole stream through if and only if it is a safe greeting followed by frames of the same process with growing numbers |
| Receiver.SessionIdIsSafe | src/telemetry.cpp:62-71 | The session id the producer builds always passes the server |
| Receiver.SessionsDiffer | src/telemetry.cpp:62-71 | Two producers with one session id are the same process started at the same time |
| Receiver.SafeMeans | simhub/FFBInterceptor.Core/SecurePipeServer.cs:475-486 | A safe session id is one to 31 ASCII letters, digits, hyphens, full stops and underscores |
| Receiver.GreetingNames | simhub/FFBInterceptor.Core/SecurePipeServer.cs:310-329 | An accepted greeting registers the source under the pipe's process and the session id it tells, with program, version and pointer width |
| Receiver.PipeClient.Handle | simhub/FFBInterceptor.Core/SecurePipeServer.cs:302-333 | One frame: refused with the detector untouched, or handed on as exactly one call |
| Receiver.PipeClient.Finish | simhub/FFBInterceptor.Core/SecurePipeServer.cs:357-363 | The client disconnects its source exactly if it had registered one |
| ClientThread.RunClient | simhub/FFBInterceptor.Core/SecurePipeServer.cs:283-375 | The whole client thread: whatever it reads, the detector is given exactly the frames that pass of those the reassembler delivers, an error is met exactly when the reassembler met one, was left with part of a frame or a frame was refused, and a greeted client is disconnected |
| ClientThread.PassesIsRun | simhub/FFBInterceptor.Core/SecurePipeServer.cs:302-335 | What the thread makes of its frames is the run of its calls on the detector |
| Delivery.CallIsPassed | simhub/FFBInterceptor.Core/SecurePipeServer.cs:302-333 | The call recorded for a frame that passes the checks does to the detector what the server does |
| Delivery.AllHeard | simhub/FFBInterceptor.Core/ClippingEngine.cs:33-99 | While a connection is open, whatever other calls are made, its source stays stored and takes in exactly the frames brought to it, in order |
| Pipeline.WireArrives | simhub/FFBInterceptor.Core/SecurePipeServer.cs:298-335 | What a sink writes on a connection, cut into any chunks, arrives whole and passes every check |
| Pipeline.GapIsTold | simhub/FFBInterceptor.Core/ClippingEngine.cs:382-388 | Over any run in which the source stays stored, disconnects and reconnects included, it gains the gap mark if and only if one of its frames told of more losses than it knew |
| Pipeline.EndToEnd | simhub/FFBInterceptor.Core/ClippingEngine.cs:523-550 | No silent loss from emission to detector, on any connection: with the worker quiescent, the detector has taken in every frame behind the greeting, and its source carries no gap mark if and only if these are exactly the events ever emitted while the sink was running, in emission order |
| Quoting.QuoteArgument | launcher/injector.cpp:236-260 | The pass with a backslash counter computes the quoted argument |
| Quoting.BuildCommandLine | launcher/injector.cpp:262-270 | The appending loop joins the quoted program and arguments |
| Quoting.QuotedReads | launcher/manager_model.cpp:1116-1139 | A quoted argument at the front of a command line reads back as itself, under every reading of doubled quotes |
| Quoting.CommandLineReads | launcher/manager_main.cpp:625-629 | Any arguments joined behind a program path without a quote read back as themselves |
| Quoting.ReadsBackExactly | launcher/injector.cpp:236-270 | All argument lists read back if and only if the program path holds no quote |
| Quoting.ReadOptions | launcher/launcher_main.cpp:53-83 | The option loop computes the specified request, help and errors included |
| Quoting.GameReceivesArguments | launcher/launcher_main.cpp:57-83 | Over both hops the started game receives exactly the arguments the manager was given |
| Quoting.SplitOfQuoted | launcher/manager_model.cpp:1090-1114 | Splitting the quoted and joined form of any arguments gives them back if it is at most 32768 UTF-16 units long, and nothing otherwise |
| Quoting.UnitsMean | launcher/manager_model.cpp:1090-1114 | The length that is limited is the number of UTF-16 units: one for each character and one more outside the basic plane |
| Registry.StepKeeps | src/wrapper_device8.cpp:80-136 | Every step of any publish, AddRef, Release or destruction, in any interleaving, keeps the registry and reference books |
| RegistryCalls.RegistryIsSound | src/wrapper_device8.cpp:209-269 | In every run: registered wrappers have positive counts, no two share an identity, counts equal the references held, and every real reference taken is owned by someone |
| RegistryCalls.HoldersAreServed | src/wrapper_device8.cpp:104-136 | In every run whoever holds a reference to a wrapper finds it alive, counting exactly the references held, and can count it up or down |
| RegistryCalls.PublishAccounts | src/wrapper_device8.cpp:209-286 | Whatever other steps run in between: a publish that succeeds consumes one reference of the caller and hands out one wrapper reference; one that fails leaves its own account at zero; when it succeeds is `PublishAnswers` |
| RegistryCalls.PublishAnswers | src/wrapper_device8.cpp:209-269 | Among any other steps a publish answers the new block if and only if the alias, where there is one, is wrapped and no registered block matches at its lookup; the first match if that has the side asked for; and otherwise nothing |
| RegistryCalls.PublishAnswersAlone | src/wrapper_device8.cpp:209-269 | Uninterrupted the same by the state before the call, with the new block in front of the registry exactly when it is the answer |
| RegistryCalls.RegisteredAnswers | src/wrapper_device8.cpp:226-250 | In any state, a lookup for a device whose wrapper is registered with the wanted interface answers with that wrapper |
| RegistryCalls.PublishersAgree | src/wrapper_device8.cpp:226-250 | Two candidates of one device built before either looks up: whatever runs in between, the second is answered with the wrapper the first was answered with, as long as that is registered |
| RegistryCalls.LastRelease | src/wrapper_device8.cpp:116-131 | Whatever runs between the count reaching zero and the destructor: the wrapper is unregistered at once, nobody gets at it again, and it gives back every real reference it owned |
| RegistryCalls.CreateDeviceConserves | src/wrapper_dinput8.cpp:263-308 | CreateDevice, among any other steps, ends with the game holding either one wrapper reference or the one real reference, never both |
| RegistryCalls.CallbackIsNeutral | src/wrapper_dinput8.cpp:88-130 | The enumeration callback, run without interruption with a game that keeps nothing, ends with every reference count and the registry as they were |
| RegistryCalls.CallbackBalances | src/wrapper_dinput8.cpp:88-130 | Among any other steps the callback takes and leaves no reference to the real device in the caller's hands and none to a wrapper; of the real device it leaves what a wrapper it created owns |
| DeviceRegistries.DeviceRegistry.Find | src/wrapper_device8.cpp:226-250 | The walk finds the first match by interface pointer or identity |
| DeviceRegistries.DeviceRegistry.Unlink | src/wrapper_device8.cpp:116-123 | The walk along the links removes exactly the wrapper |
| DeviceRegistries.DeviceRegistry.Release | src/wrapper_device8.cpp:125-131 | Counting down, unlinking and destroying computes the specified state and count |
| DeviceRegistries.DeviceRegistry.PublishOrAddRef | src/wrapper_device8.cpp:209-269 | The call on the fields is the specified publication: it answers the candidate, now first in the registry, if and only if its alias was wrapped where there is one and nothing registered matches; the first match if it has the side asked for; and nothing otherwise, leaving references and registry alone |
| PipeServer.StepKeeps | simhub/FFBInterceptor.Core/SecurePipeServer.cs:61-375 | Every step of the starting, accepting and client threads keeps the invariant |
| PipeServer.AlwaysSafe | simhub/FFBInterceptor.Core/SecurePipeServer.cs:147-215 | At most 32 clients are registered, and the security descriptor is live whenever a pipe is created |
| PipeServer.NoneAdmittedAfterStop | simhub/FFBInterceptor.Core/SecurePipeServer.cs:94-138 | Once Stop has cleared the running flag no client is registered, and only a Start after a finished Stop sets it again |
| PipeServer.StopWaits | simhub/FFBInterceptor.Core/SecurePipeServer.cs:94-138 | Stop returns normally only when the accept thread and every client thread it found have ended; then the descriptor is freed |
| PipeServer.ReportedOnce | simhub/FFBInterceptor.Core/SecurePipeServer.cs:357-375 | A client that has ended reported its disconnect exactly as often as its connect, at most once |
| ServerLife.StartMeans | simhub/FFBInterceptor.Core/SecurePipeServer.cs:61-92 | A server at rest whose descriptor and thread can be made runs after Start; any other Start leaves everything as it was |
| ServerLife.AdmitsOne | simhub/FFBInterceptor.Core/SecurePipeServer.cs:147-215 | The accept thread of a running server registers the next client to connect, with its own thread, if and only if fewer than 32 are registered, and is back at the head of its loop |
| ServerLife.AcceptEnds | simhub/FFBInterceptor.Core/SecurePipeServer.cs:147-215 | With the flag down the accept thread is gone four steps on at the latest, and no client was added |
| ServerLife.ClientGoes | simhub/FFBInterceptor.Core/SecurePipeServer.cs:357-375 | A client whose thread leaves its loop is unregistered and ended three steps on, reported gone if it had connected |
| ServerLife.StopSucceeds | simhub/FFBInterceptor.Core/SecurePipeServer.cs:94-138 | With the accept thread and all clients it found ended in time, Stop leaves the server at rest, nothing registered and no descriptor |
| IatWalk.OnlyOriginalsOverwritten | src/iat_hook.cpp:35-127 | For every image: each slot of the log held the original pointer just before, holds the replacement just after, and lies inside the image |
| IatWalk.NothingElseChanges | src/iat_hook.cpp:35-127 | A byte outside the logged slots keeps its value |
| IatWalk.BoundedAsciiEqual | src/iat_hook.cpp:16-33 | The bounded comparison is true exactly for the expected name, but for case, ended by NUL inside the image |
| IatWalk.PatchPointer | src/iat_hook.cpp:35-52 | Compare and exchange of one slot, with the refusals |
| IatWalk.PatchImportDescriptor | src/iat_hook.cpp:54-127 | The loop over one table computes the specified walk, which reads the descriptor's table start again for each range check, and returns the number of overwritten slots |
| IatWalk.PatchImports | src/iat_hook.cpp:135-196 | Header checks and the loop over descriptors compute the specified walk and count; no access leaves the image |
| IatTwice.SecondRunFindsNothing | src/iat_hook.cpp:135-196 | On an image whose tables do not overlap, a second run overwrites nothing |
| IatImports.PatchesExactlyTheImports | src/iat_hook.cpp:54-196 | In the bytes of the image: on tables that do not overlap the patch overwrites, once each, exactly the writable slots that hold the original and are named by ordinal 1 or by DirectInput8Create, or by nothing where there is no lookup table, in a descriptor of dinput8.dll; they hold the replacement in the end |

## Left out

- Weak memory: interlocked operations and lock sections are atomic and ordered.
- Width of the event counters: the shared sequence stays below 2^64 and the drop counter does not wrap.
- A failed or partial `WriteFile` is one failed send; that a partial frame may already be in the pipe is not modelled.
- Worker start-up: `start()` and thread creation are one step that marks a sink running; waits and time-outs are any delay.
- Floating point: times, levels and ratios are reals, sine is any function, bounded where a bound is needed.
- Dictionary iteration order: a parameter that lists every key once; theorems hold for every order.
- Effect and device objects of a source are values in its maps, so aliasing between them is not captured; sources are objects.
- Pipeline.EndToEnd: takes the detector to have room for the source, the connection to be open and the only one that brings frames of the source, the device and program names to be the well-formed UTF-8 that the Windows conversions give, and the chunks to carry the whole wire of the current connection. A source without room is covered by `RefusedSourceSilencesAll`.
- SourceRuns.HeardByItsOwnClock: speaks of the time an effect stays in the table; a new loss, a release or a re-creation removes or replaces it.
- The transition queue sheds beyond 256 entries; edge theorems speak of all transitions raised, and `NothingIsShed` says when those are the ones read.
- Status texts, label cleaning (`SanitizeLabel`), process names beyond their bytes, trace and CSV export.
- The registry of effect wrappers (`src/wrapper_effect.cpp`), the DirectInput8 object's own count, and QueryInterface: a smaller instance (one interface, no alias, no identity match on publish) of the counting proved for devices.
- RegistryCalls.CallbackIsNeutral: the whole call without interruption; among other steps `CallbackBalances` accounts for the callback's own changes.
- MeterRuns.EdgesAreExact: when two ticks in a row carry the same time only `EdgesAreJustified` is claimed, since a dip between them restarts the counter while the log stays (`DipResets`).
- Command-line texts are sequences of Unicode characters; unpaired surrogates are not captured.
- SinkLoops.SendIsSteps: the loops are compared with the worker's steps when no producer comes between; what holds between the steps is `Telemetry.StepKeeps`.
- GUIDs, clocks, `GetNamedPipeClientProcessId` and the device metadata are inputs.
- The pipe server's table of threads is one set with the clients; Dispose, cancellation of blocked reads and the accept back-off are not modelled, join time-outs are any outcome.
- The image given to the import patch is as long as its SizeOfImage; a fault while its headers are read is the result 0, and page protection is any yes or no per slot.
- `CommandLineToArgvW` failing with null, and the 32767-character limit of process creation, which only refuse a launch.
- Python replaces malformed text instead of refusing it; texts are compared as bytes.
- GUI, installer, injection, authentication, profiles and the test hooks.
