# softcut-py in Dafny

A model of the parts of softcut-py that are hard to get right, with proofs about
them.  All arithmetic on samples, phases, rates and fades is over exact reals.

- **Realtime control.**  `CommandRing` splits the lock-free ring at each atomic access;
  `ControlProtocol` is the interleaved system of two producers, audio callbacks,
  `start` (also failing) and `stop` under the shared/exclusive lifecycle lock;
  `ControlSafety` proves exactly-once in-order application, hand-off of the consumer
  role, that nothing is stranded, and which threads can be at the DSP's state together;
  `Lifecycle` what `start` and `stop` leave, and `CallsReturn` that every call comes back.
  The system is seen from one voice, any of them: the queues and the lock are the
  engine's, the two counters and the flags the voice's.  `FlagMirror`, `ReadYourWrites`,
  `RecordPasses` and `DroppedChanges` treat the `rec`/`rec_once` mirrors and their pending
  counter; `RecordRuns` and `DropRun` hold runs of the protocol, step by step.
- **The crossfading head.**  `Heads` and `Voices` are the specification functions;
  `HeadObjects`, `VoiceObjects` and `Svf` are the objects that update their fields and
  the sample array in place, each method proved against those functions.
  `HeadSafety`, `OneShot`, `Crossfade`, `LoopBound`, `LoopUncut`, `LoopBackward` and
  `PlayOnce` prove the invariants over whole runs of a voice, `HeadOutput`, `HeadInput`
  and `VoiceControls` what is heard of it, what it writes and what its controls do;
  `SvfMath` holds the filter's energy identity and stability and `SvfTuning` which sample
  rates and corners keep it stable.
- **Blocks.**  `Mixer` specifies the block mixer; `RackObjects` holds the voice objects and
  their buffers, and `Render` runs them in place over flat arrays with the
  double-buffered outputs, from an engine made of nothing on.  `BlockSplit` and
  `RenderLaws` prove that the places where blocks are cut do not matter, `FeedbackLaws`
  that feedback is a delay line, `Routing` which matrix entry and which pan lead where.
- **Codecs.**  `ImaAdpcm`/`ImaDecoder` (resumable IMA ADPCM decoding and seeking),
  `ImaEncoder`/`ImaRoundTrip`/`ImaFidelity` (the IMA's own encoder, which the repository does
  not have, and what decoding makes of its blocks), `ImaHeaders` (how far it gets, told from
  the block headers), `ImaSeeking`/`ImaPlayback`
  (seeking and then reading, from every state a decoder can be in), `RiffFile`
  (incremental writing, chunk reading), `TinyOsc`/`OscOutcome`/`OscRead`/`OscBuffers` (OSC
  messages and bundles).
- **Buffer arithmetic.**  `BufferOps` (the blended write, channels, the mono average),
  `Pcm` (decoding and 16-bit quantising), `Norns` (stereo save and load, copies).

`Bytes`, `Division` and `Options` hold little-endian integers, facts about remainders
and the missing value.

## What the proofs turned up

- After a finished one-shot pass the `rec`/`rec_once` mirrors are stale.  A getter
  consulted while a later change is pending answers rightly exactly when the changes
  made since leave no trace of the pair they started from, over runs with any number of
  passes (`RecordPasses.AnswerAfterPassesIff`).  `RecordRuns.StaleRun` is a run that goes
  wrong: arm a pass, let it finish, call `set_rec(true)`.
- A change dropped because the queue stayed full is in the mirror all the same, so while
  another change is pending the getters can report what will never be applied
  (`DropRun.DroppedRun`); they are right exactly when, for each flag, the dropped change
  made no difference or a later one fixes it (`DroppedChanges.AnswerAfterDropIff`).
- While the engine is stopped the Python thread and the OSC receiver can both be changing
  the DSP's state directly (`RecordRuns.BothProducersAct`); no other two threads can
  (`ControlSafety.OnlyProducersTogether`).
- `Svf::setSampleRate` does not hold the corner between the new limits again.  A rate up
  to 0.8 of the one the corner was set at can make the gain negative, and then silence
  makes the filter louder (`SvfTuning.RateDropIff`, `SvfMath.QuietIff`); a voice made and
  then set to 16000 Hz is such a case (`SvfTuning.LowRateGrows`).  Setting the corner again
  repairs it.
- A looping head overshoots by no more than max(F, R) behind the latest cut, one R less
  than a fade and a sample would suggest.  A voice that has not been cut since it was made,
  or since a reset that found its second head active, plays on a head that is not marked
  active and never wraps at all (`LoopUncut.BoundedIff`, `LoopUncut.ResetPlaysUnmarked`).
- Feedback is one block late within a rendering.  After a rendering that ends p frames into
  a block, the next one hears the first p frames p frames late and the rest of its first
  block two blocks and p frames late (`FeedbackLaws.NextRenderingHears`).
- The IMA decoder stops at a bad block header and goes on behind it at the next call.  Two
  reads equal one longer read exactly when no such header comes before the end of the
  first, nothing more is asked for or announced, or nothing readable stands behind it
  (`ImaHeaders.SplitReadIff`).  The float path, which reads in pieces, therefore skips bad
  blocks that a single read stops at.  A decoder that has gone on so counts the frames as
  if none were missing: seeking back starts over and is right, seeking to where it is or on
  gives other frames than a straight decode (`ImaSeeking.SeekIff`, `ImaSeeking.WrongFrame`).
- A RIFF payload of 0xFFFFFFFF bytes or more reads back as empty: the reader counts the
  unknown size from the end of the file, where its size check has just moved it.
- The writer accepts formats its reader refuses, such as two channels at 400000 Hz, and a
  tag of 0x10002, which it writes as MS-ADPCM.
- tinyosc copies a format or text into what is left behind a copy of itself, so a message
  with room for itself but not for each text twice is cut although its full length is
  reported.  An address that just fits leaves its comma outside the room it was given.
  A message refused for an unknown type leaves a bundle as it was; one refused for another
  reason moves the marker by less than a word.  In a buffer that is not whole words a
  bundle can be left with less than a word, and then hands on a negative length
  (`OscBuffers.NegativeRoomIff`, `OscBuffers.EighteenBytes`).
- Loading and saving again lowers every 16-bit code above half scale by one.

## Model

| member | source | states |
|---|---|---|
| CommandRing.EveryRunIsFifo | src/shared/command_queue.hpp:26-41 | over every interleaving of single atomic accesses the ring is a FIFO of at most cap - 1 commands, popped a prefix of pushed |
| CommandRing.StepRefinesFifo | src/shared/command_queue.hpp:26-41 | each access leaves the abstract queue alone, appends one command within the bound, or removes its front |
| CommandRing.WrittenSlotIsFree | src/shared/command_queue.hpp:28-32 | the slot being written is none that the consumer may read |
| CommandRing.FullIsConservative | src/shared/command_queue.hpp:26-29 | an outdated tail only ever causes a needless "full"; a push that goes ahead has room |
| CommandRing.EmptyIsConservative | src/shared/command_queue.hpp:34-37 | an outdated head only ever causes a needless "empty"; a pop that goes ahead finds a published command |
| CommandQueues.CommandQueue.Push | src/shared/command_queue.hpp:26-33 | appends the command, or refuses exactly when cap - 1 are queued |
| CommandQueues.CommandQueue.Pop | src/shared/command_queue.hpp:34-41 | takes the oldest command, or reports empty |
| ControlSafety.ExactlyOnceInOrder | src/softcut/_core.cpp:172-213 | for each producer, commands run, in flight and queued are its accepted ones once each in issue order; a voice's drop counter is the number of refusals of its own commands |
| ControlSafety.NothingStranded | src/softcut/_core.cpp:605-662 | stopped and not starting or stopping: both queues empty and every accepted command has run |
| Lifecycle.CallDecides | src/softcut/_core.cpp:605-662 | over every run, when a call of start or stop is over the flag and the device are up exactly when it was a start and the device was up before or did not refuse; otherwise no callback is live and all that was accepted has run |
| Lifecycle.StopStops | src/softcut/_core.cpp:654-662 | over every run whose last call was a stop and is over: flag down, no callback live, both queues empty, each producer's accepted changes run in order |
| Lifecycle.StartStarts | src/softcut/_core.cpp:605-652 | over every run whose last call was a start that the device did not refuse and is over: flag and device are up |
| CallsReturn.EveryoneComesHome | src/softcut/_core.cpp:172-213 | from any state reached, every run in which nothing new is asked for ends within a stated number of steps, and can be taken on exactly until no thread is inside a setter, a callback, start or stop |
| CallsReturn.StopComesBack | src/softcut/_core.cpp:654-662 | a stop called in any state reached has a run of at most so many steps that brings it and every other thread back, with the engine stopped and drained |
| ControlSafety.ControlThreadsStayOut | src/softcut/_core.cpp:184-213 | no command runs on a control thread while a callback can be live, and no two threads drain at once |
| ControlSafety.OnlyProducersTogether | src/softcut/_core.cpp:184-213 | two threads are at the DSP's state together only when they are the two producers, with the engine stopped and both holding the lock shared |
| RecordRuns.BothProducersAct | src/softcut/_core.cpp:184-213 | a run from a fresh engine in which both are |
| ControlSafety.PendingCountExact | src/softcut/_core.cpp:218-232 | a voice's pending counter is the number of its flag changes queued, carried by a drain or in a producer's hands |
| ControlSafety.EveryRunKeepsInv | src/softcut/_core.cpp:526-530 | the protocol's inductive invariant holds in every state of every run |
| ReadYourWrites.ReadsItsWrites | src/softcut/_core.cpp:218-257 | with one producer of flag changes, either of the two, no drop and no finished pass, the getters answer with the pair its changes ask for |
| ReadYourWrites.InitReadsItsWrites | src/softcut/_core.cpp:218-257 | the same from a fresh engine |
| RecordPasses.AgreesAtEveryPass | thirdparty/softcut-lib/softcut-lib/src/Voice.cpp:117-124 | over every run from a fresh engine, whenever a pass can finish the mirror is what the DSP will settle on, however many passes finished before |
| RecordPasses.AnswerAfterPassesIff | src/softcut/_core.cpp:218-257 | over every run from a fresh engine with any number of finished passes: with nothing pending the getters are right; otherwise exactly when the changes outstanding at the latest finish and made since forget the pair they started from |
| RecordRuns.StaleRun | src/softcut/_core.cpp:234-257 | a run from a fresh engine, for every queue that holds a command and every pair to start from, in which the getters claim record-once after the pass ended |
| DroppedChanges.AnswerIff | src/softcut/_core.cpp:172-257 | after any run from a fresh engine, drops and finished passes included, and then one without: with nothing pending the getters are right; otherwise exactly when, for each flag, mirror and DSP were to agree at the end of the first run or a change made since fixes it |
| DroppedChanges.AnswerAfterDropIff | src/softcut/_core.cpp:172-257 | after a first drop a pending answer is right exactly when, for each flag, the dropped change makes no difference or a change made since fixes it |
| DropRun.DroppedRun | src/softcut/_core.cpp:172-182 | a run from a fresh engine in which every attempt to queue a change fails and the getters then report what is never applied |
| FlagMirror.MirrorAgreesAfterPassIff | thirdparty/softcut-lib/softcut-lib/src/Voice.cpp:117-124 | the mirror's pair and the DSP's pair agree after a pass exactly when the later changes determine both flags |
| SvfMath.Trapezoid | thirdparty/softcut-lib/softcut-lib/src/Svf.cpp:77-106 | one sample solves the trapezoidal equations of the analogue filter |
| SvfMath.OutputsAre | thirdparty/softcut-lib/softcut-lib/src/Svf.cpp:91-106 | the four outputs: high, low and rq times band are the input, band reject is high and low, band integrates high and low integrates band by the trapezoidal rule |
| SvfMath.OutputIsMixed | thirdparty/softcut-lib/softcut-lib/src/Svf.cpp:25-28 | the filter's output is those four by their mixes |
| SvfMath.SilentEnergyIdentity | thirdparty/softcut-lib/softcut-lib/src/Svf.cpp:77-106 | with zero input the state energy falls by exactly g * rq * (v1' + v1)^2 |
| SvfMath.GrowthBound | thirdparty/softcut-lib/softcut-lib/src/Svf.cpp:91-106 | with input the state norm grows by at most the magnitude of x[n] + x[n-1] |
| SvfMath.StableUnderModulation | thirdparty/softcut-lib/softcut-lib/src/Svf.cpp:77-106 | the bound summed over any run with cutoff and rq changing every sample |
| SvfMath.SilenceNeverGrows | thirdparty/softcut-lib/softcut-lib/src/Svf.cpp:77-106 | in silence the energy never grows under any modulation |
| SvfMath.QuietIff | thirdparty/softcut-lib/softcut-lib/src/Svf.cpp:77-106 | one sample of silence lets no state's energy grow exactly while g and rq do not differ in sign |
| SvfTuning.TameIff | thirdparty/softcut-lib/softcut-lib/src/Svf.cpp:30-49 | over every run of rate, corner and Q settings, rates above 20 Hz and off the tangent's poles, the gain stays nonnegative exactly when each rate set finds a corner whose fraction of it, the whole part taken off, is below one half |
| SvfTuning.RateDropIff | thirdparty/softcut-lib/softcut-lib/src/Svf.cpp:30-44 | whatever corner was asked for, a new rate that is not 0.8 of the old one exactly keeps the gain nonnegative exactly above 0.8 of the rate the corner was set at |
| SvfTuning.FreshVoiceTameIff | thirdparty/softcut-lib/softcut-lib/src/Voice.cpp:129-137 | a voice made and then set to a rate above 16000 Hz: its input filter is tame exactly above 32000 Hz and its output filter above 24000 Hz, at those two rates on a pole |
| SvfTuning.LowRateGrows | thirdparty/softcut-lib/softcut-lib/src/Svf.cpp:30-37 | a concrete filter and state whose energy silence raises from 1 to 5 |
| SvfTuning.CornerRepairs | thirdparty/softcut-lib/softcut-lib/src/Svf.cpp:39-44 | setting the corner after any run gives a nonnegative gain again |
| Svf.Filter.GetNextSample | thirdparty/softcut-lib/softcut-lib/src/Svf.cpp:25-28 | the filter object's memory and output are those of the sample equations |
| Svf.Filter.SetSampleRate | thirdparty/softcut-lib/softcut-lib/src/Svf.cpp:30-37 | the limits and the gain follow the rate, the corner stays; no precondition but a positive rate |
| HeadObjects.SubHead.UpdatePhase | thirdparty/softcut-lib/softcut-lib/src/SubHead.cpp:27-67 | phase, trigger, state and requested action after one step |
| HeadObjects.SubHead.UpdateFade | thirdparty/softcut-lib/softcut-lib/src/SubHead.cpp:69-89 | fade and state after one step |
| HeadObjects.SubHead.Poke | thirdparty/softcut-lib/softcut-lib/src/SubHead.cpp:99-131 | the resampled frames blended into the array in place from the wrapping write index |
| HeadObjects.SubHead.Peek | thirdparty/softcut-lib/softcut-lib/src/SubHead.cpp:137-156 | the interpolation at the wrapped phase, which at a whole phase is the sample there |
| Heads.PeekAtSample | thirdparty/softcut-lib/softcut-lib/src/SubHead.cpp:137-156 | at a whole phase the interpolation is the buffer's sample |
| Heads.PeekOnLine | thirdparty/softcut-lib/softcut-lib/src/SubHead.cpp:137-156 | four samples on a line: the interpolation lies on it, across the buffer's end too |
| HeadOutput.HermiteIsSpline | thirdparty/softcut-lib/softcut-lib/include/softcut/Interpolate.h:12-23 | the interpolation is the cubic through the two inner samples with the slopes of the chords around them |
| HeadInput.OverdubAt | thirdparty/softcut-lib/softcut-lib/src/SubHead.cpp:99-131 | a head fully in puts its frames, clipped, at the record level onto the old samples at the preserve level, in a row from the write index in its direction |
| HeadInput.SampleOverdubs | thirdparty/softcut-lib/softcut-lib/src/ReadWriteHead.cpp:32-52 | with one head playing, the other stopped and no one-shot pass, a writing sample does that at the pair's own levels |
| HeadInput.OverdubsNowhereElse | thirdparty/softcut-lib/softcut-lib/src/SubHead.cpp:99-131 | no other sample changes, whatever the fade |
| HeadInput.FadedOutKeeps | thirdparty/softcut-lib/softcut-lib/src/SubHead.cpp:99-131 | a head still out leaves the buffer as it is |
| HeadInput.EntersBehind | thirdparty/softcut-lib/softcut-lib/src/SubHead.cpp:162-169 | a head cut to a whole position writes eight samples behind it in its direction |
| HeadObjects.ReadWriteHead.CutToPhase | thirdparty/softcut-lib/softcut-lib/src/ReadWriteHead.cpp:143-173 | the crossfade to the other head, the one-shot marks, and the complaint exactly when the active head is fading |
| HeadObjects.ReadWriteHead.DequeueCrossfade | thirdparty/softcut-lib/softcut-lib/src/ReadWriteHead.cpp:133-141 | takes a queued cut once the active head has settled, never reaching the complaint |
| HeadObjects.ReadWriteHead.CutToPos | thirdparty/softcut-lib/softcut-lib/src/ReadWriteHead.cpp:231-238 | cuts or queues, never reaching the complaint |
| HeadObjects.ReadWriteHead.ProcessSample | thirdparty/softcut-lib/softcut-lib/src/ReadWriteHead.cpp:32-52 | output mixed before writing, then the writers, phases, fades and queued cut |
| HeadObjects.ReadWriteHead.Init | thirdparty/softcut-lib/softcut-lib/src/ReadWriteHead.cpp:17-30 | the whole state after init |
| HeadOutput.OneIsHeard | thirdparty/softcut-lib/softcut-lib/src/ReadWriteHead.cpp:215-217 | over every run of a playing voice: while one head plays and the other has stopped, the buffer's interpolation at the playing head's phase is heard, at a whole phase the sample there |
| HeadOutput.CrossfadeIsHeard | thirdparty/softcut-lib/softcut-lib/src/ReadWriteHead.cpp:215-217 | over every run that keeps looping and playing: the active head's place in the buffer by the gain of its fade and the other's by the gain of the rest, at whole phases the two samples |
| HeadOutput.BlockHeard | thirdparty/softcut-lib/softcut-lib/src/Voice.cpp:77-127 | with the output filter as a reset leaves it, a block's sample is the buffer at the playing head's phase whenever it comes to it with the other head stopped |
| HeadSafety.InactiveHeadNeverEnters | thirdparty/softcut-lib/softcut-lib/src/ReadWriteHead.cpp:55-60 | from a reset voice over every run: the inactive head is leaving or stopped, never both playing, fades match states and stay in [0, 1] |
| HeadSafety.RunKeeps | thirdparty/softcut-lib/softcut-lib/src/ReadWriteHead.cpp:32-53 | the inductive invariant, with rec_once always idle, armed, recording or done and active only while recording |
| HeadSafety.BlockIsRun | thirdparty/softcut-lib/softcut-lib/src/Voice.cpp:77-127 | a block is such a run, so every block keeps what every run keeps |
| OneShot.OneHeadOneActivation | thirdparty/softcut-lib/softcut-lib/src/ReadWriteHead.cpp:143-173 | from arming to completion only one head writes, during one activation; nothing before the first cut or after the finishing one |
| OneShot.PassGoesOnward | thirdparty/softcut-lib/softcut-lib/src/ReadWriteHead.cpp:195-207 | a pass never goes back and never changes its recording head |
| OneShot.WritersWrite | thirdparty/softcut-lib/softcut-lib/src/ReadWriteHead.cpp:35-44 | during a pass a sample changes the buffer only by the recording head's write |
| OneShot.PublishedFollowsMirror | thirdparty/softcut-lib/softcut-lib/src/Voice.cpp:168-186 | each flag operation changes the published pair as the mirrors change |
| OneShot.OnlyFinishUnannounced | thirdparty/softcut-lib/softcut-lib/src/Voice.cpp:117-126 | nothing else changes the pair but the block end that finishes a pass |
| Crossfade.FadesSumToOne | thirdparty/softcut-lib/softcut-lib/src/SubHead.cpp:69-89 | with loop and play on after a full fade-in the fades sum to one at every sample, and one head plays exactly when the other has stopped, also for queued cuts |
| LoopBound.SampleTicks | thirdparty/softcut-lib/softcut-lib/src/Voice.cpp:104-112 | a playing voice's sample moves phases, fades and the queued cut as the bare heads move at the smoothed rate |
| LoopBound.OvershootBound | thirdparty/softcut-lib/softcut-lib/src/SubHead.cpp:27-67 | over every run of a looping voice that has been cut, rate targets up to R, further cuts into the loop and recording switched at will: the active phase stays within [start, max(end, c + max(F, R))], c the latest cut |
| LoopBound.NeverLeavesLoop | thirdparty/softcut-lib/softcut-lib/src/ReadWriteHead.cpp:112-141 | once cut to the start of a loop at least max(F, R) long, a looping voice that is not cut elsewhere never leaves it |
| LoopBound.CutStartsVoice | thirdparty/softcut-lib/softcut-lib/src/ReadWriteHead.cpp:143-173 | a cut into the loop on a settled head whose partner is stopped establishes the bound's invariant, with its position as the latest cut |
| LoopBackward.TickMirrors | thirdparty/softcut-lib/softcut-lib/src/ReadWriteHead.cpp:112-141 | a sample at one rate, seen in the mirror of the loop, is a sample at the opposite rate |
| LoopBackward.OvershootBack | thirdparty/softcut-lib/softcut-lib/src/ReadWriteHead.cpp:112-141 | the bound for rates in [-R, 0): the active phase stays within the end and the smaller of the start and max(F, R) before the latest cut |
| LoopBackward.CutStartsBack | thirdparty/softcut-lib/softcut-lib/src/ReadWriteHead.cpp:143-173 | a cut into the loop on a settled head whose partner is stopped starts such a run |
| LoopUncut.BoundedIff | thirdparty/softcut-lib/softcut-lib/src/SubHead.cpp:27-67 | a voice left to loop on one head stays below some bound exactly when that head is marked active |
| LoopUncut.RunsOn | thirdparty/softcut-lib/softcut-lib/src/SubHead.cpp:27-67 | on an unmarked head every sample moves the phase on by the rate, nothing is ever queued |
| LoopUncut.ResetPlaysUnmarked | thirdparty/softcut-lib/softcut-lib/src/ReadWriteHead.cpp:17-30 | a voice reset with its first head unmarked and set to loop and play is such a voice |
| PlayOnce.PlaysOut | thirdparty/softcut-lib/softcut-lib/src/SubHead.cpp:27-89 | with loop off, from the sample at which the head leaves its region, at any rates: its fade goes down by each sample's increment, and when nothing is left it has stopped and stays so |
| PlayOnce.StoppedIsSilent | thirdparty/softcut-lib/softcut-lib/src/ReadWriteHead.cpp:215-217 | then a playing voice is silent |
| VoiceControls.LevelsNear | thirdparty/softcut-lib/softcut-lib/src/Voice.cpp:139-166 | the rate or a level is set: over the samples that follow the head's goes to what was asked for by the smoother's factor, and the other two go on to their own targets |
| VoiceControls.LoopFromReset | thirdparty/softcut-lib/softcut-lib/src/Voice.cpp:144-158 | from any voice: reset, loop start and end in seconds, fade time, loop, rate, play and a cut between them make one that loops there, as the bound's invariant has it |
| VoiceControls.SecondsAtRate | thirdparty/softcut-lib/softcut-lib/src/Voice.cpp:129-158 | after a change of sample rate loop points and cuts in seconds count at the new one |
| VoiceControls.PauseResumes | thirdparty/softcut-lib/softcut-lib/src/Voice.cpp:188-199 | play switched off and on while not recording: both heads stop, and the active one alone plays on from where it was |
| VoiceControls.RestIsSilent | thirdparty/softcut-lib/softcut-lib/src/Voice.cpp:387-389 | both heads stopped and no cut waiting, a playing voice with its output filter out of the way puts out zeros, in blocks of any length, and stays so |
| VoiceControls.CutIsKept | thirdparty/softcut-lib/softcut-lib/src/ReadWriteHead.cpp:231-238 | a cut asked for in mid-fade is queued |
| VoiceControls.WaitingCut | thirdparty/softcut-lib/softcut-lib/src/ReadWriteHead.cpp:133-141 | a queued cut waits while the arriving head fades, and in the very sample in which that is over the other head arrives at the place asked for |
| Voices.RampNears | thirdparty/softcut-lib/softcut-lib/include/softcut/Utilities.h:176-180 | a smoothed level comes nearer to its target by the factor b at every sample |
| HeadInput.LowInput | thirdparty/softcut-lib/softcut-lib/src/Voice.cpp:105 | with the input filter as a reset leaves it, a head is given its low output |
| VoiceObjects.Voice.ProcessBlockMono | thirdparty/softcut-lib/softcut-lib/src/Voice.cpp:77-127 | state, buffer and output samples are those of the per-sample recurrence and the block end; nothing else in the output array changes; flags published |
| VoiceObjects.Voice.OneSample | thirdparty/softcut-lib/softcut-lib/src/Voice.cpp:104-112 | input filter, ramps, head and output filter in order |
| VoiceObjects.Voice.Reset | thirdparty/softcut-lib/softcut-lib/src/Voice.cpp:22-75 | the defaults a reset establishes, for any filter state before; both corners held at the rate in force |
| VoiceObjects.Voice.SetSampleRate | thirdparty/softcut-lib/softcut-lib/src/Voice.cpp:129-137 | head rate, smoothers and both filters follow; corners, fade increment and phases stay |
| BlockSplit.BlocksCompose | thirdparty/softcut-lib/softcut-lib/src/Voice.cpp:77-127 | a block of xs + ys is a block of xs and then one of ys in state, buffer and output, even when a one-shot pass ends between |
| RackObjects.Bay.Process | src/shared/mixer.hpp:45-46 | one voice object processes its input into its row of the outputs; that voice and its buffer change and nothing else |
| Render.ProcessBlock | src/shared/mixer.hpp:30-57 | the in-place mixer runs every voice object on its input and writes the interleaved panned sums, nothing else |
| Render.MakeEngine | src/softcut/__init__.py:278-282 | a valid engine of any number of voices, made from distinct buffers, with silent outputs and no object shared |
| Render.RenderFresh | src/softcut/_core.cpp:582-603 | such an engine renders any input as specified, into any destination large enough |
| Render.Engine.ProcessCore | src/softcut/_core.cpp:535-551 | one block, then the output buffers change places |
| Render.Engine.Render | src/softcut/_core.cpp:582-603 | chunked rendering is the specification's rendering; a destination too small is refused and nothing changes |
| Render.Engine.SetFeedback | src/softcut/_core.cpp:553-558 | one entry of the matrix is set and nothing else; indices outside the voices are refused |
| RenderLaws.OutputIsPanned | src/shared/mixer.hpp:47-54 | every output sample of a rendering is the panned sum of the voices' outputs at that time |
| Routing.HardLeft | src/shared/mixer.hpp:47-54 | in a rendering's output a voice panned hard left adds its output at its level to channel 0 and nothing to channel 1 |
| Routing.HardRight | src/shared/mixer.hpp:47-54 | and the other way round |
| Routing.EqualPower | src/shared/mixer.hpp:47-54 | at every pan the squares of a voice's two shares add up to the square of its output at its level |
| Routing.FurtherSilent | src/shared/mixer.hpp:51-54 | channels beyond the second stay silent |
| FeedbackLaws.FeedbackIsDelay | src/shared/mixer.hpp:35-45 | in a rendering of any length a voice hears the external input times its gain plus every voice's output exactly one block earlier times the feedback gain |
| Routing.HeardFromEach | src/shared/mixer.hpp:35-45 | the same with the matrix written out: voice src is heard by dst at the entry src * n + dst |
| Routing.FeedbackSet | src/softcut/_core.cpp:553-558 | setting the gain from src into dst changes in the next block what dst hears, by the change times what src put out a block earlier, and what no other voice hears |
| FeedbackLaws.NextRenderingHears | src/softcut/_core.cpp:582-603 | what the first block of the next rendering hears, for every length of the one before: the frames of the block begun, and behind them what the array held two blocks earlier |
| FeedbackLaws.SilentPast | src/softcut/_core.cpp:499-500 | from a fresh engine nothing is fed back before time 0 |
| RenderLaws.EachVoiceAlone | src/shared/mixer.hpp:30-57 | voices that do not share recorded buffers each end, under any chunking and feedback, as if run alone in one block over what they were given |
| RenderLaws.BlockSizeIndependence | src/softcut/_core.cpp:582-603 | without feedback, rendering a + b equals rendering a and then b in output, voices and buffers, for every split and any three block sizes |
| ImaAdpcm.SplitRead | thirdparty/dr_wav/dr_wav.h:6522-6678 | after a full read of n1, reading n2 is reading n1 + n2; a short read is where a longer one stops too |
| ImaHeaders.ReadCount | thirdparty/dr_wav/dr_wav.h:6546-6672 | a read gives what was asked for, what the stream announces or what the headers and the file's length allow, whichever is least |
| ImaHeaders.SplitReadIff | thirdparty/dr_wav/dr_wav.h:6522-6678 | two reads give what one gives exactly when the first meets no bad header, nothing more is asked for or announced, or nothing readable stands behind that header |
| ImaAdpcm.BadHeaderSkipped | thirdparty/dr_wav/dr_wav.h:6562-6566 | a concrete stream on which they differ |
| ImaAdpcm.Read | thirdparty/dr_wav/dr_wav.h:6522-6678 | every read keeps step indices in 0..88, predictors and cache in 16 bits and at most eight frames cached, and moves the cursor by what it gives |
| ImaAdpcm.Slot | thirdparty/dr_wav/dr_wav.h:6599-6603 | every cache position computed lies in 0..15 |
| ImaAdpcm.FramesInRange | thirdparty/dr_wav/dr_wav.h:6638-6671 | every frame read has a 16-bit sample for each channel |
| ImaAdpcm.BlockExact | thirdparty/dr_wav/dr_wav.h:6552-6672 | a block of whole channel words gives one frame and eight per group and leaves the decoder at the next block, no count wrapped |
| ImaFidelity.EncodedThenRead | thirdparty/dr_wav/dr_wav.h:6522-6678 | any 16-bit signal, mono or stereo, in any number of whole blocks of any size, coded by the standard encoder and read: every channel of every frame is that encoder's own prediction |
| ImaFidelity.DecodedNear | thirdparty/dr_wav/dr_wav.h:6638-6671 | so a frame is the signal itself where a block opens, and else within an eighth of the step and 9/8 of it, unless the signal moved by two steps or more from the frame before; then it came nearer by fifteen eighths of the step |
| ImaEncoder.Decodes | thirdparty/dr_wav/dr_wav.h:6638-6652 | the decoder follows each of the standard encoder's codes to its predicted sample and step index |
| ImaEncoder.StepsGrow | thirdparty/dr_wav/dr_wav.h:6532-6542 | every step of the table is a tenth larger than the one before, up to rounding, and the last is 32767 |
| ImaSeeking.UsesReached | thirdparty/dr_wav/dr_wav.h:6048-6113 | whatever reads, reads in pieces and seeks are done from the start, the decoder is where a straight decode would be or no longer before the place where that stops |
| ImaSeeking.SeekCount | thirdparty/dr_wav/dr_wav.h:6048-6113 | a seek works exactly when the headers allow it: from the start when it goes back, from where the decoder is when it goes on |
| ImaSeeking.SeekIff | thirdparty/dr_wav/dr_wav.h:6021-6113 | from every such state, working exactly when a straight decode gets to the target and then reading its frames holds exactly when the seek goes back, or nothing readable was gone on to behind a bad header, or the target is out of reach |
| ImaSeeking.WrongFrame | thirdparty/dr_wav/dr_wav.h:6562-6566 | a concrete stream on which a seek to where the decoder is gives a frame the straight decode does not have |
| ImaSeeking.GoodFileDecodes | thirdparty/dr_wav/dr_wav.h:6522-6678 | a file whose block headers are all good decodes in full, in any pieces, and seeks anywhere and rightly, from any state |
| ImaHeaders.AnnouncedFrames | thirdparty/dr_wav/dr_wav.h:3763-3848 | and the length the file reader announces for it is the one it decodes to |
| ImaPlayback.PlayFrom | thirdparty/dr_wav/dr_wav.h:6021-6113 | the decoder object, from any state reached and to one: seek and read put the frames read into the output, those of a straight decode whenever seeking is right from there, and otherwise, when the seek fails, nothing |
| ImaPlayback.SeekNear | thirdparty/dr_wav/dr_wav.h:6021-6113 | what is read after the object's seek are a straight decode's frames exactly under that condition |
| ImaHeaders.PiecesIff | thirdparty/dr_wav/dr_wav.h:7298-7326 | reading in pieces gives a straight read exactly when no bad header comes before its end, it stops at the start of a piece, no more is announced, or nothing readable stands behind |
| ImaAdpcm.PiecesWhenFull | thirdparty/dr_wav/dr_wav.h:7298-7326 | a full read comes out the same in pieces, ending in the same state |
| ImaDecoder.Decoder.ReadS16 | thirdparty/dr_wav/dr_wav.h:6522-6678 | the nested loops put the specified frames into the output and nothing else, and end in the specified state or, like it, at the end |
| ImaDecoder.Decoder.DecodeGroup | thirdparty/dr_wav/dr_wav.h:6625-6672 | a word per channel decoded into the cache in place |
| ImaDecoder.Decoder.LoadHeader | thirdparty/dr_wav/dr_wav.h:6552-6595 | a block header, or the refusal and the skip |
| ImaDecoder.Decoder.SeekToFrame | thirdparty/dr_wav/dr_wav.h:6048-6113 | the seek loop is the specified seek |
| ImaDecoder.SameReads | thirdparty/dr_wav/dr_wav.h:6546-6550 | decoders that differ only behind the last frame read the same |
| RiffFile.Writer.InitWrite | thirdparty/dr_wav/dr_wav.h:4570-4683 | a complete empty file, or a refusal for formats needing more chunks |
| RiffFile.Writer.WriteRaw | thirdparty/dr_wav/dr_wav.h:6193-6220 | after every single write, of which the device may take only the first bytes, the file is complete: header, all that was taken in order, padding, both sizes |
| RiffFile.WellFormed | thirdparty/dr_wav/dr_wav.h:4481-4498 | such a file's fields and pad byte, and each size exact exactly when it fits 32 bits |
| RiffFile.ThreeBytes | thirdparty/dr_wav/dr_wav.h:4570-4683 | a concrete file, byte by byte |
| RiffFile.OpenRiff | thirdparty/dr_wav/dr_wav.h:3088-3457 | the reader's chunk loop, its error cases included |
| RiffFile.WrittenThenRead | thirdparty/dr_wav/dr_wav.h:3763-3848 | of every format the writer accepts: refused exactly when not playable, and otherwise the fields and the payload in whole frames come back |
| RiffFile.RecoveredIff | thirdparty/dr_wav/dr_wav.h:3763-3800 | all the data expected comes back exactly when the format is playable and the payload shorter than 0xFFFFFFFF bytes |
| RiffFile.TooFast | thirdparty/dr_wav/dr_wav.h:4570-4683 | a concrete format the writer accepts and the reader refuses |
| RiffFile.WrappedTag | thirdparty/dr_wav/dr_wav.h:4570-4683 | a tag that wraps to MS-ADPCM is accepted and written as such, and refused by the reader |
| RiffFile.UnknownChunksSkipped | thirdparty/dr_wav/dr_wav.h:3685-3691 | any unknown chunks before or behind the format chunk change nothing |
| OscOutcome.OutcomeIff | thirdparty/tinyosc/tinyosc.c:176-254 | each of the five outcomes of a write, for any message and any room, told from both alone: the head's room, the first unknown type, and where each argument in front of it ends |
| OscOutcome.WholeWordsOutcome | thirdparty/tinyosc/tinyosc.c:176-254 | in whole words: written exactly when every type is known and the message has room, stopped by an unknown type exactly when all in front of it has room |
| OscOutcome.WholeIff | thirdparty/tinyosc/tinyosc.c:176-254 | the message is left whole exactly when it is written and its format and texts have double room |
| TinyOsc.SixteenBytesCut | thirdparty/tinyosc/tinyosc.c:235-243 | a concrete message cut although 16 bytes suffice and 16 is reported |
| TinyOsc.EncodedBytes | thirdparty/tinyosc/tinyosc.c:176-254 | a concrete message with an integer, a text and a blob, byte by byte |
| OscRead.MessageBack | thirdparty/tinyosc/tinyosc.c:38-58 | a message in place parses to its address, format and arguments in order, on whole words |
| OscRead.WrittenThenRead | thirdparty/tinyosc/tinyosc.c:99-149 | given room for the message and double room for its texts, a message of known types is written and reads back as it was |
| OscRead.BundleBack | thirdparty/tinyosc/tinyosc.c:79-85 | a bundle of any number of messages iterates back to the same messages |
| OscBuffers.VWriteInto | thirdparty/tinyosc/tinyosc.c:176-254 | result code and contents for every outcome; outside the room nothing changes but the place of a comma astray |
| OscBuffers.OutsideStaysIff | thirdparty/tinyosc/tinyosc.c:180-184 | the bytes outside stay exactly when the comma is not astray or falls on a comma |
| OscBuffers.StrayComma | thirdparty/tinyosc/tinyosc.c:180-184 | a concrete address whose comma leaves a room of four |
| OscBuffers.Bundle.WriteNextMessage | thirdparty/tinyosc/tinyosc.c:256-268 | for any buffer length: appends a message and its length; a full bundle stays; a message that is not accepted leaves a valid bundle, the one before, exactly when an unknown type is what stops it, and else takes the marker off the words |
| OscBuffers.OffTheWords | thirdparty/tinyosc/tinyosc.c:256-268 | a concrete message whose refusal for room takes the marker from 16 to 17 |
| OscBuffers.NegativeRoomIff | thirdparty/tinyosc/tinyosc.c:260-262 | the length handed on is negative exactly when the buffer is not whole words and all its whole words are used |
| OscBuffers.EighteenBytes | thirdparty/tinyosc/tinyosc.c:260-262 | a new bundle in eighteen bytes hands on minus two |
| OscBuffers.BundleReader.GetNextMessage | thirdparty/tinyosc/tinyosc.c:79-85 | the next message's place and length until the end, lengths past the end of the bundle included |
| OscBuffers.Packet.ParseMessage | thirdparty/tinyosc/tinyosc.c:38-58 | the three scanning loops find address end, comma and format end, or the error |
| OscBuffers.Packet.GetNextString | thirdparty/tinyosc/tinyosc.c:129-136 | the text and the moved marker, or nothing past the message |
| OscBuffers.Packet.GetNextBlob | thirdparty/tinyosc/tinyosc.c:138-149 | the blob and the moved marker, or nothing past the message |
| BufferOps.ApplyToBuffer | src/shared/buffer_ops.hpp:45-78 | every branch gives the one blend formula |
| BufferOps.FadedWindow | src/shared/buffer_ops.hpp:71-77 | every sample of the window: the first and last unchanged under a fade, even steps from the old sample to the target on the ramps, and between them, or with no fade, the target old * preserve + source * mix |
| BufferOps.OnlyTheWindow | src/shared/buffer_ops.hpp:48-51 | exactly the clipped window changes |
| BufferOps.NegativeStartTrims | src/shared/buffer_ops.hpp:48-51 | a negative start equals leaving out the head of the source |
| BufferOps.EnvelopeSymmetric | src/shared/buffer_ops.hpp:32-37 | the envelope is symmetric in [0, 1] with ramps that do not meet |
| BufferOps.StaysWithin | src/shared/buffer_ops.hpp:71-77 | nonnegative gains adding up to at most one keep every sample within the bound |
| BufferOps.ExtractChannelInto | src/shared/buffer_ops.hpp:83-91 | one channel de-interleaved, silence outside the data |
| BufferOps.MonoOf | src/softcut/_wavio.py:62-77 | the average of every frame's channels, for any number of channels |
| BufferOps.AverageOfEqual | src/softcut/_wavio.py:62-77 | channels that all hold the same give that |
| BufferOps.AverageOfTwo | src/softcut/_wavio.py:62-77 | two channels give the middle between them |
| Pcm.PcmDecode | src/softcut/_core.cpp:1358-1403 | each of the four widths decodes to the two's-complement fraction; other widths and samples beyond the bytes change nothing |
| Pcm.DecodedRange | src/softcut/_core.cpp:1405-1407 | decoded samples lie in [-1, 1) |
| Pcm.DecodedInteger | src/softcut/_core.cpp:1358-1403 | for each width a sample times half the range is the integer of that range which the little-endian bytes are modulo the range, eight bits counted from 128 |
| Pcm.PcmEncodeS16 | src/softcut/_core.cpp:1408-1423 | the little-endian codes of the quantised samples |
| Pcm.RoundTripError | src/shared/buffer_ops.hpp:22-28 | a saved sample comes back within 1.5/32768 of the clipped one |
| Pcm.Saturates | src/shared/buffer_ops.hpp:22-28 | the code is the nearest to 32767 times the sample, and the largest or smallest exactly from half a code below full scale on |
| Pcm.Recoded | src/shared/buffer_ops.hpp:22-28 | encoding a loaded code again keeps it up to half scale and lowers its magnitude by one above |
| Pcm.CyclesDrift | src/shared/buffer_ops.hpp:22-28 | the magnitude of a code after any number of load and save rounds |
| Norns.Buffers.BufferWriteStereo | src/softcut/norns.py:296-316 | frame i holds both buffers' samples i behind the start, as many as the shorter region has, for every start and duration |
| Norns.Buffers.BufferReadStereo | src/softcut/norns.py:263-282 | a file's first two channels, or its only one twice, blended into the buffers |
| Norns.Buffers.BufferCopyMono | src/softcut/norns.py:363-396 | the copied-out source, reversed if asked, blended into the target; the other buffer stays |
| Norns.CopiedAt | src/softcut/norns.py:383-396 | a plain copy puts every sample of the region in its place, in order or from the last to the first |
| Norns.ChannelOf | src/softcut/norns.py:216-237 | one channel of a read, as long as the file or the request allows |
| Norns.ReadLengthIff | src/softcut/norns.py:216-237 | a frame is read exactly when the file has it and it was asked for |
| Norns.RegionLengthIff | src/softcut/norns.py:296-316 | a sample is of a region exactly when the buffer has it and it was asked for |
| Norns.StereoRoundTrip | src/softcut/norns.py:263-316 | each channel of a saved pair comes back sample by sample within 1.5/32768 of the clipped one |
| Norns.SaveThenLoad | src/softcut/norns.py:263-316 | saved whole and read over itself, a buffer holds its requantised samples |
| Norns.FlippedTwice | src/softcut/norns.py:383-396 | a reversed unfaded self-copy of a region done twice changes nothing |

## Left out

- Rounding: float rounding, NaN and infinities; all laws are about exact reals.
- Memory order: weak-memory effects beyond loads that may return an outdated but coherent
  index.
- The device, sockets, the Python facade, the JACK client and the demos: a device enters as
  callback steps allowed between the call that starts it and the return of the call that
  stops it.
- The standalone server's own `apply` and `stop`, which have no lifecycle lock.
- Resampler, soft clipper, fade curves, pan and mixing gains: open functions; the resampler
  may give any finite number of frames per sample.
- The tangent: of the warping only its sign counts, and the source's infinities where the
  coefficients' divisor is zero stay open; in runs of a voice the coefficients after a
  control change are parameters.  The rate-dependent input corner and the smoothers' poles
  are parameters too.
- Phase quantising and published head positions.
- Live changes of buffers or of their length, and the buffer keepalive.
- Mirrors of parameters other than rec and rec_once.
- Output while recording without playing, where the source leaves the sample unset: the
  unset local is a parameter of the block.
- RenderLaws.BlockSizeIndependence: voices that record without playing are excluded, for
  that reason; the stale output blocks behind the feedback are not compared.
- LoopBound.OvershootBound: fixed loop points and forward rates, backward ones by
  LoopBackward.OvershootBack, changes of direction not; a change of loop points in
  mid-flight can leave the head anywhere.
- ReadYourWrites.ReadsItsWrites: the other producer sends parameters but no flag changes; two
  producers of flag changes have no common issue order to answer by.
- ImaDecoder.Decoder.ReadS16: the stream is one in memory, where a seek outside it does
  nothing.  Behind the last frame the source may decode one group more than the
  specification, which no read can see.
- RiffFile.OpenRiff: containers other than RIFF read as unknown; metadata, and a format
  chunk of 2^31 bytes or more, are not modelled.
- RiffFile.Writer.WriteRaw: the data may be cut short, the padding and the size fields may
  not; sequential mode is not modelled.
- OscRead.MessageBack: scanning for a zero or a comma ends where the bytes do.
- OscBuffers.VWriteInto: the place of a comma astray is in the buffer's memory; the copying
  macro is the POSIX one, not the Windows one.
- OscBuffers.Bundle.WriteNextMessage: a negative length handed on has no outcome here.
- `tosc_reset`: its offset differs from the parser's for three tags modulo four.
- Norns.Buffers.BufferCopyMono: positions are given in frames; seconds and their rounding are
  left to the caller.
- MS-ADPCM, A-law and mu-law decoding, other WAV containers, the disk worker.
