# Four-track loopers on the Daisy Seed, modelled in Dafny

This project models the four looper programs for the Daisy Seed board.

The **four-track tape machine**:
- Each track runs either in loop mode, over a DaisySP `Looper`, or in tape mode.
- In tape mode the track owns a linear 16-bit tape of 60 s with a playhead, a record cursor and a recorded length.
- Each track has four states: stopped, playing, recording and overdubbing.

The three **looper** variants (basic, advanced and simple):
- Each has four tracks over DaisySP loopers.
- The controls set each track's volume and flags and trigger its looper.
- The audio callback mixes the tracks down under a different normalisation policy in each variant:
  - basic: divide by the contributor count;
  - advanced: divide by the square root of the count, in stereo with pan, solo and soft limiting;
  - simple: an audibility gate, divide by the square root of the count, and dry monitoring only while recording.

Layout:
- `audio.dfy` (module `Audio`): the int16 tape sample; the float/int16 conversion, with C's truncating cast; `fclamp`; and the floating-point library functions as uninterpreted parameters (`Numerics`).
- `primitives.dfy` (module `Primitives`): the DaisySP `Looper`, `PitchShifter`, `Svf` and `DelayLine`, known only through contracts over their ghost state. The library is not part of this model. These contracts:
  - count record triggers;
  - record what each unit was fed;
  - state that an empty looper stays empty and silent, and that a trigger starts an empty looper and stops a recording one.
- `mix_bus.dfy` (module `MixBus`): the selection arithmetic shared by the mixers, covering contributors, gated sums and counts.
- `tape_deck.dfy` (module `TapeDeck`): a tape-machine track as a value. Each operation is a function from the old track to the new one. The module also holds the lemmas over single samples, whole takes and whole histories.
- `tape_machine.dfy` (module `TapeMachine`): the imperative tape machine.
  - `TapeMachineTrack` has the source's fields and an `array` tape.
  - The device class runs the control poll and the audio callback.
  - Every method is proved against the `TapeDeck` function for its operation.
- `four_track_looper.dfy`, `four_track_looper_advanced.dfy` and `four_track_looper_simple.dfy`: the three looper programs.
  - Each has a track class, a device class with `UpdateControls` and the audio callback, and the value-level relations these are proved against.
  - In the advanced looper one sample through a track is the relation `Stepped` between the track's state and chain before (`TrackState`, `Chain`) and its `Snapshot` after. A frame is `AllStepped` over the four tracks.

Positions, lengths and counters are natural numbers. The tape cursors stay below 2^24, so the source's float counters hold exact integers. Audio signals are reals.

## Model

| member | source | states |
|---|---|---|
| Audio.Trunc | seed/FourTrackLooper/FourTrackTapeMachine.cpp:127-128 | the float-to-int cast truncates toward zero: the result is within one of x, and not farther from zero than x |
| Audio.Quantize | seed/FourTrackLooper/FourTrackTapeMachine.cpp:127-128 | storing a level in [-1, 1] gives a sample in [-32767, 32767] less than one step from x * 32767, with the sign of x |
| Audio.QuantizeRoundTrip | seed/FourTrackLooper/FourTrackTapeMachine.cpp:143-145 | reading back a stored level loses less than one quantisation step (1/32767) |
| Audio.Clamp | seed/FourTrackLooper/FourTrackTapeMachine.cpp:311 | fclamp lands in [lo, hi]: it keeps values inside, gives lo below the range and hi above it |
| Audio.ToSample | seed/FourTrackLooper/FourTrackTapeMachine.cpp:127-128 | the stored sample is exactly the source's conversion for levels in [-1, 1], and full scale with the right sign beyond them |
| Audio.OverdubStoreAsWritten | seed/FourTrackLooper/FourTrackTapeMachine.cpp:159-162 | the integer the overdub store asks the int16 cast for: within one of (existing + input) * 0.7 * 32767, with no limiting |
| Audio.OverdubStoreOverflows | seed/FourTrackLooper/FourTrackTapeMachine.cpp:159-162 | a full-scale input overdubbed on full-scale material asks for 45873, outside the int16 range |
| Audio.OverdubStoreSaturates | seed/FourTrackLooper/FourTrackTapeMachine.cpp:159-162 | the corrected store keeps every overdub level in range with its sign, and exact to one step where the level is in [-1, 1] |
| MixBus.Contributors | seed/FourTrackLooper/FourTrackLooper.cpp:266-281 | the solo rule: track i contributes iff no solo is active or track i is soloed |
| MixBus.Audible | seed/FourTrackLooper/FourTrackLooperSimple.cpp:245 | track i passes the gate iff its output has magnitude above 0.001 |
| MixBus.AccumulateStep | seed/FourTrackLooper/FourTrackLooper.cpp:263-281 | one more track adds its output to the sum, and one to the count, exactly when it contributes |
| MixBus.GatherStep | seed/FourTrackLooper/FourTrackLooper.cpp:263-281 | the same step for a loop that collects the outputs as it goes |
| MixBus.CountWhereBounds | seed/FourTrackLooper/FourTrackLooper.cpp:283-287 | the count is at most the track count; it is zero iff no track contributes, and full iff all do |
| MixBus.SoloCount | seed/FourTrackLooper/FourTrackLooper.cpp:266-281 | with a solo active the count is the number of soloed tracks, at least one; otherwise it is every track |
| MixBus.ExcludedTrackIgnored | seed/FourTrackLooper/FourTrackLooper.cpp:266-281 | a non-contributing track's output never reaches the sum, whatever it is |
| MixBus.SumWhereAll | seed/FourTrackLooper/FourTrackLooper.cpp:276-280 | with every track contributing the gated sum is the plain sum |
| MixBus.SumWhereBound | seed/FourTrackLooper/FourTrackLooper.cpp:283-287 | full-scale contributors sum to at most the contributor count in magnitude |
| TapeDeck.BlankTape | seed/FourTrackLooper/FourTrackTapeMachine.cpp:76-80 | the zero-filled tape: TAPE_BUFFER_SIZE slots, all 0 |
| TapeDeck.Init | seed/FourTrackLooper/FourTrackTapeMachine.cpp:58-81 | a fresh track is valid, in loop mode, stopped, empty, with every cursor at 0, unmuted, over a blank tape |
| TapeDeck.Transport | seed/FourTrackLooper/FourTrackTapeMachine.cpp:85-173 | the mode × state switch keeps the cursor bounds. It never changes mode, mute, volume or the armed flag. Tape mode leaves the loop flag alone; loop mode leaves tape and cursors alone |
| TapeDeck.TapeIgnoresLooper | seed/FourTrackLooper/FourTrackTapeMachine.cpp:114-173 | a tape-mode step is the same whatever the looper would have replied |
| TapeDeck.Process | seed/FourTrackLooper/FourTrackTapeMachine.cpp:83-178 | Process leaves the track exactly as the transport step does; a muted track outputs 0 |
| TapeDeck.StartRecording | seed/FourTrackLooper/FourTrackTapeMachine.cpp:180-210 | the result records. It overdubs iff the track was playing with content. A fresh tape take resets record cursor and length. Nothing else changes |
| TapeDeck.StartPlayback | seed/FourTrackLooper/FourTrackTapeMachine.cpp:212-232 | a no-op without content; otherwise the track plays, and in tape mode the playhead restarts at 0 only from at or past the end. Nothing else changes |
| TapeDeck.Stop | seed/FourTrackLooper/FourTrackTapeMachine.cpp:234-253 | the result never records. Tape mode only stops. A recording loop track ends up playing with content; any other loop track stops |
| TapeDeck.Rewind | seed/FourTrackLooper/FourTrackTapeMachine.cpp:255-275 | tape mode sets the playhead to 0 and keeps the state; loop mode leaves the track value as it is |
| TapeDeck.Clear | seed/FourTrackLooper/FourTrackTapeMachine.cpp:277-295 | the track ends stopped and empty with playhead and record cursor at 0. Tape mode blanks the tape and the length; loop mode keeps the tape and the length |
| TapeDeck.SetMode | seed/FourTrackLooper/FourTrackTapeMachine.cpp:297-304 | same mode: no change; other mode: Stop under the old mode, then the switch |
| TapeDeck.ToggleMode | seed/FourTrackLooper/FourTrackTapeMachine.cpp:306-309 | the mode always flips, and apart from the mode the result is Stop of the track |
| TapeDeck.SetVolume | seed/FourTrackLooper/FourTrackTapeMachine.cpp:311 | the volume lands in [0, 1], exact inside that range, and nothing else changes |
| TapeDeck.GetPosition | seed/FourTrackLooper/FourTrackTapeMachine.cpp:320-330 | the position is never negative, and 0 in loop mode or on an empty tape; otherwise it is at most 1 iff the playhead is within the take |
| TapeDeck.RecordButton | seed/FourTrackLooper/FourTrackTapeMachine.cpp:405-417 | the record button toggles recording: the track records afterwards iff it did not before |
| TapeDeck.PlayButton | seed/FourTrackLooper/FourTrackTapeMachine.cpp:419-431 | the track is playing afterwards iff it was not playing and has content |
| TapeDeck.TrackButtonsStep | seed/FourTrackLooper/FourTrackTapeMachine.cpp:399-438 | a track's own buttons keep its volume, and they change its mode exactly when the mode button rose |
| TapeDeck.TransportButtonsStep | seed/FourTrackLooper/FourTrackTapeMachine.cpp:445-470 | clear-all leaves the track stopped, empty and rewound; stop without clear leaves it not recording; mode and volume are kept |
| TapeDeck.UpdateTrack | seed/FourTrackLooper/FourTrackTapeMachine.cpp:389-471 | a whole poll of one track: volume clamped from its knob, then the clear, stop and mode facts above |
| TapeDeck.LastPressedIsLast | seed/FourTrackLooper/FourTrackTapeMachine.cpp:399-431 | selected_track is the last track whose record or play button rose, or unchanged when none rose |
| TapeDeck.LastPressedStep | seed/FourTrackLooper/FourTrackTapeMachine.cpp:399-431 | one more track scanned moves the selection to it exactly when it was pressed |
| TapeDeck.RecordStep | seed/FourTrackLooper/FourTrackTapeMachine.cpp:123-138 | recording writes the stored input at the record cursor and advances cursor and length together. At the last slot it only stops. The input is monitored at half level either way |
| TapeDeck.PlaybackNeverLoops | seed/FourTrackLooper/FourTrackTapeMachine.cpp:140-153 | at or past the end, playback outputs 0 and changes nothing, state included |
| TapeDeck.OverdubStep | seed/FourTrackLooper/FourTrackTapeMachine.cpp:155-171 | overdub stores and outputs (existing + input) * 0.7 under the playhead and never changes the length. With silent input the output is 0.7 × the existing material. At the end the track stops silently |
| TapeDeck.LoopRecordingEnds | seed/FourTrackLooper/FourTrackTapeMachine.cpp:96-103 | a recording loop track turns into a playing one with content as soon as the looper stops recording, and not before |
| TapeDeck.StopIdempotence | seed/FourTrackLooper/FourTrackTapeMachine.cpp:234-253 | Stop on a stopped track, or a second Stop in tape mode, changes nothing; two Stops always end stopped |
| TapeDeck.ModeSwitchDuringLoopRecording | seed/FourTrackLooper/FourTrackTapeMachine.cpp:297-304 | a recording loop track switched to tape mode ends up playing, in tape mode, with loop content |
| TapeDeck.Feed | seed/FourTrackLooper/FourTrackTapeMachine.cpp:114-173 | a run of tape-mode samples keeps the bounds, the mode, mute and volume, and yields one output per sample |
| TapeDeck.StoppedStaysSilent | seed/FourTrackLooper/FourTrackTapeMachine.cpp:119-121 | a stopped tape track stays as it is and outputs silence for any run |
| TapeDeck.RecordTake | seed/FourTrackLooper/FourTrackTapeMachine.cpp:123-138 | a take that fits lands sample i in slot recordPos + i. Cursor and length advance together and no other slot changes. Every sample is monitored at half level |
| TapeDeck.PlayTake | seed/FourTrackLooper/FourTrackTapeMachine.cpp:140-153 | playing within the take outputs slot playhead + i, read back, and moves only the playhead |
| TapeDeck.RecordThenPlayBack | seed/FourTrackLooper/FourTrackTapeMachine.cpp:123-153 | round trip: n samples recorded from the start of the tape, then Stop and StartPlayback; the next n outputs are the stored samples read back, Dequantize(Quantize(x[i])) for in-range input |
| TapeDeck.FreshTake | seed/FourTrackLooper/FourTrackTapeMachine.cpp:123-208 | a fresh take from slot 0 stores xs from slot 0, with length |xs| and the playhead still at 0 |
| TapeDeck.TakeReplayed | seed/FourTrackLooper/FourTrackTapeMachine.cpp:221-231 | Stop then StartPlayback on such a take replays it from slot 0 |
| TapeDeck.ReplayStarts | seed/FourTrackLooper/FourTrackTapeMachine.cpp:221-231 | Stop then StartPlayback on a non-empty take recorded from slot 0 plays from slot 0 over the same tape and length |
| TapeDeck.ReplayFromStart | seed/FourTrackLooper/FourTrackTapeMachine.cpp:140-153 | playing from slot 0 outputs the tape from slot 0, read back |
| TapeDeck.Outputs | seed/FourTrackLooper/FourTrackTapeMachine.cpp:83-178 | Process over a run of samples yields one output per sample |
| TapeDeck.GainSameSettings | seed/FourTrackLooper/FourTrackTapeMachine.cpp:176-177 | the gain stage depends only on mute and volume |
| TapeDeck.OutputsAreGainedSignal | seed/FourTrackLooper/FourTrackTapeMachine.cpp:175-177 | over a tape run each output is the transport signal through the track's one gain stage |
| TapeDeck.RecordThenPlayBackAtVolume | seed/FourTrackLooper/FourTrackTapeMachine.cpp:123-177 | the round trip at the output of Process: the stored samples read back times the volume, or silence when muted |
| TapeDeck.RecordingRunsOut | seed/FourTrackLooper/FourTrackTapeMachine.cpp:123-138 | an over-long take fills slots up to the last-but-one, then stops with length TAPE_BUFFER_SIZE - 1. Earlier slots and the last slot are untouched. Output is monitored up to the sample that hit the end and silent after it |
| TapeDeck.Apply | seed/FourTrackLooper/FourTrackTapeMachine.cpp:180-311 | every transport or setter command keeps the bounds and never touches mute |
| TapeDeck.Run | seed/FourTrackLooper/FourTrackTapeMachine.cpp:83-311 | any history of samples and commands keeps the bounds and the mute flag |
| TapeDeck.TransportIgnoresMute | seed/FourTrackLooper/FourTrackTapeMachine.cpp:83-178 | a muted and an unmuted track take the same transport step |
| TapeDeck.ApplyIgnoresMute | seed/FourTrackLooper/FourTrackTapeMachine.cpp:180-311 | a command does the same to a muted and an unmuted track |
| TapeDeck.MuteOnlySilences | seed/FourTrackLooper/FourTrackTapeMachine.cpp:83-312 | under any history a muted track passes through the same states, cursors and tape as an unmuted one, and only outputs silence |
| TapeMachine.TapeMachineTrack.Init | seed/FourTrackLooper/FourTrackTapeMachine.cpp:58-81 | the new track is TapeDeck.Init over the given QSPI buffer, with a fresh, empty looper |
| TapeMachine.TapeMachineTrack.ZeroTape | seed/FourTrackLooper/FourTrackTapeMachine.cpp:76-80 | the zero-fill loop leaves the tape array blank |
| TapeMachine.TapeMachineTrack.Process | seed/FourTrackLooper/FourTrackTapeMachine.cpp:83-178 | the fields, tape and output are TapeDeck.Process under the looper's reply. The looper runs only in a non-stopped loop mode and is untouched otherwise |
| TapeMachine.TapeMachineTrack.ApplyGain | seed/FourTrackLooper/FourTrackTapeMachine.cpp:175-177 | the output is the gain stage of the current volume and mute |
| TapeMachine.TapeMachineTrack.LoopTransport | seed/FourTrackLooper/FourTrackTapeMachine.cpp:87-113 | the loop half of the switch is TapeDeck.Transport under the looper's reply; a stopped track leaves the looper untouched |
| TapeMachine.TapeMachineTrack.TapeTransport | seed/FourTrackLooper/FourTrackTapeMachine.cpp:114-173 | the tape half of the switch, in place on the array, is TapeDeck.Transport |
| TapeMachine.TapeMachineTrack.StartRecording | seed/FourTrackLooper/FourTrackTapeMachine.cpp:180-210 | the track becomes TapeDeck.StartRecording; in loop mode the looper is triggered once, and in tape mode it is untouched |
| TapeMachine.TapeMachineTrack.StartPlayback | seed/FourTrackLooper/FourTrackTapeMachine.cpp:212-232 | the track becomes TapeDeck.StartPlayback |
| TapeMachine.TapeMachineTrack.Stop | seed/FourTrackLooper/FourTrackTapeMachine.cpp:234-253 | the track becomes TapeDeck.Stop; the looper is triggered once exactly when a loop track was recording |
| TapeMachine.TapeMachineTrack.Rewind | seed/FourTrackLooper/FourTrackTapeMachine.cpp:255-275 | the track becomes TapeDeck.Rewind; a playing loop track's looper is cleared and triggered, and otherwise it is untouched |
| TapeMachine.TapeMachineTrack.Clear | seed/FourTrackLooper/FourTrackTapeMachine.cpp:277-295 | the track becomes TapeDeck.Clear: loop mode empties the looper; tape mode zero-fills the array and leaves the looper alone |
| TapeMachine.TapeMachineTrack.SetMode | seed/FourTrackLooper/FourTrackTapeMachine.cpp:297-304 | the track becomes TapeDeck.SetMode, with the looper triggered only by a Stop that closes a loop recording |
| TapeMachine.TapeMachineTrack.ToggleMode | seed/FourTrackLooper/FourTrackTapeMachine.cpp:306-309 | the track becomes TapeDeck.ToggleMode |
| TapeMachine.TapeMachineTrack.SetVolume | seed/FourTrackLooper/FourTrackTapeMachine.cpp:311 | the track becomes TapeDeck.SetVolume |
| TapeMachine.TapeMachineTrack.ToggleMute | seed/FourTrackLooper/FourTrackTapeMachine.cpp:312 | only the mute flag flips |
| TapeMachine.TapeMachineTrack.PressButtons | seed/FourTrackLooper/FourTrackTapeMachine.cpp:405-437 | the track becomes TapeDeck.TrackButtonsStep of its record, play and mode edges |
| TapeMachine.TapeMachineTrack.IsRecording | seed/FourTrackLooper/FourTrackTapeMachine.cpp:313 | true iff recording or overdubbing |
| TapeMachine.TapeMachineTrack.IsPlaying | seed/FourTrackLooper/FourTrackTapeMachine.cpp:314 | true iff playing or overdubbing |
| TapeMachine.TapeMachineTrack.HasContent | seed/FourTrackLooper/FourTrackTapeMachine.cpp:315-318 | the loop flag in loop mode, a non-zero length in tape mode |
| TapeMachine.TapeMachineTrack.GetPosition | seed/FourTrackLooper/FourTrackTapeMachine.cpp:320-330 | the value TapeDeck.GetPosition describes |
| TapeMachine.Commanded | seed/FourTrackLooper/FourTrackTapeMachine.cpp:389-470 | each command of a control loop keeps the track bounds |
| TapeMachine.Obey | seed/FourTrackLooper/FourTrackTapeMachine.cpp:389-470 | a command performed through the track's methods gives the Commanded value |
| TapeMachine.NewTracks | seed/FourTrackLooper/FourTrackTapeMachine.cpp:553-557 | four separate fresh tracks, track i over its own QSPI slice, each TapeDeck.Init |
| TapeMachine.TapeMachine.Init | seed/FourTrackLooper/FourTrackTapeMachine.cpp:553-557 | start-up: four fresh tracks over their slices, selected track 0, master volume 1 |
| TapeMachine.TapeMachine.CommandTrack | seed/FourTrackLooper/FourTrackTapeMachine.cpp:392-470 | one loop iteration changes track i as Commanded, and no other track |
| TapeMachine.TapeMachine.SetVolumes | seed/FourTrackLooper/FourTrackTapeMachine.cpp:391-395 | every track gets its own knob's volume, clamped |
| TapeMachine.TapeMachine.HandleTrackButtons | seed/FourTrackLooper/FourTrackTapeMachine.cpp:398-438 | every track takes its own buttons, and the returned selection is LastPressed |
| TapeMachine.TapeMachine.StopAll | seed/FourTrackLooper/FourTrackTapeMachine.cpp:445-452 | every track is Stopped |
| TapeMachine.TapeMachine.RewindAll | seed/FourTrackLooper/FourTrackTapeMachine.cpp:454-461 | every track is Rewound |
| TapeMachine.TapeMachine.ClearAll | seed/FourTrackLooper/FourTrackTapeMachine.cpp:463-470 | every track is Cleared |
| TapeMachine.TapeMachine.PollTrackControls | seed/FourTrackLooper/FourTrackTapeMachine.cpp:389-438 | the knobs, the master knob and the per-track buttons, with the selection updated |
| TapeMachine.TapeMachine.PollTransport | seed/FourTrackLooper/FourTrackTapeMachine.cpp:440-470 | stop, rewind and clear-all, in that order, on every track |
| TapeMachine.TapeMachine.UpdateControls | seed/FourTrackLooper/FourTrackTapeMachine.cpp:389-471 | one poll: master volume as read, selection = LastPressed, and every track = TapeDeck.UpdateTrack of its knob and edges |
| TapeMachine.TapeMachine.ProcessTracks | seed/FourTrackLooper/FourTrackTapeMachine.cpp:524-533 | every track, in order, takes one Process step with the mono input |
| TapeMachine.TapeMachine.StepTrack | seed/FourTrackLooper/FourTrackTapeMachine.cpp:525-528 | one iteration processes track t and leaves the others unfed |
| TapeMachine.TapeMachine.AudioFrame | seed/FourTrackLooper/FourTrackTapeMachine.cpp:511-544 | one frame: every track processed from the mono input of the frame, and both channels = tanh(sum of the outputs × master volume) |
| TapeMachine.MasterMix | seed/FourTrackLooper/FourTrackTapeMachine.cpp:535-542 | both channels equal tanh(master × left-to-right sum) |
| FourTrackLooper.LooperTrack.Init | seed/FourTrackLooper/FourTrackLooper.cpp:28-34 | an empty, untriggered looper, full volume, not muted, not soloed |
| FourTrackLooper.LooperTrack.Process | seed/FourTrackLooper/FourTrackLooper.cpp:36-41 | the looper always takes the input; the output is 0 when muted and the looper's output × volume otherwise |
| FourTrackLooper.LooperTrack.TriggerRecord | seed/FourTrackLooper/FourTrackLooper.cpp:43 | one more trigger: an empty looper starts recording, a recording one stops |
| FourTrackLooper.LooperTrack.Clear | seed/FourTrackLooper/FourTrackLooper.cpp:44 | the looper is empty and idle |
| FourTrackLooper.LooperTrack.SetVolume | seed/FourTrackLooper/FourTrackLooper.cpp:47 | the volume is clamped to [0, 1] |
| FourTrackLooper.LooperTrack.ToggleMute | seed/FourTrackLooper/FourTrackLooper.cpp:48 | only the mute flag flips |
| FourTrackLooper.LooperTrack.ToggleSolo | seed/FourTrackLooper/FourTrackLooper.cpp:49 | only the solo flag flips |
| FourTrackLooper.LooperTrack.SetMode | seed/FourTrackLooper/FourTrackLooper.cpp:50 | the looper takes the mode |
| FourTrackLooper.LooperTrack.ToggleReverse | seed/FourTrackLooper/FourTrackLooper.cpp:51 | the looper's reverse flag flips |
| FourTrackLooper.LooperTrack.ToggleHalfSpeed | seed/FourTrackLooper/FourTrackLooper.cpp:52 | the looper's half-speed flag flips |
| FourTrackLooper.PollComposes | seed/FourTrackLooper/FourTrackLooper.cpp:108-160 | volume knob, buttons, clear-all, then the master trigger compose into one Polled step |
| FourTrackLooper.NormalisedInRange | seed/FourTrackLooper/FourTrackLooper.cpp:283-287 | dividing by the count when it exceeds 1 keeps a full-scale mix of contributors in [-1, 1] |
| FourTrackLooper.NoneKeptSumsToZero | seed/FourTrackLooper/FourTrackLooper.cpp:266-281 | with no contributor the sum is 0 |
| FourTrackLooper.SoloGroupOnly | seed/FourTrackLooper/FourTrackLooper.cpp:266-281 | while a solo is active, a track outside the solo group never changes the callback's level |
| FourTrackLooper.MixTrack | seed/FourTrackLooper/FourTrackLooper.cpp:267-280 | the solo branch adds a track to sum and count exactly when it contributes |
| FourTrackLooper.NewTrack | seed/FourTrackLooper/FourTrackLooper.cpp:313-324 | a fresh track in the given start mode |
| FourTrackLooper.NewTracks | seed/FourTrackLooper/FourTrackLooper.cpp:312-324 | four separate fresh tracks in the normal, one-time-dub, replace and Frippertronics modes |
| FourTrackLooper.FourTrackLooper.Init | seed/FourTrackLooper/FourTrackLooper.cpp:312-324 | start-up: those four tracks, master volume 1, master record off, no solo |
| FourTrackLooper.FourTrackLooper.ScanSolos | seed/FourTrackLooper/FourTrackLooper.cpp:251-260 | any_solo_active is recomputed as "some track is soloed" |
| FourTrackLooper.FourTrackLooper.StepTrack | seed/FourTrackLooper/FourTrackLooper.cpp:263-265 | one iteration processes track t and leaves the others unfed |
| FourTrackLooper.FourTrackLooper.ProcessTracks | seed/FourTrackLooper/FourTrackLooper.cpp:262-281 | every track, in order, takes the mono input whether it contributes or not; the sum and count are those of the solo rule's contributors |
| FourTrackLooper.FourTrackLooper.AudioFrame | seed/FourTrackLooper/FourTrackLooper.cpp:240-299 | one frame: solo flag recomputed; every track processed; both channels = SoloMixLevel (contributors summed, divided by count when > 1, × master, + 0.1 × mono) |
| FourTrackLooper.FourTrackLooper.FinishMix | seed/FourTrackLooper/FourTrackLooper.cpp:283-298 | the normalise, master and dry chain gives SoloMixLevel |
| FourTrackLooper.FourTrackLooper.SetVolumes | seed/FourTrackLooper/FourTrackLooper.cpp:110-114 | every track gets its own knob's volume, clamped, and nothing else changes |
| FourTrackLooper.FourTrackLooper.HandleTrackButtons | seed/FourTrackLooper/FourTrackLooper.cpp:117-134 | every track's record edge triggers it and its mode edge advances its mode |
| FourTrackLooper.FourTrackLooper.PressTrack | seed/FourTrackLooper/FourTrackLooper.cpp:123-133 | one iteration changes track i as Pressed, and no other track |
| FourTrackLooper.FourTrackLooper.ClearAll | seed/FourTrackLooper/FourTrackLooper.cpp:139-146 | the clear edge clears every track |
| FourTrackLooper.FourTrackLooper.ClearTrack | seed/FourTrackLooper/FourTrackLooper.cpp:142-145 | one iteration clears track i, and no other track |
| FourTrackLooper.FourTrackLooper.TriggerAll | seed/FourTrackLooper/FourTrackLooper.cpp:152-158 | every track is triggered |
| FourTrackLooper.FourTrackLooper.TriggerTrack | seed/FourTrackLooper/FourTrackLooper.cpp:154-157 | one iteration triggers track i, and no other track |
| FourTrackLooper.FourTrackLooper.PollTracks | seed/FourTrackLooper/FourTrackLooper.cpp:108-160 | the track loops of a poll leave every track Polled |
| FourTrackLooper.FourTrackLooper.PollMaster | seed/FourTrackLooper/FourTrackLooper.cpp:148-152 | master volume as read; master_recording flips on the master edge; tracks untouched |
| FourTrackLooper.FourTrackLooper.UpdateControls | seed/FourTrackLooper/FourTrackLooper.cpp:108-160 | one poll: every track Polled, with the master trigger firing only on the off→on transition of master_recording |
| FourTrackLooperAdvanced.CrossfadeStep | seed/FourTrackLooper/FourTrackLooperAdvanced.cpp:136-153 | the crossfade moves toward its target by at most 0.001 per sample and never overshoots. It is unchanged when on target, and the distance shrinks by the rate or to 0 |
| FourTrackLooperAdvanced.RampReachesTarget | seed/FourTrackLooper/FourTrackLooperAdvanced.cpp:136-153 | a target at distance d is reached after d / 0.001 samples and then held |
| FourTrackLooperAdvanced.RampStaysBetween | seed/FourTrackLooper/FourTrackLooperAdvanced.cpp:136-153 | the ramp stays between its start and its target, hence in [0, 1] |
| FourTrackLooperAdvanced.PanAngleAsWritten | seed/FourTrackLooper/FourTrackLooperAdvanced.cpp:170 | the source's angle pan × π/2 spans [-π/2, π/2] |
| FourTrackLooperAdvanced.PanAngle | seed/FourTrackLooper/FourTrackLooperAdvanced.cpp:165-173 | the corrected angle maps [-1, 1] onto [0, π/2]: -1 hard left, 0 centre, 1 hard right |
| FourTrackLooperAdvanced.CentrePanAsWrittenIsHardLeft | seed/FourTrackLooper/FourTrackLooperAdvanced.cpp:165-173 | as written, pan 0 sends everything left and nothing right, and pan -1 sends an inverted signal right |
| FourTrackLooperAdvanced.PanLawBalanced | seed/FourTrackLooper/FourTrackLooperAdvanced.cpp:165-173 | with the corrected angle the centre is balanced and the ends are hard left and hard right |
| FourTrackLooperAdvanced.SyncInterval | seed/FourTrackLooper/FourTrackLooperAdvanced.cpp:416 | over the tempo range the interval lies between a quarter beat and four beats |
| FourTrackLooperAdvanced.IntervalBounds | seed/FourTrackLooper/FourTrackLooperAdvanced.cpp:416 | beat_length / tempo lies in [12000, 192000] for tempo in [0.25, 4] |
| FourTrackLooperAdvanced.QuietStep | seed/FourTrackLooper/FourTrackLooperAdvanced.cpp:418-428 | a call before the interval has elapsed does not fire, leaves last_sync alone, and adds one to the elapsed count |
| FourTrackLooperAdvanced.SyncQuiet | seed/FourTrackLooper/FourTrackLooperAdvanced.cpp:412-429 | no trigger fires until a whole interval has elapsed |
| FourTrackLooperAdvanced.SyncPeriodic | seed/FourTrackLooper/FourTrackLooperAdvanced.cpp:412-429 | with sync on, triggers are exactly one interval apart |
| FourTrackLooperAdvanced.SyncRunSplit | seed/FourTrackLooper/FourTrackLooperAdvanced.cpp:412-429 | n + 1 calls are n calls and then one more |
| FourTrackLooperAdvanced.SyncDisabled | seed/FourTrackLooper/FourTrackLooperAdvanced.cpp:412-429 | with sync off no trigger fires and last_sync never moves, while master_clock counts every call modulo 2^32 |
| FourTrackLooperAdvanced.StereoSoloGroupOnly | seed/FourTrackLooper/FourTrackLooperAdvanced.cpp:507-528 | while a solo is active, a track outside the solo group never reaches either channel |
| FourTrackLooperAdvanced.StereoNoSoloHearsAll | seed/FourTrackLooper/FourTrackLooperAdvanced.cpp:507-553 | with no solo every track is heard and the sum is scaled by 1/sqrt(4) |
| FourTrackLooperAdvanced.GainBound | seed/FourTrackLooper/FourTrackLooperAdvanced.cpp:135-157 | the crossfade only attenuates: the gain lies in [0, volume] |
| FourTrackLooperAdvanced.KnobTravel | seed/FourTrackLooper/FourTrackLooperAdvanced.cpp:297-313 | over the knob travel the mappings land in range unclamped, except the feedback knob, which clamps at 0.8 |
| FourTrackLooperAdvanced.TriggerThenToggle | seed/FourTrackLooper/FourTrackLooperAdvanced.cpp:328-357 | the record trigger commutes with the other buttons of the same poll |
| FourTrackLooperAdvanced.TriggerThenPlay | seed/FourTrackLooper/FourTrackLooperAdvanced.cpp:334-347 | the record trigger commutes with the mode, mute and solo buttons |
| FourTrackLooperAdvanced.TriggerThenMotion | seed/FourTrackLooper/FourTrackLooperAdvanced.cpp:349-357 | the record trigger commutes with the reverse and half-speed buttons |
| FourTrackLooperAdvanced.PollComposes | seed/FourTrackLooper/FourTrackLooperAdvanced.cpp:294-393 | knobs, buttons, clear-all, master trigger and the performance broadcast compose into one Polled step |
| FourTrackLooperAdvanced.PollAll | seed/FourTrackLooper/FourTrackLooperAdvanced.cpp:294-393 | the five loops, each over every track, compose into a poll of every track |
| FourTrackLooperAdvanced.AdvancedLooperTrack.Init | seed/FourTrackLooper/FourTrackLooperAdvanced.cpp:51-80 | every initial value as the source sets it (volume 1, pan 0, pitch 1, cutoff 1 kHz, crossfade 1); the filter is set to 1 kHz and the pitch shifter to 0 |
| FourTrackLooperAdvanced.AdvancedLooperTrack.RunLooper | seed/FourTrackLooper/FourTrackLooperAdvanced.cpp:84-108 | sync point reset on a trigger near the loop start. has_content is set once the looper is idle and its output exceeds 0.001. The reverse and half-speed flags are passed on when set |
| FourTrackLooperAdvanced.AdvancedLooperTrack.RunEffects | seed/FourTrackLooper/FourTrackLooperAdvanced.cpp:110-133 | the pitch shifter runs only off unity; the filter takes the cutoff; the delay line is written the echo feed and the output is the filtered sample plus the echo |
| FourTrackLooperAdvanced.AdvancedLooperTrack.ApplyGain | seed/FourTrackLooper/FourTrackLooperAdvanced.cpp:135-157 | one crossfade step in performance mode, then the output is scaled by Gain |
| FourTrackLooperAdvanced.AdvancedLooperTrack.Process | seed/FourTrackLooper/FourTrackLooperAdvanced.cpp:82-163 | the whole chain (looper, effects, delay write, crossfade) runs before mute, which only zeroes the output |
| FourTrackLooperAdvanced.AdvancedLooperTrack.ProcessStep | seed/FourTrackLooper/FourTrackLooperAdvanced.cpp:82-163 | the whole of Process as one Processed step of the state and chain: sync point reset by the trigger near the loop start, has_content, the motion flags passed on, the pitch, filter and delay inputs, one crossfade step, and the output (0 when muted, else echo × gain); the control state is untouched |
| FourTrackLooperAdvanced.AdvancedLooperTrack.GetStereoOutput | seed/FourTrackLooper/FourTrackLooperAdvanced.cpp:165-173 | one Stepped sample: Process with the given sync trigger, then panned with the corrected pan law; a muted track puts out 0 on both channels |
| FourTrackLooperAdvanced.MutedStepSilent | seed/FourTrackLooper/FourTrackLooperAdvanced.cpp:160-173 | a track muted when its step begins puts out 0 on both channels |
| FourTrackLooperAdvanced.AdvancedLooperTrack.TriggerRecord | seed/FourTrackLooper/FourTrackLooperAdvanced.cpp:176 | the record trigger as Triggered |
| FourTrackLooperAdvanced.AdvancedLooperTrack.Clear | seed/FourTrackLooper/FourTrackLooperAdvanced.cpp:177-181 | the looper is erased, has_content is false and loop_length is 0 |
| FourTrackLooperAdvanced.AdvancedLooperTrack.SetVolume | seed/FourTrackLooper/FourTrackLooperAdvanced.cpp:187 | the volume is clamped to [0, 2] |
| FourTrackLooperAdvanced.AdvancedLooperTrack.SetPan | seed/FourTrackLooper/FourTrackLooperAdvanced.cpp:188 | the pan is clamped to [-1, 1] |
| FourTrackLooperAdvanced.AdvancedLooperTrack.ToggleMute | seed/FourTrackLooper/FourTrackLooperAdvanced.cpp:189 | the mute flag flips |
| FourTrackLooperAdvanced.AdvancedLooperTrack.ToggleSolo | seed/FourTrackLooper/FourTrackLooperAdvanced.cpp:190 | the solo flag flips |
| FourTrackLooperAdvanced.AdvancedLooperTrack.SetMode | seed/FourTrackLooper/FourTrackLooperAdvanced.cpp:191 | only the looper's mode changes |
| FourTrackLooperAdvanced.AdvancedLooperTrack.ToggleReverse | seed/FourTrackLooper/FourTrackLooperAdvanced.cpp:192-195 | the flag flips and the looper takes its new value |
| FourTrackLooperAdvanced.AdvancedLooperTrack.ToggleHalfSpeed | seed/FourTrackLooper/FourTrackLooperAdvanced.cpp:196-199 | the flag flips and the looper takes its new value |
| FourTrackLooperAdvanced.AdvancedLooperTrack.SetPitchShift | seed/FourTrackLooper/FourTrackLooperAdvanced.cpp:200 | the pitch ratio is clamped to [0.25, 4] |
| FourTrackLooperAdvanced.AdvancedLooperTrack.SetFilterCutoff | seed/FourTrackLooper/FourTrackLooperAdvanced.cpp:201 | the cutoff is clamped to [50, 8000] |
| FourTrackLooperAdvanced.AdvancedLooperTrack.SetFeedback | seed/FourTrackLooper/FourTrackLooperAdvanced.cpp:202 | the feedback is clamped to [0, 0.8] |
| FourTrackLooperAdvanced.AdvancedLooperTrack.SetPerformanceMode | seed/FourTrackLooper/FourTrackLooperAdvanced.cpp:205 | only the performance flag changes |
| FourTrackLooperAdvanced.AdvancedLooperTrack.SetCrossfadeTarget | seed/FourTrackLooper/FourTrackLooperAdvanced.cpp:206 | the crossfade target is clamped to [0, 1] |
| FourTrackLooperAdvanced.AdvancedLooperTrack.TurnKnobs | seed/FourTrackLooper/FourTrackLooperAdvanced.cpp:297-313 | the five knobs land as KnobParams, and nothing else changes |
| FourTrackLooperAdvanced.AdvancedLooperTrack.PressButtons | seed/FourTrackLooper/FourTrackLooperAdvanced.cpp:319-358 | the six buttons of one track as Pressed |
| FourTrackLooperAdvanced.AdvancedLooperTrack.PressToggles | seed/FourTrackLooper/FourTrackLooperAdvanced.cpp:334-357 | the five toggle buttons as Toggled |
| FourTrackLooperAdvanced.AdvancedLooperTrack.PressPlayToggles | seed/FourTrackLooper/FourTrackLooperAdvanced.cpp:334-347 | the mode, mute and solo buttons as PlayToggled |
| FourTrackLooperAdvanced.AdvancedLooperTrack.PressMotionToggles | seed/FourTrackLooper/FourTrackLooperAdvanced.cpp:349-357 | the reverse and half-speed buttons as MotionToggled |
| FourTrackLooperAdvanced.Apply | seed/FourTrackLooper/FourTrackLooperAdvanced.cpp:294-393 | one phase of a control loop, performed through the track's methods, as Applied |
| FourTrackLooperAdvanced.NewTrack | seed/FourTrackLooper/FourTrackLooperAdvanced.cpp:567-578 | a fresh track in the given start mode |
| FourTrackLooperAdvanced.NewTracks | seed/FourTrackLooper/FourTrackLooperAdvanced.cpp:566-578 | four separate fresh tracks in the four start modes |
| FourTrackLooperAdvanced.FourTrackLooperAdvanced.Init | seed/FourTrackLooper/FourTrackLooperAdvanced.cpp:234-245 | start-up: fresh tracks, master record and performance off, sync on, unity master volume and tempo, clock at 0 |
| FourTrackLooperAdvanced.FourTrackLooperAdvanced.UpdateSync | seed/FourTrackLooper/FourTrackLooperAdvanced.cpp:412-429 | one SyncStep: fire iff sync is on and master_clock - last_sync ≥ interval in u32 arithmetic; then master_clock counts on |
| FourTrackLooperAdvanced.FourTrackLooperAdvanced.ScanSolos | seed/FourTrackLooper/FourTrackLooperAdvanced.cpp:400-409 | any_solo_active is recomputed as "some track is soloed" |
| FourTrackLooperAdvanced.FourTrackLooperAdvanced.StepTrack | seed/FourTrackLooper/FourTrackLooperAdvanced.cpp:509-510 | track t takes one Stepped sample with the frame's sync trigger; every other track's snapshot is unchanged |
| FourTrackLooperAdvanced.FourTrackLooperAdvanced.StepAndMix | seed/FourTrackLooper/FourTrackLooperAdvanced.cpp:509-527 | one iteration: track t steps, and its pair joins both sums and the count exactly when it contributes under the solo rule; the loop goes from t done to t + 1 done |
| FourTrackLooperAdvanced.FourTrackLooperAdvanced.ProcessTracks | seed/FourTrackLooper/FourTrackLooperAdvanced.cpp:506-528 | every track, in order, takes one Stepped sample from the mono input and the frame's sync trigger whether heard or not (AllStepped over the tracks' states and chains before and their snapshots after); the solo flags stay; the sums and count are those of the contributors |
| FourTrackLooperAdvanced.MutedTracksSilent | seed/FourTrackLooper/FourTrackLooperAdvanced.cpp:160-528 | in a frame every track muted when the frame began puts out 0 on both channels |
| FourTrackLooperAdvanced.FourTrackLooperAdvanced.FinishChannel | seed/FourTrackLooper/FourTrackLooperAdvanced.cpp:530-550 | scaled by 1/sqrt(count) when count > 0, × master, + 0.05 × dry, through tanh(0.8 x) |
| FourTrackLooperAdvanced.FourTrackLooperAdvanced.AudioFrame | seed/FourTrackLooper/FourTrackLooperAdvanced.cpp:493-554 | one frame: the tempo clock ticks; every track takes one Stepped sample with this frame's sync trigger (AllStepped); each channel = StereoChannel of its own outputs and its own input |
| FourTrackLooperAdvanced.FourTrackLooperAdvanced.FinishFrame | seed/FourTrackLooper/FourTrackLooperAdvanced.cpp:530-553 | both channels finished alike from the contributors' sums and count |
| FourTrackLooperAdvanced.FourTrackLooperAdvanced.ApplyTo | seed/FourTrackLooper/FourTrackLooperAdvanced.cpp:294-393 | one loop iteration changes track i as Applied, and no other track |
| FourTrackLooperAdvanced.FourTrackLooperAdvanced.ApplyAll | seed/FourTrackLooper/FourTrackLooperAdvanced.cpp:294-393 | a control loop applies each track's phase to that track |
| FourTrackLooperAdvanced.FourTrackLooperAdvanced.PollTracks | seed/FourTrackLooper/FourTrackLooperAdvanced.cpp:294-393 | the five track loops of a poll leave every track Polled |
| FourTrackLooperAdvanced.FourTrackLooperAdvanced.PollMaster | seed/FourTrackLooper/FourTrackLooperAdvanced.cpp:315-409 | master volume = knob × 2; tempo = 0.25 + knob × 3.75; the master record, performance and sync flags each flip on their edge; any_solo_active is rescanned |
| FourTrackLooperAdvanced.FourTrackLooperAdvanced.UpdateControls | seed/FourTrackLooper/FourTrackLooperAdvanced.cpp:294-410 | one poll: every track Polled, with the master trigger only on master record's off→on transition and the new performance mode broadcast to every track; any_solo_active = "some track soloed" |
| FourTrackLooperSimple.ElapsedAcrossWrap | seed/FourTrackLooper/FourTrackLooperSimple.cpp:129 | now - button_timer in u32 arithmetic is the true elapsed time even across the 2^32 wrap |
| FourTrackLooperSimple.SimpleLooperTrack.Init | seed/FourTrackLooper/FourTrackLooperSimple.cpp:25-30 | an empty, untriggered looper, volume 0.8, not muted |
| FourTrackLooperSimple.SimpleLooperTrack.Process | seed/FourTrackLooper/FourTrackLooperSimple.cpp:32-37 | the looper always takes the input; output 0 when muted and the looper's output × volume otherwise; nothing a poll sets changes |
| FourTrackLooperSimple.SimpleLooperTrack.TriggerRecord | seed/FourTrackLooper/FourTrackLooperSimple.cpp:39 | the record trigger as Triggered |
| FourTrackLooperSimple.SimpleLooperTrack.Clear | seed/FourTrackLooper/FourTrackLooperSimple.cpp:40 | the looper is empty and idle, and nothing else changes |
| FourTrackLooperSimple.SimpleLooperTrack.SetVolume | seed/FourTrackLooper/FourTrackLooperSimple.cpp:42 | the volume is clamped to [0, 1], and nothing else changes |
| FourTrackLooperSimple.SimpleLooperTrack.ToggleMute | seed/FourTrackLooper/FourTrackLooperSimple.cpp:43 | only the mute flag flips |
| FourTrackLooperSimple.SimpleLooperTrack.SetMode | seed/FourTrackLooper/FourTrackLooperSimple.cpp:44 | only the looper's mode changes |
| FourTrackLooperSimple.SimpleLooperTrack.IncrementMode | seed/FourTrackLooper/FourTrackLooperSimple.cpp:46 | only the looper's mode advances, to the next one |
| FourTrackLooperSimple.SelectedUnique | seed/FourTrackLooper/FourTrackLooperSimple.cpp:118-122 | the selection after a scan is determined by the edges |
| FourTrackLooperSimple.SharedTimerClears | seed/FourTrackLooper/FourTrackLooperSimple.cpp:124-132 | the timer is shared: a press of any button at or after a release of any button earlier in the same scan counts as a double tap |
| FourTrackLooperSimple.DoubleTapWindow | seed/FourTrackLooper/FourTrackLooperSimple.cpp:124-132 | without a release in the poll, a press d ms after the last release is a double tap iff d < 300 |
| FourTrackLooperSimple.PollComposes | seed/FourTrackLooper/FourTrackLooperSimple.cpp:101-152 | volume knob, record button, mode button and clear-all compose into one Polled step |
| FourTrackLooperSimple.PollAll | seed/FourTrackLooper/FourTrackLooperSimple.cpp:101-152 | the phases over all four tracks compose into AllPolled |
| FourTrackLooperSimple.QuietTrackIgnored | seed/FourTrackLooper/FourTrackLooperSimple.cpp:242-250 | a track at or below 0.001 is neither summed nor counted: replacing its output by another quiet one does not change the mix |
| FourTrackLooperSimple.DryOnlyWhileRecording | seed/FourTrackLooper/FourTrackLooperSimple.cpp:261-275 | while no track records, the output does not depend on the input |
| FourTrackLooperSimple.OnlyOneKept | seed/FourTrackLooper/FourTrackLooperSimple.cpp:242-250 | a gated sum with exactly one track kept is that track's output, with count 1 |
| FourTrackLooperSimple.NoneKept | seed/FourTrackLooper/FourTrackLooperSimple.cpp:242-250 | with no track kept the sum and count are 0 |
| FourTrackLooperSimple.LoneTrackUnscaled | seed/FourTrackLooper/FourTrackLooperSimple.cpp:242-259 | one audible track is not normalised: the level before the limiter is its output × master (+ dry while recording) |
| FourTrackLooperSimple.GateTrack | seed/FourTrackLooper/FourTrackLooperSimple.cpp:245-249 | the gate adds a track to sum and count exactly when it is audible |
| FourTrackLooperSimple.SelectedStep | seed/FourTrackLooper/FourTrackLooperSimple.cpp:118-122 | one more button scanned moves the selection to it exactly when it rose |
| FourTrackLooperSimple.TimerStep | seed/FourTrackLooper/FourTrackLooperSimple.cpp:125-128 | one more button scanned sets the timer to now exactly when it was released |
| FourTrackLooperSimple.NewTrack | seed/FourTrackLooper/FourTrackLooperSimple.cpp:293-303 | a fresh track in the given start mode |
| FourTrackLooperSimple.NewTracks | seed/FourTrackLooper/FourTrackLooperSimple.cpp:293-303 | four separate fresh tracks in the normal, one-time-dub, replace and Frippertronics modes |
| FourTrackLooperSimple.SimpleLooper.Init | seed/FourTrackLooper/FourTrackLooperSimple.cpp:59-62 | start-up: those four tracks, selected track 0, master volume 1, timer 0 |
| FourTrackLooperSimple.SimpleLooper.SetVolumes | seed/FourTrackLooper/FourTrackLooperSimple.cpp:105-109 | every track gets its own knob's volume, clamped, and nothing else changes |
| FourTrackLooperSimple.SimpleLooper.RecordButton | seed/FourTrackLooper/FourTrackLooperSimple.cpp:117-132 | one iteration: a release stores now in the timer; a press triggers the track, and also clears it when within 300 ms of the timer; no other track changes |
| FourTrackLooperSimple.SimpleLooper.ScanButtons | seed/FourTrackLooper/FourTrackLooperSimple.cpp:112-133 | the selection follows the last press; the timer is the time of the scan if any button was released; every track is Tapped by its own button |
| FourTrackLooperSimple.SimpleLooper.ScanStep | seed/FourTrackLooper/FourTrackLooperSimple.cpp:113-133 | one iteration of that scan |
| FourTrackLooperSimple.SimpleLooper.ModeButton | seed/FourTrackLooper/FourTrackLooperSimple.cpp:138-142 | the mode edge advances the selected track's mode only |
| FourTrackLooperSimple.SimpleLooper.ClearAll | seed/FourTrackLooper/FourTrackLooperSimple.cpp:144-151 | the clear-all edge clears every track |
| FourTrackLooperSimple.SimpleLooper.ClearTrack | seed/FourTrackLooper/FourTrackLooperSimple.cpp:147-150 | one iteration clears track i, and no other track |
| FourTrackLooperSimple.SimpleLooper.PollTracks | seed/FourTrackLooper/FourTrackLooperSimple.cpp:101-151 | the track loops of a poll leave every track Polled, and return the new selection and timer |
| FourTrackLooperSimple.SimpleLooper.PollMaster | seed/FourTrackLooper/FourTrackLooperSimple.cpp:110 | master volume as read; selection and timer stored; tracks untouched |
| FourTrackLooperSimple.SimpleLooper.UpdateControls | seed/FourTrackLooper/FourTrackLooperSimple.cpp:101-152 | one poll: master volume as read, selection = last pressed, timer as TimerAfter, and every track Polled |
| FourTrackLooperSimple.SimpleLooper.ScanRecording | seed/FourTrackLooper/FourTrackLooperSimple.cpp:262-270 | any_recording is "some looper records" |
| FourTrackLooperSimple.SimpleLooper.StepTrack | seed/FourTrackLooper/FourTrackLooperSimple.cpp:242-244 | one iteration processes track t and leaves the others unfed |
| FourTrackLooperSimple.SimpleLooper.ProcessTracks | seed/FourTrackLooper/FourTrackLooperSimple.cpp:242-250 | every track, in order, takes the mono input; only the audible outputs are summed and counted |
| FourTrackLooperSimple.SimpleLooper.FinishMix | seed/FourTrackLooper/FourTrackLooperSimple.cpp:252-282 | normalised by 1/sqrt(count) only when count > 1, × master, + 0.1 × mono only while recording, through tanh(0.9 x) |
| FourTrackLooperSimple.SimpleLooper.AudioFrame | seed/FourTrackLooper/FourTrackLooperSimple.cpp:230-283 | one frame: every track processed, both channels equal SimpleMixLevel |

## Left out

- Hardware bring-up and I/O: `main`'s hardware calls, `InitControls`, the ADC, `System::Delay`. The clock `System::GetNow()` is a parameter (`now`).
- `Switch` debouncing and `AnalogControl` smoothing: these are library internals. Each poll takes the debounced edges and the knob values as inputs.
- LED feedback (`UpdateLED`, `UpdateAdvancedLED` and their timers): display logic, apart from the audio and control core.
- `Looper`, `Svf`, `PitchShifter` and `DelayLine` internals: these DaisySP classes are known only through the contracts in `primitives.dfy`. What a looper plays back is not modelled. What is modelled: that it was fed, triggered and cleared, and how it reports recording.
- `sqrtf`, `tanhf`, `cosf`, `sinf`, `log2f` and float rounding: signals are reals, and the library functions are uninterpreted parameters. The mixers assume one fact about them: the square root of a positive count is positive (`SqrtPositive`). The two pan-law lemmas take values of cos and sin as hypotheses. `CentrePanAsWrittenIsHardLeft` assumes cos 0 = 1, sin 0 = 0, cos(-π/2) = 0 and sin(-π/2) = -1. `PanLawBalanced` assumes cos 0 = 1, sin 0 = 0, cos(π/2) = 0, sin(π/2) = 1 and cos(π/4) = sin(π/4). Nothing else is assumed about them.
- Concurrency between the control loop and the audio interrupt: a poll is applied between two frames.
- The block loop of each audio callback: one frame (one sample per channel) is modelled; a block is that frame repeated.
- `active_tracks` in the tape-machine callback: it is counted but never read, so it is not modelled.
- The tape machine's `armed` flag and its `global_sync`: `armed` is initialised and never read, and `global_sync` is never used. `armed` is kept in the track value and is shown to be left alone.
- The tape machine's `loop_buffer`: it is the looper's storage, behind the `Looper` contract.
- The advanced looper's `loop_length` and `sync_point`: they are only ever reset to 0 and never read. They are modelled as exactly that.
- `MultiLooper.cpp`: a stub with no processing, not part of this model.
- Control polls: the four programs' track loops run in the source's order. The master fields are written after them, because the loops never read those fields. These are the master volume, tempo, master record, performance and sync fields.
- `selected_track` and `button_timer`: the tape machine and the simple looper update these in the loop. The model carries them in locals and stores them at the end of the poll.
- FourTrackLooperAdvanced.AdvancedLooperTrack.GetStereoOutput: states the corrected pan law, not the source's (see Findings). The law as written is modelled by `PanAngleAsWritten`.
- TapeDeck.Transport: both tape stores go through the saturating `ToSample`. The record store (seed/FourTrackLooper/FourTrackTapeMachine.cpp:127-128) casts `input × 32767` to int16 with no limiting, so an input beyond ±1 is saturated here where the source overflows. The overdub store is the corrected, saturating store (see Findings); the code as written is modelled by `OverdubStoreAsWritten`.
- TapeMachine.NewTracks: the tracks take four disjoint arrays rather than four slices of one QSPI array. Disjoint slices behave the same for everything modelled.
- TapeDeck.GetPosition: the fraction is a real division; its float rounding is not modelled.
- Tape cursors are natural numbers where the source keeps them in `float`. Below 2^24 the two agree, and the tape is 2,880,000 slots long.

## Findings

| source | as written | input that shows it | evidently intended | confidence | as-written member | corrected member |
|---|---|---|---|---|---|---|
| seed/FourTrackLooper/FourTrackTapeMachine.cpp:159-162 | the overdub converts (existing + input) × 0.7 × 32767 to int16 with no limiting | existing sample 32767 with input 1.0 asks for 45873, outside int16: undefined behaviour, a wrapped negative sample in practice | the stored overdub level saturates at full scale | not executed | Audio.OverdubStoreOverflows | Audio.OverdubStoreSaturates |
| seed/FourTrackLooper/FourTrackLooperAdvanced.cpp:170-172 | pan angle is pan × π/2 for pan in [-1, 1], while the initial pan 0 is meant as centre | pan 0 gives left = mono, right = 0; pan -1 gives right = -mono | constant-power law over [0, π/2]: centre balanced, -1 hard left, 1 hard right | not executed | FourTrackLooperAdvanced.CentrePanAsWrittenIsHardLeft | FourTrackLooperAdvanced.PanLawBalanced |
