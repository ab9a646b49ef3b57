/** The tape-machine track as a value: everything a `TapeMachineTrack` holds apart from its
    looper, and each of its operations as a function from the old value to the new one.
    The class in module TapeMachine is proved against these functions; the lemmas here
    state what the track promises over single steps and over whole runs of samples and
    commands. Loop-mode steps take the looper's reply (its output and whether it still
    reports recording) as arguments, since the looper itself is known only by contract. */
module TapeDeck {
  import opened Audio

  const SAMPLE_RATE: nat := 48000
  /** Tape capacity: 60 seconds at 48 kHz. */
  const TAPE_BUFFER_SIZE: nat := 2880000
  /** The looper's own buffer: 30 seconds at 48 kHz. */
  const LOOP_BUFFER_SIZE: nat := 1440000

  datatype TrackMode = LoopMode | TapeMode
  datatype TrackState = Stopped | Playing | Recording | Overdubbing

  datatype Track = Track(
    mode: TrackMode,
    state: TrackState,
    playhead: nat,
    recordPos: nat,
    length: nat,
    armed: bool,
    muted: bool,
    volume: real,
    loopHasContent: bool,
    tape: seq<Sample>)

  /** The bounds every track keeps: the tape has its fixed size and neither cursor nor the
      recorded length passes the last slot. Hence a read at `playhead < length` and a
      write at `recordPos < TAPE_BUFFER_SIZE - 1` are always inside the tape. */
  predicate Valid(t: Track)
  {
    |t.tape| == TAPE_BUFFER_SIZE &&
    t.playhead <= TAPE_BUFFER_SIZE - 1 &&
    t.recordPos <= TAPE_BUFFER_SIZE - 1 &&
    t.length <= TAPE_BUFFER_SIZE - 1
  }

  function BlankTape(): (tape: seq<Sample>)
    ensures |tape| == TAPE_BUFFER_SIZE
    ensures forall i :: 0 <= i < |tape| ==> tape[i] == 0
  {
    seq(TAPE_BUFFER_SIZE, _ => 0)
  }

  predicate IsRecording(t: Track) { t.state == Recording || t.state == Overdubbing }

  predicate IsPlaying(t: Track) { t.state == Playing || t.state == Overdubbing }

  predicate HasContent(t: Track) { if t.mode == LoopMode then t.loopHasContent else t.length > 0 }

  function OtherMode(m: TrackMode): TrackMode { if m == LoopMode then TapeMode else LoopMode }

  /** `Init`: a stopped, empty loop-mode track at volume 0.8 over a zeroed tape. */
  function Init(): (t: Track)
    ensures Valid(t) && t.mode == LoopMode && t.state == Stopped && !HasContent(t)
    ensures t.playhead == 0 && t.recordPos == 0 && t.length == 0 && !t.muted
    ensures t.tape == BlankTape()
  {
    Track(LoopMode, Stopped, 0, 0, 0, false, false, 0.8, false, BlankTape())
  }

  /** A track after one sample, with the sample it produced. */
  datatype Step = Step(track: Track, out: real)

  /** What the looper is given in loop mode: silence while playing, the input otherwise. */
  function LooperInput(s: TrackState, input: real): real
  {
    if s == Playing then 0.0 else input
  }

  /** The transport part of `Process`: the mode x state switch, before volume and mute.
      `looperOut` is what `looper.Process` returned and `looperRecording` what
      `looper.Recording()` reports afterwards; tape mode ignores both. */
  function Transport(t: Track, input: real, looperOut: real, looperRecording: bool): (r: Step)
    requires Valid(t)
    ensures Valid(r.track)
    ensures r.track.mode == t.mode && r.track.muted == t.muted && r.track.volume == t.volume
    ensures r.track.armed == t.armed
    ensures t.mode == TapeMode ==> r.track.loopHasContent == t.loopHasContent
    ensures t.mode == LoopMode ==> r.track.tape == t.tape && r.track.playhead == t.playhead &&
                                   r.track.recordPos == t.recordPos && r.track.length == t.length
  {
    match t.mode
    case LoopMode =>
      (match t.state
       case Stopped => Step(t, 0.0)
       case Recording =>
         if !looperRecording then Step(t.(state := Playing, loopHasContent := true), looperOut)
         else Step(t, looperOut)
       case Playing => Step(t, looperOut)
       case Overdubbing => Step(t, looperOut))
    case TapeMode =>
      (match t.state
       case Stopped => Step(t, 0.0)
       case Recording =>
         if t.recordPos < TAPE_BUFFER_SIZE - 1 then
           Step(t.(tape := t.tape[t.recordPos := ToSample(input)],
                   recordPos := t.recordPos + 1, length := t.recordPos + 1), input * 0.5)
         else
           Step(t.(state := Stopped), input * 0.5)
       case Playing =>
         if t.playhead < t.length then Step(t.(playhead := t.playhead + 1), Dequantize(t.tape[t.playhead]))
         else Step(t, 0.0)
       case Overdubbing =>
         if t.playhead < t.length then
           var mixed := OverdubMix(t.tape[t.playhead], input);
           Step(t.(tape := t.tape[t.playhead := ToSample(mixed)], playhead := t.playhead + 1), mixed)
         else
           Step(t.(state := Stopped), 0.0))
  }

  /** Tape mode never consults the looper: its reply does not affect the step. */
  lemma TapeIgnoresLooper(t: Track, input: real, lo: real, lr: bool, lo': real, lr': bool)
    requires Valid(t) && t.mode == TapeMode
    ensures Transport(t, input, lo, lr) == Transport(t, input, lo', lr')
  {
  }

  /** The gain stage at the end of `Process`: `muted ? 0 : output * volume`. */
  function Gain(t: Track, x: real): real
  {
    if t.muted then 0.0 else x * t.volume
  }

  /** `Process`: the full transport step, then volume and mute. */
  function Process(t: Track, input: real, looperOut: real, looperRecording: bool): (r: Step)
    requires Valid(t)
    ensures Valid(r.track)
    ensures r.track == Transport(t, input, looperOut, looperRecording).track
    ensures t.muted ==> r.out == 0.0
  {
    var s := Transport(t, input, looperOut, looperRecording);
    Step(s.track, Gain(t, s.out))
  }

  // ---------------------------------------------------------------------------------
  // Transport commands

  function StartRecording(t: Track): (r: Track)
    requires Valid(t)
    ensures Valid(r) && IsRecording(r)
    ensures r.state == Overdubbing <==> t.state == Playing && HasContent(t)
    ensures r.(state := t.state, recordPos := t.recordPos, length := t.length) == t
    ensures t.mode == TapeMode && r.state == Recording ==> r.recordPos == 0 && r.length == 0
    ensures t.mode == LoopMode || r.state == Overdubbing ==> r.recordPos == t.recordPos && r.length == t.length
  {
    match t.mode
    case LoopMode =>
      if t.loopHasContent && t.state == Playing then t.(state := Overdubbing) else t.(state := Recording)
    case TapeMode =>
      if t.length > 0 && t.state == Playing then t.(state := Overdubbing)
      else t.(state := Recording, recordPos := 0, length := 0)
  }

  function StartPlayback(t: Track): (r: Track)
    requires Valid(t)
    ensures Valid(r)
    ensures !HasContent(t) ==> r == t
    ensures HasContent(t) ==> r.state == Playing
    ensures r.(state := t.state, playhead := t.playhead) == t
    ensures t.mode == LoopMode ==> r.playhead == t.playhead
    ensures t.mode == TapeMode && HasContent(t) ==>
              (r.playhead == 0 <==> t.playhead == 0 || t.playhead >= t.length) &&
              (t.playhead < t.length ==> r.playhead == t.playhead)
  {
    match t.mode
    case LoopMode =>
      if t.loopHasContent then t.(state := Playing) else t
    case TapeMode =>
      if t.length > 0 then t.(state := Playing, playhead := if t.playhead >= t.length then 0 else t.playhead)
      else t
  }

  function Stop(t: Track): (r: Track)
    requires Valid(t)
    ensures Valid(r) && !IsRecording(r)
    ensures r.(state := t.state, loopHasContent := t.loopHasContent) == t
    ensures t.mode == TapeMode ==> r == t.(state := Stopped)
    ensures t.mode == LoopMode && IsRecording(t) ==> r.state == Playing && r.loopHasContent
    ensures t.mode == LoopMode && !IsRecording(t) ==> r == t.(state := Stopped)
  {
    match t.mode
    case LoopMode =>
      if t.state == Recording || t.state == Overdubbing then t.(state := Playing, loopHasContent := true)
      else t.(state := Stopped)
    case TapeMode =>
      t.(state := Stopped)
  }

  function Rewind(t: Track): (r: Track)
    requires Valid(t)
    ensures Valid(r) && r.state == t.state
    ensures r.(playhead := t.playhead) == t
    ensures t.mode == TapeMode ==> r.playhead == 0
    ensures t.mode == LoopMode ==> r == t
  {
    match t.mode
    case TapeMode => t.(playhead := 0)
    case LoopMode => t
  }

  function Clear(t: Track): (r: Track)
    requires Valid(t)
    ensures Valid(r) && r.state == Stopped && !HasContent(r)
    ensures r.playhead == 0 && r.recordPos == 0
    ensures r.mode == t.mode && r.muted == t.muted && r.volume == t.volume && r.armed == t.armed
    ensures t.mode == TapeMode ==> r.tape == BlankTape() && r.length == 0 && r.loopHasContent == t.loopHasContent
    ensures t.mode == LoopMode ==> r.tape == t.tape && r.length == t.length
  {
    var cleared :=
      match t.mode
      case LoopMode => t.(loopHasContent := false)
      case TapeMode => t.(tape := BlankTape(), length := 0);
    cleared.(state := Stopped, playhead := 0, recordPos := 0)
  }

  function SetMode(t: Track, m: TrackMode): (r: Track)
    requires Valid(t)
    ensures Valid(r) && r.mode == m
    ensures m == t.mode ==> r == t
    ensures m != t.mode ==> r == Stop(t).(mode := m)
  {
    if m != t.mode then Stop(t).(mode := m) else t
  }

  function ToggleMode(t: Track): (r: Track)
    requires Valid(t)
    ensures Valid(r) && r.mode != t.mode
    ensures r.(mode := t.mode) == Stop(t)
  {
    SetMode(t, OtherMode(t.mode))
  }

  function SetVolume(t: Track, v: real): (r: Track)
    ensures 0.0 <= r.volume <= 1.0
    ensures 0.0 <= v <= 1.0 ==> r.volume == v
    ensures r.(volume := t.volume) == t
  {
    t.(volume := Clamp(v, 0.0, 1.0))
  }

  /** `GetPosition`: the playhead as a fraction of the recorded length (0 in loop mode
      and for an empty tape). It exceeds 1 exactly when a shorter take was recorded
      while the playhead stood further out. */
  function GetPosition(t: Track): (p: real)
    ensures 0.0 <= p
    ensures t.mode == LoopMode || t.length == 0 ==> p == 0.0
    ensures t.mode == TapeMode && t.length > 0 ==> (p <= 1.0 <==> t.playhead <= t.length)
  {
    if t.mode == LoopMode then 0.0
    else if t.length > 0 then
      FractionAtMostOne(t.playhead as real, t.length as real);
      t.playhead as real / t.length as real
    else 0.0
  }

  /** A fraction of a positive whole is non-negative and at most one exactly when the
      part is at most the whole. */
  lemma FractionAtMostOne(a: real, b: real)
    requires 0.0 <= a && 0.0 < b
    ensures 0.0 <= a / b
    ensures a / b <= 1.0 <==> a <= b
  {
    var q := a / b;
    assert q * b == a;
    if q > 1.0 {
      assert (q - 1.0) * b > 0.0;
    }
    if q <= 1.0 {
      assert (1.0 - q) * b >= 0.0;
    }
  }

  // ---------------------------------------------------------------------------------
  // Button dispatch of UpdateControls

  /** Record button: stop a recording track, start recording on any other. */
  function RecordButton(t: Track): (r: Track)
    requires Valid(t)
    ensures Valid(r)
    ensures IsRecording(r) == !IsRecording(t)
  {
    if IsRecording(t) then Stop(t) else StartRecording(t)
  }

  /** Play button: stop a track that is playing without recording, start playback on
      any other. The track ends up playing exactly when it was not and has content. */
  function PlayButton(t: Track): (r: Track)
    requires Valid(t)
    ensures Valid(r)
    ensures r.state == Playing <==> t.state != Playing && HasContent(t)
  {
    if IsPlaying(t) && !IsRecording(t) then Stop(t) else StartPlayback(t)
  }

  /** Rising edges of one track's buttons in one control poll. */
  datatype TrackButtons = TrackButtons(record: bool, play: bool, mode: bool)

  /** A track's own buttons in one control poll: its record, play and mode buttons, in
      that order. */
  function TrackButtonsStep(t: Track, b: TrackButtons): (r: Track)
    requires Valid(t)
    ensures Valid(r) && r.volume == t.volume
    ensures (b.mode ==> r.mode != t.mode) && (!b.mode ==> r.mode == t.mode)
  {
    var t1 := if b.record then RecordButton(t) else t;
    var t2 := if b.play then PlayButton(t1) else t1;
    if b.mode then ToggleMode(t2) else t2
  }

  /** The stop-all, rewind-all and clear-all buttons as they act on one track, in that
      order. */
  function TransportButtonsStep(t: Track, stop: bool, rewind: bool, clear: bool): (r: Track)
    requires Valid(t)
    ensures Valid(r) && r.volume == t.volume && r.mode == t.mode
    ensures clear ==> r.state == Stopped && r.playhead == 0 && r.recordPos == 0 && !HasContent(r)
    ensures stop && !clear ==> !IsRecording(r)
  {
    var t1 := if stop then Stop(t) else t;
    var t2 := if rewind then Rewind(t1) else t1;
    if clear then Clear(t2) else t2
  }

  /** What one control poll does to one track: its volume knob, its own buttons, then the
      buttons that act on every track. */
  function UpdateTrack(t: Track, volume: real, b: TrackButtons, stop: bool, rewind: bool, clear: bool): (r: Track)
    requires Valid(t)
    ensures Valid(r) && r.volume == Clamp(volume, 0.0, 1.0)
    ensures clear ==> r.state == Stopped && r.playhead == 0 && r.recordPos == 0 && !HasContent(r)
    ensures stop && !clear ==> !IsRecording(r)
    ensures (b.mode ==> r.mode != t.mode) && (!b.mode ==> r.mode == t.mode)
  {
    TransportButtonsStep(TrackButtonsStep(SetVolume(t, volume), b), stop, rewind, clear)
  }

  predicate Pressed(b: TrackButtons) { b.record || b.play }

  /** `selected_track` after scanning the buttons of one poll in track order: it moves
      to every track whose record or play button rose. */
  function LastPressed(buttons: seq<TrackButtons>, selected: nat): nat
  {
    if buttons == [] then selected
    else if Pressed(buttons[|buttons| - 1]) then |buttons| - 1
    else LastPressed(buttons[..|buttons| - 1], selected)
  }

  /** The selection is the last track whose record or play button rose, and stays where
      it was when none did. */
  lemma {:induction false} LastPressedIsLast(buttons: seq<TrackButtons>, selected: nat)
    ensures var r := LastPressed(buttons, selected);
            ((exists i :: 0 <= i < |buttons| && Pressed(buttons[i])) ==>
               r < |buttons| && Pressed(buttons[r]) &&
               forall j :: r < j < |buttons| ==> !Pressed(buttons[j])) &&
            (!(exists i :: 0 <= i < |buttons| && Pressed(buttons[i])) ==> r == selected)
  {
    if buttons != [] && !Pressed(buttons[|buttons| - 1]) {
      var init := buttons[..|buttons| - 1];
      LastPressedIsLast(init, selected);
      assert forall i :: 0 <= i < |init| ==> init[i] == buttons[i];
      if exists i :: 0 <= i < |buttons| && Pressed(buttons[i]) {
        var i :| 0 <= i < |buttons| && Pressed(buttons[i]);
        assert Pressed(init[i]);
      }
    }
  }

  /** One more track scanned: the selection moves to it exactly when it was pressed. */
  lemma LastPressedStep(buttons: seq<TrackButtons>, i: nat, selected: nat)
    requires i < |buttons|
    ensures LastPressed(buttons[..i + 1], selected) ==
              if Pressed(buttons[i]) then i else LastPressed(buttons[..i], selected)
  {
    assert buttons[..i + 1][..i] == buttons[..i];
  }

  // ---------------------------------------------------------------------------------
  // Single-sample facts

  /** Recording writes the quantised input at the record cursor and advances cursor and
      length together, until the cursor reaches the last slot; there the track stops
      without writing. The input is monitored at half level either way. */
  lemma RecordStep(t: Track, input: real)
    requires Valid(t) && t.mode == TapeMode && t.state == Recording
    ensures var s := Transport(t, input, 0.0, false);
            s.out == input * 0.5 &&
            (t.recordPos < TAPE_BUFFER_SIZE - 1 ==>
               s.track == t.(tape := t.tape[t.recordPos := ToSample(input)],
                             recordPos := t.recordPos + 1, length := t.recordPos + 1)) &&
            (t.recordPos == TAPE_BUFFER_SIZE - 1 ==> s.track == t.(state := Stopped))
  {
  }

  /** Tape playback never loops: at or past the end it outputs silence and changes
      nothing, state included. */
  lemma PlaybackNeverLoops(t: Track, input: real, looperOut: real, looperRecording: bool)
    requires Valid(t) && t.mode == TapeMode && t.state == Playing && t.playhead >= t.length
    ensures Process(t, input, looperOut, looperRecording) == Step(t, 0.0)
  {
  }

  /** Overdubbing replaces the sample under the playhead by 0.7 x (existing + input),
      outputs that mix and never changes the length; at the end it stops silently. With
      silent input the output is 0.7 x the existing material. */
  lemma OverdubStep(t: Track, input: real)
    requires Valid(t) && t.mode == TapeMode && t.state == Overdubbing
    ensures var s := Transport(t, input, 0.0, false);
            s.track.length == t.length &&
            (t.playhead < t.length ==>
               s.out == OverdubMix(t.tape[t.playhead], input) &&
               s.track == t.(tape := t.tape[t.playhead := ToSample(s.out)], playhead := t.playhead + 1) &&
               (input == 0.0 ==> s.out == 0.7 * Dequantize(t.tape[t.playhead]))) &&
            (t.playhead >= t.length ==> s == Step(t.(state := Stopped), 0.0))
  {
  }

  /** Loop mode: a recording track turns into a playing one with content as soon as the
      looper stops reporting recording, and not before. */
  lemma LoopRecordingEnds(t: Track, input: real, looperOut: real, looperRecording: bool)
    requires Valid(t) && t.mode == LoopMode && t.state == Recording
    ensures var s := Transport(t, input, looperOut, looperRecording);
            s.out == looperOut &&
            (!looperRecording ==> s.track == t.(state := Playing, loopHasContent := true)) &&
            (looperRecording ==> s.track == t)
  {
  }

  /** Stop on a stopped track changes nothing, and a second Stop of a tape track changes
      nothing either; in loop mode a second Stop is what halts a track the first Stop
      left playing. */
  lemma StopIdempotence(t: Track)
    requires Valid(t)
    ensures t.state == Stopped ==> Stop(t) == t
    ensures t.mode == TapeMode ==> Stop(Stop(t)) == Stop(t)
    ensures Stop(Stop(t)).state == Stopped
  {
  }

  /** Switching a loop track that is recording into tape mode leaves it playing on tape:
      SetMode runs Stop under the old mode first. */
  lemma ModeSwitchDuringLoopRecording(t: Track)
    requires Valid(t) && t.mode == LoopMode && IsRecording(t)
    ensures var r := SetMode(t, TapeMode);
            r.mode == TapeMode && r.state == Playing && r.loopHasContent
  {
  }

  // ---------------------------------------------------------------------------------
  // Runs of samples in tape mode

  /** Feeds samples one by one to a tape-mode track (the looper is not consulted in tape
      mode, so its reply is immaterial); returns the final track and the transport signal,
      the output before the gain stage. `Process` yields the same tracks, and since a run
      changes neither volume nor mute, its outputs are this signal through one `Gain`. */
  function Feed(t: Track, xs: seq<real>): (r: (Track, seq<real>))
    requires Valid(t) && t.mode == TapeMode
    ensures Valid(r.0) && |r.1| == |xs|
    ensures r.0.mode == TapeMode && r.0.muted == t.muted && r.0.volume == t.volume
    decreases |xs|
  {
    if xs == [] then (t, [])
    else
      var s := Transport(t, xs[0], 0.0, false);
      var rest := Feed(s.track, xs[1..]);
      (rest.0, [s.out] + rest.1)
  }

  /** A stopped tape track stays as it is and outputs silence. */
  lemma {:induction false} StoppedStaysSilent(t: Track, xs: seq<real>)
    requires Valid(t) && t.mode == TapeMode && t.state == Stopped
    decreases |xs|
    ensures Feed(t, xs).0 == t
    ensures forall i :: 0 <= i < |xs| ==> Feed(t, xs).1[i] == 0.0
  {
    if xs != [] {
      StoppedStaysSilent(t, xs[1..]);
    }
  }

  /** Recording a take that fits: sample i lands in slot recordPos + i, nothing else on
      the tape changes, cursor and length advance together, and the input is monitored. */
  lemma {:induction false} RecordTake(t: Track, xs: seq<real>)
    requires Valid(t) && t.mode == TapeMode && t.state == Recording
    requires t.recordPos == t.length && t.recordPos + |xs| <= TAPE_BUFFER_SIZE - 1
    decreases |xs|
    ensures var r := Feed(t, xs).0;
            r.state == Recording && r.recordPos == t.recordPos + |xs| && r.length == r.recordPos &&
            r.playhead == t.playhead &&
            (forall i :: 0 <= i < |xs| ==> r.tape[t.recordPos + i] == ToSample(xs[i])) &&
            (forall j :: 0 <= j < |t.tape| && !(t.recordPos <= j < t.recordPos + |xs|) ==> r.tape[j] == t.tape[j])
    ensures forall i :: 0 <= i < |xs| ==> Feed(t, xs).1[i] == xs[i] * 0.5
  {
    if xs != [] {
      var s := Transport(t, xs[0], 0.0, false);
      RecordTake(s.track, xs[1..]);
      var r := Feed(t, xs).0;
      forall i | 0 <= i < |xs|
        ensures r.tape[t.recordPos + i] == ToSample(xs[i])
      {
        if i > 0 {
          assert xs[1..][i - 1] == xs[i];
          assert s.track.recordPos + (i - 1) == t.recordPos + i;
        }
      }
      forall i | 0 <= i < |xs|
        ensures Feed(t, xs).1[i] == xs[i] * 0.5
      {
        if i > 0 {
          assert xs[1..][i - 1] == xs[i];
        }
      }
    }
  }

  /** Playing recorded material: output i is slot playhead + i, dequantised, and only
      the playhead moves. */
  lemma {:induction false} PlayTake(t: Track, ys: seq<real>)
    requires Valid(t) && t.mode == TapeMode && t.state == Playing && t.playhead + |ys| <= t.length
    decreases |ys|
    ensures Feed(t, ys).0 == t.(playhead := t.playhead + |ys|)
    ensures forall i :: 0 <= i < |ys| ==> Feed(t, ys).1[i] == Dequantize(t.tape[t.playhead + i])
  {
    if ys != [] {
      var s := Transport(t, ys[0], 0.0, false);
      PlayTake(s.track, ys[1..]);
      forall i | 0 <= i < |ys|
        ensures Feed(t, ys).1[i] == Dequantize(t.tape[t.playhead + i])
      {
        if i > 0 {
          assert s.track.playhead + (i - 1) == t.playhead + i;
        }
      }
    }
  }

  lemma RecordThenPlayBack(t: Track, xs: seq<real>, ys: seq<real>)
    requires Valid(t) && t.mode == TapeMode && t.playhead == 0
    requires !(t.state == Playing && t.length > 0)
    requires |xs| <= TAPE_BUFFER_SIZE - 1 && |ys| == |xs|
    ensures var taken := Feed(StartRecording(t), xs).0;
            var played := Feed(StartPlayback(Stop(taken)), ys).1;
            forall i :: 0 <= i < |xs| ==>
              played[i] == Dequantize(ToSample(xs[i])) &&
              (-1.0 <= xs[i] <= 1.0 ==> played[i] == Dequantize(Quantize(xs[i])))
  {
    FreshTake(t, xs);
    var taken := Feed(StartRecording(t), xs).0;
    if |xs| > 0 {
      TakeReplayed(taken, ys);
    }
  }

  /** A fresh take from the start of the tape: `xs` stored from slot 0, the take's
      length is `|xs|` and the playhead is still at the start. */
  lemma FreshTake(t: Track, xs: seq<real>)
    requires Valid(t) && t.mode == TapeMode && t.playhead == 0
    requires !(t.state == Playing && t.length > 0)
    requires |xs| <= TAPE_BUFFER_SIZE - 1
    ensures var taken := Feed(StartRecording(t), xs).0;
            taken.state == Recording && taken.length == |xs| && taken.playhead == 0 &&
            forall i :: 0 <= i < |xs| ==> taken.tape[i] == ToSample(xs[i])
  {
    var s0 := StartRecording(t);
    assert s0.state == Recording && s0.recordPos == 0 && s0.length == 0 && s0.playhead == 0;
    RecordTake(s0, xs);
  }

  /** Stopping a take recorded from the start and pressing play replays it from slot
      0: the first `|ys|` outputs are the stored samples, read back. */
  lemma TakeReplayed(taken: Track, ys: seq<real>)
    requires Valid(taken) && taken.mode == TapeMode && taken.state == Recording && taken.playhead == 0
    requires 0 < |ys| <= taken.length
    ensures forall i :: 0 <= i < |ys| ==>
              Feed(StartPlayback(Stop(taken)), ys).1[i] == Dequantize(taken.tape[i])
  {
    ReplayStarts(taken);
    ReplayFromStart(StartPlayback(Stop(taken)), taken.tape, ys);
  }

  /** Stop then play on a take recorded from the start: playing from slot 0 over the
      same tape and length. */
  lemma ReplayStarts(taken: Track)
    requires Valid(taken) && taken.mode == TapeMode && taken.state == Recording && taken.playhead == 0
    requires 0 < taken.length
    ensures var p := StartPlayback(Stop(taken));
            p.mode == TapeMode && p.state == Playing && p.playhead == 0 && p.length == taken.length && p.tape == taken.tape
  {
    var q := Stop(taken);
    assert q == taken.(state := Stopped);
  }

  /** Playing from slot 0 outputs the tape from slot 0, read back. */
  lemma ReplayFromStart(p: Track, tape: seq<Sample>, ys: seq<real>)
    requires Valid(p) && p.mode == TapeMode && p.state == Playing && p.playhead == 0 && p.tape == tape
    requires |ys| <= p.length
    ensures forall i :: 0 <= i < |ys| ==> Feed(p, ys).1[i] == Dequantize(tape[i])
  {
    PlayTake(p, ys);
  }

  /** What `Process` returns over a run of tape-mode samples. */
  function Outputs(t: Track, xs: seq<real>): (r: seq<real>)
    requires Valid(t) && t.mode == TapeMode
    ensures |r| == |xs|
    decreases |xs|
  {
    if xs == [] then []
    else
      var s := Process(t, xs[0], 0.0, false);
      [s.out] + Outputs(s.track, xs[1..])
  }

  lemma GainSameSettings(a: Track, b: Track, x: real)
    requires a.muted == b.muted && a.volume == b.volume
    ensures Gain(a, x) == Gain(b, x)
  {
  }

  /** A tape run changes neither volume nor mute, so its outputs are the transport
      signal through one and the same gain stage. */
  lemma {:induction false} OutputsAreGainedSignal(t: Track, xs: seq<real>)
    requires Valid(t) && t.mode == TapeMode
    decreases |xs|
    ensures forall i :: 0 <= i < |xs| ==> Outputs(t, xs)[i] == Gain(t, Feed(t, xs).1[i])
  {
    if xs != [] {
      var s := Transport(t, xs[0], 0.0, false);
      OutputsAreGainedSignal(s.track, xs[1..]);
      forall i | 0 <= i < |xs|
        ensures Outputs(t, xs)[i] == Gain(t, Feed(t, xs).1[i])
      {
        if i > 0 {
          var y := Feed(s.track, xs[1..]).1[i - 1];
          assert Outputs(t, xs)[i] == Gain(s.track, y);
          GainSameSettings(s.track, t, y);
        }
      }
    }
  }

  /** The round trip at the output of `Process`: the n samples played back after
      recording n are the recorded ones, quantised, at the track's volume, or silence
      when the track is muted. */
  lemma RecordThenPlayBackAtVolume(t: Track, xs: seq<real>, ys: seq<real>)
    requires Valid(t) && t.mode == TapeMode && t.playhead == 0
    requires !(t.state == Playing && t.length > 0)
    requires |xs| <= TAPE_BUFFER_SIZE - 1 && |ys| == |xs|
    ensures var p := StartPlayback(Stop(Feed(StartRecording(t), xs).0));
            forall i :: 0 <= i < |xs| ==>
              Outputs(p, ys)[i] == Gain(t, Dequantize(ToSample(xs[i]))) &&
              (-1.0 <= xs[i] <= 1.0 ==> Outputs(p, ys)[i] == Gain(t, Dequantize(Quantize(xs[i]))))
  {
    var p := StartPlayback(Stop(Feed(StartRecording(t), xs).0));
    RecordThenPlayBack(t, xs, ys);
    OutputsAreGainedSignal(p, ys);
    assert p.muted == t.muted && p.volume == t.volume;
    forall i | 0 <= i < |xs|
      ensures Outputs(p, ys)[i] == Gain(t, Dequantize(ToSample(xs[i])))
    {
      GainSameSettings(p, t, Dequantize(ToSample(xs[i])));
    }
  }

  /** Tape exhaustion: feeding a take more samples than fit fills every slot from the
      record cursor up to the last-but-one, leaves the slots before the take and the last
      slot as they were, stops the track with length TAPE_BUFFER_SIZE - 1, monitors the
      input up to and including the sample that hit the end, and is silent afterwards. */
  lemma {:induction false} RecordingRunsOut(t: Track, xs: seq<real>)
    requires Valid(t) && t.mode == TapeMode && t.state == Recording && t.recordPos == t.length
    requires |xs| >= TAPE_BUFFER_SIZE - t.recordPos
    decreases |xs|
    ensures var r := Feed(t, xs);
            var k := TAPE_BUFFER_SIZE - 1 - t.recordPos;
            r.0.state == Stopped && r.0.length == TAPE_BUFFER_SIZE - 1 &&
            r.0.recordPos == TAPE_BUFFER_SIZE - 1 &&
            (forall i :: 0 <= i < k ==> r.0.tape[t.recordPos + i] == ToSample(xs[i])) &&
            (forall j :: 0 <= j < t.recordPos ==> r.0.tape[j] == t.tape[j]) &&
            r.0.tape[TAPE_BUFFER_SIZE - 1] == t.tape[TAPE_BUFFER_SIZE - 1] &&
            (forall i :: 0 <= i <= k ==> r.1[i] == xs[i] * 0.5) &&
            (forall i :: k < i < |xs| ==> r.1[i] == 0.0)
  {
    var s := Transport(t, xs[0], 0.0, false);
    var r := Feed(t, xs);
    var k := TAPE_BUFFER_SIZE - 1 - t.recordPos;
    if t.recordPos == TAPE_BUFFER_SIZE - 1 {
      assert s.track == t.(state := Stopped);
      StoppedStaysSilent(s.track, xs[1..]);
      forall i | k < i < |xs|
        ensures r.1[i] == 0.0
      {
        assert r.1[i] == Feed(s.track, xs[1..]).1[i - 1];
      }
    } else {
      RecordingRunsOut(s.track, xs[1..]);
      forall i | 0 <= i < k
        ensures r.0.tape[t.recordPos + i] == ToSample(xs[i])
      {
        if i > 0 {
          assert xs[1..][i - 1] == xs[i];
          assert s.track.recordPos + (i - 1) == t.recordPos + i;
        }
      }
      forall i | 0 <= i < |xs|
        ensures i <= k ==> r.1[i] == xs[i] * 0.5
        ensures k < i ==> r.1[i] == 0.0
      {
        if i > 0 {
          assert r.1[i] == Feed(s.track, xs[1..]).1[i - 1];
          assert xs[1..][i - 1] == xs[i];
        }
      }
    }
  }

  // ---------------------------------------------------------------------------------
  // Mute independence over any history of samples and commands

  /** The commands a control poll can issue to a track, other than ToggleMute. */
  datatype Command =
    | StartRecordingCmd
    | StartPlaybackCmd
    | StopCmd
    | RewindCmd
    | ClearCmd
    | SetModeCmd(m: TrackMode)
    | ToggleModeCmd
    | SetVolumeCmd(v: real)

  /** One sample (with the looper's reply) or one command between samples. */
  datatype Event = Tick(input: real, looperOut: real, looperRecording: bool) | Do(cmd: Command)

  function Apply(t: Track, c: Command): (r: Track)
    requires Valid(t)
    ensures Valid(r) && r.muted == t.muted
  {
    match c
    case StartRecordingCmd => StartRecording(t)
    case StartPlaybackCmd => StartPlayback(t)
    case StopCmd => Stop(t)
    case RewindCmd => Rewind(t)
    case ClearCmd => Clear(t)
    case SetModeCmd(m) => SetMode(t, m)
    case ToggleModeCmd => ToggleMode(t)
    case SetVolumeCmd(v) => SetVolume(t, v)
  }

  /** The track after a history of events, with the samples its ticks produced. */
  function Run(t: Track, evs: seq<Event>): (r: (Track, seq<real>))
    requires Valid(t)
    ensures Valid(r.0) && r.0.muted == t.muted
    decreases |evs|
  {
    if evs == [] then (t, [])
    else
      match evs[0]
      case Tick(x, lo, lr) =>
        var s := Process(t, x, lo, lr);
        var rest := Run(s.track, evs[1..]);
        (rest.0, [s.out] + rest.1)
      case Do(c) =>
        Run(Apply(t, c), evs[1..])
  }

  /** One sample of a muted and an unmuted track: the same transport step. */
  lemma TransportIgnoresMute(t: Track, x: real, lo: real, lr: bool, muted: bool)
    requires Valid(t)
    ensures var s := Transport(t, x, lo, lr);
            Transport(t.(muted := muted), x, lo, lr) == Step(s.track.(muted := muted), s.out)
  {
    match t.mode
    case LoopMode =>
    case TapeMode =>
  }

  /** One command on a muted and an unmuted track: the same change. */
  lemma ApplyIgnoresMute(t: Track, c: Command, muted: bool)
    requires Valid(t)
    ensures Apply(t.(muted := muted), c) == Apply(t, c).(muted := muted)
  {
  }

  /** Muting never changes where a track goes: under the same history (and the same
      looper replies, which can only depend on what the looper was fed, and that does not
      depend on mute) a muted and an unmuted track pass through the same states, cursors
      and tape contents; the muted one only outputs silence. */
  lemma {:induction false} MuteOnlySilences(t: Track, evs: seq<Event>)
    requires Valid(t)
    decreases |evs|
    ensures var loud := Run(t.(muted := false), evs);
            var quiet := Run(t.(muted := true), evs);
            quiet.0 == loud.0.(muted := true) &&
            |quiet.1| == |loud.1| &&
            forall i :: 0 <= i < |quiet.1| ==> quiet.1[i] == 0.0
  {
    if evs != [] {
      var u, m := t.(muted := false), t.(muted := true);
      match evs[0]
      case Tick(x, lo, lr) =>
        TransportIgnoresMute(u, x, lo, lr, true);
        var su := Process(u, x, lo, lr);
        assert m == u.(muted := true);
        assert su.track == su.track.(muted := false);
        MuteOnlySilences(su.track, evs[1..]);
      case Do(c) =>
        ApplyIgnoresMute(u, c, true);
        var au := Apply(u, c);
        assert m == u.(muted := true);
        assert au == au.(muted := false);
        MuteOnlySilences(au, evs[1..]);
    }
  }
}
