/** The four-track tape machine. `TapeMachineTrack` keeps its transport state in fields
    that the commands update in place and its tape in an int16 array written sample by
    sample; every method is proved against its function in TapeDeck (the new value of the
    track's fields and tape is that function of the old value), and states what the
    track's looper is told. `TapeMachine` is the device: four tracks, the control poll
    that dispatches button edges to them, and the summing callback. */
module TapeMachine {
  import opened Audio
  import opened Primitives
  import opened MixBus
  import TapeDeck

  const NUM_TRACKS: nat := 4

  class TapeMachineTrack {
    var mode: TapeDeck.TrackMode
    var state: TapeDeck.TrackState
    var playhead: nat
    var recordPos: nat
    var length: nat
    var armed: bool
    var muted: bool
    var volume: real
    var loopHasContent: bool
    /** This track's part of the QSPI tape memory. */
    const tape: array<Sample>
    /** The DaisySP looper that plays the track in loop mode. */
    const looper: Looper

    /** The track as a TapeDeck value. */
    ghost function View(): TapeDeck.Track
      reads this, tape
    {
      TapeDeck.Track(mode, state, playhead, recordPos, length, armed, muted, volume, loopHasContent, tape[..])
    }

    ghost predicate Valid()
      reads this, tape, looper`cleared, looper`recording, looper`queued
    {
      TapeDeck.Valid(View()) && looper.Valid()
    }

    /** `Init(qspi_buffer_start)`: an empty, stopped loop-mode track over a zeroed tape,
        with a fresh empty looper. */
    constructor Init(qspiBuffer: array<Sample>)
      requires qspiBuffer.Length == TapeDeck.TAPE_BUFFER_SIZE
      modifies qspiBuffer
      ensures Valid() && View() == TapeDeck.Init()
      ensures tape == qspiBuffer && fresh(looper)
      ensures looper.cleared && looper.trigs == 0 && looper.fed == []
    {
      mode, state := TapeDeck.LoopMode, TapeDeck.Stopped;
      tape := qspiBuffer;
      looper := new Looper.Init(TapeDeck.LOOP_BUFFER_SIZE);
      playhead, recordPos, length := 0, 0, 0;
      armed, muted, volume, loopHasContent := false, false, 0.8, false;
      new;
      ZeroTape();
    }

    /** The zero-fill loop of `Init` and `Clear`. */
    method ZeroTape()
      requires tape.Length == TapeDeck.TAPE_BUFFER_SIZE
      modifies tape
      ensures tape[..] == TapeDeck.BlankTape()
    {
      for i := 0 to tape.Length
        invariant forall j :: 0 <= j < i ==> tape[j] == 0
      {
        tape[i] := 0;
      }
    }

    /** The track is where `TapeDeck.Process` takes `before` for this input, and `out` is
        what that step outputs; the looper's reply is the one it gave in that step. */
    ghost predicate ProcessedFrom(before: TapeDeck.Track, input: real, out: real)
      reads this, tape, looper`lastOut, looper`recording
      requires TapeDeck.Valid(before)
    {
      var s := TapeDeck.Process(before, input, looper.lastOut, looper.recording);
      View() == s.track && out == s.out
    }

    /** One sample through the track: the mode x state switch, then volume and mute. In
        loop mode the looper is fed (silence while playing, the input otherwise) unless
        the track is stopped; in tape mode the looper is left alone. */
    method Process(input: real) returns (out: real)
      requires Valid()
      modifies this, tape, looper`recording, looper`queued, looper`nearBeginning, looper`fed, looper`lastOut
      ensures Valid()
      ensures ProcessedFrom(old(View()), input, out)
      ensures old(mode) == TapeDeck.LoopMode && old(state) != TapeDeck.Stopped ==>
                looper.fed == old(looper.fed) + [TapeDeck.LooperInput(old(state), input)]
      ensures old(mode) == TapeDeck.TapeMode || old(state) == TapeDeck.Stopped ==> unchanged(looper)
    {
      ghost var before := View();
      var output;
      if mode == TapeDeck.LoopMode {
        output := LoopTransport(input);
      } else {
        output := TapeTransport(input);
        TapeDeck.TapeIgnoresLooper(before, input, 0.0, false, looper.lastOut, looper.recording);
      }
      out := ApplyGain(output);
    }

    /** The gain stage at the end of `Process`: silence while muted, otherwise the
        transport's output at the track's volume. */
    method ApplyGain(output: real) returns (out: real)
      ensures out == TapeDeck.Gain(View(), output)
    {
      out := if muted then 0.0 else output * volume;
    }

    /** The loop-mode half of the switch. */
    method LoopTransport(input: real) returns (output: real)
      requires Valid() && mode == TapeDeck.LoopMode
      modifies this`state, this`loopHasContent, looper`recording, looper`queued, looper`nearBeginning, looper`fed, looper`lastOut
      ensures Valid()
      ensures var s := TapeDeck.Transport(old(View()), input, looper.lastOut, looper.recording);
              View() == s.track && output == s.out
      ensures old(state) != TapeDeck.Stopped ==>
                looper.fed == old(looper.fed) + [TapeDeck.LooperInput(old(state), input)]
      ensures old(state) == TapeDeck.Stopped ==> unchanged(looper)
    {
      output := 0.0;
      match state
      case Stopped =>
      case Recording =>
        output := looper.Process(input);
        if !looper.Recording() {
          state, loopHasContent := TapeDeck.Playing, true;
        }
      case Playing =>
        output := looper.Process(0.0);
      case Overdubbing =>
        output := looper.Process(input);
    }

    /** The tape-mode half of the switch: record with auto-stop at the end of the tape,
        play without looping, overdub in place. */
    method TapeTransport(input: real) returns (output: real)
      requires Valid() && mode == TapeDeck.TapeMode
      modifies this`state, this`playhead, this`recordPos, this`length, tape
      ensures Valid()
      ensures var s := TapeDeck.Transport(old(View()), input, 0.0, false);
              View() == s.track && output == s.out
    {
      output := 0.0;
      match state
      case Stopped =>
      case Recording =>
        if recordPos < TapeDeck.TAPE_BUFFER_SIZE - 1 {
          tape[recordPos] := ToSample(input);
          recordPos := recordPos + 1;
          length := recordPos;
        } else {
          state := TapeDeck.Stopped;
        }
        output := input * 0.5;
      case Playing =>
        if playhead < length {
          output := Dequantize(tape[playhead]);
          playhead := playhead + 1;
        }
      case Overdubbing =>
        if playhead < length {
          var mixed := OverdubMix(tape[playhead], input);
          tape[playhead] := ToSample(mixed);
          output := mixed;
          playhead := playhead + 1;
        } else {
          state := TapeDeck.Stopped;
        }
    }

    /** In loop mode the record trigger reaches the looper once; tape mode needs no
        looper. */
    method StartRecording()
      requires Valid()
      modifies this, looper`recording, looper`queued, looper`cleared, looper`trigs
      ensures Valid() && View() == TapeDeck.StartRecording(old(View()))
      ensures mode == TapeDeck.LoopMode ==>
                looper.trigs == old(looper.trigs) + 1 && (old(looper.cleared) ==> looper.recording)
      ensures mode == TapeDeck.TapeMode ==> unchanged(looper)
    {
      if mode == TapeDeck.LoopMode {
        if loopHasContent && state == TapeDeck.Playing {
          state := TapeDeck.Overdubbing;
          looper.TrigRecord();
        } else {
          state := TapeDeck.Recording;
          looper.TrigRecord();
        }
      } else {
        if length > 0 && state == TapeDeck.Playing {
          state := TapeDeck.Overdubbing;
        } else {
          state, recordPos, length := TapeDeck.Recording, 0, 0;
        }
      }
    }

    method StartPlayback()
      requires Valid()
      modifies this`state, this`playhead
      ensures Valid() && View() == TapeDeck.StartPlayback(old(View()))
    {
      if mode == TapeDeck.LoopMode {
        if loopHasContent {
          state := TapeDeck.Playing;
        }
      } else {
        if length > 0 {
          state := TapeDeck.Playing;
          if playhead >= length {
            playhead := 0;
          }
        }
      }
    }

    /** Stop. A loop-mode track that is recording triggers its looper once, to close the
        pass, and keeps playing; nothing else reaches the looper. */
    method Stop()
      requires Valid()
      modifies this`state, this`loopHasContent, looper`recording, looper`queued, looper`cleared, looper`trigs
      ensures Valid() && View() == TapeDeck.Stop(old(View()))
      ensures old(mode) == TapeDeck.LoopMode && TapeDeck.IsRecording(old(View())) ==>
                looper.trigs == old(looper.trigs) + 1 && (old(looper.recording) ==> !looper.recording)
      ensures !(old(mode) == TapeDeck.LoopMode && TapeDeck.IsRecording(old(View()))) ==> unchanged(looper)
    {
      if mode == TapeDeck.LoopMode {
        if state == TapeDeck.Recording || state == TapeDeck.Overdubbing {
          looper.TrigRecord();
          state, loopHasContent := TapeDeck.Playing, true;
        } else {
          state := TapeDeck.Stopped;
        }
      } else {
        state := TapeDeck.Stopped;
      }
    }

    /** Rewind. In tape mode only the playhead moves. A playing loop-mode track has its
        looper cleared and triggered, so the looper starts recording a fresh first pass
        while the track still reads as playing; in any other loop-mode state nothing
        happens. */
    method Rewind()
      requires Valid()
      modifies this`state, this`playhead, looper`recording, looper`queued, looper`cleared, looper`trigs
      ensures Valid() && View() == TapeDeck.Rewind(old(View()))
      ensures mode == TapeDeck.LoopMode && state == TapeDeck.Playing ==>
                looper.trigs == old(looper.trigs) + 1 && looper.recording && !looper.cleared
      ensures !(mode == TapeDeck.LoopMode && state == TapeDeck.Playing) ==> unchanged(looper)
    {
      if mode == TapeDeck.TapeMode {
        playhead := 0;
      } else {
        if state == TapeDeck.Playing {
          looper.Clear();
          looper.TrigRecord();
          state := TapeDeck.Playing;
        }
      }
    }

    /** Clear: the looper is emptied in loop mode, the tape zero-filled in tape mode. */
    method Clear()
      requires Valid()
      modifies this, tape, looper`recording, looper`queued, looper`cleared
      ensures Valid() && View() == TapeDeck.Clear(old(View()))
      ensures old(mode) == TapeDeck.LoopMode ==> looper.cleared && !looper.recording
      ensures old(mode) == TapeDeck.TapeMode ==> unchanged(looper)
    {
      if mode == TapeDeck.LoopMode {
        looper.Clear();
        loopHasContent := false;
      } else {
        ZeroTape();
        length := 0;
      }
      state, playhead, recordPos := TapeDeck.Stopped, 0, 0;
    }

    method SetMode(m: TapeDeck.TrackMode)
      requires Valid()
      modifies this`state, this`mode, this`loopHasContent, looper`recording, looper`queued, looper`cleared, looper`trigs
      ensures Valid() && View() == TapeDeck.SetMode(old(View()), m)
      ensures m != old(mode) && old(mode) == TapeDeck.LoopMode && TapeDeck.IsRecording(old(View())) ==>
                looper.trigs == old(looper.trigs) + 1
      ensures !(m != old(mode) && old(mode) == TapeDeck.LoopMode && TapeDeck.IsRecording(old(View()))) ==>
                unchanged(looper)
    {
      if m != mode {
        Stop();
        mode := m;
      }
    }

    method ToggleMode()
      requires Valid()
      modifies this`state, this`mode, this`loopHasContent, looper`recording, looper`queued, looper`cleared, looper`trigs
      ensures Valid() && View() == TapeDeck.ToggleMode(old(View()))
      ensures old(mode) == TapeDeck.LoopMode && TapeDeck.IsRecording(old(View())) ==>
                looper.trigs == old(looper.trigs) + 1
      ensures !(old(mode) == TapeDeck.LoopMode && TapeDeck.IsRecording(old(View()))) ==> unchanged(looper)
    {
      SetMode(TapeDeck.OtherMode(mode));
    }

    method SetVolume(v: real)
      requires Valid()
      modifies this`volume
      ensures Valid() && View() == TapeDeck.SetVolume(old(View()), v)
    {
      volume := Clamp(v, 0.0, 1.0);
    }

    method ToggleMute()
      requires Valid()
      modifies this`muted
      ensures Valid() && View() == old(View()).(muted := !old(muted))
    {
      muted := !muted;
    }

    /** This track's record, play and mode buttons in one control poll, in that order:
        record toggles between Stop and StartRecording, play between Stop and
        StartPlayback, mode toggles the mode. */
    method PressButtons(b: TapeDeck.TrackButtons)
      requires Valid()
      modifies this, looper`recording, looper`queued, looper`cleared, looper`trigs
      ensures Valid() && View() == TapeDeck.TrackButtonsStep(old(View()), b)
    {
      if b.record {
        if IsRecording() {
          Stop();
        } else {
          StartRecording();
        }
      }
      if b.play {
        if IsPlaying() && !IsRecording() {
          Stop();
        } else {
          StartPlayback();
        }
      }
      if b.mode {
        ToggleMode();
      }
    }

    function IsRecording(): (b: bool)
      reads this, tape
      ensures b == TapeDeck.IsRecording(View())
    {
      state == TapeDeck.Recording || state == TapeDeck.Overdubbing
    }

    function IsPlaying(): (b: bool)
      reads this, tape
      ensures b == TapeDeck.IsPlaying(View())
    {
      state == TapeDeck.Playing || state == TapeDeck.Overdubbing
    }

    function HasContent(): (b: bool)
      reads this, tape
      ensures b == TapeDeck.HasContent(View())
    {
      if mode == TapeDeck.LoopMode then loopHasContent else length > 0
    }

    function GetPosition(): (p: real)
      reads this, tape
      ensures p == TapeDeck.GetPosition(View())
    {
      if mode == TapeDeck.LoopMode then 0.0
      else if length > 0 then playhead as real / length as real
      else 0.0
    }
  }

  /** What one iteration of a control loop over the tracks does to one track. */
  datatype Command =
    | VolumeKnob(volume: real)
    | Buttons(buttons: TapeDeck.TrackButtons)
    | StopButton
    | RewindButton
    | ClearButton

  /** The track value after `c`. */
  function Commanded(c: Command, t: TapeDeck.Track): (r: TapeDeck.Track)
    requires TapeDeck.Valid(t)
    ensures TapeDeck.Valid(r)
  {
    match c
    case VolumeKnob(v) => TapeDeck.SetVolume(t, v)
    case Buttons(b) => TapeDeck.TrackButtonsStep(t, b)
    case StopButton => TapeDeck.Stop(t)
    case RewindButton => TapeDeck.Rewind(t)
    case ClearButton => TapeDeck.Clear(t)
  }

  /** `c` performed on one track, through the track's own operations. */
  method Obey(t: TapeMachineTrack, c: Command)
    requires t.Valid()
    modifies t, t.tape, t.looper
    ensures t.Valid() && t.View() == Commanded(c, old(t.View()))
  {
    match c
    case VolumeKnob(v) => t.SetVolume(v);
    case Buttons(b) => t.PressButtons(b);
    case StopButton => t.Stop();
    case RewindButton => t.Rewind();
    case ClearButton => t.Clear();
  }

  /** A track that shares nothing with the others can join them. */
  lemma SeparateSnoc(ts: seq<TapeMachineTrack>, t: TapeMachineTrack)
    requires Separate(ts)
    requires forall i :: 0 <= i < |ts| ==> ts[i] != t && ts[i].tape != t.tape && ts[i].looper != t.looper
    ensures Separate(ts + [t])
  {
  }

  /** `main`'s four tracks, track `i` over `qspi[i]`; `repr` collects the tracks and
      their loopers, all new. */
  method NewTracks(qspi: seq<array<Sample>>) returns (ts: seq<TapeMachineTrack>, ghost repr: set<object>)
    requires |qspi| == NUM_TRACKS
    requires forall i :: 0 <= i < NUM_TRACKS ==> qspi[i].Length == TapeDeck.TAPE_BUFFER_SIZE
    requires forall i, j :: 0 <= i < NUM_TRACKS && 0 <= j < NUM_TRACKS && i != j ==> qspi[i] != qspi[j]
    modifies set i | 0 <= i < NUM_TRACKS :: qspi[i]
    ensures |ts| == NUM_TRACKS && Separate(ts) && fresh(repr)
    ensures forall i :: 0 <= i < NUM_TRACKS ==> ts[i] in repr && ts[i].looper in repr && ts[i].tape == qspi[i]
    ensures forall i :: 0 <= i < NUM_TRACKS ==> ts[i].Valid() && ts[i].View() == TapeDeck.Init()
  {
    ts, repr := [], {};
    while |ts| < NUM_TRACKS
      invariant |ts| <= NUM_TRACKS && Separate(ts) && fresh(repr)
      invariant forall i :: 0 <= i < |ts| ==> ts[i] in repr && ts[i].looper in repr && ts[i].tape == qspi[i]
      invariant forall i :: 0 <= i < |ts| ==> ts[i].Valid() && ts[i].View() == TapeDeck.Init()
    {
      var t := new TapeMachineTrack.Init(qspi[|ts|]);
      SeparateSnoc(ts, t);
      ts, repr := ts + [t], repr + {t, t.looper};
    }
  }

  /** No two tracks share a track object, a tape or a looper. */
  ghost predicate Separate(ts: seq<TapeMachineTrack>)
  {
    forall i, j :: 0 <= i < |ts| && 0 <= j < |ts| && i != j ==>
      ts[i] != ts[j] && ts[i].tape != ts[j].tape && ts[i].looper != ts[j].looper
  }

  /** The device: four tracks, the selected track, and the master volume. */
  class TapeMachine {
    /** The track array; its cells are never reassigned. */
    const tracks: seq<TapeMachineTrack>
    var selectedTrack: nat
    var masterVolume: real

    /** Every object a track owns. */
    ghost const Repr: set<object>

    ghost predicate Valid()
      reads this`selectedTrack, Repr
    {
      TracksValid() && selectedTrack < NUM_TRACKS
    }

    /** Four well-formed tracks that share no object, all of whose objects, and only
        those, are in `Repr`; the device itself is not among them, so the calls that
        modify the tracks leave the selection and the master volume alone. */
    ghost predicate TracksValid()
      reads Repr
    {
      |tracks| == NUM_TRACKS && this !in Repr &&
      (forall i :: 0 <= i < NUM_TRACKS ==> tracks[i] in Repr && tracks[i].tape in Repr && tracks[i].looper in Repr) &&
      (forall i :: 0 <= i < NUM_TRACKS ==> tracks[i].Valid()) && Separate(tracks)
    }

    /** `main`'s start-up: each track initialised over its own part of the tape memory;
        track 0 selected, master volume 1. */
    constructor Init(qspi: seq<array<Sample>>)
      requires |qspi| == NUM_TRACKS
      requires forall i :: 0 <= i < NUM_TRACKS ==> qspi[i].Length == TapeDeck.TAPE_BUFFER_SIZE
      requires forall i, j :: 0 <= i < NUM_TRACKS && 0 <= j < NUM_TRACKS && i != j ==> qspi[i] != qspi[j]
      modifies set i | 0 <= i < NUM_TRACKS :: qspi[i]
      ensures Valid() && selectedTrack == 0 && masterVolume == 1.0
      ensures forall i :: 0 <= i < NUM_TRACKS ==> tracks[i].View() == TapeDeck.Init() && tracks[i].tape == qspi[i]
    {
      var ts, repr := NewTracks(qspi);
      tracks, Repr := ts, repr + set i | 0 <= i < NUM_TRACKS :: qspi[i] as object;
      selectedTrack, masterVolume := 0, 1.0;
    }

    /** Every track's value, in track order. */
    ghost function Views(): (r: seq<TapeDeck.Track>)
      requires TracksValid()
      reads Repr
      ensures |r| == NUM_TRACKS
      ensures forall i :: 0 <= i < NUM_TRACKS ==> r[i] == tracks[i].View() && TapeDeck.Valid(r[i])
    {
      seq(NUM_TRACKS, i requires 0 <= i < NUM_TRACKS reads Repr => tracks[i].View())
    }

    /** One iteration of a control loop: `c` performed on track `i`, the others left
        alone. */
    method CommandTrack(i: nat, c: Command)
      requires TracksValid() && i < NUM_TRACKS
      modifies tracks[i], tracks[i].tape, tracks[i].looper
      ensures TracksValid() && tracks[i].View() == Commanded(c, old(tracks[i].View()))
      ensures forall j :: 0 <= j < NUM_TRACKS && j != i ==> tracks[j].View() == old(tracks[j].View())
    {
      Obey(tracks[i], c);
    }

    /** The volume knobs, one per track. */
    method SetVolumes(volumes: seq<real>)
      requires Valid() && |volumes| == NUM_TRACKS
      modifies Repr
      ensures Valid()
      ensures forall i :: 0 <= i < NUM_TRACKS ==>
                tracks[i].View() == TapeDeck.SetVolume(old(tracks[i].View()), volumes[i])
    {
      for i := 0 to NUM_TRACKS
        invariant Valid()
        invariant forall j :: 0 <= j < i ==>
                    tracks[j].View() == TapeDeck.SetVolume(old(tracks[j].View()), volumes[j])
        invariant forall j :: i <= j < NUM_TRACKS ==> tracks[j].View() == old(tracks[j].View())
      {
        CommandTrack(i, VolumeKnob(volumes[i]));
      }
    }

    /** The record, play and mode buttons of every track, in track order. Returns the
        new selection: the last track whose record or play button rose, or the current
        one when none did. */
    method HandleTrackButtons(buttons: seq<TapeDeck.TrackButtons>) returns (selected: nat)
      requires Valid() && |buttons| == NUM_TRACKS
      modifies Repr
      ensures Valid() && selected < NUM_TRACKS
      ensures selected == TapeDeck.LastPressed(buttons, selectedTrack)
      ensures forall i :: 0 <= i < NUM_TRACKS ==>
                tracks[i].View() == TapeDeck.TrackButtonsStep(old(tracks[i].View()), buttons[i])
    {
      selected := selectedTrack;
      for i := 0 to NUM_TRACKS
        invariant Valid()
        invariant selected == TapeDeck.LastPressed(buttons[..i], selectedTrack) && selected < NUM_TRACKS
        invariant forall j :: 0 <= j < i ==>
                    tracks[j].View() == TapeDeck.TrackButtonsStep(old(tracks[j].View()), buttons[j])
        invariant forall j :: i <= j < NUM_TRACKS ==> tracks[j].View() == old(tracks[j].View())
      {
        CommandTrack(i, Buttons(buttons[i]));
        TapeDeck.LastPressedStep(buttons, i, selectedTrack);
        if TapeDeck.Pressed(buttons[i]) {
          selected := i;
        }
      }
      assert buttons[..NUM_TRACKS] == buttons;
    }

    /** The stop button: `Stop` on every track. */
    method StopAll()
      requires Valid()
      modifies Repr
      ensures Valid()
      ensures forall i :: 0 <= i < NUM_TRACKS ==> tracks[i].View() == TapeDeck.Stop(old(tracks[i].View()))
    {
      for i := 0 to NUM_TRACKS
        invariant Valid()
        invariant forall j :: 0 <= j < i ==> tracks[j].View() == TapeDeck.Stop(old(tracks[j].View()))
        invariant forall j :: i <= j < NUM_TRACKS ==> tracks[j].View() == old(tracks[j].View())
      {
        CommandTrack(i, StopButton);
      }
    }

    /** The rewind button: `Rewind` on every track. */
    method RewindAll()
      requires Valid()
      modifies Repr
      ensures Valid()
      ensures forall i :: 0 <= i < NUM_TRACKS ==> tracks[i].View() == TapeDeck.Rewind(old(tracks[i].View()))
    {
      for i := 0 to NUM_TRACKS
        invariant Valid()
        invariant forall j :: 0 <= j < i ==> tracks[j].View() == TapeDeck.Rewind(old(tracks[j].View()))
        invariant forall j :: i <= j < NUM_TRACKS ==> tracks[j].View() == old(tracks[j].View())
      {
        CommandTrack(i, RewindButton);
      }
    }

    /** The clear-all button: `Clear` on every track. */
    method ClearAll()
      requires Valid()
      modifies Repr
      ensures Valid()
      ensures forall i :: 0 <= i < NUM_TRACKS ==> tracks[i].View() == TapeDeck.Clear(old(tracks[i].View()))
    {
      for i := 0 to NUM_TRACKS
        invariant Valid()
        invariant forall j :: 0 <= j < i ==> tracks[j].View() == TapeDeck.Clear(old(tracks[j].View()))
        invariant forall j :: i <= j < NUM_TRACKS ==> tracks[j].View() == old(tracks[j].View())
      {
        CommandTrack(i, ClearButton);
      }
    }

    /** The first half of a control poll: the volume knobs, the master knob and the
        per-track buttons. */
    method PollTrackControls(volumes: seq<real>, master: real, buttons: seq<TapeDeck.TrackButtons>)
      requires Valid() && |volumes| == NUM_TRACKS && |buttons| == NUM_TRACKS
      modifies this`selectedTrack, this`masterVolume, Repr
      ensures Valid() && masterVolume == master
      ensures selectedTrack == TapeDeck.LastPressed(buttons, old(selectedTrack))
      ensures forall i :: 0 <= i < NUM_TRACKS ==>
                tracks[i].View() == TapeDeck.TrackButtonsStep(TapeDeck.SetVolume(old(tracks[i].View()), volumes[i]), buttons[i])
    {
      SetVolumes(volumes);
      label Knobs:
      masterVolume := master;
      selectedTrack := HandleTrackButtons(buttons);
      forall i | 0 <= i < NUM_TRACKS
        ensures tracks[i].View() == TapeDeck.TrackButtonsStep(TapeDeck.SetVolume(old(tracks[i].View()), volumes[i]), buttons[i])
      {
        assert old@Knobs(tracks[i].View()) == TapeDeck.SetVolume(old(tracks[i].View()), volumes[i]);
      }
    }

    /** The second half of a control poll: the stop, rewind and clear-all buttons, each
        applied to every track in turn. */
    method PollTransport(stop: bool, rewind: bool, clear: bool)
      requires Valid()
      modifies Repr
      ensures Valid()
      ensures forall i :: 0 <= i < NUM_TRACKS ==>
                tracks[i].View() == TapeDeck.TransportButtonsStep(old(tracks[i].View()), stop, rewind, clear)
    {
      if stop {
        StopAll();
      }
      label Stopped:
      if rewind {
        RewindAll();
      }
      label Rewound:
      if clear {
        ClearAll();
      }
      forall i | 0 <= i < NUM_TRACKS
        ensures tracks[i].View() == TapeDeck.TransportButtonsStep(old(tracks[i].View()), stop, rewind, clear)
      {
        var v0 := old(tracks[i].View());
        var v1 := old@Stopped(tracks[i].View());
        var v2 := old@Rewound(tracks[i].View());
        assert v1 == if stop then TapeDeck.Stop(v0) else v0;
        assert v2 == if rewind then TapeDeck.Rewind(v1) else v1;
      }
    }

    /** One control poll, from the rising edges and knob values of that poll: every
        track ends up as `TapeDeck.UpdateTrack` of where it was, the master volume is the
        knob's value, and the selection follows the last record or play edge. */
    method UpdateControls(volumes: seq<real>, master: real, buttons: seq<TapeDeck.TrackButtons>,
                          stop: bool, rewind: bool, clear: bool)
      requires Valid() && |volumes| == NUM_TRACKS && |buttons| == NUM_TRACKS
      modifies this`selectedTrack, this`masterVolume, Repr
      ensures Valid() && masterVolume == master
      ensures selectedTrack == TapeDeck.LastPressed(buttons, old(selectedTrack))
      ensures forall i :: 0 <= i < NUM_TRACKS ==>
                tracks[i].View() == TapeDeck.UpdateTrack(old(tracks[i].View()), volumes[i], buttons[i], stop, rewind, clear)
    {
      PollTrackControls(volumes, master, buttons);
      label Polled:
      PollTransport(stop, rewind, clear);
      forall i | 0 <= i < NUM_TRACKS
        ensures tracks[i].View() == TapeDeck.UpdateTrack(old(tracks[i].View()), volumes[i], buttons[i], stop, rewind, clear)
      {
        assert old@Polled(tracks[i].View()) == TapeDeck.TrackButtonsStep(TapeDeck.SetVolume(old(tracks[i].View()), volumes[i]), buttons[i]);
      }
    }

    /** One pass over the tracks with the frame's mono input, in track order. */
    method ProcessTracks(mono: real) returns (outs: seq<real>)
      requires Valid()
      modifies Repr
      ensures Valid() && |outs| == NUM_TRACKS
      ensures forall i :: 0 <= i < NUM_TRACKS ==> tracks[i].ProcessedFrom(old(tracks[i].View()), mono, outs[i])
    {
      ghost var views := Views();
      outs := [];
      for t := 0 to NUM_TRACKS
        invariant Done(t, views, mono, outs)
      {
        var y := StepTrack(t, mono, views, outs);
        outs := outs + [y];
      }
    }

    /** The state of the track loop after `t` tracks: those have produced `outs` from
        `mono`, starting from `views`, the values the tracks had when the loop began;
        the rest still have those values. */
    ghost predicate Done(t: nat, views: seq<TapeDeck.Track>, mono: real, outs: seq<real>)
      reads this`selectedTrack, Repr
    {
      Valid() && t <= NUM_TRACKS && |views| == NUM_TRACKS && |outs| == t &&
      (forall j :: 0 <= j < NUM_TRACKS ==> TapeDeck.Valid(views[j])) &&
      (forall j :: 0 <= j < t ==> tracks[j].ProcessedFrom(views[j], mono, outs[j])) &&
      (forall j :: t <= j < NUM_TRACKS ==> tracks[j].View() == views[j])
    }

    /** Track `t` produces its output; the other tracks are left as they are. */
    method StepTrack(t: nat, mono: real, ghost views: seq<TapeDeck.Track>, ghost outs: seq<real>) returns (y: real)
      requires t < NUM_TRACKS && Done(t, views, mono, outs)
      modifies tracks[t], tracks[t].tape, tracks[t].looper
      ensures Done(t + 1, views, mono, outs + [y])
    {
      y := tracks[t].Process(mono);
    }

    /** `AudioCallback` for one frame: the two inputs averaged to mono, every track
        processed, and the sum of their outputs scaled by the master volume and limited,
        identically on both channels. `outs` are the track outputs that were summed. */
    method AudioFrame(inLeft: real, inRight: real, m: Numerics) returns (left: real, right: real, outs: seq<real>)
      requires Valid()
      modifies Repr
      ensures Valid() && selectedTrack == old(selectedTrack) && masterVolume == old(masterVolume)
      ensures |outs| == NUM_TRACKS
      ensures forall i :: 0 <= i < NUM_TRACKS ==> tracks[i].ProcessedFrom(old(tracks[i].View()), Mono(inLeft, inRight), outs[i])
      ensures left == right == Limit(Sum(outs), masterVolume, m)
    {
      var mono := Mono(inLeft, inRight);
      outs := ProcessTracks(mono);
      left, right := MasterMix(outs, masterVolume, m);
    }
  }

  /** The callback's output stage: the summed track level scaled by the master volume
      and soft-limited by `tanhf`. */
  function Limit(mixed: real, master: real, m: Numerics): real
  {
    m.Tanh(mixed * master)
  }

  /** The output stage of the callback: the track outputs accumulated in track order,
      then scaled and limited, the same value on both channels. */
  method MasterMix(outs: seq<real>, master: real, m: Numerics) returns (left: real, right: real)
    ensures left == Limit(Sum(outs), master, m) && right == left
  {
    var mixed := 0.0;
    for t := 0 to |outs|
      invariant mixed == Sum(outs[..t])
    {
      assert outs[..t + 1][..t] == outs[..t];
      mixed := mixed + outs[t];
    }
    assert outs[..|outs|] == outs;
    left := Limit(mixed, master, m);
    right := left;
  }
}
