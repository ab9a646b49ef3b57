/** The four-track looper: four DaisySP loopers with a volume, a mute and a solo flag
    each, one record and one mode button per track, a clear-all and a master-record
    button, and a callback that mixes the tracks with the solo rule and divides the sum
    by the number of contributing tracks. */
module FourTrackLooper {
  import opened Audio
  import opened Primitives
  import opened MixBus

  const NUM_TRACKS: nat := 4
  /** `SAMPLE_RATE * MAX_LOOP_TIME`: 30 seconds at 48 kHz. */
  const BUFFER_SIZE: nat := 1440000
  /** The monitoring level of the dry input (`dry_level`). */
  const DRY_LEVEL: real := 0.1

  class LooperTrack {
    const looper: Looper
    var volume: real
    var muted: bool
    var solo: bool

    ghost predicate Valid()
      reads looper`cleared, looper`recording, looper`queued
    {
      looper.Valid()
    }

    /** `Init()`: an empty looper over the track's buffer, full volume, not muted, not
        soloed. */
    constructor Init()
      ensures Valid() && fresh(looper)
      ensures looper.cleared && looper.trigs == 0 && looper.fed == [] && looper.mode == Normal
      ensures volume == 1.0 && !muted && !solo
    {
      looper := new Looper.Init(BUFFER_SIZE);
      volume, muted, solo := 1.0, false, false;
    }

    /** Everything a control poll can touch in the track. */
    ghost function View(): TrackView
      reads this`volume, this`muted, this`solo, looper`trigs, looper`mode, looper`cleared,
            looper`recording, looper`queued
    {
      TrackView(volume, muted, solo, looper.trigs, looper.mode, looper.cleared, looper.recording, looper.queued)
    }

    /** What the track puts on the bus for the looper's last output: nothing while
        muted, otherwise the output at the track's volume. */
    ghost function Level(): real
      reads this`muted, this`volume, looper`lastOut
    {
      if muted then 0.0 else looper.lastOut * volume
    }

    /** The track has taken one more sample, `input`, since its looper had been fed
        `fed0`, and `out` is what it returned for it. */
    ghost predicate Stepped(fed0: seq<real>, input: real, out: real)
      reads this`muted, this`volume, looper`lastOut, looper`fed
    {
      looper.fed == fed0 + [input] && out == Level()
    }

    /** One sample: the looper always runs, muted or not; mute and volume only shape
        what is returned. */
    method Process(input: real) returns (out: real)
      requires Valid()
      modifies looper`recording, looper`queued, looper`nearBeginning, looper`fed, looper`lastOut
      ensures Valid() && Stepped(old(looper.fed), input, out)
      ensures old(looper.cleared) ==> out == 0.0
    {
      var output := looper.Process(input);
      if muted {
        return 0.0;
      }
      out := output * volume;
      assert out == looper.lastOut * volume;
    }

    method TriggerRecord()
      requires Valid()
      modifies looper`recording, looper`queued, looper`cleared, looper`trigs
      ensures Valid() && looper.trigs == old(looper.trigs) + 1 && !looper.cleared
      ensures old(looper.cleared) ==> looper.recording
      ensures old(looper.recording) ==> !looper.recording
    {
      looper.TrigRecord();
    }

    method Clear()
      requires Valid()
      modifies looper`recording, looper`queued, looper`cleared
      ensures Valid() && looper.cleared && !looper.recording
    {
      looper.Clear();
    }

    function IsRecording(): bool
      reads looper
    {
      looper.Recording()
    }

    function IsRecordingQueued(): bool
      reads looper
    {
      looper.RecordingQueued()
    }

    /** The volume knob, limited to [0, 1]. */
    method SetVolume(vol: real)
      modifies this`volume
      ensures volume == Clamp(vol, 0.0, 1.0)
    {
      volume := Clamp(vol, 0.0, 1.0);
    }

    method ToggleMute()
      modifies this`muted
      ensures muted == !old(muted)
    {
      muted := !muted;
    }

    method ToggleSolo()
      modifies this`solo
      ensures solo == !old(solo)
    {
      solo := !solo;
    }

    method SetMode(mode: LooperMode)
      modifies looper`mode
      ensures looper.mode == mode
    {
      looper.SetMode(mode);
    }

    method ToggleReverse()
      modifies looper`reverse
      ensures looper.reverse == !old(looper.reverse)
    {
      looper.ToggleReverse();
    }

    method ToggleHalfSpeed()
      modifies looper`halfSpeed
      ensures looper.halfSpeed == !old(looper.halfSpeed)
    {
      looper.ToggleHalfSpeed();
    }
  }

  /** The rising edges of one track's buttons in a control poll. */
  datatype TrackEdges = TrackEdges(record: bool, mode: bool)

  /** The part of a track a control poll can touch: its volume and flags, and its
      looper's trigger count, mode and record state. */
  datatype TrackView = TrackView(volume: real, muted: bool, solo: bool, trigs: nat, mode: LooperMode,
                                 cleared: bool, recording: bool, queued: bool)

  /** A record trigger: one more trigger, no longer empty; an empty track starts
      recording and a recording one stops. Nothing else changes. */
  ghost predicate Triggered(v0: TrackView, v1: TrackView)
  {
    v1 == v0.(trigs := v0.trigs + 1, cleared := false, recording := v1.recording, queued := v1.queued) &&
    (v0.cleared ==> v1.recording) && (v0.recording ==> !v1.recording)
  }

  /** The clear button on one track: the looper erased and idle. */
  function Cleared(v: TrackView): TrackView
  {
    v.(cleared := true, recording := false, queued := false)
  }

  /** A track's buttons in a poll: record triggers it, then mode advances its mode. */
  ghost predicate Pressed(v0: TrackView, v1: TrackView, e: TrackEdges)
  {
    var moded := if e.mode then NextMode(v0.mode) else v0.mode;
    if e.record then Triggered(v0, v1.(mode := v0.mode)) && v1.mode == moded
    else v1 == v0.(mode := moded)
  }

  /** A whole control poll of one track, from its volume knob, its button edges,
      whether clear-all was pressed and whether master record switched on (`fire`).
      The volume lands clamped, the mode advances on a mode edge and mute and solo are
      left alone; the trigger count counts the record edge and the master trigger;
      clear-all leaves the track empty unless master record fires after it, in which
      case it records afresh; and an empty track pressed for record in the same poll
      as a master trigger is started and stopped again. */
  ghost predicate Polled(v0: TrackView, v1: TrackView, volume: real, e: TrackEdges, clear: bool, fire: bool)
  {
    v1 == v0.(volume := Clamp(volume, 0.0, 1.0),
              trigs := v0.trigs + (if e.record then 1 else 0) + (if fire then 1 else 0),
              mode := if e.mode then NextMode(v0.mode) else v0.mode,
              cleared := v1.cleared, recording := v1.recording, queued := v1.queued) &&
    (!clear && !fire && !e.record ==> v1.cleared == v0.cleared && v1.recording == v0.recording && v1.queued == v0.queued) &&
    (clear && !fire ==> v1.cleared && !v1.recording && !v1.queued) &&
    (fire ==> !v1.cleared) &&
    (clear && fire ==> v1.recording) &&
    (!clear && e.record != fire ==> !v1.cleared && (v0.cleared ==> v1.recording) && (v0.recording ==> !v1.recording)) &&
    (!clear && e.record && fire && v0.cleared ==> !v1.recording)
  }

  /** The phases of `UpdateControls` compose into one poll: the volume knob, then the
      buttons, then clear-all, then the master trigger. */
  lemma PollComposes(v0: TrackView, v1: TrackView, v2: TrackView, v3: TrackView, v4: TrackView,
                     volume: real, e: TrackEdges, clear: bool, fire: bool)
    requires v1 == v0.(volume := Clamp(volume, 0.0, 1.0)) && Pressed(v1, v2, e)
    requires v3 == if clear then Cleared(v2) else v2
    requires if fire then Triggered(v3, v4) else v4 == v3
    ensures Polled(v0, v4, volume, e, clear, fire)
  {
  }

  /** A control poll of every track, under each track's own knob and edges. */
  ghost predicate AllPolled(v0: seq<TrackView>, v1: seq<TrackView>, volumes: seq<real>, edges: seq<TrackEdges>,
                            clear: bool, fire: bool)
  {
    |v0| == |v1| == |volumes| == |edges| &&
    forall i :: 0 <= i < |v0| ==> Polled(v0[i], v1[i], volumes[i], edges[i], clear, fire)
  }

  /** Divide by the number of contributors, but only when there is more than one. */
  function Normalise(sum: real, count: nat): real
  {
    if count > 1 then sum / count as real else sum
  }

  /** The callback's level for one frame, from the track outputs and solo flags: the
      contributors are summed and normalised, then scaled by the master volume, and the
      dry input is added for monitoring. */
  function SoloMixLevel(outs: seq<real>, solos: seq<bool>, master: real, mono: real): real
    requires |outs| == |solos|
  {
    var keep := Contributors(Any(solos), solos);
    Normalise(SumWhere(outs, keep), CountWhere(keep)) * master + mono * DRY_LEVEL
  }

  /** Normalising by the contributor count keeps a full-scale mix at full scale: when
      every contributing track lies in [-1, 1], so does the normalised sum. */
  lemma NormalisedInRange(outs: seq<real>, keep: seq<bool>)
    requires |outs| == |keep|
    requires forall i :: 0 <= i < |outs| && keep[i] ==> Abs(outs[i]) <= 1.0
    ensures Abs(Normalise(SumWhere(outs, keep), CountWhere(keep))) <= 1.0
  {
    var n := CountWhere(keep);
    SumWhereBound(outs, keep);
    CountWhereBounds(keep);
    if n == 0 {
      NoneKeptSumsToZero(outs, keep);
    } else if n > 1 {
      ShareBound(SumWhere(outs, keep), n as real);
    }
  }

  /** A level no larger than the count, shared out over the count, is at most 1. */
  lemma ShareBound(s: real, n: real)
    requires 1.0 <= n && Abs(s) <= n
    ensures Abs(s / n) <= 1.0
  {
    var q := s / n;
    assert Abs(s) == Abs(q) * n;
  }

  /** With no contributor the gated sum is zero. */
  lemma {:induction false} NoneKeptSumsToZero(xs: seq<real>, keep: seq<bool>)
    requires |xs| == |keep| && !Any(keep)
    ensures SumWhere(xs, keep) == 0.0
  {
    if xs != [] {
      var n := |keep| - 1;
      assert forall j :: 0 <= j < n ==> keep[..n][j] == keep[j];
      NoneKeptSumsToZero(xs[..n], keep[..n]);
    }
  }

  /** Which tracks the mix hears depends on the solo flags alone: muting a soloed track
      silences it but does not take it out of the count, and the output of a track
      outside the solo group does not reach the mix at all. */
  lemma SoloGroupOnly(outs: seq<real>, solos: seq<bool>, i: nat, y: real, master: real, mono: real)
    requires |outs| == |solos| && i < |outs| && Any(solos) && !solos[i]
    ensures SoloMixLevel(outs[i := y], solos, master, mono) == SoloMixLevel(outs, solos, master, mono)
  {
    var keep := Contributors(Any(solos), solos);
    ExcludedTrackIgnored(outs, keep, i, y);
  }

  /** Track `t`'s output `y` through the solo rule into the running sum and count of
      the first `t` outputs `outs`: with a solo active only a soloed track is added. */
  method MixTrack(any: bool, solo: bool, y: real, mixed: real, active: nat,
                  ghost outs: seq<real>, ghost keep: seq<bool>, ghost t: nat)
    returns (sum: real, count: nat)
    requires |outs| == t < |keep| && keep[t] == (!any || solo)
    requires mixed == SumWhere(outs, keep[..t]) && active == CountWhere(keep[..t])
    ensures sum == SumWhere(outs + [y], keep[..t + 1]) && count == CountWhere(keep[..t + 1])
  {
    GatherStep(outs, keep, t, y);
    sum, count := mixed, active;
    if any {
      if solo {
        sum := sum + y;
        count := count + 1;
      }
    } else {
      sum := sum + y;
      count := count + 1;
    }
  }

  /** The loop modes the four tracks start in. */
  const START_MODES: seq<LooperMode> := [Normal, OnetimeDub, Replace, Frippertronics]

  /** A freshly initialised track whose looper has been put in `mode`: full volume, not
      muted, not soloed, an empty looper that has not been triggered. */
  function FreshView(mode: LooperMode): TrackView
  {
    TrackView(1.0, false, false, 0, mode, true, false, false)
  }

  /** A new track whose looper is put in `mode`, as `main` sets the tracks up. */
  method NewTrack(mode: LooperMode) returns (t: LooperTrack)
    ensures fresh(t) && fresh(t.looper) && t.Valid()
    ensures t.View() == FreshView(mode) && t.looper.fed == []
  {
    t := new LooperTrack.Init();
    t.SetMode(mode);
  }

  /** No two tracks share a track object or a looper. */
  ghost predicate Separate(ts: seq<LooperTrack>)
  {
    forall i, j :: 0 <= i < |ts| && 0 <= j < |ts| && i != j ==> ts[i] != ts[j] && ts[i].looper != ts[j].looper
  }

  /** A track that shares nothing with the others can join them. */
  lemma SeparateSnoc(ts: seq<LooperTrack>, t: LooperTrack)
    requires Separate(ts)
    requires forall i :: 0 <= i < |ts| ==> ts[i] != t && ts[i].looper != t.looper
    ensures Separate(ts + [t])
  {
  }

  /** `main`'s four tracks, in the normal, one-time-dub, replace and Frippertronics
      modes; `repr` collects the objects they own. */
  method NewTracks() returns (ts: seq<LooperTrack>, ghost repr: set<object>)
    ensures |ts| == NUM_TRACKS && Separate(ts) && fresh(repr)
    ensures forall i :: 0 <= i < NUM_TRACKS ==> ts[i] in repr && ts[i].looper in repr
    ensures forall i :: 0 <= i < NUM_TRACKS ==>
              ts[i].Valid() && ts[i].View() == FreshView(START_MODES[i]) && ts[i].looper.fed == []
  {
    ts, repr := [], {};
    while |ts| < NUM_TRACKS
      invariant |ts| <= NUM_TRACKS && Separate(ts) && fresh(repr)
      invariant forall i :: 0 <= i < |ts| ==> ts[i] in repr && ts[i].looper in repr
      invariant forall i :: 0 <= i < |ts| ==>
                  ts[i].Valid() && ts[i].View() == FreshView(START_MODES[i]) && ts[i].looper.fed == []
    {
      var t := NewTrack(START_MODES[|ts|]);
      SeparateSnoc(ts, t);
      ts, repr := ts + [t], repr + {t, t.looper};
    }
  }

  /** The device. */
  class FourTrackLooper {
    const tracks: seq<LooperTrack>
    var masterRecording: bool
    var masterVolume: real
    var anySoloActive: bool

    /** The loopers of the tracks. */
    ghost function Loopers(): set<object>
    {
      set i | 0 <= i < |tracks| :: tracks[i].looper as object
    }

    /** The tracks themselves. */
    ghost function Tracks(): set<object>
    {
      set i | 0 <= i < |tracks| :: tracks[i] as object
    }

    /** Every object a track owns. */
    ghost const Repr: set<object>

    /** Four well-formed tracks that share no object, all of whose objects, and only
        those, are in `Repr`. */
    ghost predicate Valid()
      reads Repr
    {
      |tracks| == NUM_TRACKS && this !in Repr &&
      (forall i :: 0 <= i < NUM_TRACKS ==> tracks[i] in Repr && tracks[i].looper in Repr) &&
      (forall i :: 0 <= i < NUM_TRACKS ==> tracks[i].Valid()) && Separate(tracks)
    }

    /** The solo flags, in track order. */
    ghost function Solos(): (s: seq<bool>)
      requires Valid()
      reads Repr
      ensures |s| == |tracks|
      ensures forall i :: 0 <= i < |tracks| ==> s[i] == tracks[i].solo
    {
      seq(|tracks|, i requires 0 <= i < |tracks| reads Repr => tracks[i].solo)
    }

    /** `main`'s start-up: four empty tracks whose loopers start in the normal,
        one-time-dub, replace and Frippertronics modes; master volume 1, nothing
        recording, no solo. */
    constructor Init()
      ensures Valid() && !masterRecording && masterVolume == 1.0 && !anySoloActive
      ensures forall i :: 0 <= i < NUM_TRACKS ==>
                tracks[i].View() == FreshView(START_MODES[i]) && tracks[i].looper.fed == []
    {
      var ts, repr := NewTracks();
      tracks, Repr := ts, repr;
      masterRecording, masterVolume, anySoloActive := false, 1.0, false;
    }

    /** The solo scan at the top of each frame: some track is soloed. */
    method ScanSolos() returns (any: bool)
      requires Valid()
      ensures any == Any(Solos())
    {
      any := false;
      var t := 0;
      while t < NUM_TRACKS
        invariant t <= NUM_TRACKS && !any
        invariant forall j :: 0 <= j < t ==> !tracks[j].solo
      {
        if tracks[t].solo {
          any := true;
          break;
        }
        t := t + 1;
      }
    }

    /** What each track's looper has been fed so far, in track order. */
    ghost function Fed(): (r: seq<seq<real>>)
      requires Valid()
      reads Repr
      ensures |r| == NUM_TRACKS && forall i :: 0 <= i < NUM_TRACKS ==> r[i] == tracks[i].looper.fed
    {
      seq(NUM_TRACKS, i requires 0 <= i < NUM_TRACKS reads Repr => tracks[i].looper.fed)
    }

    /** Part way through the track loop of a frame: tracks before `t` have produced
        `outs` from `mono`, the rest have not been fed yet, and no solo flag has moved.
        `feds` and `solos` are what the loopers had been fed and the solo flags when the
        loop began. */
    ghost predicate Done(t: nat, feds: seq<seq<real>>, solos: seq<bool>, mono: real, outs: seq<real>)
      reads Repr
    {
      Valid() && t <= NUM_TRACKS && |feds| == NUM_TRACKS && |solos| == NUM_TRACKS && |outs| == t &&
      (forall j :: 0 <= j < t ==> tracks[j].Stepped(feds[j], mono, outs[j])) &&
      (forall j :: t <= j < NUM_TRACKS ==> tracks[j].looper.fed == feds[j]) &&
      (forall j :: 0 <= j < NUM_TRACKS ==> tracks[j].solo == solos[j])
    }

    /** Track `t` produces its output; the other tracks are left as they are. */
    method StepTrack(t: nat, mono: real, ghost feds: seq<seq<real>>, ghost solos: seq<bool>, ghost outs: seq<real>)
      returns (y: real)
      requires t < NUM_TRACKS && Done(t, feds, solos, mono, outs)
      modifies tracks[t].looper
      ensures Done(t + 1, feds, solos, mono, outs + [y])
    {
      y := tracks[t].Process(mono);
    }

    /** The track loop of a frame: every track processed with the mono input, in track
        order and whether or not it is heard; the outputs of the contributors (the
        soloed tracks while `any` is set, all tracks otherwise, as `keep` names them)
        summed and counted. */
    method ProcessTracks(mono: real, any: bool, ghost keep: seq<bool>) returns (mixed: real, active: nat, ghost outs: seq<real>)
      requires Valid() && keep == Contributors(any, Solos())
      modifies Loopers()
      ensures Valid() && |outs| == NUM_TRACKS
      ensures forall i :: 0 <= i < NUM_TRACKS ==> tracks[i].Stepped(old(tracks[i].looper.fed), mono, outs[i])
      ensures Solos() == old(Solos())
      ensures mixed == SumWhere(outs, keep) && active == CountWhere(keep)
    {
      ghost var feds, solos := Fed(), Solos();
      mixed, active := 0.0, 0;
      outs := [];
      for t := 0 to NUM_TRACKS
        invariant Done(t, feds, solos, mono, outs)
        invariant mixed == SumWhere(outs, keep[..t]) && active == CountWhere(keep[..t])
      {
        var y := StepTrack(t, mono, feds, solos, outs);
        mixed, active := MixTrack(any, tracks[t].solo, y, mixed, active, outs, keep, t);
        outs := outs + [y];
      }
      assert keep[..NUM_TRACKS] == keep && Solos() == solos;
    }

    /** `AudioCallback` for one frame: the solo scan, the track loop, then the sum
        normalised, scaled by the master volume and topped up with the dry input,
        identically on both channels. `outs` are the track outputs of the frame. */
    method AudioFrame(inLeft: real, inRight: real) returns (left: real, right: real, ghost outs: seq<real>)
      requires Valid()
      modifies this`anySoloActive, Loopers()
      ensures Valid() && anySoloActive == Any(Solos())
      ensures |outs| == NUM_TRACKS
      ensures forall i :: 0 <= i < NUM_TRACKS ==> tracks[i].Stepped(old(tracks[i].looper.fed), Mono(inLeft, inRight), outs[i])
      ensures left == right == SoloMixLevel(outs, Solos(), masterVolume, Mono(inLeft, inRight))
    {
      var mono := Mono(inLeft, inRight);
      var any := ScanSolos();
      anySoloActive := any;
      var mixed, active;
      ghost var keep := Contributors(any, Solos());
      mixed, active, outs := ProcessTracks(mono, any, keep);
      mixed := FinishMix(mixed, active, mono, outs, Solos());
      left, right := mixed, mixed;
    }

    /** The end of the callback's chain: the sum of the contributors among `outs`
        divided by their number when there is more than one, scaled by the master
        volume and topped up with the dry input. */
    method FinishMix(mixed: real, active: nat, mono: real, ghost outs: seq<real>, ghost solos: seq<bool>)
      returns (out: real)
      requires |outs| == |solos|
      requires mixed == SumWhere(outs, Contributors(Any(solos), solos))
      requires active == CountWhere(Contributors(Any(solos), solos))
      ensures out == SoloMixLevel(outs, solos, masterVolume, mono)
    {
      out := mixed;
      if active > 1 {
        out := out / active as real;
      }
      out := out * masterVolume;
      out := out + mono * DRY_LEVEL;
    }

    /** Every track's view, in track order. */
    ghost function Views(): (r: seq<TrackView>)
      requires Valid()
      reads Repr
      ensures |r| == NUM_TRACKS && forall i :: 0 <= i < NUM_TRACKS ==> r[i] == tracks[i].View()
    {
      seq(NUM_TRACKS, i requires 0 <= i < NUM_TRACKS reads Repr => tracks[i].View())
    }

    /** The volume knobs, one per track. */
    method SetVolumes(volumes: seq<real>)
      requires Valid() && |volumes| == NUM_TRACKS
      modifies Tracks()
      ensures Valid() && |Views()| == |old(Views())|
      ensures forall i :: 0 <= i < NUM_TRACKS ==> Views()[i] == old(Views())[i].(volume := Clamp(volumes[i], 0.0, 1.0))
    {
      ghost var v0 := Views();
      for i := 0 to NUM_TRACKS
        invariant Valid()
        invariant forall j :: 0 <= j < i ==> tracks[j].View() == v0[j].(volume := Clamp(volumes[j], 0.0, 1.0))
        invariant forall j :: i <= j < NUM_TRACKS ==> tracks[j].View() == v0[j]
      {
        tracks[i].SetVolume(volumes[i]);
      }
    }

    /** The per-track buttons: a record edge triggers the track's looper, a mode edge
        moves it to its next mode. */
    method HandleTrackButtons(edges: seq<TrackEdges>)
      requires Valid() && |edges| == NUM_TRACKS
      modifies Loopers()
      ensures Valid()
      ensures forall i :: 0 <= i < NUM_TRACKS ==> Pressed(old(Views())[i], Views()[i], edges[i])
    {
      ghost var v0 := Views();
      for i := 0 to NUM_TRACKS
        invariant Valid()
        invariant forall j :: 0 <= j < i ==> Pressed(v0[j], tracks[j].View(), edges[j])
        invariant forall j :: i <= j < NUM_TRACKS ==> tracks[j].View() == v0[j]
      {
        PressTrack(i, edges[i]);
      }
    }

    /** One iteration of the button loop. */
    method PressTrack(i: nat, e: TrackEdges)
      requires Valid() && i < NUM_TRACKS
      modifies tracks[i].looper
      ensures Valid() && Pressed(old(tracks[i].View()), tracks[i].View(), e)
      ensures forall j :: 0 <= j < NUM_TRACKS && j != i ==> tracks[j].View() == old(tracks[j].View())
    {
      if e.record {
        tracks[i].TriggerRecord();
      }
      if e.mode {
        tracks[i].looper.IncrementMode();
      }
    }

    /** The clear button: every looper erased. */
    method ClearAll()
      requires Valid()
      modifies Loopers()
      ensures Valid()
      ensures forall i :: 0 <= i < NUM_TRACKS ==> Views()[i] == Cleared(old(Views())[i])
    {
      ghost var v0 := Views();
      for i := 0 to NUM_TRACKS
        invariant Valid()
        invariant forall j :: 0 <= j < i ==> tracks[j].View() == Cleared(v0[j])
        invariant forall j :: i <= j < NUM_TRACKS ==> tracks[j].View() == v0[j]
      {
        ClearTrack(i);
      }
    }

    /** One iteration of the clear loop. */
    method ClearTrack(i: nat)
      requires Valid() && i < NUM_TRACKS
      modifies tracks[i].looper
      ensures Valid() && tracks[i].View() == Cleared(old(tracks[i].View()))
      ensures forall j :: 0 <= j < NUM_TRACKS && j != i ==> tracks[j].View() == old(tracks[j].View())
    {
      tracks[i].Clear();
    }

    /** Master record switched on: every track triggered at once. */
    method TriggerAll()
      requires Valid()
      modifies Loopers()
      ensures Valid()
      ensures forall i :: 0 <= i < NUM_TRACKS ==> Triggered(old(Views())[i], Views()[i])
    {
      ghost var v0 := Views();
      for i := 0 to NUM_TRACKS
        invariant Valid()
        invariant forall j :: 0 <= j < i ==> Triggered(v0[j], tracks[j].View())
        invariant forall j :: i <= j < NUM_TRACKS ==> tracks[j].View() == v0[j]
      {
        TriggerTrack(i);
      }
    }

    /** One iteration of the master trigger loop. */
    method TriggerTrack(i: nat)
      requires Valid() && i < NUM_TRACKS
      modifies tracks[i].looper
      ensures Valid() && Triggered(old(tracks[i].View()), tracks[i].View())
      ensures forall j :: 0 <= j < NUM_TRACKS && j != i ==> tracks[j].View() == old(tracks[j].View())
    {
      tracks[i].TriggerRecord();
    }

    /** The track loops of a control poll, in the order the poll runs them: volumes,
        buttons, clear-all when `clear`, and the master trigger when `fire`. */
    method PollTracks(volumes: seq<real>, edges: seq<TrackEdges>, clear: bool, fire: bool)
      requires Valid() && |volumes| == NUM_TRACKS && |edges| == NUM_TRACKS
      modifies Repr
      ensures Valid() && AllPolled(old(Views()), Views(), volumes, edges, clear, fire)
    {
      ghost var v0 := Views();
      SetVolumes(volumes);
      ghost var v1 := Views();
      HandleTrackButtons(edges);
      ghost var v2 := Views();
      if clear {
        ClearAll();
      }
      ghost var v3 := Views();
      if fire {
        TriggerAll();
      }
      ghost var v4 := Views();
      forall i | 0 <= i < NUM_TRACKS
        ensures Polled(v0[i], v4[i], volumes[i], edges[i], clear, fire)
      {
        PollComposes(v0[i], v1[i], v2[i], v3[i], v4[i], volumes[i], edges[i], clear, fire);
      }
    }

    /** The master knob and the master record button: the volume taken as read, master
        record toggled on its edge, the tracks untouched. */
    method PollMaster(master: real, masterRecord: bool)
      requires Valid()
      modifies this`masterVolume, this`masterRecording
      ensures Valid() && Views() == old(Views())
      ensures masterVolume == master && masterRecording == (old(masterRecording) != masterRecord)
    {
      masterVolume := master;
      masterRecording := masterRecording != masterRecord;
    }

    /** One control poll, from the knob values and rising edges of that poll: volumes,
        the master volume, the per-track buttons, clear-all, then master record, which
        toggles and, only when it switches on, triggers every track. Each track ends up
        as `Polled` describes. The track loops touch no field of the device, so they run
        together in `PollTracks`, and the master state is stored after them. */
    method UpdateControls(volumes: seq<real>, master: real, edges: seq<TrackEdges>,
                          clear: bool, masterRecord: bool)
      requires Valid() && |volumes| == NUM_TRACKS && |edges| == NUM_TRACKS
      modifies this`masterVolume, this`masterRecording, Repr
      ensures Valid() && masterVolume == master
      ensures masterRecording == (old(masterRecording) != masterRecord)
      ensures AllPolled(old(Views()), Views(), volumes, edges, clear, masterRecord && !old(masterRecording))
    {
      var fire := masterRecord && !masterRecording;
      PollTracks(volumes, edges, clear, fire);
      PollMaster(master, masterRecord);
    }
  }
}
