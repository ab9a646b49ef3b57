/** The simple four-track looper: four DaisySP loopers with a volume and a mute flag
    each, one record button per track (which also selects the track and, tapped twice
    quickly, erases it), a mode button for the selected track, a clear-all button, and a
    callback that sums the tracks that are sounding, scales the sum down when more than
    one is, adds a little dry input while something records and soft-limits the result. */
module FourTrackLooperSimple {
  import opened Audio
  import opened Primitives
  import opened MixBus

  const NUM_TRACKS: nat := 4
  /** `BUFFER_SIZE`: `SAMPLE_RATE * MAX_LOOP_TIME`, 20 seconds at 48 kHz. */
  const BUFFER_SIZE: nat := 960000
  /** The monitoring level of the dry input while some track records (`0.1f`). */
  const DRY_LEVEL: real := 0.1
  /** The drive into the soft limiter (`0.9f`). */
  const DRIVE: real := 0.9
  /** The double-tap window of the record buttons, in milliseconds. */
  const DOUBLE_TAP_MS: nat := 300
  /** The modulus of `uint32_t` arithmetic. */
  const U32: nat := 0x1_0000_0000

  /** A `uint32_t`: the millisecond clock `System::GetNow()` and `button_timer`. */
  type Ticks = x: int | 0 <= x < 0x1_0000_0000

  /** `now - button_timer` in `uint32_t` arithmetic: the difference modulo 2^32. */
  function Elapsed(now: Ticks, since: Ticks): Ticks
  {
    (now - since) % U32
  }

  /** The unsigned difference measures the time since `since` correctly even when the
      clock has wrapped past 2^32 in between. */
  lemma ElapsedAcrossWrap(since: Ticks, d: Ticks)
    ensures Elapsed((since + d) % U32, since) == d
  {
    if since + d >= U32 {
      assert (since + d) % U32 == since + d - U32;
      assert (since + d - U32 - since) % U32 == (d - U32) % U32 == d;
    }
  }

  class SimpleLooperTrack {
    const looper: Looper
    var volume: real
    var muted: bool

    ghost predicate Valid()
      reads looper`cleared, looper`recording, looper`queued
    {
      looper.Valid()
    }

    /** `Init()`: an empty looper over the track's buffer, volume 0.8, not muted. */
    constructor Init()
      ensures Valid() && fresh(looper)
      ensures looper.cleared && looper.trigs == 0 && looper.fed == [] && looper.mode == Normal
      ensures volume == 0.8 && !muted
    {
      looper := new Looper.Init(BUFFER_SIZE);
      volume, muted := 0.8, false;
    }

    /** Everything a control poll can touch in the track. */
    ghost function View(): TrackView
      reads this`volume, this`muted, looper`trigs, looper`mode, looper`cleared, looper`recording, looper`queued
    {
      TrackView(volume, muted, looper.trigs, looper.mode, looper.cleared, looper.recording, looper.queued)
    }

    /** What the track returns for the looper's last output: nothing while muted,
        otherwise the output at the track's volume. */
    ghost function Level(): real
      reads this`muted, this`volume, looper`lastOut
    {
      if muted then 0.0 else looper.lastOut * volume
    }

    /** The track has taken one more sample, `input`, since its looper had been fed
        `fed0`, and `out` is what it returned for it. */
    ghost predicate Stepped(fed0: seq<real>, input: real, out: real)
      reads this`muted, this`volume, looper`lastOut, looper`fed
    {
      looper.fed == fed0 + [input] && out == Level()
    }

    /** One sample: the looper always runs, muted or not; mute and volume only shape
        what is returned. */
    method Process(input: real) returns (out: real)
      requires Valid()
      modifies looper`recording, looper`queued, looper`nearBeginning, looper`fed, looper`lastOut
      ensures Valid() && Stepped(old(looper.fed), input, out)
      ensures old(looper.cleared) ==> out == 0.0
      ensures View() == old(View()).(recording := looper.recording, queued := looper.queued)
    {
      var output := looper.Process(input);
      if muted {
        return 0.0;
      }
      out := output * volume;
      assert out == looper.lastOut * volume;
    }

    method TriggerRecord()
      requires Valid()
      modifies looper`recording, looper`queued, looper`cleared, looper`trigs
      ensures Valid() && Triggered(old(View()), View())
    {
      looper.TrigRecord();
    }

    method Clear()
      requires Valid()
      modifies looper`recording, looper`queued, looper`cleared
      ensures Valid() && View() == Cleared(old(View()))
    {
      looper.Clear();
    }

    function IsRecording(): bool
      reads looper`recording
    {
      looper.recording
    }

    /** The volume knob, limited to [0, 1]. */
    method SetVolume(vol: real)
      modifies this`volume
      ensures View() == old(View()).(volume := Clamp(vol, 0.0, 1.0))
    {
      volume := Clamp(vol, 0.0, 1.0);
    }

    method ToggleMute()
      modifies this`muted
      ensures View() == old(View()).(muted := !old(muted))
    {
      muted := !muted;
    }

    method SetMode(mode: LooperMode)
      modifies looper`mode
      ensures View() == old(View()).(mode := mode)
    {
      looper.SetMode(mode);
    }

    function GetMode(): LooperMode
      reads looper`mode
    {
      looper.mode
    }

    method IncrementMode()
      modifies looper`mode
      ensures View() == old(View()).(mode := NextMode(old(looper.mode)))
    {
      looper.IncrementMode();
    }
  }

  /** The part of a track a control poll can touch: its volume and mute flag, and its
      looper's trigger count, mode and record state. */
  datatype TrackView = TrackView(volume: real, muted: bool, trigs: nat, mode: LooperMode,
                                 cleared: bool, recording: bool, queued: bool)

  /** A record trigger: one more trigger, no longer empty; an empty track starts
      recording and a recording one stops. Nothing else changes. */
  ghost predicate Triggered(v0: TrackView, v1: TrackView)
  {
    v1 == v0.(trigs := v0.trigs + 1, cleared := false, recording := v1.recording, queued := v1.queued) &&
    (v0.cleared ==> v1.recording) && (v0.recording ==> !v1.recording)
  }

  /** A track erased: the looper empty and idle. */
  function Cleared(v: TrackView): TrackView
  {
    v.(cleared := true, recording := false, queued := false)
  }

  /** What one record button did in a poll, from the switch's debounced edges. */
  datatype RecordEdges = RecordEdges(rising: bool, falling: bool)

  /** Some record button rose. */
  predicate AnyRising(es: seq<RecordEdges>)
  {
    exists i :: 0 <= i < |es| && es[i].rising
  }

  /** Some record button was released. */
  predicate AnyFalling(es: seq<RecordEdges>)
  {
    exists i :: 0 <= i < |es| && es[i].falling
  }

  /** Track selection follows the last record button pressed: `sel1` is the last
      button of `es` with a rising edge, or the previous selection `sel0` when none
      rose. */
  ghost predicate Selected(es: seq<RecordEdges>, sel0: nat, sel1: nat)
  {
    if AnyRising(es) then sel1 < |es| && es[sel1].rising && forall j :: sel1 < j < |es| ==> !es[j].rising
    else sel1 == sel0
  }

  /** The selection a scan arrives at is determined by the edges. */
  lemma SelectedUnique(es: seq<RecordEdges>, sel0: nat, a: nat, b: nat)
    requires Selected(es, sel0, a) && Selected(es, sel0, b)
    ensures a == b
  {
  }

  /** `button_timer` after the record buttons `es` have been scanned at time `now`:
      the time of the scan when some button was released, and the old value `timer`
      otherwise. The timer is one for all four buttons. */
  function TimerAfter(es: seq<RecordEdges>, timer: Ticks, now: Ticks): Ticks
  {
    if AnyFalling(es) then now else timer
  }

  /** A press of button `i` in the scan at `now` counts as a double tap: it rises
      within 300 ms of `button_timer` as it stands when the button is reached, that is
      after the releases of buttons 0 to `i` in this scan have been stored. */
  predicate DoubleTap(es: seq<RecordEdges>, i: nat, timer: Ticks, now: Ticks)
    requires i < |es|
  {
    es[i].rising && Elapsed(now, TimerAfter(es[..i + 1], timer, now)) < DOUBLE_TAP_MS
  }

  /** Because the timer is shared, a press comes within the double-tap window of the
      release of any button scanned before it in the same poll, and erases its track. */
  lemma SharedTimerClears(es: seq<RecordEdges>, i: nat, j: nat, timer: Ticks, now: Ticks)
    requires j <= i < |es| && es[j].falling && es[i].rising
    ensures DoubleTap(es, i, timer, now)
  {
    assert es[..i + 1][j] == es[j];
  }

  /** Without a release in this poll, a press is a double tap exactly when it comes
      less than 300 ms after the last stored release, measured across the clock's
      wrap-around. */
  lemma DoubleTapWindow(es: seq<RecordEdges>, i: nat, timer: Ticks, d: Ticks)
    requires i < |es| && es[i].rising && !AnyFalling(es)
    ensures DoubleTap(es, i, timer, (timer + d) % U32) <==> d < DOUBLE_TAP_MS
  {
    var pre := es[..i + 1];
    assert !AnyFalling(pre) by {
      forall k | 0 <= k < |pre|
        ensures !pre[k].falling
      {
        assert pre[k] == es[k];
      }
    }
    ElapsedAcrossWrap(timer, d);
  }

  /** One record button's effect on its track: a rising edge triggers the looper and,
      when it is a double tap (`tap`), then erases it. */
  ghost predicate Tapped(v0: TrackView, v1: TrackView, rising: bool, tap: bool)
  {
    if rising && tap then v1 == Cleared(v0.(trigs := v0.trigs + 1))
    else if rising then Triggered(v0, v1)
    else v1 == v0
  }

  /** A whole control poll of one track, from its volume knob, whether its record
      button rose and was a double tap, whether the mode edge is this track's (it is the
      selected one) and whether clear-all was pressed. The volume lands clamped, the
      mode advances on the mode edge and mute is left alone; the trigger count counts
      the press; a double tap or clear-all leaves the track empty; a plain press
      triggers it; with neither the record state is as before. */
  ghost predicate Polled(v0: TrackView, v1: TrackView, volume: real, rising: bool, tap: bool,
                         modeHere: bool, clearAll: bool)
  {
    v1 == v0.(volume := Clamp(volume, 0.0, 1.0),
              trigs := v0.trigs + (if rising then 1 else 0),
              mode := if modeHere then NextMode(v0.mode) else v0.mode,
              cleared := v1.cleared, recording := v1.recording, queued := v1.queued) &&
    (clearAll || (rising && tap) ==> v1.cleared && !v1.recording && !v1.queued) &&
    (!clearAll && rising && !tap ==> !v1.cleared && (v0.cleared ==> v1.recording) && (v0.recording ==> !v1.recording)) &&
    (!clearAll && !rising ==> v1.cleared == v0.cleared && v1.recording == v0.recording && v1.queued == v0.queued)
  }

  /** The phases of `UpdateControls` compose into one poll: the volume knob, then the
      record button, then the mode button, then clear-all. */
  lemma PollComposes(v0: TrackView, v1: TrackView, v2: TrackView, v3: TrackView, v4: TrackView,
                     volume: real, rising: bool, tap: bool, modeHere: bool, clearAll: bool)
    requires v1 == v0.(volume := Clamp(volume, 0.0, 1.0)) && Tapped(v1, v2, rising, tap)
    requires v3 == if modeHere then v2.(mode := NextMode(v2.mode)) else v2
    requires v4 == if clearAll then Cleared(v3) else v3
    ensures Polled(v0, v4, volume, rising, tap, modeHere, clearAll)
  {
  }

  /** A control poll of every track at time `now`, from the track knobs and record
      edges, the timer and selection as they stood before the poll (`timer`) and after
      it (`sel`), the mode edge and the clear-all edge. */
  ghost predicate AllPolled(v0: seq<TrackView>, v1: seq<TrackView>, volumes: seq<real>, es: seq<RecordEdges>,
                            timer: Ticks, now: Ticks, modeEdge: bool, sel: nat, clearAll: bool)
  {
    |v0| == |v1| == |volumes| == |es| &&
    forall i :: 0 <= i < |v0| ==>
      Polled(v0[i], v1[i], volumes[i], es[i].rising, DoubleTap(es, i, timer, now), modeEdge && i == sel, clearAll)
  }

  /** The phases of `UpdateControls`, each over all four tracks, compose into a poll of
      every track: volumes, record buttons, the mode button on track `sel`, clear-all. */
  lemma PollAll(v0: seq<TrackView>, v1: seq<TrackView>, v2: seq<TrackView>, v3: seq<TrackView>, v4: seq<TrackView>,
                volumes: seq<real>, es: seq<RecordEdges>, timer: Ticks, now: Ticks, modeEdge: bool, sel: nat, clearAll: bool)
    requires |v0| == |v1| == |v2| == |v3| == |v4| == |volumes| == |es|
    requires forall i :: 0 <= i < |v0| ==> v1[i] == v0[i].(volume := Clamp(volumes[i], 0.0, 1.0))
    requires forall i :: 0 <= i < |v0| ==> Tapped(v1[i], v2[i], es[i].rising, DoubleTap(es, i, timer, now))
    requires forall i :: 0 <= i < |v0| ==> v3[i] == if modeEdge && i == sel then v2[i].(mode := NextMode(v2[i].mode)) else v2[i]
    requires forall i :: 0 <= i < |v0| ==> v4[i] == if clearAll then Cleared(v3[i]) else v3[i]
    ensures AllPolled(v0, v4, volumes, es, timer, now, modeEdge, sel, clearAll)
  {
    forall i | 0 <= i < |v0|
      ensures Polled(v0[i], v4[i], volumes[i], es[i].rising, DoubleTap(es, i, timer, now), modeEdge && i == sel, clearAll)
    {
      PollComposes(v0[i], v1[i], v2[i], v3[i], v4[i], volumes[i], es[i].rising,
                   DoubleTap(es, i, timer, now), modeEdge && i == sel, clearAll);
    }
  }

  /** Scale a sum of `count` sounding tracks by 1/sqrt(count), but only when more than
      one track sounds. */
  function Gain(sum: real, count: nat, m: Numerics): real
    requires m.SqrtPositive()
  {
    if count > 1 then sum * (1.0 / m.Sqrt(count as real)) else sum
  }

  /** The callback's level for one frame before the limiter, from the track outputs,
      the loopers' record flags after the frame, the master volume and the mono input:
      the outputs above the audibility threshold summed and scaled, times the master
      volume, plus a tenth of the dry input while some track records. */
  function PreLimit(outs: seq<real>, recs: seq<bool>, master: real, mono: real, m: Numerics): real
    requires m.SqrtPositive()
  {
    var keep := Audible(outs);
    var wet := Gain(SumWhere(outs, keep), CountWhere(keep), m) * master;
    if Any(recs) then wet + mono * DRY_LEVEL else wet
  }

  /** The callback's output for one frame: that level soft-limited by `tanhf(0.9 x)`. */
  function SimpleMixLevel(outs: seq<real>, recs: seq<bool>, master: real, mono: real, m: Numerics): real
    requires m.SqrtPositive()
  {
    m.Tanh(PreLimit(outs, recs, master, mono, m) * DRIVE)
  }

  /** A track below the audibility threshold is neither summed nor counted: changing
      its output to any other inaudible level leaves the mix as it is. */
  lemma QuietTrackIgnored(outs: seq<real>, recs: seq<bool>, i: nat, y: real, master: real, mono: real, m: Numerics)
    requires i < |outs| && Abs(outs[i]) <= AUDIBLE && Abs(y) <= AUDIBLE && m.SqrtPositive()
    ensures SimpleMixLevel(outs[i := y], recs, master, mono, m) == SimpleMixLevel(outs, recs, master, mono, m)
  {
    var keep := Audible(outs);
    assert Audible(outs[i := y]) == keep;
    ExcludedTrackIgnored(outs, keep, i, y);
    assert PreLimit(outs[i := y], recs, master, mono, m) == PreLimit(outs, recs, master, mono, m);
  }

  /** The dry input is heard only while some track records: otherwise the output does
      not depend on the input level at all. */
  lemma DryOnlyWhileRecording(outs: seq<real>, recs: seq<bool>, master: real, mono1: real, mono2: real, m: Numerics)
    requires !Any(recs) && m.SqrtPositive()
    ensures SimpleMixLevel(outs, recs, master, mono1, m) == SimpleMixLevel(outs, recs, master, mono2, m)
  {
    assert PreLimit(outs, recs, master, mono1, m) == PreLimit(outs, recs, master, mono2, m);
  }

  /** A gated sum with exactly one track kept is that track's output. */
  lemma {:induction false} OnlyOneKept(xs: seq<real>, keep: seq<bool>, i: nat)
    requires |xs| == |keep| && i < |xs| && keep[i]
    requires forall j :: 0 <= j < |keep| && j != i ==> !keep[j]
    ensures SumWhere(xs, keep) == xs[i] && CountWhere(keep) == 1
  {
    var n := |xs| - 1;
    if i < n {
      assert forall j :: 0 <= j < n ==> keep[..n][j] == keep[j];
      OnlyOneKept(xs[..n], keep[..n], i);
    } else {
      assert forall j :: 0 <= j < n ==> keep[..n][j] == keep[j];
      assert !Any(keep[..n]);
      NoneKept(xs[..n], keep[..n]);
    }
  }

  /** With no track kept the gated sum and count are zero. */
  lemma {:induction false} NoneKept(xs: seq<real>, keep: seq<bool>)
    requires |xs| == |keep| && !Any(keep)
    ensures SumWhere(xs, keep) == 0.0 && CountWhere(keep) == 0
  {
    if xs != [] {
      var n := |keep| - 1;
      assert forall j :: 0 <= j < n ==> keep[..n][j] == keep[j];
      NoneKept(xs[..n], keep[..n]);
    }
  }

  /** A track sounding on its own passes at its own level: a single audible track is
      not scaled, only multiplied by the master volume. */
  lemma LoneTrackUnscaled(outs: seq<real>, recs: seq<bool>, i: nat, master: real, mono: real, m: Numerics)
    requires i < |outs| && Abs(outs[i]) > AUDIBLE && m.SqrtPositive()
    requires forall j :: 0 <= j < |outs| && j != i ==> Abs(outs[j]) <= AUDIBLE
    ensures PreLimit(outs, recs, master, mono, m) ==
              if Any(recs) then outs[i] * master + mono * DRY_LEVEL else outs[i] * master
  {
    OnlyOneKept(outs, Audible(outs), i);
  }

  /** Track `t`'s output `y` through the audibility gate into the running sum and count
      of the first `t` outputs `outs`. */
  method GateTrack(y: real, mixed: real, active: nat, ghost outs: seq<real>)
    returns (sum: real, count: nat)
    requires mixed == SumWhere(outs, Audible(outs)) && active == CountWhere(Audible(outs))
    ensures sum == SumWhere(outs + [y], Audible(outs + [y])) && count == CountWhere(Audible(outs + [y]))
  {
    var all := outs + [y];
    assert all[..|outs|] == outs;
    assert Audible(all)[..|outs|] == Audible(outs);
    if Abs(y) > AUDIBLE {
      sum, count := mixed + y, active + 1;
    } else {
      sum, count := mixed, active;
    }
  }

  /** One step of the record-button scan: the selection moves to a pressed button. */
  lemma SelectedStep(es: seq<RecordEdges>, i: nat, sel0: nat, sel: nat)
    requires i < |es| && Selected(es[..i], sel0, sel)
    ensures Selected(es[..i + 1], sel0, if es[i].rising then i else sel)
  {
    var pre, next := es[..i], es[..i + 1];
    assert forall k :: 0 <= k < i ==> next[k] == pre[k];
    assert next[i] == es[i];
    if !es[i].rising && AnyRising(next) {
      var k :| 0 <= k < i + 1 && next[k].rising;
      assert pre[k].rising;
    }
  }

  /** One step of the record-button scan: a release stores the time of the scan. */
  lemma TimerStep(es: seq<RecordEdges>, i: nat, timer: Ticks, now: Ticks)
    requires i < |es|
    ensures TimerAfter(es[..i + 1], timer, now) ==
              if es[i].falling then now else TimerAfter(es[..i], timer, now)
  {
    var pre, next := es[..i], es[..i + 1];
    assert forall k :: 0 <= k < i ==> next[k] == pre[k];
    assert next[i] == es[i];
    if !es[i].falling && AnyFalling(next) {
      var k :| 0 <= k < i + 1 && next[k].falling;
      assert pre[k].falling;
    }
  }

  /** The loop modes the four tracks start in. */
  const START_MODES: seq<LooperMode> := [Normal, OnetimeDub, Replace, Frippertronics]

  /** A freshly initialised track whose looper has been put in `mode`: volume 0.8, not
      muted, an empty looper that has not been triggered. */
  function FreshView(mode: LooperMode): TrackView
  {
    TrackView(0.8, false, 0, mode, true, false, false)
  }

  /** A new track whose looper is put in `mode`, as `main` sets the tracks up. */
  method NewTrack(mode: LooperMode) returns (t: SimpleLooperTrack)
    ensures fresh(t) && fresh(t.looper) && t.Valid()
    ensures t.View() == FreshView(mode) && t.looper.fed == []
  {
    t := new SimpleLooperTrack.Init();
    t.SetMode(mode);
  }

  /** No two tracks share a track object or a looper. */
  ghost predicate Separate(ts: seq<SimpleLooperTrack>)
  {
    forall i, j :: 0 <= i < |ts| && 0 <= j < |ts| && i != j ==> ts[i] != ts[j] && ts[i].looper != ts[j].looper
  }

  /** A track that shares nothing with the others can join them. */
  lemma SeparateSnoc(ts: seq<SimpleLooperTrack>, t: SimpleLooperTrack)
    requires Separate(ts)
    requires forall i :: 0 <= i < |ts| ==> ts[i] != t && ts[i].looper != t.looper
    ensures Separate(ts + [t])
  {
  }

  /** `main`'s four tracks, in the normal, one-time-dub, replace and Frippertronics
      modes; `repr` collects the objects they own. */
  method NewTracks() returns (ts: seq<SimpleLooperTrack>, ghost repr: set<object>)
    ensures |ts| == NUM_TRACKS && Separate(ts) && fresh(repr)
    ensures forall i :: 0 <= i < NUM_TRACKS ==> ts[i] in repr && ts[i].looper in repr
    ensures forall i :: 0 <= i < NUM_TRACKS ==>
              ts[i].Valid() && ts[i].View() == FreshView(START_MODES[i]) && ts[i].looper.fed == []
  {
    ts, repr := [], {};
    while |ts| < NUM_TRACKS
      invariant |ts| <= NUM_TRACKS && Separate(ts) && fresh(repr)
      invariant forall i :: 0 <= i < |ts| ==> ts[i] in repr && ts[i].looper in repr
      invariant forall i :: 0 <= i < |ts| ==>
                  ts[i].Valid() && ts[i].View() == FreshView(START_MODES[i]) && ts[i].looper.fed == []
    {
      var t := NewTrack(START_MODES[|ts|]);
      SeparateSnoc(ts, t);
      ts, repr := ts + [t], repr + {t, t.looper};
    }
  }

  /** The device. */
  class SimpleLooper {
    const tracks: seq<SimpleLooperTrack>
    var selectedTrack: nat
    var masterVolume: real
    var buttonTimer: Ticks

    /** Every object a track owns. */
    ghost const Repr: set<object>

    /** Four well-formed tracks that share no object, all of whose objects, and only
        those, are in `Repr`. */
    ghost predicate TracksValid()
      reads Repr
    {
      |tracks| == NUM_TRACKS && this !in Repr &&
      (forall i :: 0 <= i < NUM_TRACKS ==> tracks[i] in Repr && tracks[i].looper in Repr) &&
      (forall i :: 0 <= i < NUM_TRACKS ==> tracks[i].Valid()) && Separate(tracks)
    }

    /** The tracks are well formed and the selection names one of them, so the mode
        button always has a track to act on. */
    ghost predicate Valid()
      reads this`selectedTrack, Repr
    {
      TracksValid() && selectedTrack < NUM_TRACKS
    }

    /** `main`'s start-up: four empty tracks at volume 0.8 whose loopers start in the
        normal, one-time-dub, replace and Frippertronics modes; track 0 selected, master
        volume 1, the timer at 0. */
    constructor Init()
      ensures Valid() && selectedTrack == 0 && masterVolume == 1.0 && buttonTimer == 0
      ensures forall i :: 0 <= i < NUM_TRACKS ==>
                tracks[i].View() == FreshView(START_MODES[i]) && tracks[i].looper.fed == []
    {
      var ts, repr := NewTracks();
      tracks, Repr := ts, repr;
      selectedTrack, masterVolume, buttonTimer := 0, 1.0, 0;
    }

    /** The tracks themselves. */
    ghost function Tracks(): set<object>
    {
      set i | 0 <= i < |tracks| :: tracks[i] as object
    }

    /** The loopers of the tracks. */
    ghost function Loopers(): set<object>
    {
      set i | 0 <= i < |tracks| :: tracks[i].looper as object
    }

    /** Every track's view, in track order. */
    ghost function Views(): (r: seq<TrackView>)
      requires TracksValid()
      reads Repr
      ensures |r| == NUM_TRACKS && forall i :: 0 <= i < NUM_TRACKS ==> r[i] == tracks[i].View()
    {
      seq(NUM_TRACKS, i requires 0 <= i < NUM_TRACKS reads Repr => tracks[i].View())
    }

    /** The loopers' record flags, in track order. */
    ghost function Recordings(): (r: seq<bool>)
      requires TracksValid()
      reads Repr
      ensures |r| == NUM_TRACKS && forall i :: 0 <= i < NUM_TRACKS ==> r[i] == tracks[i].looper.recording
    {
      seq(NUM_TRACKS, i requires 0 <= i < NUM_TRACKS reads Repr => tracks[i].looper.recording)
    }

    /** What each track's looper has been fed so far, in track order. */
    ghost function Fed(): (r: seq<seq<real>>)
      requires TracksValid()
      reads Repr
      ensures |r| == NUM_TRACKS && forall i :: 0 <= i < NUM_TRACKS ==> r[i] == tracks[i].looper.fed
    {
      seq(NUM_TRACKS, i requires 0 <= i < NUM_TRACKS reads Repr => tracks[i].looper.fed)
    }

    /** The volume knobs, one per track. */
    method SetVolumes(volumes: seq<real>)
      requires TracksValid() && |volumes| == NUM_TRACKS
      modifies Tracks()
      ensures TracksValid()
      ensures forall i :: 0 <= i < NUM_TRACKS ==> Views()[i] == old(Views())[i].(volume := Clamp(volumes[i], 0.0, 1.0))
    {
      ghost var v0 := Views();
      for i := 0 to NUM_TRACKS
        invariant TracksValid()
        invariant forall j :: 0 <= j < i ==> tracks[j].View() == v0[j].(volume := Clamp(volumes[j], 0.0, 1.0))
        invariant forall j :: i <= j < NUM_TRACKS ==> tracks[j].View() == v0[j]
      {
        tracks[i].SetVolume(volumes[i]);
      }
    }

    /** One iteration of the record-button loop at time `now`, with the timer at
        `timer`: a press triggers the track, a release stores `now` in the timer, and a
        press within the double-tap window of the timer so updated also erases the
        track. The timer's new value is returned. */
    method RecordButton(i: nat, e: RecordEdges, timer: Ticks, now: Ticks) returns (timer': Ticks)
      requires TracksValid() && i < NUM_TRACKS
      modifies tracks[i].looper
      ensures TracksValid() && timer' == (if e.falling then now else timer)
      ensures Tapped(old(tracks[i].View()), tracks[i].View(), e.rising, Elapsed(now, timer') < DOUBLE_TAP_MS)
      ensures forall j :: 0 <= j < NUM_TRACKS && j != i ==> tracks[j].View() == old(tracks[j].View())
    {
      timer' := timer;
      if e.rising {
        tracks[i].TriggerRecord();
      }
      if e.falling {
        timer' := now;
      }
      if e.rising && Elapsed(now, timer') < DOUBLE_TAP_MS {
        tracks[i].Clear();
      }
    }

    /** The record-button loop of a poll at time `now`: each button, in track order,
        triggers its track on a press, erases it too on a double tap, and moves the
        selection to itself; a release restarts the shared timer. The selection and
        timer the loop arrives at are returned; the device's own are left alone. */
    method ScanButtons(es: seq<RecordEdges>, now: Ticks) returns (sel: nat, timer: Ticks)
      requires Valid() && |es| == NUM_TRACKS
      modifies Loopers()
      ensures TracksValid() && sel < NUM_TRACKS
      ensures Selected(es, selectedTrack, sel) && timer == TimerAfter(es, buttonTimer, now)
      ensures forall i :: 0 <= i < NUM_TRACKS ==>
                Tapped(old(Views())[i], Views()[i], es[i].rising, DoubleTap(es, i, buttonTimer, now))
    {
      ghost var v0 := Views();
      sel, timer := selectedTrack, buttonTimer;
      for i := 0 to NUM_TRACKS
        invariant Scanned(i, v0, es, now, sel, timer)
      {
        sel, timer := ScanStep(i, v0, es, now, sel, timer);
      }
      assert es[..NUM_TRACKS] == es;
    }

    /** Part way through the record-button loop: buttons before `i` have acted on
        their tracks, which were `v0` when the loop began, and brought the selection and
        timer to `sel` and `timer`; the other tracks are as they were. */
    ghost predicate Scanned(i: nat, v0: seq<TrackView>, es: seq<RecordEdges>, now: Ticks, sel: nat, timer: Ticks)
      reads this`selectedTrack, this`buttonTimer, Repr
    {
      TracksValid() && i <= NUM_TRACKS && |v0| == NUM_TRACKS && |es| == NUM_TRACKS && sel < NUM_TRACKS &&
      Selected(es[..i], selectedTrack, sel) && timer == TimerAfter(es[..i], buttonTimer, now) &&
      (forall j :: 0 <= j < i ==> Tapped(v0[j], tracks[j].View(), es[j].rising, DoubleTap(es, j, buttonTimer, now))) &&
      (forall j :: i <= j < NUM_TRACKS ==> tracks[j].View() == v0[j])
    }

    /** One iteration of the record-button loop: button `i` acts on its track, a press
        selects it. */
    method ScanStep(i: nat, ghost v0: seq<TrackView>, es: seq<RecordEdges>, now: Ticks, sel: nat, timer: Ticks)
      returns (sel': nat, timer': Ticks)
      requires i < NUM_TRACKS && Scanned(i, v0, es, now, sel, timer)
      modifies tracks[i].looper
      ensures Scanned(i + 1, v0, es, now, sel', timer')
    {
      SelectedStep(es, i, selectedTrack, sel);
      TimerStep(es, i, buttonTimer, now);
      timer' := RecordButton(i, es[i], timer, now);
      sel' := if es[i].rising then i else sel;
    }

    /** The mode button: on its edge the selected track, `sel`, moves to its next
        mode; no other track changes. */
    method ModeButton(modeEdge: bool, sel: nat)
      requires TracksValid() && sel < NUM_TRACKS
      modifies tracks[sel].looper
      ensures TracksValid()
      ensures forall j :: 0 <= j < NUM_TRACKS ==>
                Views()[j] == if modeEdge && j == sel then old(Views())[j].(mode := NextMode(old(Views())[j].mode)) else old(Views())[j]
    {
      if modeEdge {
        tracks[sel].IncrementMode();
      }
    }

    /** The clear-all button: every looper erased. */
    method ClearAll()
      requires TracksValid()
      modifies Loopers()
      ensures TracksValid()
      ensures forall i :: 0 <= i < NUM_TRACKS ==> Views()[i] == Cleared(old(Views())[i])
    {
      ghost var v0 := Views();
      for i := 0 to NUM_TRACKS
        invariant TracksValid()
        invariant forall j :: 0 <= j < i ==> tracks[j].View() == Cleared(v0[j])
        invariant forall j :: i <= j < NUM_TRACKS ==> tracks[j].View() == v0[j]
      {
        ClearTrack(i);
      }
    }

    /** One iteration of the clear-all loop. */
    method ClearTrack(i: nat)
      requires TracksValid() && i < NUM_TRACKS
      modifies tracks[i].looper
      ensures TracksValid() && tracks[i].View() == Cleared(old(tracks[i].View()))
      ensures forall j :: 0 <= j < NUM_TRACKS && j != i ==> tracks[j].View() == old(tracks[j].View())
    {
      tracks[i].Clear();
    }

    /** The track loops of a control poll at time `now`, in the order the poll runs
        them: volumes, record buttons, the mode button on the track the scan selected,
        and clear-all. The selection and timer the scan arrives at are returned. */
    method PollTracks(now: Ticks, volumes: seq<real>, es: seq<RecordEdges>, modeEdge: bool, clearAll: bool)
      returns (sel: nat, timer: Ticks)
      requires Valid() && |volumes| == NUM_TRACKS && |es| == NUM_TRACKS
      modifies Repr
      ensures TracksValid() && sel < NUM_TRACKS
      ensures Selected(es, selectedTrack, sel) && timer == TimerAfter(es, buttonTimer, now)
      ensures AllPolled(old(Views()), Views(), volumes, es, buttonTimer, now, modeEdge, sel, clearAll)
    {
      ghost var v0 := Views();
      SetVolumes(volumes);
      ghost var v1 := Views();
      sel, timer := ScanButtons(es, now);
      ghost var v2 := Views();
      ModeButton(modeEdge, sel);
      ghost var v3 := Views();
      if clearAll {
        ClearAll();
      }
      PollAll(v0, v1, v2, v3, Views(), volumes, es, buttonTimer, now, modeEdge, sel, clearAll);
    }

    /** The device's own state after a poll: the master knob taken as read, and the
        selection and timer the button scan arrived at; the tracks untouched. */
    method PollMaster(master: real, sel: nat, timer: Ticks)
      requires TracksValid() && sel < NUM_TRACKS
      modifies this`masterVolume, this`selectedTrack, this`buttonTimer
      ensures Valid() && Views() == old(Views())
      ensures masterVolume == master && selectedTrack == sel && buttonTimer == timer
    {
      masterVolume, selectedTrack, buttonTimer := master, sel, timer;
    }

    /** One control poll at time `now`, from the knob values and debounced edges of
        that poll: track volumes, the master volume, then per record button, in track
        order, trigger and select on a press, restart the shared timer on a release, and
        erase on a double tap; then the mode button on the selected track and the
        clear-all button. Each track ends up as `Polled` describes; the selection follows
        the last press and stays a valid track. The loops touch no field of the device,
        so the selection and timer are carried in locals through them and stored after
        them with the master volume. */
    method UpdateControls(now: Ticks, volumes: seq<real>, master: real, es: seq<RecordEdges>,
                          modeEdge: bool, clearAll: bool)
      requires Valid() && |volumes| == NUM_TRACKS && |es| == NUM_TRACKS
      modifies this`masterVolume, this`selectedTrack, this`buttonTimer, Repr
      ensures Valid() && masterVolume == master
      ensures Selected(es, old(selectedTrack), selectedTrack)
      ensures buttonTimer == TimerAfter(es, old(buttonTimer), now)
      ensures AllPolled(old(Views()), Views(), volumes, es, old(buttonTimer), now, modeEdge, selectedTrack, clearAll)
    {
      var sel, timer := PollTracks(now, volumes, es, modeEdge, clearAll);
      PollMaster(master, sel, timer);
    }

    /** The record scan after the track loop: some looper is recording. */
    method ScanRecording() returns (any: bool)
      requires TracksValid()
      ensures any == Any(Recordings())
    {
      any := false;
      var t := 0;
      while t < NUM_TRACKS
        invariant t <= NUM_TRACKS && !any
        invariant forall j :: 0 <= j < t ==> !tracks[j].IsRecording()
      {
        if tracks[t].IsRecording() {
          any := true;
          break;
        }
        t := t + 1;
      }
    }

    /** Part way through the track loop of a frame: tracks before `t` have produced
        `outs` from `mono`, the rest have not been fed yet; `feds` is what the loopers
        had been fed when the loop began. */
    ghost predicate Done(t: nat, feds: seq<seq<real>>, mono: real, outs: seq<real>)
      reads Repr
    {
      TracksValid() && t <= NUM_TRACKS && |feds| == NUM_TRACKS && |outs| == t &&
      (forall j :: 0 <= j < t ==> tracks[j].Stepped(feds[j], mono, outs[j])) &&
      (forall j :: t <= j < NUM_TRACKS ==> tracks[j].looper.fed == feds[j])
    }

    /** Track `t` produces its output; the other tracks are left as they are. */
    method StepTrack(t: nat, mono: real, ghost feds: seq<seq<real>>, ghost outs: seq<real>) returns (y: real)
      requires t < NUM_TRACKS && Done(t, feds, mono, outs)
      modifies tracks[t].looper
      ensures Done(t + 1, feds, mono, outs + [y])
    {
      y := tracks[t].Process(mono);
    }

    /** The track loop of a frame: every track processed with the mono input, in track
        order; the outputs above the audibility threshold summed and counted. */
    method ProcessTracks(mono: real) returns (mixed: real, active: nat, ghost outs: seq<real>)
      requires TracksValid()
      modifies Loopers()
      ensures TracksValid() && |outs| == NUM_TRACKS
      ensures forall i :: 0 <= i < NUM_TRACKS ==> tracks[i].Stepped(old(tracks[i].looper.fed), mono, outs[i])
      ensures mixed == SumWhere(outs, Audible(outs)) && active == CountWhere(Audible(outs))
    {
      ghost var feds := Fed();
      mixed, active := 0.0, 0;
      outs := [];
      for t := 0 to NUM_TRACKS
        invariant Done(t, feds, mono, outs)
        invariant mixed == SumWhere(outs, Audible(outs)) && active == CountWhere(Audible(outs))
      {
        var y := StepTrack(t, mono, feds, outs);
        mixed, active := GateTrack(y, mixed, active, outs);
        outs := outs + [y];
      }
    }

    /** The end of the callback's chain: the sum of the audible outputs among `outs`
        scaled by 1/sqrt of their number when there is more than one, times the master
        volume, plus a tenth of the dry input when `anyRecording`, soft-limited. */
    method FinishMix(mixed: real, active: nat, mono: real, anyRecording: bool, m: Numerics,
                     ghost outs: seq<real>, ghost recs: seq<bool>)
      returns (out: real)
      requires m.SqrtPositive() && anyRecording == Any(recs)
      requires mixed == SumWhere(outs, Audible(outs)) && active == CountWhere(Audible(outs))
      ensures out == SimpleMixLevel(outs, recs, masterVolume, mono, m)
    {
      out := mixed;
      if active > 1 {
        out := out * (1.0 / m.Sqrt(active as real));
      }
      out := out * masterVolume;
      if anyRecording {
        out := out + mono * DRY_LEVEL;
      }
      assert out == PreLimit(outs, recs, masterVolume, mono, m);
      out := m.Tanh(out * DRIVE);
    }

    /** `AudioCallback` for one frame: the two inputs averaged to mono, every track
        processed, the audible outputs mixed, and the limited level written identically
        to both channels. Whether the dry input is added is decided by the loopers'
        record flags after the track loop. `outs` are the track outputs of the frame. */
    method AudioFrame(inLeft: real, inRight: real, m: Numerics) returns (left: real, right: real, ghost outs: seq<real>)
      requires TracksValid() && m.SqrtPositive()
      modifies Loopers()
      ensures TracksValid() && |outs| == NUM_TRACKS
      ensures forall i :: 0 <= i < NUM_TRACKS ==> tracks[i].Stepped(old(tracks[i].looper.fed), Mono(inLeft, inRight), outs[i])
      ensures left == right == SimpleMixLevel(outs, Recordings(), masterVolume, Mono(inLeft, inRight), m)
    {
      var mono := Mono(inLeft, inRight);
      var mixed, active;
      mixed, active, outs := ProcessTracks(mono);
      var anyRecording := ScanRecording();
      mixed := FinishMix(mixed, active, mono, anyRecording, m, outs, Recordings());
      left, right := mixed, mixed;
    }
  }
}
