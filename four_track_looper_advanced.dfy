/** The advanced four-track looper: each track adds pan, pitch shift, a low-pass filter,
    a feedback delay and a performance-mode crossfade to its looper; the callback mixes
    the tracks in stereo under the solo rule, normalises by the square root of the
    number of contributors and soft-limits each channel; a tempo clock raises a sync
    trigger once per beat. */
module FourTrackLooperAdvanced {
  import opened Audio
  import opened Primitives
  import opened MixBus

  const NUM_TRACKS: nat := 4
  /** `SAMPLE_RATE * MAX_LOOP_TIME`: 45 seconds at 48 kHz. */
  const BUFFER_SIZE: nat := 2160000
  /** How far `crossfade_current` moves per sample in performance mode. */
  const CROSSFADE_RATE: real := 0.001
  /** The share of the delayed sample fed back into the delay line, per unit of feedback. */
  const FEEDBACK_SEND: real := 0.3
  /** `HALFPI_F`. */
  const HALF_PI: real := 1.5707963267948966
  /** The dry input added to each output channel. */
  const DRY_LEVEL: real := 0.05
  /** The drive into the soft limiter, `tanhf(x * 0.8f)`. */
  const LIMIT_DRIVE: real := 0.8
  /** `beat_length`: one beat is one second of samples. */
  const BEAT_LENGTH: nat := 48000
  const U32_MODULUS: int := 0x1_0000_0000

  /** An unsigned 32-bit counter. */
  type U32 = x: int | 0 <= x < U32_MODULUS

  // ---------------------------------------------------------------------------------
  // The crossfade ramp

  /** One sample of the performance-mode crossfade: `current` moves toward `target` by
      the ramp rate, landing on the target rather than passing it. */
  function CrossfadeStep(current: real, target: real): (next: real)
    ensures current == target ==> next == current
    ensures current < target ==> current < next <= target && next - current <= CROSSFADE_RATE
    ensures current > target ==> target <= next < current && current - next <= CROSSFADE_RATE
    ensures Abs(next - target) ==
              if Abs(current - target) <= CROSSFADE_RATE then 0.0 else Abs(current - target) - CROSSFADE_RATE
  {
    if current < target then (if current + CROSSFADE_RATE > target then target else current + CROSSFADE_RATE)
    else if current > target then (if current - CROSSFADE_RATE < target then target else current - CROSSFADE_RATE)
    else current
  }

  /** `n` crossfade steps toward a fixed target. */
  function Ramp(current: real, target: real, n: nat): real
    decreases n
  {
    if n == 0 then current else Ramp(CrossfadeStep(current, target), target, n - 1)
  }

  /** A fixed target is reached after as many samples as the distance takes at the ramp
      rate, and then held. */
  lemma {:induction false} RampReachesTarget(current: real, target: real, n: nat)
    requires Abs(current - target) <= n as real * CROSSFADE_RATE
    ensures Ramp(current, target, n) == target
    decreases n
  {
    if n == 0 {
    } else {
      var next := CrossfadeStep(current, target);
      assert Abs(next - target) <= (n - 1) as real * CROSSFADE_RATE;
      RampReachesTarget(next, target, n - 1);
    }
  }

  /** The ramp never leaves the interval between its start and its target, so a
      crossfade that starts in [0, 1] toward a target in [0, 1] stays in [0, 1]. */
  lemma {:induction false} RampStaysBetween(current: real, target: real, n: nat)
    ensures current <= target ==> current <= Ramp(current, target, n) <= target
    ensures target <= current ==> target <= Ramp(current, target, n) <= current
    decreases n
  {
    if n > 0 {
      RampStaysBetween(CrossfadeStep(current, target), target, n - 1);
    }
  }

  // ---------------------------------------------------------------------------------
  // The pan law

  /** The pan angle as the source computes it, `pan * HALFPI_F`. */
  function PanAngleAsWritten(pan: real): (a: real)
    ensures -1.0 <= pan <= 1.0 ==> -HALF_PI <= a <= HALF_PI
  {
    pan * HALF_PI
  }

  /** A constant-power pan angle: the pan range [-1, 1] mapped onto [0, pi/2], so that
      -1 is hard left, 0 the centre (pi/4) and 1 hard right. */
  function PanAngle(pan: real): (a: real)
    ensures -1.0 <= pan <= 1.0 ==> 0.0 <= a <= HALF_PI
    ensures pan == -1.0 ==> a == 0.0
    ensures pan == 0.0 ==> a == HALF_PI / 2.0
    ensures pan == 1.0 ==> a == HALF_PI
  {
    (pan + 1.0) * HALF_PI / 2.0
  }

  function PanLeft(mono: real, pan: real, m: Numerics): real
  {
    mono * m.Cos(PanAngle(pan))
  }

  function PanRight(mono: real, pan: real, m: Numerics): real
  {
    mono * m.Sin(PanAngle(pan))
  }

  /** As written, the initial pan 0, documented as the centre, puts the whole signal on
      the left channel and none on the right; and the leftmost pan, -1, puts it on the
      right channel with its polarity inverted. */
  lemma CentrePanAsWrittenIsHardLeft(mono: real, m: Numerics)
    requires m.Cos(0.0) == 1.0 && m.Sin(0.0) == 0.0
    requires m.Cos(-HALF_PI) == 0.0 && m.Sin(-HALF_PI) == -1.0
    ensures mono * m.Cos(PanAngleAsWritten(0.0)) == mono
    ensures mono * m.Sin(PanAngleAsWritten(0.0)) == 0.0
    ensures mono * m.Sin(PanAngleAsWritten(-1.0)) == -mono
  {
    assert PanAngleAsWritten(0.0) == 0.0 && PanAngleAsWritten(-1.0) == -HALF_PI;
  }

  /** With the constant-power angle the centre sends the same level to both channels and
      the ends of the range are hard left and hard right. */
  lemma PanLawBalanced(mono: real, m: Numerics)
    requires m.Cos(HALF_PI / 2.0) == m.Sin(HALF_PI / 2.0)
    requires m.Cos(0.0) == 1.0 && m.Sin(0.0) == 0.0
    requires m.Cos(HALF_PI) == 0.0 && m.Sin(HALF_PI) == 1.0
    ensures PanLeft(mono, 0.0, m) == PanRight(mono, 0.0, m)
    ensures PanLeft(mono, -1.0, m) == mono && PanRight(mono, -1.0, m) == 0.0
    ensures PanLeft(mono, 1.0, m) == 0.0 && PanRight(mono, 1.0, m) == mono
  {
    assert PanAngle(0.0) == HALF_PI / 2.0 && PanAngle(-1.0) == 0.0 && PanAngle(1.0) == HALF_PI;
  }

  // ---------------------------------------------------------------------------------
  // The tempo clock

  /** `static_cast<uint32_t>(beat_length / tempo_multiplier)`: the samples between sync
      triggers. The tempo knob keeps the multiplier in [0.25, 4], so the interval lies
      between a quarter of a beat and four beats and the cast is defined. */
  function SyncInterval(tempo: real): (n: nat)
    requires 0.25 <= tempo <= 4.0
    ensures BEAT_LENGTH / 4 <= n <= BEAT_LENGTH * 4
  {
    IntervalBounds(tempo);
    Trunc(BEAT_LENGTH as real / tempo)
  }

  lemma IntervalBounds(tempo: real)
    requires 0.25 <= tempo <= 4.0
    ensures 12000.0 <= BEAT_LENGTH as real / tempo <= 192000.0
  {
    var q := BEAT_LENGTH as real / tempo;
    assert q * tempo == 48000.0;
    assert (q - 12000.0) * tempo == 48000.0 - 12000.0 * tempo;
    assert (192000.0 - q) * tempo == 192000.0 * tempo - 48000.0;
  }

  /** The sync state: `master_clock`, the static `last_sync` and `sync_trigger`. */
  datatype SyncState = SyncState(clock: U32, last: U32, trigger: bool)

  /** `master_clock - last_sync` in unsigned 32-bit arithmetic. */
  function Elapsed(s: SyncState): U32
  {
    (s.clock - s.last) % U32_MODULUS
  }

  /** One `UpdateSync` call: the trigger fires when sync is on and a whole interval has
      elapsed since the last trigger, which then moves to the current clock; the clock
      counts on, wrapping at 2^32. */
  function SyncStep(s: SyncState, enabled: bool, interval: nat): SyncState
  {
    var fire := enabled && Elapsed(s) >= interval;
    SyncState((s.clock + 1) % U32_MODULUS, if fire then s.clock else s.last, fire)
  }

  /** `n` calls at a fixed tempo. */
  function SyncRun(s: SyncState, enabled: bool, interval: nat, n: nat): SyncState
    decreases n
  {
    if n == 0 then s else SyncRun(SyncStep(s, enabled, interval), enabled, interval, n - 1)
  }

  /** A step that does not fire adds one to the elapsed count, which does not wrap while
      it stays below the interval. */
  lemma QuietStep(s: SyncState, enabled: bool, interval: nat)
    requires Elapsed(s) < interval < U32_MODULUS
    ensures var r := SyncStep(s, enabled, interval);
            !r.trigger && r.last == s.last && Elapsed(r) == Elapsed(s) + 1
  {
    var r := SyncStep(s, enabled, interval);
    assert r.clock - r.last == s.clock + 1 - s.last || r.clock - r.last == s.clock + 1 - s.last - U32_MODULUS;
  }

  /** Until a whole interval has elapsed nothing fires and the last trigger stays put. */
  lemma {:induction false} SyncQuiet(s: SyncState, enabled: bool, interval: nat, n: nat)
    requires Elapsed(s) + n <= interval < U32_MODULUS
    ensures var r := SyncRun(s, enabled, interval, n);
            r.last == s.last && Elapsed(r) == Elapsed(s) + n && (n > 0 ==> !r.trigger)
    decreases n
  {
    if n > 0 {
      QuietStep(s, enabled, interval);
      SyncQuiet(SyncStep(s, enabled, interval), enabled, interval, n - 1);
    }
  }

  /** With sync on and a steady tempo the trigger is periodic: after a trigger, the next
      `interval - 1` calls stay quiet and the one after fires again, leaving the clock
      just past a trigger as before. */
  lemma SyncPeriodic(s: SyncState, interval: nat)
    requires 1 <= interval < U32_MODULUS && s.trigger && Elapsed(s) == 1
    ensures forall n :: 0 < n < interval ==> !SyncRun(s, true, interval, n).trigger
    ensures var r := SyncRun(s, true, interval, interval); r.trigger && Elapsed(r) == 1
  {
    forall n | 0 < n < interval
      ensures !SyncRun(s, true, interval, n).trigger
    {
      SyncQuiet(s, true, interval, n);
    }
    SyncQuiet(s, true, interval, interval - 1);
    var q := SyncRun(s, true, interval, interval - 1);
    SyncRunSplit(s, true, interval, interval - 1);
    var r := SyncStep(q, true, interval);
    assert r.clock - r.last == 1 || r.clock - r.last == 1 - U32_MODULUS;
  }

  /** Running `n + 1` calls is running `n` and then one more. */
  lemma {:induction false} SyncRunSplit(s: SyncState, enabled: bool, interval: nat, n: nat)
    ensures SyncRun(s, enabled, interval, n + 1) == SyncStep(SyncRun(s, enabled, interval, n), enabled, interval)
    decreases n
  {
    if n > 0 {
      SyncRunSplit(SyncStep(s, enabled, interval), enabled, interval, n - 1);
    }
  }

  /** With sync off the trigger never fires and the last trigger never moves, while the
      clock still counts every call. */
  lemma {:induction false} SyncDisabled(s: SyncState, interval: nat, n: nat)
    ensures var r := SyncRun(s, false, interval, n);
            r.last == s.last && (n > 0 ==> !r.trigger) && r.clock == (s.clock + n) % U32_MODULUS
    decreases n
  {
    if n > 0 {
      var t := SyncStep(s, false, interval);
      SyncDisabled(t, interval, n - 1);
      var k := (s.clock + 1) / U32_MODULUS;
      assert t.clock == s.clock + 1 - k * U32_MODULUS;
      assert (t.clock + (n - 1)) % U32_MODULUS == (s.clock + n) % U32_MODULUS by {
        ModShift(s.clock + n, k);
      }
    }
  }

  /** Subtracting whole multiples of 2^32 does not change a value modulo 2^32. */
  lemma ModShift(x: int, k: int)
    ensures (x - k * U32_MODULUS) % U32_MODULUS == x % U32_MODULUS
  {
    var q := x / U32_MODULUS;
    var r := x % U32_MODULUS;
    assert x - k * U32_MODULUS == (q - k) * U32_MODULUS + r;
  }

  // ---------------------------------------------------------------------------------
  // The stereo mix

  /** The soft normalisation: with at least one contributor the channel sum is scaled
      by 1/sqrt(count). */
  function SqrtNormalise(sum: real, count: nat, m: Numerics): real
    requires m.SqrtPositive()
  {
    if count > 0 then sum * (1.0 / m.Sqrt(count as real)) else sum
  }

  /** `tanhf(x * 0.8f)`. */
  function SoftLimit(x: real, m: Numerics): real
  {
    m.Tanh(x * LIMIT_DRIVE)
  }

  /** The master volume applied to a normalised channel and the dry input added. */
  function MasterStage(normalised: real, master: real, dry: real): real
  {
    normalised * master + dry * DRY_LEVEL
  }

  /** One output channel for a frame, from that channel's track outputs, the solo flags,
      the master volume and that channel's dry input. */
  function StereoChannel(outs: seq<real>, solos: seq<bool>, master: real, dry: real, m: Numerics): real
    requires |outs| == |solos| && m.SqrtPositive()
  {
    var keep := Contributors(Any(solos), solos);
    SoftLimit(MasterStage(SqrtNormalise(SumWhere(outs, keep), CountWhere(keep), m), master, dry), m)
  }

  /** While a solo is active the output of any track outside the solo group does not
      reach either channel. */
  lemma StereoSoloGroupOnly(outs: seq<real>, solos: seq<bool>, i: nat, y: real, master: real, dry: real, m: Numerics)
    requires |outs| == |solos| && i < |outs| && Any(solos) && !solos[i] && m.SqrtPositive()
    ensures StereoChannel(outs[i := y], solos, master, dry, m) == StereoChannel(outs, solos, master, dry, m)
  {
    ExcludedTrackIgnored(outs, Contributors(Any(solos), solos), i, y);
  }

  /** With no solo active every track is heard and the normaliser divides by sqrt(4). */
  lemma StereoNoSoloHearsAll(outs: seq<real>, solos: seq<bool>, master: real, dry: real, m: Numerics)
    requires |outs| == |solos| == NUM_TRACKS && !Any(solos) && m.SqrtPositive()
    ensures StereoChannel(outs, solos, master, dry, m) ==
              SoftLimit(MasterStage(Sum(outs) * (1.0 / m.Sqrt(4.0)), master, dry), m)
  {
    var keep := Contributors(Any(solos), solos);
    SoloCount(solos);
    SumWhereAll(outs, keep);
    assert CountWhere(keep) == 4 && SumWhere(outs, keep) == Sum(outs);
    assert SqrtNormalise(SumWhere(outs, keep), CountWhere(keep), m) == SqrtNormalise(Sum(outs), 4, m);
    assert SqrtNormalise(Sum(outs), 4, m) == Sum(outs) * (1.0 / m.Sqrt(4.0));
    assert StereoChannel(outs, solos, master, dry, m) ==
           SoftLimit(MasterStage(SqrtNormalise(SumWhere(outs, keep), CountWhere(keep), m), master, dry), m);
  }

  // ---------------------------------------------------------------------------------
  // The per-track signal chain

  /** The output of the feedback stage for the filtered sample `low`, given the delayed
      sample: the echo is added only when feedback is on. */
  function Echoed(low: real, delayed: real, feedback: real): real
  {
    if feedback > 0.0 then low + delayed * feedback else low
  }

  /** What the feedback stage writes back into the delay line. */
  function DelayInput(low: real, delayed: real, feedback: real): real
  {
    if feedback > 0.0 then low + delayed * feedback * FEEDBACK_SEND else low
  }

  /** The track gain: the volume, times the crossfade level in performance mode. */
  function Gain(volume: real, performance: bool, crossfade: real): real
  {
    if performance then volume * crossfade else volume
  }

  /** The crossfade only ever attenuates: with the volume and crossfade in their
      ranges the gain lies between 0 and the volume. */
  lemma GainBound(volume: real, performance: bool, crossfade: real)
    requires 0.0 <= volume && 0.0 <= crossfade <= 1.0
    ensures 0.0 <= Gain(volume, performance, crossfade) <= volume
  {
    if performance {
      assert volume - volume * crossfade == volume * (1.0 - crossfade);
    }
  }

  /** A track's parameters, the values its knobs set. */
  datatype Params = Params(volume: real, pan: real, pitchShift: real, filterCutoff: real, feedbackAmount: real)

  /** A track's flags. */
  datatype Flags = Flags(muted: bool, solo: bool, reverse: bool, halfSpeed: bool, performanceMode: bool)

  /** A track's bookkeeping: content, loop length, sync point and the crossfade. */
  datatype Progress = Progress(hasContent: bool, loopLength: nat, syncPoint: nat,
                               crossfadeTarget: real, crossfadeCurrent: real)

  /** The parts of a track's looper the controls reach. */
  datatype LoopView = LoopView(trigs: nat, mode: LooperMode, cleared: bool, recording: bool, queued: bool,
                               reverse: bool, halfSpeed: bool, fed: seq<real>)

  /** Everything a control poll can touch in one track. */
  datatype TrackState = TrackState(params: Params, flags: Flags, progress: Progress, loop: LoopView)

  /** What a sample through the chain starts from besides the track's state: whether
      the looper is near its loop start, the pitch shifter's transposition and input,
      the filter's input, and the delay line's front sample and input. */
  datatype Chain = Chain(nearBeginning: bool, transposition: real, pitcherFed: seq<real>,
                         filterFed: seq<real>, delayFront: real, delayWritten: seq<real>)

  /** Everything one sample through a track can change, read after the sample: the
      state, the chain, the track's output and the looper's, pitch shifter's and
      filter's last results and the filter's cutoff. */
  datatype Snapshot = Snapshot(state: TrackState, chain: Chain, out: real, looperOut: real,
                               pitcherOut: real, filterFreq: real, filterLow: real)

  /** The crossfade level after one `Process` from progress `p0`. */
  function Crossfaded(p0: Progress, performance: bool): (r: real)
    ensures !performance ==> r == p0.crossfadeCurrent
    ensures performance ==> r == CrossfadeStep(p0.crossfadeCurrent, p0.crossfadeTarget)
  {
    if performance then CrossfadeStep(p0.crossfadeCurrent, p0.crossfadeTarget) else p0.crossfadeCurrent
  }

  /** One sample of `Process` took a track from state `s0` and chain `c0` to `s1`, with
      input `input` and sync trigger `syncTrigger`: the parameters and flags are as they
      were, and the progress, loop, effects and output moved as below. */
  predicate Processed(s0: TrackState, c0: Chain, input: real, syncTrigger: bool, m: Numerics, s1: Snapshot)
  {
    s1.state.params == s0.params && s1.state.flags == s0.flags &&
    Progressed(s0.progress, s0.flags.performanceMode, c0.nearBeginning, syncTrigger, s1) &&
    Looped(s0.loop, s0.flags, input, s1.state.loop) && Effected(s0.params, c0, m, s1) &&
    Emitted(s0.params, s0.flags, c0.delayFront, s1)
  }

  /** The sync point is reset when the trigger finds the looper near its start; the
      content flag is set by an audible sample outside recording; in performance mode
      the crossfade takes one step. Nothing else in the progress moves. */
  predicate Progressed(p0: Progress, performance: bool, nearBeginning: bool, syncTrigger: bool, s1: Snapshot)
  {
    var p1 := s1.state.progress;
    p1.hasContent == (p0.hasContent || (!s1.state.loop.recording && Abs(s1.looperOut) > AUDIBLE)) &&
    p1.loopLength == p0.loopLength &&
    p1.syncPoint == (if syncTrigger && nearBeginning then 0 else p0.syncPoint) &&
    p1.crossfadeTarget == p0.crossfadeTarget && p1.crossfadeCurrent == Crossfaded(p0, performance)
  }

  /** The looper took `input` and was handed the track's reverse and half-speed flags;
      its record state moved as the looper's own step moves it. */
  predicate Looped(l0: LoopView, flags: Flags, input: real, l1: LoopView)
  {
    l1.trigs == l0.trigs && l1.mode == l0.mode && l1.cleared == l0.cleared &&
    l1.reverse == (flags.reverse || l0.reverse) && l1.halfSpeed == (flags.halfSpeed || l0.halfSpeed) &&
    l1.fed == l0.fed + [input]
  }

  /** The looper's sample went through the pitch shifter (only off unity), the filter
      at the cutoff, and into the delay line with its feedback. */
  predicate Effected(p: Params, c0: Chain, m: Numerics, s1: Snapshot)
  {
    var c1 := s1.chain;
    (p.pitchShift != 1.0 ==>
       c1.transposition == 12.0 * m.Log2(p.pitchShift) && c1.pitcherFed == c0.pitcherFed + [s1.looperOut]) &&
    (p.pitchShift == 1.0 ==> c1.transposition == c0.transposition && c1.pitcherFed == c0.pitcherFed) &&
    s1.filterFreq == p.filterCutoff &&
    c1.filterFed == c0.filterFed + [if p.pitchShift != 1.0 then s1.pitcherOut else s1.looperOut] &&
    c1.delayWritten == c0.delayWritten + [DelayInput(s1.filterLow, c0.delayFront, p.feedbackAmount)]
  }

  /** 0 when muted; otherwise the echoed filter output times the gain at the new
      crossfade level. */
  predicate Emitted(p: Params, f: Flags, delayFront: real, s1: Snapshot)
  {
    s1.out == if f.muted then 0.0
              else Echoed(s1.filterLow, delayFront, p.feedbackAmount) *
                   Gain(p.volume, f.performanceMode, s1.state.progress.crossfadeCurrent)
  }

  /** One sample of `GetStereoOutput`: `Process` from `s0` and `c0` to `s1`, and
      `left`/`right` its output panned at the track's pan. */
  predicate Stepped(s0: TrackState, c0: Chain, input: real, syncTrigger: bool, s1: Snapshot,
                    left: real, right: real, m: Numerics)
  {
    Processed(s0, c0, input, syncTrigger, m, s1) &&
    left == PanLeft(s1.out, s0.params.pan, m) && right == PanRight(s1.out, s0.params.pan, m)
  }

  /** A track that is muted when its step begins puts out silence on both channels,
      whatever its chain did. */
  lemma MutedStepSilent(s0: TrackState, c0: Chain, input: real, syncTrigger: bool, s1: Snapshot,
                        left: real, right: real, m: Numerics)
    requires Stepped(s0, c0, input, syncTrigger, s1, left, right, m) && s0.flags.muted
    ensures left == 0.0 && right == 0.0
  {
  }

  /** Part way through the track loop of a frame: tracks before `t` have taken one
      `GetStereoOutput` step from `mono` and the sync trigger `sync`, producing
      `outsL`/`outsR`; the rest are as they were; no solo flag has moved. `states`,
      `chains` and `solos` are the tracks' states, chains and solo flags when the loop
      began, `snaps` their snapshots now. */
  predicate Done(t: nat, states: seq<TrackState>, chains: seq<Chain>, solos: seq<bool>, snaps: seq<Snapshot>,
                 mono: real, sync: bool, outsL: seq<real>, outsR: seq<real>, m: Numerics)
  {
    t <= NUM_TRACKS && |states| == NUM_TRACKS && |chains| == NUM_TRACKS && |solos| == NUM_TRACKS &&
    |snaps| == NUM_TRACKS && |outsL| == t && |outsR| == t &&
    (forall j :: 0 <= j < NUM_TRACKS ==> snaps[j].state.flags.solo == solos[j]) &&
    (forall j {:trigger Stepped(states[j], chains[j], mono, sync, snaps[j], outsL[j], outsR[j], m)} :: 0 <= j < t ==>
       Stepped(states[j], chains[j], mono, sync, snaps[j], outsL[j], outsR[j], m)) &&
    (forall j :: t <= j < NUM_TRACKS ==> snaps[j].state == states[j] && snaps[j].chain == chains[j])
  }

  /** Every track took one `GetStereoOutput` step from its state in `states` and its
      chain in `chains`, with input `mono` and sync trigger `sync`, ending at its
      snapshot in `snaps` and producing its pair in `outsL`/`outsR`. */
  predicate AllStepped(states: seq<TrackState>, chains: seq<Chain>, mono: real, sync: bool, snaps: seq<Snapshot>,
                       outsL: seq<real>, outsR: seq<real>, m: Numerics)
  {
    |states| == NUM_TRACKS && |chains| == NUM_TRACKS && |snaps| == NUM_TRACKS &&
    |outsL| == NUM_TRACKS && |outsR| == NUM_TRACKS &&
    forall i {:trigger Stepped(states[i], chains[i], mono, sync, snaps[i], outsL[i], outsR[i], m)} :: 0 <= i < NUM_TRACKS ==>
      Stepped(states[i], chains[i], mono, sync, snaps[i], outsL[i], outsR[i], m)
  }

  /** In a frame every track that was muted when the frame began puts out silence on
      both channels. */
  lemma MutedTracksSilent(states: seq<TrackState>, chains: seq<Chain>, mono: real, sync: bool,
                          snaps: seq<Snapshot>, outsL: seq<real>, outsR: seq<real>, m: Numerics)
    requires AllStepped(states, chains, mono, sync, snaps, outsL, outsR, m)
    ensures forall i :: 0 <= i < NUM_TRACKS && states[i].flags.muted ==> outsL[i] == 0.0 && outsR[i] == 0.0
  {
    forall i | 0 <= i < NUM_TRACKS && states[i].flags.muted
      ensures outsL[i] == 0.0 && outsR[i] == 0.0
    {
      MutedStepSilent(states[i], chains[i], mono, sync, snaps[i], outsL[i], outsR[i], m);
    }
  }

  /** Track `t` stepping to `snap` takes the track loop from `t` done to `t + 1` done. */
  lemma DoneNext(t: nat, states: seq<TrackState>, chains: seq<Chain>, solos: seq<bool>, snaps: seq<Snapshot>,
                 mono: real, sync: bool, outsL: seq<real>, outsR: seq<real>, snap: Snapshot,
                 left: real, right: real, m: Numerics)
    requires t < NUM_TRACKS && Done(t, states, chains, solos, snaps, mono, sync, outsL, outsR, m)
    requires Stepped(snaps[t].state, snaps[t].chain, mono, sync, snap, left, right, m)
    ensures Done(t + 1, states, chains, solos, snaps[t := snap], mono, sync, outsL + [left], outsR + [right], m)
  {
  }

  /** When the track loop ends every track has stepped, and every solo flag is the one
      the loop began with. */
  lemma DoneAll(states: seq<TrackState>, chains: seq<Chain>, solos: seq<bool>, snaps: seq<Snapshot>,
                mono: real, sync: bool, outsL: seq<real>, outsR: seq<real>, m: Numerics)
    requires Done(NUM_TRACKS, states, chains, solos, snaps, mono, sync, outsL, outsR, m)
    ensures AllStepped(states, chains, mono, sync, snaps, outsL, outsR, m)
    ensures forall j :: 0 <= j < NUM_TRACKS ==> snaps[j].state.flags.solo == solos[j]
  {
  }

  /** One track's five knobs in a control poll, each in [0, 1]. */
  datatype TrackKnobs = TrackKnobs(volume: real, pan: real, pitch: real, filter: real, feedback: real)

  /** The rising edges of one track's six buttons in a control poll. */
  datatype TrackButtons = TrackButtons(record: bool, mode: bool, mute: bool, solo: bool, reverse: bool, halfSpeed: bool)

  /** The loop modes the four tracks start in. */
  const START_MODES: seq<LooperMode> := [Normal, OnetimeDub, Replace, Frippertronics]

  /** A freshly initialised track whose looper has been put in `mode`: unity volume and
      pitch, centred pan, a 1 kHz cutoff, no feedback, no content, the crossfade open,
      every flag off and an empty looper that has been fed nothing. */
  function FreshTrack(mode: LooperMode): TrackState
  {
    TrackState(Params(1.0, 0.0, 1.0, 1000.0, 0.0),
               Flags(false, false, false, false, false),
               Progress(false, 0, 0, 1.0, 1.0),
               LoopView(0, mode, true, false, false, false, false, []))
  }

  /** The knobs mapped onto their parameters and clamped by the setters. */
  function KnobParams(k: TrackKnobs): Params
  {
    Params(Clamp(k.volume * 2.0, 0.0, 2.0),
           Clamp((k.pan - 0.5) * 2.0, -1.0, 1.0),
           Clamp(0.25 + k.pitch * 3.75, 0.25, 4.0),
           Clamp(50.0 + k.filter * 7950.0, 50.0, 8000.0),
           Clamp(k.feedback, 0.0, 0.8))
  }

  /** Over the knobs' travel [0, 1] the mappings already land in the setters' ranges, so
      only the feedback clamp ever bites: the top fifth of the feedback knob is dead. */
  lemma KnobTravel(k: TrackKnobs)
    requires 0.0 <= k.volume <= 1.0 && 0.0 <= k.pan <= 1.0 && 0.0 <= k.pitch <= 1.0
    requires 0.0 <= k.filter <= 1.0 && 0.0 <= k.feedback <= 1.0
    ensures var r := KnobParams(k);
            r.volume == k.volume * 2.0 && r.pan == (k.pan - 0.5) * 2.0 &&
            r.pitchShift == 0.25 + k.pitch * 3.75 && r.filterCutoff == 50.0 + k.filter * 7950.0 &&
            (k.feedback <= 0.8 ==> r.feedbackAmount == k.feedback) &&
            (k.feedback > 0.8 ==> r.feedbackAmount == 0.8)
  {
  }

  /** The record trigger on one track: one more trigger, no longer empty; an empty track
      starts recording and a recording one stops. Nothing else changes. */
  ghost predicate Triggered(c0: TrackState, c1: TrackState)
  {
    c1 == c0.(loop := c0.loop.(trigs := c0.loop.trigs + 1, cleared := false,
                               recording := c1.loop.recording, queued := c1.loop.queued)) &&
    (c0.loop.cleared ==> c1.loop.recording) && (c0.loop.recording ==> !c1.loop.recording)
  }

  /** The clear button on one track: the looper erased and idle, no content, no loop. */
  function Cleared(c: TrackState): TrackState
  {
    c.(progress := c.progress.(hasContent := false, loopLength := 0),
       loop := c.loop.(cleared := true, recording := false, queued := false))
  }

  /** The mode, mute and solo buttons: mode advances the looper's mode, mute and solo
      flip their flag. */
  function PlayToggled(c: TrackState, b: TrackButtons): TrackState
  {
    c.(flags := c.flags.(muted := c.flags.muted != b.mute, solo := c.flags.solo != b.solo),
       loop := c.loop.(mode := if b.mode then NextMode(c.loop.mode) else c.loop.mode))
  }

  /** The reverse and half-speed buttons: each flips its flag and hands the new value
      to the looper. */
  function MotionToggled(c: TrackState, b: TrackButtons): TrackState
  {
    var reverse := c.flags.reverse != b.reverse;
    var halfSpeed := c.flags.halfSpeed != b.halfSpeed;
    c.(flags := c.flags.(reverse := reverse, halfSpeed := halfSpeed),
       loop := c.loop.(reverse := if b.reverse then reverse else c.loop.reverse,
                       halfSpeed := if b.halfSpeed then halfSpeed else c.loop.halfSpeed))
  }

  /** The buttons other than record, in the order the poll handles them. */
  function Toggled(c: TrackState, b: TrackButtons): TrackState
  {
    MotionToggled(PlayToggled(c, b), b)
  }

  /** Pressing record and then the toggles is the same as the toggles and then record:
      they touch different parts of the track. */
  lemma TriggerThenToggle(c0: TrackState, c1: TrackState, b: TrackButtons)
    requires Triggered(c0, c1)
    ensures Triggered(Toggled(c0, b), Toggled(c1, b))
  {
    TriggerThenPlay(c0, c1, b);
    TriggerThenMotion(PlayToggled(c0, b), PlayToggled(c1, b), b);
  }

  lemma TriggerThenPlay(c0: TrackState, c1: TrackState, b: TrackButtons)
    requires Triggered(c0, c1)
    ensures Triggered(PlayToggled(c0, b), PlayToggled(c1, b))
  {
  }

  lemma TriggerThenMotion(c0: TrackState, c1: TrackState, b: TrackButtons)
    requires Triggered(c0, c1)
    ensures Triggered(MotionToggled(c0, b), MotionToggled(c1, b))
  {
  }

  /** One track's buttons in a poll. */
  ghost predicate Pressed(c0: TrackState, c1: TrackState, b: TrackButtons)
  {
    if b.record then Triggered(Toggled(c0, b), c1) else c1 == Toggled(c0, b)
  }

  /** The performance broadcast on one track. */
  function Performing(c: TrackState, enabled: bool): TrackState
  {
    c.(flags := c.flags.(performanceMode := enabled))
  }

  /** A whole control poll of one track, from its knobs and buttons, whether clear-all
      was pressed, whether master record switched on (`fire`) and, when the
      performance button was pressed, the new performance mode every track receives.
      The knobs and toggles land as mapped; the trigger count counts the record press
      and the master trigger; clear-all leaves the track empty unless master record
      fires after it, in which case it records afresh; and an empty track pressed for
      record in the same poll as a master trigger is started and stopped again. */
  ghost predicate Polled(c0: TrackState, c1: TrackState, k: TrackKnobs, b: TrackButtons,
                         clear: bool, fire: bool, setPerformance: bool, performance: bool)
  {
    var d := Toggled(c0.(params := KnobParams(k)), b);
    var e := if clear then Cleared(d) else d;
    var base := if setPerformance then Performing(e, performance) else e;
    var l1 := c1.loop;
    c1 == base.(loop := base.loop.(trigs := c0.loop.trigs + (if b.record then 1 else 0) + (if fire then 1 else 0),
                                   cleared := l1.cleared, recording := l1.recording, queued := l1.queued)) &&
    (!b.record && !fire ==> l1.cleared == e.loop.cleared && l1.recording == e.loop.recording && l1.queued == e.loop.queued) &&
    (clear && !fire ==> l1.cleared && !l1.recording && !l1.queued) &&
    (fire ==> !l1.cleared) &&
    (clear && fire ==> l1.recording) &&
    (!clear && b.record != fire ==> !l1.cleared && (c0.loop.cleared ==> l1.recording) && (c0.loop.recording ==> !l1.recording)) &&
    (!clear && b.record && fire && c0.loop.cleared ==> !l1.recording)
  }

  /** The phases of `UpdateControls` compose into one poll: knobs, then the track
      buttons, then clear-all, then the master trigger, then the performance broadcast. */
  lemma PollComposes(c0: TrackState, c1: TrackState, c2: TrackState, c3: TrackState, c4: TrackState, c5: TrackState,
                     k: TrackKnobs, b: TrackButtons, clear: bool, fire: bool, setPerformance: bool, performance: bool)
    requires c1 == c0.(params := KnobParams(k)) && Pressed(c1, c2, b)
    requires c3 == if clear then Cleared(c2) else c2
    requires if fire then Triggered(c3, c4) else c4 == c3
    requires c5 == if setPerformance then Performing(c4, performance) else c4
    ensures Polled(c0, c5, k, b, clear, fire, setPerformance, performance)
  {
  }

  /** What one of the loops of `UpdateControls` does to one track. */
  datatype Phase =
    | KnobsTurned(knobs: TrackKnobs)
    | ButtonsPressed(buttons: TrackButtons)
    | ClearPressed
    | MasterTrigger
    | PerformanceSet(enabled: bool)

  /** The track state `c1` is `c0` after `p`. */
  ghost predicate Applied(p: Phase, c0: TrackState, c1: TrackState)
  {
    match p
    case KnobsTurned(k) => c1 == c0.(params := KnobParams(k))
    case ButtonsPressed(b) => Pressed(c0, c1, b)
    case ClearPressed => c1 == Cleared(c0)
    case MasterTrigger => Triggered(c0, c1)
    case PerformanceSet(enabled) => c1 == Performing(c0, enabled)
  }

  /** One loop of `UpdateControls` over all the tracks: when `on`, track `i` went from
      `s0[i]` to `s1[i]` by `ps[i]`; otherwise the loop did not run and nothing changed. */
  ghost predicate Phased(on: bool, ps: seq<Phase>, s0: seq<TrackState>, s1: seq<TrackState>)
  {
    |ps| == |s0| == |s1| &&
    forall i :: 0 <= i < |s0| ==> if on then Applied(ps[i], s0[i], s1[i]) else s1[i] == s0[i]
  }

  /** The same phase for every track. */
  function Each(p: Phase): (ps: seq<Phase>)
    ensures |ps| == NUM_TRACKS && forall i :: 0 <= i < NUM_TRACKS ==> ps[i] == p
  {
    [p, p, p, p]
  }

  /** The knob loop's phases. */
  function KnobPhases(knobs: seq<TrackKnobs>): (ps: seq<Phase>)
    ensures |ps| == |knobs| && forall i :: 0 <= i < |knobs| ==> ps[i] == KnobsTurned(knobs[i])
  {
    seq(|knobs|, i requires 0 <= i < |knobs| => KnobsTurned(knobs[i]))
  }

  /** The button loop's phases. */
  function ButtonPhases(buttons: seq<TrackButtons>): (ps: seq<Phase>)
    ensures |ps| == |buttons| && forall i :: 0 <= i < |buttons| ==> ps[i] == ButtonsPressed(buttons[i])
  {
    seq(|buttons|, i requires 0 <= i < |buttons| => ButtonsPressed(buttons[i]))
  }

  /** A control poll of every track: track `i` went from `s0[i]` to `s1[i]` as
      `Polled` describes, under its own knobs and buttons and the shared master events. */
  ghost predicate AllPolled(s0: seq<TrackState>, s1: seq<TrackState>, knobs: seq<TrackKnobs>, buttons: seq<TrackButtons>,
                            clear: bool, fire: bool, setPerformance: bool, performance: bool)
  {
    |s0| == |s1| == |knobs| == |buttons| &&
    forall i :: 0 <= i < |s0| ==> Polled(s0[i], s1[i], knobs[i], buttons[i], clear, fire, setPerformance, performance)
  }

  /** The five loops of a control poll, run in order over every track, leave each
      track as `Polled` describes. */
  lemma PollAll(s0: seq<TrackState>, s1: seq<TrackState>, s2: seq<TrackState>, s3: seq<TrackState>,
                s4: seq<TrackState>, s5: seq<TrackState>, knobs: seq<TrackKnobs>, buttons: seq<TrackButtons>,
                clear: bool, fire: bool, setPerformance: bool, performance: bool)
    requires Phased(true, KnobPhases(knobs), s0, s1) && Phased(true, ButtonPhases(buttons), s1, s2)
    requires Phased(clear, Each(ClearPressed), s2, s3) && Phased(fire, Each(MasterTrigger), s3, s4)
    requires Phased(setPerformance, Each(PerformanceSet(performance)), s4, s5)
    ensures AllPolled(s0, s5, knobs, buttons, clear, fire, setPerformance, performance)
  {
    forall i | 0 <= i < |s0|
      ensures Polled(s0[i], s5[i], knobs[i], buttons[i], clear, fire, setPerformance, performance)
    {
      PollComposes(s0[i], s1[i], s2[i], s3[i], s4[i], s5[i], knobs[i], buttons[i], clear, fire, setPerformance, performance);
    }
  }

  /** The setter ranges. */
  ghost predicate InRange(x: real, lo: real, hi: real)
  {
    lo <= x <= hi
  }

  class AdvancedLooperTrack {
    const looper: Looper
    const filter: Svf
    const pitcher: PitchShifter
    const delay: DelayLine
    var volume: real
    var pan: real
    var muted: bool
    var solo: bool
    var reverse: bool
    var halfSpeed: bool
    var pitchShift: real
    var filterCutoff: real
    var feedbackAmount: real
    var hasContent: bool
    var loopLength: nat
    var syncPoint: nat
    var performanceMode: bool
    var crossfadeTarget: real
    var crossfadeCurrent: real
    /** What the last `Process` call returned. */
    ghost var lastOut: real

    ghost function ParamsOf(): Params
      reads this`volume, this`pan, this`pitchShift, this`filterCutoff, this`feedbackAmount
    {
      Params(volume, pan, pitchShift, filterCutoff, feedbackAmount)
    }

    ghost function FlagsOf(): Flags
      reads this`muted, this`solo, this`reverse, this`halfSpeed, this`performanceMode
    {
      Flags(muted, solo, reverse, halfSpeed, performanceMode)
    }

    ghost function ProgressOf(): Progress
      reads this`hasContent, this`loopLength, this`syncPoint, this`crossfadeTarget, this`crossfadeCurrent
    {
      Progress(hasContent, loopLength, syncPoint, crossfadeTarget, crossfadeCurrent)
    }

    ghost function LoopOf(): LoopView
      reads looper`trigs, looper`mode, looper`cleared, looper`recording, looper`queued
      reads looper`reverse, looper`halfSpeed, looper`fed
    {
      LoopView(looper.trigs, looper.mode, looper.cleared, looper.recording, looper.queued,
               looper.reverse, looper.halfSpeed, looper.fed)
    }

    /** The track's state as the control poll sees it. */
    ghost function State(): TrackState
      reads this`volume, this`pan, this`pitchShift, this`filterCutoff, this`feedbackAmount
      reads this`muted, this`solo, this`reverse, this`halfSpeed, this`performanceMode
      reads this`hasContent, this`loopLength, this`syncPoint, this`crossfadeTarget, this`crossfadeCurrent
      reads looper`trigs, looper`mode, looper`cleared, looper`recording, looper`queued
      reads looper`reverse, looper`halfSpeed, looper`fed
    {
      TrackState(ParamsOf(), FlagsOf(), ProgressOf(), LoopOf())
    }

    ghost function ChainOf(): Chain
      reads looper`nearBeginning, pitcher`transposition, pitcher`fed, filter`fed, delay`front, delay`written
    {
      Chain(looper.nearBeginning, pitcher.transposition, pitcher.fed, filter.fed, delay.front, delay.written)
    }

    ghost function Snap(): Snapshot
      reads this, looper, pitcher, filter, delay
    {
      Snapshot(State(), ChainOf(), lastOut, looper.lastOut, pitcher.lastOut, filter.freq, filter.low)
    }

    /** The looper is well formed and every parameter lies in its setter's range. */
    ghost predicate Valid()
      reads this`volume, this`pan, this`pitchShift, this`filterCutoff, this`feedbackAmount
      reads this`crossfadeTarget, this`crossfadeCurrent, looper`cleared, looper`recording, looper`queued
    {
      looper.Valid() &&
      InRange(volume, 0.0, 2.0) && InRange(pan, -1.0, 1.0) && InRange(pitchShift, 0.25, 4.0) &&
      InRange(filterCutoff, 50.0, 8000.0) && InRange(feedbackAmount, 0.0, 0.8) &&
      InRange(crossfadeTarget, 0.0, 1.0) && InRange(crossfadeCurrent, 0.0, 1.0)
    }

    /** `Init(sample_rate)`: an empty looper, unity volume and pitch, pan 0, a 1 kHz
        cutoff, no feedback, the crossfade fully open and every flag off. */
    constructor Init(sampleRate: real)
      ensures Valid() && fresh(looper) && fresh(filter) && fresh(pitcher) && fresh(delay)
      ensures looper.cleared && looper.trigs == 0 && looper.fed == [] && looper.mode == Normal
      ensures volume == 1.0 && pan == 0.0 && pitchShift == 1.0 && filterCutoff == 1000.0 && feedbackAmount == 0.0
      ensures !muted && !solo && !reverse && !halfSpeed && !hasContent && !performanceMode
      ensures loopLength == 0 && syncPoint == 0 && crossfadeTarget == 1.0 && crossfadeCurrent == 1.0
      ensures filter.freq == 1000.0 && pitcher.transposition == 0.0
      ensures State() == FreshTrack(Normal)
    {
      looper := new Looper.Init(BUFFER_SIZE);
      filter := new Svf.Init(sampleRate);
      pitcher := new PitchShifter.Init(sampleRate);
      delay := new DelayLine.Init();
      volume, pan, muted, solo := 1.0, 0.0, false, false;
      reverse, halfSpeed := false, false;
      pitchShift, filterCutoff, feedbackAmount := 1.0, 1000.0, 0.0;
      hasContent, loopLength, syncPoint := false, 0, 0;
      performanceMode, crossfadeTarget, crossfadeCurrent := false, 1.0, 1.0;
      lastOut := 0.0;
      new;
      filter.SetFreq(filterCutoff);
      pitcher.SetTransposition(0.0);
    }

    /** The looper stage of `Process`: the sync point, the looper itself, the
        content flag and the reverse and half-speed flags passed on when set. */
    method RunLooper(input: real, syncTrigger: bool) returns (output: real)
      requires Valid()
      modifies this`syncPoint, this`hasContent
      modifies looper`recording, looper`queued, looper`nearBeginning, looper`fed, looper`lastOut
      modifies looper`reverse, looper`halfSpeed
      ensures Valid() && output == looper.lastOut
      ensures looper.fed == old(looper.fed) + [input]
      ensures syncPoint == if syncTrigger && old(looper.nearBeginning) then 0 else old(syncPoint)
      ensures hasContent == (old(hasContent) || (!looper.recording && Abs(output) > AUDIBLE))
      ensures looper.reverse == (reverse || old(looper.reverse))
      ensures looper.halfSpeed == (halfSpeed || old(looper.halfSpeed))
    {
      if syncTrigger && looper.IsNearBeginning() {
        syncPoint := 0;
      }
      output := looper.Process(input);
      if !looper.Recording() && Abs(output) > AUDIBLE {
        hasContent := true;
      }
      if reverse {
        looper.SetReverse(true);
      }
      if halfSpeed {
        looper.SetHalfSpeed(true);
      }
    }

    /** The effects stage of `Process`: pitch shift away from unity, the low-pass
        filter at the cutoff, then the feedback delay. */
    method RunEffects(x: real, m: Numerics) returns (output: real)
      modifies pitcher`transposition, pitcher`fed, pitcher`lastOut
      modifies filter`freq, filter`low, filter`fed, delay`front, delay`written
      ensures pitchShift != 1.0 ==>
                pitcher.transposition == 12.0 * m.Log2(pitchShift) && pitcher.fed == old(pitcher.fed) + [x]
      ensures pitchShift == 1.0 ==>
                pitcher.transposition == old(pitcher.transposition) && pitcher.fed == old(pitcher.fed)
      ensures filter.freq == filterCutoff
      ensures filter.fed == old(filter.fed) + [if pitchShift != 1.0 then pitcher.lastOut else x]
      ensures delay.written == old(delay.written) + [DelayInput(filter.low, old(delay.front), feedbackAmount)]
      ensures output == Echoed(filter.low, old(delay.front), feedbackAmount)
    {
      output := x;
      if pitchShift != 1.0 {
        var semitones := 12.0 * m.Log2(pitchShift);
        pitcher.SetTransposition(semitones);
        output := pitcher.Process(output);
      }
      filter.SetFreq(filterCutoff);
      filter.Process(output);
      output := filter.Low();
      if feedbackAmount > 0.0 {
        var delayed := delay.Read();
        assert output + delayed * feedbackAmount * FEEDBACK_SEND == DelayInput(output, delayed, feedbackAmount);
        delay.Write(output + delayed * feedbackAmount * FEEDBACK_SEND);
        output := output + delayed * feedbackAmount;
      } else {
        delay.Write(output);
      }
    }

    /** The gain stage of `Process`: in performance mode one crossfade step, then the
        volume times the crossfade level; otherwise the volume alone. */
    method ApplyGain(x: real) returns (output: real)
      requires Valid()
      modifies this`crossfadeCurrent
      ensures Valid()
      ensures crossfadeCurrent ==
                if performanceMode then CrossfadeStep(old(crossfadeCurrent), crossfadeTarget) else old(crossfadeCurrent)
      ensures output == x * Gain(volume, performanceMode, crossfadeCurrent)
    {
      if performanceMode {
        if crossfadeCurrent < crossfadeTarget {
          crossfadeCurrent := crossfadeCurrent + CROSSFADE_RATE;
          if crossfadeCurrent > crossfadeTarget {
            crossfadeCurrent := crossfadeTarget;
          }
        } else if crossfadeCurrent > crossfadeTarget {
          crossfadeCurrent := crossfadeCurrent - CROSSFADE_RATE;
          if crossfadeCurrent < crossfadeTarget {
            crossfadeCurrent := crossfadeTarget;
          }
        }
        output := x * (volume * crossfadeCurrent);
      } else {
        output := x * volume;
      }
    }

    /** One sample through the chain: looper, pitch shift (only off unity), filter,
        feedback delay, gain with the crossfade step in performance mode. Mute comes
        last: every stage runs, and every new state below is the same, whether or not
        the track is muted; only the returned sample is silenced. */
    method Process(input: real, syncTrigger: bool, m: Numerics) returns (out: real)
      requires Valid()
      modifies this`syncPoint, this`hasContent, this`crossfadeCurrent, this`lastOut
      modifies looper`recording, looper`queued, looper`nearBeginning, looper`fed, looper`lastOut
      modifies looper`reverse, looper`halfSpeed
      modifies pitcher`transposition, pitcher`fed, pitcher`lastOut
      modifies filter`freq, filter`low, filter`fed, delay`front, delay`written
      ensures Valid() && lastOut == out
      ensures looper.fed == old(looper.fed) + [input]
      ensures syncPoint == if syncTrigger && old(looper.nearBeginning) then 0 else old(syncPoint)
      ensures hasContent == (old(hasContent) || (!looper.recording && Abs(looper.lastOut) > AUDIBLE))
      ensures looper.reverse == (reverse || old(looper.reverse))
      ensures looper.halfSpeed == (halfSpeed || old(looper.halfSpeed))
      ensures pitchShift != 1.0 ==>
                pitcher.transposition == 12.0 * m.Log2(pitchShift) && pitcher.fed == old(pitcher.fed) + [looper.lastOut]
      ensures pitchShift == 1.0 ==>
                pitcher.transposition == old(pitcher.transposition) && pitcher.fed == old(pitcher.fed)
      ensures filter.freq == filterCutoff
      ensures filter.fed == old(filter.fed) + [if pitchShift != 1.0 then pitcher.lastOut else looper.lastOut]
      ensures delay.written == old(delay.written) + [DelayInput(filter.low, old(delay.front), feedbackAmount)]
      ensures crossfadeCurrent ==
                if performanceMode then CrossfadeStep(old(crossfadeCurrent), crossfadeTarget) else old(crossfadeCurrent)
      ensures out == if muted then 0.0
                     else Echoed(filter.low, old(delay.front), feedbackAmount) * Gain(volume, performanceMode, crossfadeCurrent)
    {
      var output := RunLooper(input, syncTrigger);
      output := RunEffects(output, m);
      output := ApplyGain(output);
      if muted {
        out := 0.0;
      } else {
        out := output;
      }
      lastOut := out;
    }

    /** What `Process` ensures, together with the fields it leaves alone, is one
        `Processed` step. */
    lemma ProcessedFrom(s0: TrackState, c0: Chain, input: real, syncTrigger: bool, m: Numerics, out: real)
      requires ParamsOf() == s0.params && FlagsOf() == s0.flags
      requires loopLength == s0.progress.loopLength && crossfadeTarget == s0.progress.crossfadeTarget
      requires looper.trigs == s0.loop.trigs && looper.mode == s0.loop.mode && looper.cleared == s0.loop.cleared
      requires looper.fed == s0.loop.fed + [input]
      requires syncPoint == if syncTrigger && c0.nearBeginning then 0 else s0.progress.syncPoint
      requires hasContent == (s0.progress.hasContent || (!looper.recording && Abs(looper.lastOut) > AUDIBLE))
      requires looper.reverse == (reverse || s0.loop.reverse)
      requires looper.halfSpeed == (halfSpeed || s0.loop.halfSpeed)
      requires pitchShift != 1.0 ==>
                 pitcher.transposition == 12.0 * m.Log2(pitchShift) && pitcher.fed == c0.pitcherFed + [looper.lastOut]
      requires pitchShift == 1.0 ==> pitcher.transposition == c0.transposition && pitcher.fed == c0.pitcherFed
      requires filter.freq == filterCutoff
      requires filter.fed == c0.filterFed + [if pitchShift != 1.0 then pitcher.lastOut else looper.lastOut]
      requires delay.written == c0.delayWritten + [DelayInput(filter.low, c0.delayFront, feedbackAmount)]
      requires crossfadeCurrent == Crossfaded(s0.progress, performanceMode)
      requires out == if muted then 0.0
                      else Echoed(filter.low, c0.delayFront, feedbackAmount) * Gain(volume, performanceMode, crossfadeCurrent)
      requires lastOut == out
      ensures Processed(s0, c0, input, syncTrigger, m, Snap())
    {
    }

    /** `Process` seen whole: one `Processed` step of the track's state and chain. */
    method ProcessStep(input: real, syncTrigger: bool, m: Numerics) returns (out: real)
      requires Valid()
      modifies this, looper, pitcher, filter, delay
      ensures Valid() && out == lastOut
      ensures Processed(old(State()), old(ChainOf()), input, syncTrigger, m, Snap())
    {
      ghost var s0, c0 := State(), ChainOf();
      out := Process(input, syncTrigger, m);
      ProcessedFrom(s0, c0, input, syncTrigger, m, out);
    }

    /** `GetStereoOutput`: the processed sample, panned. */
    method GetStereoOutput(input: real, syncTrigger: bool, m: Numerics) returns (left: real, right: real)
      requires Valid()
      modifies this, looper, pitcher, filter, delay
      ensures Valid() && Stepped(old(State()), old(ChainOf()), input, syncTrigger, Snap(), left, right, m)
      ensures old(muted) ==> left == 0.0 && right == 0.0
    {
      var mono := ProcessStep(input, syncTrigger, m);
      var angle := PanAngle(pan);
      left := mono * m.Cos(angle);
      right := mono * m.Sin(angle);
    }

    method TriggerRecord()
      requires Valid()
      modifies looper`recording, looper`queued, looper`cleared, looper`trigs
      ensures Valid() && Triggered(old(State()), State())
    {
      looper.TrigRecord();
    }

    /** Erases the loop and forgets that the track had content. */
    method Clear()
      requires Valid()
      modifies looper`recording, looper`queued, looper`cleared, this`hasContent, this`loopLength
      ensures Valid() && State() == Cleared(old(State()))
    {
      looper.Clear();
      hasContent := false;
      loopLength := 0;
    }

    function IsRecording(): bool
      reads looper
    {
      looper.Recording()
    }

    function IsRecordingQueued(): bool
      reads looper
    {
      looper.RecordingQueued()
    }

    function HasContent(): bool
      reads this
    {
      hasContent
    }

    method SetVolume(vol: real)
      requires Valid()
      modifies this`volume
      ensures Valid() && volume == Clamp(vol, 0.0, 2.0)
    {
      volume := Clamp(vol, 0.0, 2.0);
    }

    method SetPan(p: real)
      requires Valid()
      modifies this`pan
      ensures Valid() && pan == Clamp(p, -1.0, 1.0)
    {
      pan := Clamp(p, -1.0, 1.0);
    }

    method ToggleMute()
      modifies this`muted
      ensures muted == !old(muted)
    {
      muted := !muted;
    }

    method ToggleSolo()
      modifies this`solo
      ensures solo == !old(solo)
    {
      solo := !solo;
    }

    method SetMode(mode: LooperMode)
      requires Valid()
      modifies looper`mode
      ensures Valid() && State() == old(State()).(loop := old(State()).loop.(mode := mode))
    {
      looper.SetMode(mode);
    }

    /** Flips the flag and hands the new value to the looper. */
    method ToggleReverse()
      modifies this`reverse, looper`reverse
      ensures reverse == !old(reverse) && looper.reverse == reverse
    {
      reverse := !reverse;
      looper.SetReverse(reverse);
    }

    /** Flips the flag and hands the new value to the looper. */
    method ToggleHalfSpeed()
      modifies this`halfSpeed, looper`halfSpeed
      ensures halfSpeed == !old(halfSpeed) && looper.halfSpeed == halfSpeed
    {
      halfSpeed := !halfSpeed;
      looper.SetHalfSpeed(halfSpeed);
    }

    method SetPitchShift(ratio: real)
      requires Valid()
      modifies this`pitchShift
      ensures Valid() && pitchShift == Clamp(ratio, 0.25, 4.0)
    {
      pitchShift := Clamp(ratio, 0.25, 4.0);
    }

    method SetFilterCutoff(freq: real)
      requires Valid()
      modifies this`filterCutoff
      ensures Valid() && filterCutoff == Clamp(freq, 50.0, 8000.0)
    {
      filterCutoff := Clamp(freq, 50.0, 8000.0);
    }

    method SetFeedback(amount: real)
      requires Valid()
      modifies this`feedbackAmount
      ensures Valid() && feedbackAmount == Clamp(amount, 0.0, 0.8)
    {
      feedbackAmount := Clamp(amount, 0.0, 0.8);
    }

    method SetPerformanceMode(enabled: bool)
      requires Valid()
      modifies this`performanceMode
      ensures Valid() && State() == Performing(old(State()), enabled)
    {
      performanceMode := enabled;
    }

    /** The body of the knob loop of `UpdateControls` for this track. */
    method TurnKnobs(k: TrackKnobs)
      requires Valid()
      modifies this`volume, this`pan, this`pitchShift, this`filterCutoff, this`feedbackAmount
      ensures Valid() && State() == old(State()).(params := KnobParams(k))
    {
      ghost var flags, progress, loop := FlagsOf(), ProgressOf(), LoopOf();
      SetVolume(k.volume * 2.0);
      SetPan((k.pan - 0.5) * 2.0);
      var pitchRatio := 0.25 + k.pitch * 3.75;
      SetPitchShift(pitchRatio);
      var filterFreq := 50.0 + k.filter * 7950.0;
      SetFilterCutoff(filterFreq);
      SetFeedback(k.feedback);
      assert ParamsOf() == KnobParams(k);
      assert FlagsOf() == flags && ProgressOf() == progress && LoopOf() == loop;
    }

    /** The body of the button loop of `UpdateControls` for this track. */
    method PressButtons(b: TrackButtons)
      requires Valid()
      modifies looper`recording, looper`queued, looper`cleared, looper`trigs, looper`mode
      modifies this`muted, this`solo, this`reverse, this`halfSpeed, looper`reverse, looper`halfSpeed
      ensures Valid() && Pressed(old(State()), State(), b)
    {
      ghost var c0 := State();
      if b.record {
        TriggerRecord();
      }
      ghost var c1 := State();
      PressToggles(b);
      if b.record {
        TriggerThenToggle(c0, c1, b);
      }
    }

    /** The mode, mute, solo, reverse and half-speed buttons of one poll. */
    method PressToggles(b: TrackButtons)
      requires Valid()
      modifies looper`mode, this`muted, this`solo, this`reverse, this`halfSpeed, looper`reverse, looper`halfSpeed
      ensures Valid() && State() == Toggled(old(State()), b)
    {
      PressPlayToggles(b);
      PressMotionToggles(b);
    }

    method PressPlayToggles(b: TrackButtons)
      requires Valid()
      modifies looper`mode, this`muted, this`solo
      ensures Valid() && State() == PlayToggled(old(State()), b)
    {
      if b.mode {
        looper.IncrementMode();
      }
      if b.mute {
        ToggleMute();
      }
      if b.solo {
        ToggleSolo();
      }
    }

    method PressMotionToggles(b: TrackButtons)
      requires Valid()
      modifies this`reverse, this`halfSpeed, looper`reverse, looper`halfSpeed
      ensures Valid() && State() == MotionToggled(old(State()), b)
    {
      if b.reverse {
        ToggleReverse();
      }
      if b.halfSpeed {
        ToggleHalfSpeed();
      }
    }

    method SetCrossfadeTarget(target: real)
      requires Valid()
      modifies this`crossfadeTarget
      ensures Valid() && crossfadeTarget == Clamp(target, 0.0, 1.0)
    {
      crossfadeTarget := Clamp(target, 0.0, 1.0);
    }
  }

  /** `p` performed on one track, through the track's own operations. */
  method Apply(t: AdvancedLooperTrack, p: Phase)
    requires t.Valid()
    modifies t, t.looper
    ensures t.Valid() && Applied(p, old(t.State()), t.State())
  {
    match p
    case KnobsTurned(k) => t.TurnKnobs(k);
    case ButtonsPressed(b) => t.PressButtons(b);
    case ClearPressed => t.Clear();
    case MasterTrigger => t.TriggerRecord();
    case PerformanceSet(enabled) => t.SetPerformanceMode(enabled);
  }

  /** No two tracks share a track object, a looper or an effect. */
  ghost predicate Separate(ts: seq<AdvancedLooperTrack>)
  {
    forall i, j :: 0 <= i < |ts| && 0 <= j < |ts| && i != j ==>
      ts[i] != ts[j] && ts[i].looper != ts[j].looper && ts[i].filter != ts[j].filter &&
      ts[i].pitcher != ts[j].pitcher && ts[i].delay != ts[j].delay
  }

  /** A track that shares nothing with the others can join them. */
  lemma SeparateSnoc(ts: seq<AdvancedLooperTrack>, t: AdvancedLooperTrack)
    requires Separate(ts)
    requires forall i :: 0 <= i < |ts| ==>
               ts[i] != t && ts[i].looper != t.looper && ts[i].filter != t.filter &&
               ts[i].pitcher != t.pitcher && ts[i].delay != t.delay
    ensures Separate(ts + [t])
  {
  }

  /** A new track whose looper is put in `mode`, as `main` sets the tracks up. */
  method NewTrack(sampleRate: real, mode: LooperMode) returns (t: AdvancedLooperTrack)
    ensures fresh(t) && fresh(t.looper) && fresh(t.filter) && fresh(t.pitcher) && fresh(t.delay)
    ensures t.Valid() && t.State() == FreshTrack(mode)
  {
    t := new AdvancedLooperTrack.Init(sampleRate);
    t.SetMode(mode);
  }

  /** `main`'s four tracks, in the normal, one-time-dub, replace and Frippertronics
      modes; `repr` collects the objects they own. */
  method NewTracks(sampleRate: real) returns (ts: seq<AdvancedLooperTrack>, ghost repr: set<object>)
    ensures |ts| == NUM_TRACKS && Separate(ts) && fresh(repr)
    ensures forall i :: 0 <= i < NUM_TRACKS ==>
              ts[i] in repr && ts[i].looper in repr && ts[i].filter in repr &&
              ts[i].pitcher in repr && ts[i].delay in repr
    ensures forall i :: 0 <= i < NUM_TRACKS ==> ts[i].Valid() && ts[i].State() == FreshTrack(START_MODES[i])
  {
    ts, repr := [], {};
    while |ts| < NUM_TRACKS
      invariant |ts| <= NUM_TRACKS && Separate(ts) && fresh(repr)
      invariant forall i :: 0 <= i < |ts| ==>
                  ts[i] in repr && ts[i].looper in repr && ts[i].filter in repr &&
                  ts[i].pitcher in repr && ts[i].delay in repr
      invariant forall i :: 0 <= i < |ts| ==> ts[i].Valid() && ts[i].State() == FreshTrack(START_MODES[i])
    {
      var t := NewTrack(sampleRate, START_MODES[|ts|]);
      SeparateSnoc(ts, t);
      ts, repr := ts + [t], repr + {t, t.looper, t.filter, t.pitcher, t.delay};
    }
  }

  
  /** The device. */
  class FourTrackLooperAdvanced {
    const tracks: seq<AdvancedLooperTrack>
    var masterRecording: bool
    var performanceMode: bool
    var syncEnabled: bool
    var masterVolume: real
    var anySoloActive: bool
    var tempoMultiplier: real
    var masterClock: U32
    /** `UpdateSync`'s static `last_sync`. */
    var lastSync: U32
    var syncTrigger: bool

    /** Every object a track owns. */
    ghost const Repr: set<object>

    /** Every track's `Chain`, in track order. */
    ghost function Chains(): (r: seq<Chain>)
      requires TracksValid()
      reads Repr
      ensures |r| == NUM_TRACKS && forall i :: 0 <= i < NUM_TRACKS ==> r[i] == tracks[i].ChainOf()
    {
      seq(NUM_TRACKS, i requires 0 <= i < NUM_TRACKS reads Repr => tracks[i].ChainOf())
    }

    /** Every track's `Snapshot`, in track order. */
    ghost function Snaps(): (r: seq<Snapshot>)
      requires TracksValid()
      reads Repr
      ensures |r| == NUM_TRACKS && forall i :: 0 <= i < NUM_TRACKS ==> r[i] == tracks[i].Snap()
    {
      seq(NUM_TRACKS, i requires 0 <= i < NUM_TRACKS reads Repr => tracks[i].Snap())
    }

    /** Four well-formed tracks that share no object, all of whose objects, and only
        those, are in `Repr`. */
    ghost predicate TracksValid()
      reads Repr
    {
      |tracks| == NUM_TRACKS && this !in Repr &&
      (forall i :: 0 <= i < NUM_TRACKS ==>
         tracks[i] in Repr && tracks[i].looper in Repr && tracks[i].filter in Repr &&
         tracks[i].pitcher in Repr && tracks[i].delay in Repr) &&
      (forall i :: 0 <= i < NUM_TRACKS ==> tracks[i].Valid()) && Separate(tracks)
    }

    /** The solo flags, in track order. */
    ghost function Solos(): (s: seq<bool>)
      requires TracksValid()
      reads Repr
      ensures |s| == |tracks|
      ensures forall i :: 0 <= i < |tracks| ==> s[i] == tracks[i].solo
    {
      seq(|tracks|, i requires 0 <= i < |tracks| reads Repr => tracks[i].solo)
    }

    /** Between control polls `any_solo_active` says whether some track is soloed, and
        the tempo multiplier lies in the range of the tempo knob. */
    ghost predicate Valid()
      reads this`tempoMultiplier, this`anySoloActive, Repr
    {
      TracksValid() && 0.25 <= tempoMultiplier <= 4.0 && anySoloActive == Any(Solos())
    }

    ghost function Sync(): SyncState
      reads this`masterClock, this`lastSync, this`syncTrigger
    {
      SyncState(masterClock, lastSync, syncTrigger)
    }

    /** `main`'s start-up: four fresh tracks whose loopers start in the normal,
        one-time-dub, replace and Frippertronics modes, and the globals' initial values:
        nothing recording, performance mode off, sync on, unity master volume and tempo,
        the clock at zero. */
    constructor Init(sampleRate: real)
      ensures Valid() && !masterRecording && !performanceMode && syncEnabled
      ensures masterVolume == 1.0 && tempoMultiplier == 1.0 && !anySoloActive
      ensures Sync() == SyncState(0, 0, false)
      ensures forall i :: 0 <= i < NUM_TRACKS ==> tracks[i].State() == FreshTrack(START_MODES[i])
    {
      var ts, repr := NewTracks(sampleRate);
      tracks, Repr := ts, repr;
      masterRecording, performanceMode, syncEnabled := false, false, true;
      masterVolume, anySoloActive, tempoMultiplier := 1.0, false, 1.0;
      masterClock, lastSync, syncTrigger := 0, 0, false;
      new;
      assert !Any(Solos());
    }

    /** `UpdateSync`: one step of the tempo clock at the current tempo. */
    method UpdateSync()
      requires 0.25 <= tempoMultiplier <= 4.0
      modifies this`masterClock, this`lastSync, this`syncTrigger
      ensures Sync() == SyncStep(old(Sync()), syncEnabled, SyncInterval(tempoMultiplier))
    {
      var interval := SyncInterval(tempoMultiplier);
      if syncEnabled && (masterClock - lastSync) % U32_MODULUS >= interval {
        syncTrigger := true;
        lastSync := masterClock;
      } else {
        syncTrigger := false;
      }
      masterClock := (masterClock + 1) % U32_MODULUS;
    }
 
    /** The solo scan at the end of a control poll: is any track soloed? */
    method ScanSolos() returns (any: bool)
      requires TracksValid()
      ensures any == Any(Solos())
    {
      any := false;
      var t := 0;
      while t < NUM_TRACKS
        invariant t <= NUM_TRACKS && !any
        invariant forall j :: 0 <= j < t ==> !tracks[j].solo
      {
        if tracks[t].solo {
          any := true;
          break;
        }
        t := t + 1;
      }
    }

    /** Track `t` takes one `GetStereoOutput` step with this frame's sync trigger;
        every other track's snapshot is as it was. */
    method StepTrack(t: nat, mono: real, m: Numerics) returns (left: real, right: real)
      requires t < NUM_TRACKS && TracksValid()
      modifies tracks[t], tracks[t].looper, tracks[t].pitcher, tracks[t].filter, tracks[t].delay
      ensures TracksValid() && Snaps() == old(Snaps())[t := Snaps()[t]]
      ensures Stepped(old(Snaps())[t].state, old(Snaps())[t].chain, mono, syncTrigger, Snaps()[t], left, right, m)
    {
      left, right := tracks[t].GetStereoOutput(mono, syncTrigger, m);
    }

    /** One iteration of the track loop: track `t` produces its pair, which is added to
        the running sums, and counted, unless a solo is active and the track is not
        soloed. The sums and the count over the first `t` contributors become those over
        the first `t + 1`. */
    method StepAndMix(t: nat, mono: real, m: Numerics, ghost keep: seq<bool>, ghost states: seq<TrackState>,
                      ghost chains: seq<Chain>, ghost solos: seq<bool>, ghost outsL: seq<real>, ghost outsR: seq<real>,
                      mixedLeft: real, mixedRight: real, contributing: nat)
      returns (trackLeft: real, trackRight: real, left: real, right: real, count: nat)
      requires t < NUM_TRACKS && TracksValid() && keep == Contributors(anySoloActive, solos)
      requires Done(t, states, chains, solos, Snaps(), mono, syncTrigger, outsL, outsR, m)
      requires mixedLeft == SumWhere(outsL, keep[..t]) && mixedRight == SumWhere(outsR, keep[..t])
      requires contributing == CountWhere(keep[..t])
      modifies tracks[t], tracks[t].looper, tracks[t].pitcher, tracks[t].filter, tracks[t].delay
      ensures TracksValid()
      ensures Done(t + 1, states, chains, solos, Snaps(), mono, syncTrigger, outsL + [trackLeft], outsR + [trackRight], m)
      ensures left == SumWhere(outsL + [trackLeft], keep[..t + 1])
      ensures right == SumWhere(outsR + [trackRight], keep[..t + 1])
      ensures count == CountWhere(keep[..t + 1])
    {
      ghost var snaps := Snaps();
      trackLeft, trackRight := StepTrack(t, mono, m);
      DoneNext(t, states, chains, solos, snaps, mono, syncTrigger, outsL, outsR, Snaps()[t], trackLeft, trackRight, m);
      assert keep[t] == (!anySoloActive || tracks[t].solo);
      GatherStep(outsL, keep, t, trackLeft);
      GatherStep(outsR, keep, t, trackRight);
      left, right, count := mixedLeft, mixedRight, contributing;
      if anySoloActive {
        if tracks[t].solo {
          left := left + trackLeft;
          right := right + trackRight;
          count := count + 1;
        }
      } else {
        left := left + trackLeft;
        right := right + trackRight;
        count := count + 1;
      }
    }

    /** The track loop of a frame: every track produces its stereo pair from the mono
        input and this frame's sync trigger, in track order and whether or not it is
        heard; the pairs of the contributors summed per channel and counted. `keep`
        names the contributors: the soloed tracks while a solo is active, all tracks
        otherwise. */
    method ProcessTracks(mono: real, m: Numerics, ghost keep: seq<bool>)
      returns (mixedLeft: real, mixedRight: real, contributing: nat, ghost outsL: seq<real>, ghost outsR: seq<real>)
      requires Valid() && keep == Contributors(anySoloActive, Solos())
      modifies Repr
      ensures Valid() && |outsL| == NUM_TRACKS && |outsR| == NUM_TRACKS
      ensures AllStepped(old(States()), old(Chains()), mono, syncTrigger, Snaps(), outsL, outsR, m)
      ensures Solos() == old(Solos()) && keep == Contributors(Any(Solos()), Solos())
      ensures mixedLeft == SumWhere(outsL, keep) && mixedRight == SumWhere(outsR, keep)
      ensures contributing == CountWhere(keep)
    {
      ghost var states, chains, solos := States(), Chains(), Solos();
      mixedLeft, mixedRight, contributing := 0.0, 0.0, 0;
      outsL, outsR := [], [];
      for t := 0 to NUM_TRACKS
        invariant TracksValid() && Done(t, states, chains, solos, Snaps(), mono, syncTrigger, outsL, outsR, m)
        invariant mixedLeft == SumWhere(outsL, keep[..t]) && mixedRight == SumWhere(outsR, keep[..t])
        invariant contributing == CountWhere(keep[..t])
      {
        var trackLeft, trackRight;
        trackLeft, trackRight, mixedLeft, mixedRight, contributing :=
          StepAndMix(t, mono, m, keep, states, chains, solos, outsL, outsR, mixedLeft, mixedRight, contributing);
        outsL, outsR := outsL + [trackLeft], outsR + [trackRight];
      }
      assert keep[..NUM_TRACKS] == keep;
      DoneAll(states, chains, solos, Snaps(), mono, syncTrigger, outsL, outsR, m);
    }

    /** The end of one channel's chain: normalised by the square root of the number of
        contributors when there are any, scaled by the master volume, topped up with the
        channel's dry input and soft-limited. */
    method FinishChannel(mixed: real, contributing: nat, dry: real, m: Numerics) returns (out: real)
      requires m.SqrtPositive()
      ensures out == SoftLimit(MasterStage(SqrtNormalise(mixed, contributing, m), masterVolume, dry), m)
    {
      out := mixed;
      if contributing > 0 {
        var mixLevel := 1.0 / m.Sqrt(contributing as real);
        out := out * mixLevel;
      }
      out := out * masterVolume;
      out := out + dry * DRY_LEVEL;
      assert out == MasterStage(SqrtNormalise(mixed, contributing, m), masterVolume, dry);
      out := m.Tanh(out * LIMIT_DRIVE);
    }

    /** `AudioCallback` for one frame: the tempo clock ticks, then the track loop, then
        both channels are finished alike. `outsL` and `outsR` are the tracks' stereo
        pairs of the frame. */
    method AudioFrame(inLeft: real, inRight: real, m: Numerics)
      returns (left: real, right: real, ghost outsL: seq<real>, ghost outsR: seq<real>)
      requires Valid() && m.SqrtPositive()
      modifies this`masterClock, this`lastSync, this`syncTrigger, Repr
      ensures Valid()
      ensures Sync() == SyncStep(old(Sync()), syncEnabled, SyncInterval(tempoMultiplier))
      ensures |outsL| == NUM_TRACKS && |outsR| == NUM_TRACKS
      ensures AllStepped(old(States()), old(Chains()), Mono(inLeft, inRight), syncTrigger, Snaps(), outsL, outsR, m)
      ensures left == StereoChannel(outsL, Solos(), masterVolume, inLeft, m)
      ensures right == StereoChannel(outsR, Solos(), masterVolume, inRight, m)
    {
      ghost var states, chains := States(), Chains();
      UpdateSync();
      assert States() == states && Chains() == chains;
      var mono := Mono(inLeft, inRight);
      ghost var keep := Contributors(anySoloActive, Solos());
      var mixedLeft, mixedRight, contributing;
      mixedLeft, mixedRight, contributing, outsL, outsR := ProcessTracks(mono, m, keep);
      left, right := FinishFrame(mixedLeft, mixedRight, contributing, inLeft, inRight, m, outsL, outsR, Solos());
    }

    /** Both channels finished alike from the sums and count of the contributors among
        the track pairs `outsL` and `outsR` under the solo flags `solos`. */
    method FinishFrame(mixedLeft: real, mixedRight: real, contributing: nat, inLeft: real, inRight: real, m: Numerics,
                       ghost outsL: seq<real>, ghost outsR: seq<real>, ghost solos: seq<bool>)
      returns (left: real, right: real)
      requires m.SqrtPositive() && |outsL| == |solos| && |outsR| == |solos|
      requires mixedLeft == SumWhere(outsL, Contributors(Any(solos), solos))
      requires mixedRight == SumWhere(outsR, Contributors(Any(solos), solos))
      requires contributing == CountWhere(Contributors(Any(solos), solos))
      ensures left == StereoChannel(outsL, solos, masterVolume, inLeft, m)
      ensures right == StereoChannel(outsR, solos, masterVolume, inRight, m)
    {
      left := FinishChannel(mixedLeft, contributing, inLeft, m);
      right := FinishChannel(mixedRight, contributing, inRight, m);
    }

    /** Every track's control-poll state, in track order. */
    ghost function States(): (r: seq<TrackState>)
      requires TracksValid()
      reads Repr
      ensures |r| == NUM_TRACKS && forall i :: 0 <= i < NUM_TRACKS ==> r[i] == tracks[i].State()
    {
      seq(NUM_TRACKS, i requires 0 <= i < NUM_TRACKS reads Repr => tracks[i].State())
    }

    /** One iteration of a control loop: `p` applied to track `i`, the others left alone. */
    method ApplyTo(i: nat, p: Phase)
      requires TracksValid() && i < NUM_TRACKS
      modifies tracks[i], tracks[i].looper
      ensures TracksValid() && Applied(p, old(tracks[i].State()), tracks[i].State())
      ensures forall j :: 0 <= j < NUM_TRACKS && j != i ==> tracks[j].State() == old(tracks[j].State())
    {
      Apply(tracks[i], p);
    }

    /** A control loop over the tracks: `ps[i]` applied to track `i`, in track order. */
    method ApplyAll(ps: seq<Phase>)
      requires TracksValid() && |ps| == NUM_TRACKS
      modifies Repr
      ensures TracksValid() && Phased(true, ps, old(States()), States())
    {
      ghost var s0 := States();
      for i := 0 to NUM_TRACKS
        invariant TracksValid()
        invariant forall j :: 0 <= j < i ==> Applied(ps[j], s0[j], tracks[j].State())
        invariant forall j :: i <= j < NUM_TRACKS ==> tracks[j].State() == s0[j]
      {
        ApplyTo(i, ps[i]);
      }
    }

    /** The five loops of the control poll over the tracks, in the order the poll runs
        them: knobs, buttons, clear-all when `clear`, the master record trigger when
        `fire`, and the performance broadcast of `performance` when `setPerformance`. */
    method PollTracks(knobs: seq<TrackKnobs>, buttons: seq<TrackButtons>, clear: bool, fire: bool,
                      setPerformance: bool, performance: bool)
      requires TracksValid() && |knobs| == NUM_TRACKS && |buttons| == NUM_TRACKS
      modifies Repr
      ensures TracksValid()
      ensures AllPolled(old(States()), States(), knobs, buttons, clear, fire, setPerformance, performance)
    {
      ghost var s0 := States();
      ApplyAll(KnobPhases(knobs));
      ghost var s1 := States();
      ApplyAll(ButtonPhases(buttons));
      ghost var s2 := States();
      if clear {
        ApplyAll(Each(ClearPressed));
      }
      ghost var s3 := States();
      if fire {
        ApplyAll(Each(MasterTrigger));
      }
      ghost var s4 := States();
      if setPerformance {
        ApplyAll(Each(PerformanceSet(performance)));
      }
      PollAll(s0, s1, s2, s3, s4, States(), knobs, buttons, clear, fire, setPerformance, performance);
    }

    /** The master knobs and buttons of a control poll, and the solo flag it rescans:
        the volume and tempo knobs mapped, each pressed button's state toggled, the
        tracks untouched. */
    method PollMaster(masterKnob: real, tempoKnob: real, masterRecord: bool, performanceButton: bool,
                      syncButton: bool, anySolo: bool)
      requires TracksValid() && anySolo == Any(Solos()) && 0.0 <= tempoKnob <= 1.0
      modifies this`masterVolume, this`tempoMultiplier, this`masterRecording, this`performanceMode,
               this`syncEnabled, this`anySoloActive
      ensures Valid() && States() == old(States())
      ensures masterVolume == masterKnob * 2.0 && tempoMultiplier == 0.25 + tempoKnob * 3.75
      ensures masterRecording == (old(masterRecording) != masterRecord)
      ensures performanceMode == (old(performanceMode) != performanceButton)
      ensures syncEnabled == (old(syncEnabled) != syncButton)
      ensures anySoloActive == anySolo
    {
      masterVolume := masterKnob * 2.0;
      tempoMultiplier := 0.25 + tempoKnob * 3.75;
      masterRecording := masterRecording != masterRecord;
      performanceMode := performanceMode != performanceButton;
      syncEnabled := syncEnabled != syncButton;
      anySoloActive := anySolo;
    }

    /** The control poll: the per-track knobs, the master volume and tempo knobs, the
        per-track buttons, then clear-all, master record, the performance button and
        the sync button, and finally the solo scan. `knobs` and `buttons` are indexed by
        track; the knobs read in [0, 1] and the buttons stand for their rising edges.
        Each track ends up as `Polled` describes, with master record firing when it
        switches on; the master state toggles and the solo flag is rescanned. The track
        loops touch no field of the device, so they run together in `PollTracks`, and the
        master state is stored after them. */
    method UpdateControls(knobs: seq<TrackKnobs>, buttons: seq<TrackButtons>, masterKnob: real, tempoKnob: real,
                          clear: bool, masterRecord: bool, performanceButton: bool, syncButton: bool)
      requires Valid() && |knobs| == NUM_TRACKS && |buttons| == NUM_TRACKS && 0.0 <= tempoKnob <= 1.0
      modifies this`masterVolume, this`tempoMultiplier, this`masterRecording, this`performanceMode,
               this`syncEnabled, this`anySoloActive, Repr
      ensures Valid()
      ensures masterVolume == masterKnob * 2.0 && tempoMultiplier == 0.25 + tempoKnob * 3.75
      ensures masterRecording == (old(masterRecording) != masterRecord)
      ensures performanceMode == (old(performanceMode) != performanceButton)
      ensures syncEnabled == (old(syncEnabled) != syncButton)
      ensures AllPolled(old(States()), States(), knobs, buttons, clear,
                        masterRecord && !old(masterRecording), performanceButton, performanceMode)
    {
      var fire := masterRecord && !masterRecording;
      var performance := performanceMode != performanceButton;
      PollTracks(knobs, buttons, clear, fire, performanceButton, performance);
      var anySolo := ScanSolos();
      PollMaster(masterKnob, tempoKnob, masterRecord, performanceButton, syncButton, anySolo);
    }
  }
}
