/** The DaisySP building blocks the tracks wrap: the closed-loop recorder `Looper` and the
    effects `PitchShifter`, `Svf` and `DelayLine`. Their internals belong to the library,
    so each class keeps only the state its contract mentions. Where the library computes
    something the model cannot see (an output sample, whether a queued overdub has begun,
    a filter's response) the body picks an arbitrary value, so whatever is proved about a
    track holds for every behaviour the contract allows. */
module Primitives {

  /** The looper's recording modes, in the order `IncrementMode` cycles through them. */
  datatype LooperMode = Normal | OnetimeDub | Replace | Frippertronics

  function NextMode(m: LooperMode): (n: LooperMode)
    ensures n != m
  {
    match m
    case Normal => OnetimeDub
    case OnetimeDub => Replace
    case Replace => Frippertronics
    case Frippertronics => Normal
  }

  /** The closed-loop recorder. `recording` is what `Recording()` reports. */
  class Looper {
    var recording: bool
    var queued: bool
    var nearBeginning: bool
    var mode: LooperMode
    var reverse: bool
    var halfSpeed: bool
    /** Empty and idle (the library's empty state): nothing recorded since the last
        `Clear` and no trigger since. */
    var cleared: bool
    /** How many times `TrigRecord` has been called. */
    ghost var trigs: nat
    /** Every sample passed to `Process`, in order. */
    ghost var fed: seq<real>
    /** What the last `Process` call returned. */
    ghost var lastOut: real

    ghost predicate Valid()
      reads this`cleared, this`recording, this`queued
    {
      cleared ==> !recording && !queued
    }

    /** `Init(buffer, size)`: an empty looper in the normal mode. */
    constructor Init(size: nat)
      ensures Valid() && cleared && !recording && !queued
      ensures trigs == 0 && fed == [] && lastOut == 0.0
      ensures mode == Normal && !reverse && !halfSpeed
    {
      recording, queued, nearBeginning := false, false, true;
      mode, reverse, halfSpeed := Normal, false, false;
      cleared := true;
      trigs, fed, lastOut := 0, [], 0.0;
    }

    function Recording(): bool
      reads this
    {
      recording
    }

    function RecordingQueued(): bool
      reads this
    {
      queued
    }

    function IsNearBeginning(): bool
      reads this
    {
      nearBeginning
    }

    function GetMode(): LooperMode
      reads this
    {
      mode
    }

    /** One sample through the loop. An empty looper stays empty and silent; otherwise the
        output, and whether recording is still running, are the library's business. */
    method Process(input: real) returns (out: real)
      requires Valid()
      modifies this`recording, this`queued, this`nearBeginning, this`fed, this`lastOut
      ensures Valid()
      ensures fed == old(fed) + [input] && lastOut == out
      ensures old(cleared) ==> out == 0.0 && !recording && !queued
    {
      fed := fed + [input];
      if cleared {
        out := 0.0;
      } else {
        out :| true;
        var rec: bool, q: bool :| true;
        recording, queued := rec, q;
      }
      var nb: bool :| true;
      nearBeginning := nb;
      lastOut := out;
    }

    /** The record trigger. On an empty looper it starts the first pass at once; while
        recording it ends the pass; while playing, what happens depends on the mode. */
    method TrigRecord()
      requires Valid()
      modifies this`recording, this`queued, this`cleared, this`trigs
      ensures Valid() && trigs == old(trigs) + 1 && !cleared
      ensures old(cleared) ==> recording
      ensures old(recording) ==> !recording
    {
      if cleared {
        recording := true;
      } else if recording {
        recording := false;
      } else {
        var rec: bool, q: bool :| true;
        recording, queued := rec, q;
      }
      cleared := false;
      trigs := trigs + 1;
    }

    /** Erases the loop and stops recording. */
    method Clear()
      requires Valid()
      modifies this`recording, this`queued, this`cleared
      ensures Valid() && cleared && !recording && !queued
    {
      recording, queued, cleared := false, false, true;
    }

    method SetMode(m: LooperMode)
      modifies this`mode
      ensures mode == m
    {
      mode := m;
    }

    method IncrementMode()
      modifies this`mode
      ensures mode == NextMode(old(mode))
    {
      mode := NextMode(mode);
    }

    method SetReverse(r: bool)
      modifies this`reverse
      ensures reverse == r
    {
      reverse := r;
    }

    method ToggleReverse()
      modifies this`reverse
      ensures reverse == !old(reverse)
    {
      reverse := !reverse;
    }

    method SetHalfSpeed(h: bool)
      modifies this`halfSpeed
      ensures halfSpeed == h
    {
      halfSpeed := h;
    }

    method ToggleHalfSpeed()
      modifies this`halfSpeed
      ensures halfSpeed == !old(halfSpeed)
    {
      halfSpeed := !halfSpeed;
    }
  }

  /** Pitch shifter: a transposition in semitones and a stream of processed samples. */
  class PitchShifter {
    ghost var transposition: real
    ghost var fed: seq<real>
    ghost var lastOut: real

    constructor Init(sampleRate: real)
      ensures transposition == 0.0 && fed == []
    {
      transposition, fed, lastOut := 0.0, [], 0.0;
    }

    method SetTransposition(semitones: real)
      modifies this`transposition
      ensures transposition == semitones
    {
      transposition := semitones;
    }

    method Process(x: real) returns (y: real)
      modifies this`fed, this`lastOut
      ensures fed == old(fed) + [x] && lastOut == y
    {
      y :| true;
      fed, lastOut := fed + [x], y;
    }
  }

  /** State-variable filter; `Low()` is its low-pass output after the last `Process`. */
  class Svf {
    var freq: real
    var low: real
    ghost var fed: seq<real>

    constructor Init(sampleRate: real)
      ensures fed == [] && low == 0.0
    {
      freq, low, fed := 1000.0, 0.0, [];
    }

    method SetFreq(f: real)
      modifies this`freq
      ensures freq == f
    {
      freq := f;
    }

    method Process(x: real)
      modifies this`low, this`fed
      ensures fed == old(fed) + [x]
    {
      var y: real :| true;
      low, fed := y, fed + [x];
    }

    function Low(): real
      reads this
    {
      low
    }
  }

  /** Fixed-length delay line: `Read()` gives the delayed sample, `Write` pushes one in. */
  class DelayLine {
    var front: real
    ghost var written: seq<real>

    constructor Init()
      ensures front == 0.0 && written == []
    {
      front, written := 0.0, [];
    }

    function Read(): real
      reads this
    {
      front
    }

    method Write(x: real)
      modifies this`front, this`written
      ensures written == old(written) + [x]
    {
      var d: real :| true;
      front, written := d, written + [x];
    }
  }
}
