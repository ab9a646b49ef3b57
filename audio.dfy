/** Sample-level helpers shared by the four looper programs: the signed 16-bit tape
    sample, the float <-> int16 conversion of the tape machine, the `fclamp` that every
    parameter setter uses, and the floating-point library functions the mixers call.

    Audio signals are modelled as reals: float rounding is not part of the model. */
module Audio {

  /** A signed 16-bit tape sample (`int16_t`). */
  newtype Sample = x: int | -32768 <= x <= 32767

  /** Full-scale factor of the tape conversion (`32767.0f`). */
  const FULL_SCALE: real := 32767.0

  function Abs(x: real): real { if x < 0.0 then -x else x }

  /** C's float-to-integer cast: truncation toward zero. */
  function Trunc(x: real): (n: int)
    ensures 0.0 <= x ==> 0 <= n && n as real <= x < n as real + 1.0
    ensures x < 0.0 ==> n <= 0 && n as real - 1.0 < x <= n as real
  {
    if x >= 0.0 then x.Floor else -((-x).Floor)
  }

  /** `static_cast<int16_t>(x * 32767.0f)`, for the values where that cast is defined.
      The result is the full-scale product with its fraction dropped toward zero. */
  function Quantize(x: real): (s: Sample)
    requires -1.0 <= x <= 1.0
    ensures -32767 <= s <= 32767
    ensures Abs(s as real - x * FULL_SCALE) < 1.0
    ensures 0.0 <= x ==> 0 <= s
    ensures x <= 0.0 ==> s <= 0
  {
    Trunc(x * FULL_SCALE) as Sample
  }

  /** `static_cast<float>(s) / 32767.0f`. */
  function Dequantize(s: Sample): real
  {
    s as real / FULL_SCALE
  }

  /** Reading back what was stored loses less than one quantisation step. */
  lemma QuantizeRoundTrip(x: real)
    requires -1.0 <= x <= 1.0
    ensures Abs(Dequantize(Quantize(x)) - x) < 1.0 / FULL_SCALE
  {
    var s := Quantize(x);
    assert Dequantize(s) - x == (s as real - x * FULL_SCALE) / FULL_SCALE;
  }

  /** `fclamp(x, lo, hi)`: x pulled into [lo, hi]. */
  function Clamp(x: real, lo: real, hi: real): (r: real)
    requires lo <= hi
    ensures lo <= r <= hi
    ensures lo <= x <= hi ==> r == x
    ensures x < lo ==> r == lo
    ensures hi < x ==> r == hi
  {
    if x < lo then lo else if hi < x then hi else x
  }

  /** The value the tape stores for a signal level x. For |x| <= 1 this is exactly the
      source's cast; beyond that the level saturates at full scale (see the overdub
      finding below, where the source's cast is undefined). */
  function ToSample(x: real): (s: Sample)
    ensures -1.0 <= x <= 1.0 ==> s == Quantize(x)
    ensures 1.0 < x ==> s == 32767
    ensures x < -1.0 ==> s == -32767
  {
    Quantize(Clamp(x, -1.0, 1.0))
  }

  /** The level an overdub writes back: `(existing + input) * 0.7`. */
  function OverdubMix(existing: Sample, input: real): real
  {
    (Dequantize(existing) + input) * 0.7
  }

  /** The integer the overdub store asks `static_cast<int16_t>` to produce, as the code is
      written: the mixed level times full scale, truncated, with no limiting. */
  function OverdubStoreAsWritten(existing: Sample, input: real): (n: int)
    ensures Abs(n as real - OverdubMix(existing, input) * FULL_SCALE) < 1.0
  {
    Trunc(OverdubMix(existing, input) * FULL_SCALE)
  }

  /** Overdubbing a full-scale input onto full-scale material asks for 45873, which no
      int16 holds: the source's cast is undefined there (and wraps to a negative sample
      on the target hardware). */
  lemma OverdubStoreOverflows()
    ensures OverdubStoreAsWritten(32767, 1.0) == 45873
    ensures !(-32768 <= OverdubStoreAsWritten(32767, 1.0) <= 32767)
  {
    assert Dequantize(32767) == 1.0;
    assert OverdubMix(32767, 1.0) * FULL_SCALE == 45873.8;
  }

  /** The corrected store: every overdub level, however loud, is written as the nearest
      representable sample, with the sign of the level kept. */
  lemma OverdubStoreSaturates(existing: Sample, input: real)
    ensures var s := ToSample(OverdubMix(existing, input));
            -32767 <= s <= 32767 &&
            (0.0 <= OverdubMix(existing, input) ==> 0 <= s) &&
            (OverdubMix(existing, input) <= 0.0 ==> s <= 0) &&
            (Abs(OverdubMix(existing, input)) <= 1.0 ==>
               Abs(s as real - OverdubMix(existing, input) * FULL_SCALE) < 1.0)
  {
  }

  /** The floating-point library functions the mixers and effects call (`sqrtf`, `tanhf`,
      `cosf`, `sinf`, `log2f`). They are left uninterpreted: every member that needs one
      receives them as a parameter, so nothing proved depends on their values. Code uses
      them through the member functions, which give one value per argument wherever
      they are called. */
  datatype Numerics = Numerics(
    sqrt: real -> real,
    tanh: real -> real,
    cos: real -> real,
    sin: real -> real,
    log2: real -> real)
  {
    function Sqrt(x: real): real { sqrt(x) }
    function Tanh(x: real): real { tanh(x) }
    function Cos(x: real): real { cos(x) }
    function Sin(x: real): real { sin(x) }
    function Log2(x: real): real { log2(x) }

    /** The one fact the mixers rely on: the square root of a positive count is
        positive, so dividing by it is defined. */
    ghost predicate SqrtPositive()
    {
      forall x :: 0.0 < x ==> 0.0 < Sqrt(x)
    }
  }
}
