/** The selection arithmetic shared by the four summing mixers: which tracks contribute to
    a frame, what they sum to and how many there are. Per-track flags and samples are
    sequences indexed by track number, in the order the callbacks visit the tracks. */
module MixBus {
  import opened Audio

  /** The callbacks' mono input: the average of the two channels. */
  function Mono(inLeft: real, inRight: real): real
  {
    (inLeft + inRight) * 0.5
  }

  /** Some flag is set: `any_solo_active`, `any_recording`. */
  predicate Any(flags: seq<bool>)
  {
    exists i :: 0 <= i < |flags| && flags[i]
  }

  /** Left-to-right sum, the order in which the callbacks accumulate. */
  function Sum(xs: seq<real>): real
  {
    if xs == [] then 0.0 else Sum(xs[..|xs| - 1]) + xs[|xs| - 1]
  }

  /** Sum of the samples whose flag is set. */
  function SumWhere(xs: seq<real>, keep: seq<bool>): real
    requires |xs| == |keep|
  {
    if xs == [] then 0.0
    else SumWhere(xs[..|xs| - 1], keep[..|keep| - 1]) + (if keep[|keep| - 1] then xs[|xs| - 1] else 0.0)
  }

  /** Number of set flags. */
  function CountWhere(keep: seq<bool>): nat
  {
    if keep == [] then 0 else CountWhere(keep[..|keep| - 1]) + (if keep[|keep| - 1] then 1 else 0)
  }

  /** The solo rule of the mixers: while some solo is active only soloed tracks
      contribute; otherwise every track does. Mute plays no part in it. */
  function Contributors(anySoloActive: bool, solos: seq<bool>): (keep: seq<bool>)
    ensures |keep| == |solos|
    ensures forall i :: 0 <= i < |solos| ==> (keep[i] <==> !anySoloActive || solos[i])
  {
    seq(|solos|, i requires 0 <= i < |solos| => !anySoloActive || solos[i])
  }

  /** The level a track output must exceed to count as sounding (`0.001f`). */
  const AUDIBLE: real := 0.001

  /** The audibility gate of the simple looper: a track contributes when |x| > 0.001. */
  function Audible(xs: seq<real>): (keep: seq<bool>)
    ensures |keep| == |xs|
    ensures forall i :: 0 <= i < |xs| ==> (keep[i] <==> Abs(xs[i]) > AUDIBLE)
  {
    seq(|xs|, i requires 0 <= i < |xs| => Abs(xs[i]) > AUDIBLE)
  }

  /** One more track folded into the running sum and count: the step of every mix loop. */
  lemma AccumulateStep(xs: seq<real>, keep: seq<bool>, t: nat)
    requires |xs| == |keep| && t < |xs|
    ensures SumWhere(xs[..t + 1], keep[..t + 1]) == SumWhere(xs[..t], keep[..t]) + (if keep[t] then xs[t] else 0.0)
    ensures CountWhere(keep[..t + 1]) == CountWhere(keep[..t]) + (if keep[t] then 1 else 0)
    ensures Sum(xs[..t + 1]) == Sum(xs[..t]) + xs[t]
  {
    assert xs[..t + 1][..t] == xs[..t];
    assert keep[..t + 1][..t] == keep[..t];
  }

  /** The same step for a mix loop that collects the outputs as it goes: `outs` are
      the first `t` outputs and `y` is track `t`'s. */
  lemma GatherStep(outs: seq<real>, keep: seq<bool>, t: nat, y: real)
    requires |outs| == t < |keep|
    ensures SumWhere(outs + [y], keep[..t + 1]) == SumWhere(outs, keep[..t]) + (if keep[t] then y else 0.0)
    ensures CountWhere(keep[..t + 1]) == CountWhere(keep[..t]) + (if keep[t] then 1 else 0)
  {
    assert (outs + [y])[..t] == outs;
    assert keep[..t + 1][..t] == keep[..t];
  }

  /** The count is at most the number of tracks; it is zero exactly when no flag is set
      and full exactly when every flag is set. */
  lemma {:induction false} CountWhereBounds(keep: seq<bool>)
    ensures CountWhere(keep) <= |keep|
    ensures CountWhere(keep) == 0 <==> !Any(keep)
    ensures CountWhere(keep) == |keep| <==> forall i :: 0 <= i < |keep| ==> keep[i]
  {
    if keep != [] {
      var init := keep[..|keep| - 1];
      CountWhereBounds(init);
      assert forall i :: 0 <= i < |init| ==> init[i] == keep[i];
      if !keep[|keep| - 1] {
        assert !(forall i :: 0 <= i < |keep| ==> keep[i]);
      }
      if Any(init) {
        var j :| 0 <= j < |init| && init[j];
        assert keep[j];
      }
      if Any(keep) && !keep[|keep| - 1] {
        var j :| 0 <= j < |keep| && keep[j];
        assert init[j];
      }
    }
  }

  /** Contributor counting under the solo rule: with a solo active the count is the
      number of soloed tracks, at least one; otherwise it is every track. */
  lemma SoloCount(solos: seq<bool>)
    ensures var keep := Contributors(Any(solos), solos);
            (Any(solos) ==> CountWhere(keep) == CountWhere(solos) >= 1) &&
            (!Any(solos) ==> CountWhere(keep) == |solos|)
  {
    var keep := Contributors(Any(solos), solos);
    CountWhereBounds(keep);
    if Any(solos) {
      assert keep == solos;
      CountWhereBounds(solos);
    }
  }

  /** A track that does not contribute is excluded entirely: whatever it outputs, the
      sum is the same. */
  lemma {:induction false} ExcludedTrackIgnored(xs: seq<real>, keep: seq<bool>, i: nat, y: real)
    requires |xs| == |keep| && i < |xs| && !keep[i]
    ensures SumWhere(xs[i := y], keep) == SumWhere(xs, keep)
  {
    var n := |xs| - 1;
    if i < n {
      assert xs[i := y][..n] == xs[..n][i := y];
      ExcludedTrackIgnored(xs[..n], keep[..n], i, y);
    } else {
      assert xs[i := y][..n] == xs[..n];
    }
  }

  /** With every flag set the gated sum is the plain sum. */
  lemma {:induction false} SumWhereAll(xs: seq<real>, keep: seq<bool>)
    requires |xs| == |keep|
    requires forall i :: 0 <= i < |keep| ==> keep[i]
    ensures SumWhere(xs, keep) == Sum(xs)
  {
    if xs != [] {
      SumWhereAll(xs[..|xs| - 1], keep[..|keep| - 1]);
    }
  }

  /** When every contributor lies in the full-scale range [-1, 1], a gated sum is no
      larger in magnitude than the number of contributors. */
  lemma {:induction false} SumWhereBound(xs: seq<real>, keep: seq<bool>)
    requires |xs| == |keep|
    requires forall i :: 0 <= i < |xs| && keep[i] ==> Abs(xs[i]) <= 1.0
    ensures Abs(SumWhere(xs, keep)) <= CountWhere(keep) as real
  {
    if xs != [] {
      var n := |xs| - 1;
      var init, flags := xs[..n], keep[..n];
      forall i | 0 <= i < n && flags[i]
        ensures Abs(init[i]) <= 1.0
      {
        assert flags[i] == keep[i] && init[i] == xs[i];
      }
      SumWhereBound(init, flags);
    }
  }
}
