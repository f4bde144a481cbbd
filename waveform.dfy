/**
 * The waveform envelope of app/BufferViewer.js: `getAmplitudes` samples a
 * stereo buffer at `width` evenly spaced indices, takes the square root of the
 * magnitude of the channel mean at each, and `normalizeAmplitudes` divides by
 * the largest value. The square root is a parameter `root`, assumed to map
 * non-negative reals to non-negative reals; its precision is not modelled.
 */
module Waveform {
  import opened Optional

  /** The sample data of channels 0 and 1 of an audio buffer. */
  datatype AudioData = AudioData(left: seq<real>, right: seq<real>)

  function Abs(x: real): real
  {
    if x < 0.0 then -x else x
  }

  /** A square-root-like function: non-negative on non-negative input. */
  ghost predicate NonNegativeOnNonNegative(root: real -> real)
  {
    forall x :: x >= 0.0 ==> root(x) >= 0.0
  }

  /**
   * `samplesPerPixel = Math.floor(length / width)`: every index
   * `i * samplesPerPixel` with `i < width` lies inside a non-empty buffer.
   */
  lemma SampleIndexInBounds(length: nat, width: nat, i: nat)
    requires length > 0 && i < width
    ensures i * (length / width) < length
  {
    var spp := length / width;
    assert width * spp <= length;
    if spp > 0 {
      ScaleIsStrict(i, width, spp);
    }
  }

  /** Scaling by a positive factor keeps a strict order. */
  lemma {:induction false} ScaleIsStrict(i: nat, width: nat, spp: nat)
    requires i < width && spp > 0
    ensures i * spp < width * spp
    decreases width - i
  {
    if i + 1 < width {
      ScaleIsStrict(i + 1, width, spp);
    }
    assert (i + 1) * spp == i * spp + spp;
  }

  /** The raw amplitude for pixel `i`: `Math.pow(Math.abs((l + r) / 2), 0.5)`. */
  function RawAmplitude(data: AudioData, width: nat, root: real -> real, i: nat): real
    requires |data.left| == |data.right| && |data.left| > 0 && i < width
  {
    SampleIndexInBounds(|data.left|, width, i);
    var sampleIndex := i * (|data.left| / width);
    root(Abs((data.left[sampleIndex] + data.right[sampleIndex]) / 2.0))
  }

  /** The amplitudes that `getAmplitudes` pushes, one per pixel column. */
  function RawAmplitudes(data: AudioData, width: nat, root: real -> real): seq<real>
    requires |data.left| == |data.right| && |data.left| > 0
  {
    seq(width, i requires 0 <= i < width => RawAmplitude(data, width, root, i))
  }

  /** The raw amplitudes are `width` many, and none is negative. */
  lemma RawAmplitudesShape(data: AudioData, width: nat, root: real -> real)
    requires |data.left| == |data.right| && |data.left| > 0
    requires NonNegativeOnNonNegative(root)
    ensures |RawAmplitudes(data, width, root)| == width
    ensures forall i :: 0 <= i < width ==> RawAmplitudes(data, width, root)[i] >= 0.0
  {
  }

  /**
   * `amplitudes.reduce((a, b) => (b > a) ? b : a)`: with no initial value the
   * fold starts from the first element, so the input must not be empty.
   */
  function Peak(s: seq<real>): (m: real)
    requires |s| > 0
    ensures m in s
    ensures forall i :: 0 <= i < |s| ==> s[i] <= m
  {
    if |s| == 1 then s[0]
    else
      var m := Peak(s[..|s| - 1]);
      assert forall i :: 0 <= i < |s| - 1 ==> s[..|s| - 1][i] == s[i];
      if s[|s| - 1] > m then s[|s| - 1] else m
  }

  /**
   * `normalizeAmplitudes(amplitudes)`. An empty list makes `reduce` throw, and
   * a peak of 0 makes every quotient NaN or infinite; both are `None`.
   */
  function NormalizeAmplitudes(amps: seq<real>): (r: Option<seq<real>>)
    ensures r.None? <==> amps == [] || Peak(amps) == 0.0
    ensures r.Some? ==> |r.value| == |amps| &&
                        forall i :: 0 <= i < |amps| ==> r.value[i] * Peak(amps) == amps[i]
  {
    if amps == [] || Peak(amps) == 0.0 then None
    else Some(seq(|amps|, i requires 0 <= i < |amps| => amps[i] / Peak(amps)))
  }

  /** A share `a / p` of a positive whole `p`, with `0 <= a <= p`, lies in [0, 1], and is 1 only for `a == p`. */
  lemma QuotientBounds(a: real, p: real)
    requires 0.0 <= a <= p && p > 0.0
    ensures 0.0 <= a / p <= 1.0
    ensures a / p == 1.0 <==> a == p
  {
    var q := a / p;
    assert q * p == a;
    assert (1.0 - q) * p == p - a;
  }

  /**
   * For non-negative amplitudes with a positive peak, every normalised value
   * lies in [0, 1] and the peak's positions map to exactly 1.
   */
  lemma NormalizedRange(amps: seq<real>)
    requires forall i :: 0 <= i < |amps| ==> amps[i] >= 0.0
    requires NormalizeAmplitudes(amps).Some?
    ensures var r := NormalizeAmplitudes(amps).value;
      && (forall i :: 0 <= i < |r| ==> 0.0 <= r[i] <= 1.0)
      && (forall i :: 0 <= i < |r| ==> (r[i] == 1.0 <==> amps[i] == Peak(amps)))
      && (exists i :: 0 <= i < |r| && r[i] == 1.0)
  {
    var r := NormalizeAmplitudes(amps).value;
    var p := Peak(amps);
    assert p > 0.0;
    forall i | 0 <= i < |r|
      ensures 0.0 <= r[i] <= 1.0
      ensures r[i] == 1.0 <==> amps[i] == p
    {
      assert r[i] == amps[i] / p;
      QuotientBounds(amps[i], p);
    }
    var k :| 0 <= k < |amps| && amps[k] == p;
    assert r[k] == 1.0;
  }

  /** For non-negative amplitudes the peak is 0 exactly when every amplitude is 0. */
  lemma PeakIsZeroIffSilent(amps: seq<real>)
    requires |amps| > 0
    requires forall i :: 0 <= i < |amps| ==> amps[i] >= 0.0
    ensures Peak(amps) == 0.0 <==> forall i :: 0 <= i < |amps| ==> amps[i] == 0.0
  {
  }

  /**
   * `getAmplitudes(buffer)`: one raw amplitude per pixel column, pushed in a
   * loop, then normalised. The result is `None` when `width` is 0 (the empty
   * `reduce` throws) or every sampled amplitude is 0; otherwise it holds
   * `width` values in [0, 1], the loudest sampled columns at exactly 1.
   */
  method GetAmplitudes(data: AudioData, width: nat, root: real -> real) returns (r: Option<seq<real>>)
    requires |data.left| == |data.right| && |data.left| > 0
    requires NonNegativeOnNonNegative(root)
    ensures r == NormalizeAmplitudes(RawAmplitudes(data, width, root))
    ensures r.None? <==> width == 0 || forall i :: 0 <= i < width ==> RawAmplitude(data, width, root, i) == 0.0
    ensures r.Some? ==> |r.value| == width && forall i :: 0 <= i < width ==> 0.0 <= r.value[i] <= 1.0
    ensures r.Some? ==> exists i :: 0 <= i < width && r.value[i] == 1.0
  {
    // With width 0 the quotient is Infinity in the source, but the loop below never runs.
    var samplesPerPixel := if width == 0 then 0 else |data.left| / width;
    var amplitudes: seq<real> := [];
    for i := 0 to width
      invariant |amplitudes| == i
      invariant forall k :: 0 <= k < i ==> amplitudes[k] == RawAmplitude(data, width, root, k)
    {
      var sampleIndex := i * samplesPerPixel;
      SampleIndexInBounds(|data.left|, width, i);
      var val := (data.left[sampleIndex] + data.right[sampleIndex]) / 2.0;
      var amplitude := root(Abs(val));
      amplitudes := amplitudes + [amplitude];
    }
    assert amplitudes == RawAmplitudes(data, width, root);
    RawAmplitudesShape(data, width, root);
    r := NormalizeAmplitudes(amplitudes);
    if width > 0 {
      PeakIsZeroIffSilent(amplitudes);
    }
    if r.Some? {
      NormalizedRange(amplitudes);
    }
  }
}
