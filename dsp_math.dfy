/** Scalar arithmetic used by the effect chain: the C++ float-to-int cast,
    linear interpolation, the JUCE `jmap` range mapping, the dry/wet mix and
    the "subtract one if above one" phase wrap. Samples are modelled as
    reals; no IEEE rounding. Sine and arctangent are not defined here: the
    operations that use them take them as parameters. */
module DspMath {

  /** The constant the source takes from JUCE for pi. Only its use as an
      argument matters: sine and arctangent are left uninterpreted. */
  const Pi: real := 3.141592653589793

  /** The value limited to [-1, 1]. On the output of a sine, which the LFO
      takes it of, it is the identity. */
  function ClampUnit(x: real): (r: real)
    ensures -1.0 <= r <= 1.0
    ensures -1.0 <= x <= 1.0 ==> r == x
    ensures x < -1.0 ==> r == -1.0
    ensures 1.0 < x ==> r == 1.0
  {
    Max(-1.0, Min(1.0, x))
  }

  function Min(a: real, b: real): real { if a <= b then a else b }
  function Max(a: real, b: real): real { if a <= b then b else a }

  function Abs(x: real): real { if x < 0.0 then -x else x }

  /** `v` is at most `g` times the larger magnitude of `a` and `b`. */
  predicate WithinGain(v: real, g: real, a: real, b: real)
  {
    Abs(v) <= g * Max(Abs(a), Abs(b))
  }

  /** A value between two samples, scaled by a non-negative gain, is at
      most the gain times the larger of their magnitudes. */
  lemma ScaledBetween(v: real, a: real, b: real, g: real)
    requires Min(a, b) <= v <= Max(a, b) && 0.0 <= g
    ensures WithinGain(v * g, g, a, b)
  {
    var m := Max(Abs(a), Abs(b));
    assert Abs(v) <= m;
    if v < 0.0 {
      assert v * g == -(g * Abs(v));
      MulMonotone(g, 0.0, Abs(v));
    } else {
      assert v * g == g * Abs(v);
      MulMonotone(g, 0.0, Abs(v));
    }
    assert Abs(v * g) == g * Abs(v);
    MulMonotone(g, Abs(v), m);
    assert Abs(v * g) <= g * m;
  }

  /** The C++ conversion `(int)r`: rounds toward zero. */
  function Trunc(r: real): (n: int)
    ensures 0.0 <= r ==> 0 <= n && n as real <= r < n as real + 1.0
    ensures r <= 0.0 ==> n <= 0 && n as real - 1.0 < r <= n as real
  {
    if r >= 0.0 then r.Floor else -((-r).Floor)
  }

  /** Multiplying by a non-negative factor preserves order. */
  lemma MulMonotone(a: real, b: real, c: real)
    requires 0.0 <= a && b <= c
    ensures a * b <= a * c
  {
    assert a * c - a * b == a * (c - b);
  }

  /** Scaling a value `d` by a weight of [0, 1] gives a value between 0
      and `d`. */
  lemma ScaleWithin(d: real, w: real)
    requires 0.0 <= w <= 1.0
    ensures 0.0 <= d ==> 0.0 <= w * d <= d
    ensures d <= 0.0 ==> d <= w * d <= 0.0
  {
    if 0.0 <= d {
      assert d - w * d == (1.0 - w) * d;
    } else {
      assert w * d - d == (1.0 - w) * (-d);
    }
  }

  /** `lin_interp`: weight 0 gives the first sample, weight 1 the second,
      and a weight in between gives a value between the two samples. */
  function LinInterp(sampleX: real, sampleX1: real, inPhase: real): (r: real)
    ensures inPhase == 0.0 ==> r == sampleX
    ensures inPhase == 1.0 ==> r == sampleX1
    ensures 0.0 <= inPhase <= 1.0 ==>
      Min(sampleX, sampleX1) <= r <= Max(sampleX, sampleX1)
  {
    InterpBetween(sampleX, sampleX1, inPhase);
    (1.0 - inPhase) * sampleX + inPhase * sampleX1
  }

  /** The interpolation formula moves from the first sample toward the
      second by the weight times their difference. */
  lemma InterpBetween(a: real, b: real, w: real)
    ensures 0.0 <= w <= 1.0 ==>
      Min(a, b) <= (1.0 - w) * a + w * b <= Max(a, b)
  {
    var d := b - a;
    assert (1.0 - w) * a + w * b == a + w * d;
    if 0.0 <= w <= 1.0 {
      ScaleWithin(d, w);
      if a <= b {
        assert a <= a + w * d <= b;
      } else {
        assert b <= a + w * d <= a;
      }
    }
  }

  /** JUCE `jmap`: the affine map sending [srcMin, srcMax] onto
      [dstMin, dstMax]. JUCE asserts that the source range is not empty. */
  function JMap(v: real, srcMin: real, srcMax: real, dstMin: real, dstMax: real): (r: real)
    requires srcMin < srcMax
    ensures v == srcMin ==> r == dstMin
    ensures v == srcMax ==> r == dstMax
    ensures srcMin <= v <= srcMax && dstMin <= dstMax ==> dstMin <= r <= dstMax
  {
    var w := (v - srcMin) / (srcMax - srcMin);
    assert (dstMax - dstMin) * (v - srcMin) / (srcMax - srcMin) == w * (dstMax - dstMin);
    if srcMin <= v <= srcMax && dstMin <= dstMax then
      assert 0.0 <= w <= 1.0;
      ScaleWithin(dstMax - dstMin, w);
      dstMin + ((dstMax - dstMin) * (v - srcMin)) / (srcMax - srcMin)
    else
      dstMin + ((dstMax - dstMin) * (v - srcMin)) / (srcMax - srcMin)
  }

  /** Dry/wet mix `dry * (1 - dryWet) + wet * dryWet`: it is the linear
      interpolation from the dry to the wet sample, so a dry/wet of 0 keeps
      the dry sample and 1 gives the wet one. */
  function Mix(dry: real, wet: real, dryWet: real): (r: real)
    ensures r == LinInterp(dry, wet, dryWet)
    ensures dryWet == 0.0 ==> r == dry
    ensures dryWet == 1.0 ==> r == wet
  {
    dry * (1.0 - dryWet) + wet * dryWet
  }

  /** The phase wrap of the LFO: one is subtracted when the phase exceeds
      one, so a phase of [0, 2] comes back into [0, 1]. */
  function WrapPhase(phase: real): (r: real)
    ensures 0.0 <= phase <= 2.0 ==> 0.0 <= r <= 1.0
    ensures phase <= 1.0 ==> r == phase
  {
    if phase > 1.0 then phase - 1.0 else phase
  }
}
