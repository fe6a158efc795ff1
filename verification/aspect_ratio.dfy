/**
 * Aspect classification of a probed video (get_video_aspect_ration.go).
 * Go compares float64 values; this model uses exact rational arithmetic,
 * which can differ from Go for dimensions whose ratio lies within float64
 * rounding error of a window edge (very large widths or heights).
 */
module VideoAspectRatio {
  import opened Wrappers

  /** One stream of the prober's report. */
  datatype Dimensions = Dimensions(width: int, height: int)

  /** What running the prober and decoding its JSON output yields. */
  datatype ProbeOutcome =
    | RunFailed          // the ffprobe process failed
    | DecodeFailed       // its standard output was not the expected JSON
    | Parsed(streams: seq<Dimensions>)

  datatype ProbeError = ProbeRunFailed | ProbeDecodeFailed | NoStreams

  const Landscape := "16:9"
  const Portrait := "9:16"
  const Other := "other"

  /** The fixed tolerance around each target ratio. */
  const Tolerance: real := 0.01

  function Abs(x: real): real
  {
    if x < 0.0 then -x else x
  }

  function IntAbs(x: int): nat
  {
    if x < 0 then -x else x
  }

  /**
   * `aspectRatio(width, height)`. For a zero height Go divides to +Inf, -Inf
   * or NaN, and neither comparison holds, so the answer is "other".
   */
  function AspectRatio(width: int, height: int): (r: string)
    ensures r == Landscape || r == Portrait || r == Other
  {
    if height == 0 then Other
    else
      var ratio := width as real / height as real;
      if Abs(ratio - 16.0 / 9.0) < Tolerance then Landscape
      else if Abs(ratio - 9.0 / 16.0) < Tolerance then Portrait
      else Other
  }

  /** |w/h - 16/9| < 1/100, cleared of fractions. */
  predicate InLandscapeWindow(w: int, h: int)
  {
    h != 0 && IntAbs(900 * w - 1600 * h) < 9 * IntAbs(h)
  }

  /** |w/h - 9/16| < 1/100, cleared of fractions. */
  predicate InPortraitWindow(w: int, h: int)
  {
    h != 0 && IntAbs(1600 * w - 900 * h) < 16 * IntAbs(h)
  }

  /** Multiplying both sides by a positive factor keeps a bound on an absolute value. */
  lemma ScaledBound(d: real, k: real, t: real)
    requires k > 0.0
    ensures Abs(d) < t <==> Abs(k * d) < k * t
  {
    assert Abs(k * d) == k * Abs(d);
    if Abs(d) < t {
      assert k * (t - Abs(d)) > 0.0;
    } else {
      assert k * (Abs(d) - t) >= 0.0;
    }
  }

  /**
   * Scaling the distance between w/h and p/q by q*|h| clears both
   * denominators: the result is +-(q*w - p*h).
   */
  lemma ClearDenominators(w: int, h: int, p: int, q: int)
    requires h != 0 && q > 0
    ensures (q * IntAbs(h)) as real * (w as real / h as real - p as real / q as real)
         == (if h > 0 then q * w - p * h else p * h - q * w) as real
  {
    var hr, qr := h as real, q as real;
    assert (w as real / hr) * hr == w as real;
    assert (p as real / qr) * qr == p as real;
    if h > 0 {
      assert (q * IntAbs(h)) as real == qr * hr;
    } else {
      assert (q * IntAbs(h)) as real == -(qr * hr);
    }
  }

  /** When m*d is the integer e and m the integer a > 0, the tolerance test on d is 100*|e| < a. */
  lemma ScaledTolerance(d: real, m: real, e: int, a: int)
    requires a > 0 && m == a as real && m * d == e as real
    ensures Abs(d) < Tolerance <==> 100 * IntAbs(e) < a
  {
    ScaledBound(d, m, Tolerance);
  }

  /** The real-valued landscape test and the integer window agree. */
  lemma LandscapeWindowExact(w: int, h: int)
    requires h != 0
    ensures Abs(w as real / h as real - 16.0 / 9.0) < Tolerance <==> InLandscapeWindow(w, h)
  {
    var d := w as real / h as real - 16.0 / 9.0;
    var e := if h > 0 then 9 * w - 16 * h else 16 * h - 9 * w;
    ClearDenominators(w, h, 16, 9);
    ScaledTolerance(d, (9 * IntAbs(h)) as real, e, 9 * IntAbs(h));
  }

  /** The real-valued portrait test and the integer window agree. */
  lemma PortraitWindowExact(w: int, h: int)
    requires h != 0
    ensures Abs(w as real / h as real - 9.0 / 16.0) < Tolerance <==> InPortraitWindow(w, h)
  {
    var d := w as real / h as real - 9.0 / 16.0;
    var e := if h > 0 then 16 * w - 9 * h else 9 * h - 16 * w;
    ClearDenominators(w, h, 9, 16);
    ScaledTolerance(d, (16 * IntAbs(h)) as real, e, 16 * IntAbs(h));
  }

  /** The answer is "16:9" exactly inside the landscape window. */
  lemma LandscapeExactly(w: int, h: int)
    ensures AspectRatio(w, h) == Landscape <==> InLandscapeWindow(w, h)
  {
    if h != 0 {
      LandscapeWindowExact(w, h);
    }
  }

  /** The answer is "9:16" exactly outside the landscape window and inside the portrait one. */
  lemma PortraitExactly(w: int, h: int)
    ensures AspectRatio(w, h) == Portrait <==> !InLandscapeWindow(w, h) && InPortraitWindow(w, h)
  {
    if h != 0 {
      LandscapeWindowExact(w, h);
      PortraitWindowExact(w, h);
    }
  }

  /** The two windows never overlap, so the order of the two cases does not matter. */
  lemma WindowsDisjoint(w: int, h: int)
    ensures !(InLandscapeWindow(w, h) && InPortraitWindow(w, h))
  {
  }

  /** Every answer other than the two ratios is "other". */
  lemma OtherExactly(w: int, h: int)
    ensures AspectRatio(w, h) == Other <==> !InLandscapeWindow(w, h) && !InPortraitWindow(w, h)
  {
    LandscapeExactly(w, h);
    PortraitExactly(w, h);
  }

  /** Scaling both sides by the same positive factor keeps the class. */
  lemma ScaleInvariant(w: int, h: int, k: int)
    requires k > 0
    ensures AspectRatio(k * w, k * h) == AspectRatio(w, h)
  {
    if h != 0 {
      assert (k * w) * h == w * (k * h);
      SameRatio(k * w, k * h, w, h);
    }
  }

  /** Cross-multiplied equal fractions are equal as reals. */
  lemma SameRatio(a: int, b: int, c: int, d: int)
    requires b != 0 && d != 0 && a * d == c * b
    ensures a as real / b as real == c as real / d as real
  {
    var q := a as real / b as real;
    assert a as real == q * b as real;
    assert (c as real) * (b as real) == q * (b as real) * (d as real);
  }

  /** A zero height is never classified as one of the two ratios. */
  lemma ZeroHeightIsOther(w: int)
    ensures AspectRatio(w, 0) == Other
  {
  }

  lemma CommonResolutions()
    ensures AspectRatio(1920, 1080) == Landscape
    ensures AspectRatio(1080, 1920) == Portrait
    ensures AspectRatio(1000, 1000) == Other
  {
    LandscapeExactly(1920, 1080);
    PortraitExactly(1080, 1920);
    OtherExactly(1000, 1000);
  }

  /**
   * `getVideoAspectRatio` after the prober has run: a failed run or decode is
   * passed on, an empty stream list is an error, and otherwise only the first
   * stream is classified.
   */
  function GetVideoAspectRatio(probe: ProbeOutcome): (r: Result<string, ProbeError>)
    ensures probe.RunFailed? ==> r == Failure(ProbeRunFailed)
    ensures probe.DecodeFailed? ==> r == Failure(ProbeDecodeFailed)
    ensures probe.Parsed? && probe.streams == [] ==> r == Failure(NoStreams)
    ensures r.Success? <==> probe.Parsed? && probe.streams != []
    ensures r.Success? ==> r.value == AspectRatio(probe.streams[0].width, probe.streams[0].height)
  {
    match probe
    case RunFailed => Failure(ProbeRunFailed)
    case DecodeFailed => Failure(ProbeDecodeFailed)
    case Parsed(streams) =>
      if |streams| == 0 then Failure(NoStreams)
      else Success(AspectRatio(streams[0].width, streams[0].height))
  }

  /** Streams after the first never change the answer. */
  lemma OnlyFirstStreamCounts(first: Dimensions, rest1: seq<Dimensions>, rest2: seq<Dimensions>)
    ensures GetVideoAspectRatio(Parsed([first] + rest1)) == GetVideoAspectRatio(Parsed([first] + rest2))
  {
  }
}
