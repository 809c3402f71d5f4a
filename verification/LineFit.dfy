/** The exponentially weighted least-squares fit, held in six accumulators. */
module LineFit {
  import opened Serials

  /** The accumulators' value: sum of weights and the weighted sums of x, y, x*x, x*y, y*y. */
  datatype Sums = Sums(n: real, sx: real, sy: real, sxx: real, sxy: real, syy: real) {

    function Decayed(factor: real): Sums {
      Sums(n * factor, sx * factor, sy * factor, sxx * factor, sxy * factor, syy * factor)
    }

    function Pushed(x: real, y: real): Sums {
      Sums(n + 1.0, sx + x, sy + y, sxx + x * x, sxy + x * y, syy + y * y)
    }

    function Shifted(d: real): Sums {
      Sums(n, sx - d * n, sy, sxx - 2.0 * d * sx + d * d * n, sxy - d * sy, syy)
    }
  }

  const EMPTY := Sums(0.0, 0.0, 0.0, 0.0, 0.0, 0.0)

  /** A fitted line; `stderr2` is the square of the slope's standard error. */
  datatype Fit = Fit(slope: real, intercept: real, r2: real, stderr2: real)

  function Max(a: real, b: real): real { if a >= b then a else b }

  function Min(a: real, b: real): real { if a <= b then a else b }

  function Clamp(v: real, lo: real, hi: real): real
    requires lo <= hi
  {
    if v < lo then lo else if v > hi then hi else v
  }

  function Abs(v: real): real { if v < 0.0 then -v else v }

  function Sqr(v: real): real { v * v }

  /** The accumulators taken about the means: spread of x, co-spread, spread of y. */
  datatype Centred = Centred(n: real, sx: real, sy: real, xx: real, xy: real, yy: real)

  function Centre(s: Sums): Centred
    requires s.n > 0.0
  {
    Centred(s.n, s.sx, s.sy,
            s.sxx - s.sx * s.sx / s.n,
            s.sxy - s.sx * s.sy / s.n,
            s.syy - s.sy * s.sy / s.n)
  }

  function LineOf(c: Centred): Option<Fit>
    requires c.n >= 3.0
  {
    if c.xx <= 0.0 then None
    else
      var slope := SlopeOf(c.xx, c.xy);
      var intercept := (c.sy - slope * c.sx) / c.n;
      Some(Fit(slope, intercept, R2Of(c.xx, c.xy, c.yy), Stderr2Of(c.n, c.xx, SseOf(c.xy, c.yy, slope))))
  }

  function SlopeOf(xx: real, xy: real): real
    requires xx > 0.0
  {
    xy / xx
  }

  /** Residual sum of squares, floored at zero. */
  function SseOf(xy: real, yy: real, slope: real): real {
    Max(yy - slope * xy, 0.0)
  }

  function Stderr2Of(n: real, xx: real, sse: real): real
    requires n >= 3.0 && xx > 0.0
  {
    sse / (n - 2.0) / xx
  }

  function ShareOf(xx: real, xy: real, yy: real): real
    requires xx > 0.0 && yy > 0.0
  {
    assert xx * yy > 0.0;
    Sqr(xy) / (xx * yy)
  }

  function R2Of(xx: real, xy: real, yy: real): real
    requires xx > 0.0
  {
    if yy > 0.0 then Clamp(ShareOf(xx, xy, yy), 0.0, 1.0) else 1.0
  }

  /** `None` when the data cannot support a line: fewer than three effective samples, or no spread along x. */
  function FitLine(s: Sums): Option<Fit> {
    if s.n < 3.0 then None else LineOf(Centre(s))
  }

  function Slope(s: Sums): Option<real> {
    match FitLine(s) case Some(f) => Some(f.slope) case None => None
  }

  class EwFit {
    var n: real
    var sx: real
    var sy: real
    var sxx: real
    var sxy: real
    var syy: real

    function Value(): Sums
      reads this
    {
      Sums(n, sx, sy, sxx, sxy, syy)
    }

    constructor (s: Sums)
      ensures Value() == s
    {
      n, sx, sy, sxx, sxy, syy := s.n, s.sx, s.sy, s.sxx, s.sxy, s.syy;
    }

    method Decay(factor: real)
      modifies this
      ensures Value() == old(Value()).Decayed(factor)
    {
      n := n * factor;
      sx := sx * factor;
      sy := sy * factor;
      sxx := sxx * factor;
      sxy := sxy * factor;
      syy := syy * factor;
    }

    method Push(x: real, y: real)
      modifies this
      ensures Value() == old(Value()).Pushed(x, y)
    {
      n := n + 1.0;
      sx := sx + x;
      sy := sy + y;
      sxx := sxx + x * x;
      sxy := sxy + x * y;
      syy := syy + y * y;
    }

    method ShiftX(d: real)
      modifies this
      ensures Value() == old(Value()).Shifted(d)
    {
      sxx := sxx - 2.0 * d * sx + d * d * n;
      sxy := sxy - d * sy;
      sx := sx - d * n;
    }
  }
}
