/** The accumulators refine a list of weighted samples, and the fitted line is its least-squares line. */
module LeastSquares {
  import opened Serials
  import opened LineFit

  datatype Point = Point(w: real, x: real, y: real)

  function Add(s: Sums, t: Sums): Sums {
    Sums(s.n + t.n, s.sx + t.sx, s.sy + t.sy, s.sxx + t.sxx, s.sxy + t.sxy, s.syy + t.syy)
  }

  function Term(p: Point): Sums {
    Sums(p.w, p.w * p.x, p.w * p.y, p.w * p.x * p.x, p.w * p.x * p.y, p.w * p.y * p.y)
  }

  /** What the accumulators stand for. */
  function Accumulate(ps: seq<Point>): Sums {
    if ps == [] then EMPTY else Add(Accumulate(ps[..|ps| - 1]), Term(ps[|ps| - 1]))
  }

  function AgedPoint(p: Point, factor: real): Point {
    Point(p.w * factor, p.x, p.y)
  }

  function Aged(ps: seq<Point>, factor: real): (r: seq<Point>)
    ensures |r| == |ps|
    ensures forall i | 0 <= i < |ps| :: r[i] == AgedPoint(ps[i], factor)
  {
    if ps == [] then [] else Aged(ps[..|ps| - 1], factor) + [AgedPoint(ps[|ps| - 1], factor)]
  }

  function MovedPoint(p: Point, d: real): Point {
    Point(p.w, p.x - d, p.y)
  }

  function Moved(ps: seq<Point>, d: real): (r: seq<Point>)
    ensures |r| == |ps|
    ensures forall i | 0 <= i < |ps| :: r[i] == MovedPoint(ps[i], d)
  {
    if ps == [] then [] else Moved(ps[..|ps| - 1], d) + [MovedPoint(ps[|ps| - 1], d)]
  }

  datatype Op = Decay(factor: real) | Push(x: real, y: real) | ShiftX(d: real)

  /** The accumulators after a history of operations. */
  function SumsAfter(ops: seq<Op>): Sums {
    if ops == [] then EMPTY
    else
      var s := SumsAfter(ops[..|ops| - 1]);
      match ops[|ops| - 1]
      case Decay(f) => s.Decayed(f)
      case Push(x, y) => s.Pushed(x, y)
      case ShiftX(d) => s.Shifted(d)
  }

  /** The samples after the same history: every decay scales each weight, every shift moves each x. */
  function SamplesAfter(ops: seq<Op>): seq<Point> {
    if ops == [] then []
    else
      var ps := SamplesAfter(ops[..|ops| - 1]);
      match ops[|ops| - 1]
      case Decay(f) => Aged(ps, f)
      case Push(x, y) => ps + [Point(1.0, x, y)]
      case ShiftX(d) => Moved(ps, d)
  }

  lemma DecayedSum(s: Sums, t: Sums, f: real)
    ensures Add(s, t).Decayed(f) == Add(s.Decayed(f), t.Decayed(f))
  {
  }

  lemma AgedFirstMoments(p: Point, f: real)
    ensures Term(AgedPoint(p, f)).sx == Term(p).Decayed(f).sx && Term(AgedPoint(p, f)).sy == Term(p).Decayed(f).sy
  {
  }

  lemma AgedSquareX(p: Point, f: real)
    ensures Term(AgedPoint(p, f)).sxx == Term(p).Decayed(f).sxx
  {
  }

  lemma AgedCross(p: Point, f: real)
    ensures Term(AgedPoint(p, f)).sxy == Term(p).Decayed(f).sxy
  {
  }

  lemma AgedSquareY(p: Point, f: real)
    ensures Term(AgedPoint(p, f)).syy == Term(p).Decayed(f).syy
  {
  }

  lemma AgedTerm(p: Point, f: real)
    ensures Term(AgedPoint(p, f)) == Term(p).Decayed(f)
  {
    AgedFirstMoments(p, f);
    AgedSquareX(p, f);
    AgedCross(p, f);
    AgedSquareY(p, f);
  }

  lemma AccumulateOneMore(ps: seq<Point>, p: Point)
    ensures Accumulate(ps + [p]) == Add(Accumulate(ps), Term(p))
  {
    assert (ps + [p])[..|ps|] == ps;
  }

  /** One sample more, aged with the others. */
  lemma AgedOneMore(init: seq<Point>, p: Point, f: real)
    requires Accumulate(Aged(init, f)) == Accumulate(init).Decayed(f)
    ensures Accumulate(Aged(init, f) + [AgedPoint(p, f)]) == Add(Accumulate(init), Term(p)).Decayed(f)
  {
    AccumulateOneMore(Aged(init, f), AgedPoint(p, f));
    AgedTerm(p, f);
    DecayedSum(Accumulate(init), Term(p), f);
  }

  lemma AgedSplits(init: seq<Point>, p: Point, f: real)
    ensures Aged(init + [p], f) == Aged(init, f) + [AgedPoint(p, f)]
  {
    assert (init + [p])[..|init|] == init;
  }

  lemma {:induction false} AccumulateAged(ps: seq<Point>, f: real)
    ensures Accumulate(Aged(ps, f)) == Accumulate(ps).Decayed(f)
  {
    if ps != [] {
      var init, p := ps[..|ps| - 1], ps[|ps| - 1];
      assert ps == init + [p];
      AccumulateAged(init, f);
      AgedOneMore(init, p, f);
      AgedSplits(init, p, f);
    }
  }

  lemma ShiftedOnce(a: real, b: real, n: real, m: real, d: real, sum: real, count: real)
    requires sum == a + b && count == n + m
    ensures sum - d * count == (a - d * n) + (b - d * m)
  {
    assert d * count == d * (n + m) == d * n + d * m;
  }

  lemma ShiftedTwice(a: real, b: real, x: real, y: real, n: real, m: real, d: real, sum: real, sx: real, count: real)
    requires sum == a + b && sx == x + y && count == n + m
    ensures sum - 2.0 * d * sx + d * d * count == (a - 2.0 * d * x + d * d * n) + (b - 2.0 * d * y + d * d * m)
  {
    var e, g := 2.0 * d, d * d;
    assert e * sx == e * (x + y) == e * x + e * y;
    assert g * count == g * (n + m) == g * n + g * m;
  }

  lemma ShiftedSum(s: Sums, t: Sums, d: real)
    ensures Add(s, t).Shifted(d) == Add(s.Shifted(d), t.Shifted(d))
  {
    var u := Add(s, t);
    ShiftedOnce(s.sx, t.sx, s.n, t.n, d, u.sx, u.n);
    ShiftedOnce(s.sxy, t.sxy, s.sy, t.sy, d, u.sxy, u.sy);
    ShiftedTwice(s.sxx, t.sxx, s.sx, t.sx, s.n, t.n, d, u.sxx, u.sx, u.n);
  }

  lemma MovedOnce(w: real, x: real, d: real, x': real, wx: real)
    requires x' == x - d && wx == w * x
    ensures w * x' == wx - d * w
  {
    assert w * x' == w * (x - d) == w * x - w * d;
  }

  lemma MovedProduct(w: real, x: real, y: real, d: real, x': real, wy: real, wxy: real)
    requires x' == x - d && wy == w * y && wxy == w * x * y
    ensures w * x' * y == wxy - d * wy
  {
    MovedOnce(w, x, d, x', w * x);
    assert (w * x - d * w) * y == w * x * y - d * (w * y);
  }

  lemma MovedSquare(w: real, x: real, d: real, x': real, wx: real, wxx: real)
    requires x' == x - d && wx == w * x && wxx == w * x * x
    ensures w * x' * x' == wxx - 2.0 * d * wx + d * d * w
  {
    MovedOnce(w, x, d, x', wx);
    var v := w * x';
    assert v * x' == v * (x - d) == v * x - v * d;
    assert v * x == (wx - d * w) * x == wx * x - d * (w * x);
    assert v * d == (wx - d * w) * d == wx * d - d * d * w;
  }

  lemma MovedTerm(p: Point, d: real)
    ensures Term(MovedPoint(p, d)) == Term(p).Shifted(d)
  {
    var t, x' := Term(p), p.x - d;
    MovedOnce(p.w, p.x, d, x', t.sx);
    MovedProduct(p.w, p.x, p.y, d, x', t.sy, t.sxy);
    MovedSquare(p.w, p.x, d, x', t.sx, t.sxx);
  }

  /** One sample more, moved with the others. */
  lemma MovedOneMore(init: seq<Point>, p: Point, d: real)
    requires Accumulate(Moved(init, d)) == Accumulate(init).Shifted(d)
    ensures Accumulate(Moved(init, d) + [MovedPoint(p, d)]) == Add(Accumulate(init), Term(p)).Shifted(d)
  {
    AccumulateOneMore(Moved(init, d), MovedPoint(p, d));
    MovedTerm(p, d);
    ShiftedSum(Accumulate(init), Term(p), d);
  }

  lemma MovedSplits(init: seq<Point>, p: Point, d: real)
    ensures Moved(init + [p], d) == Moved(init, d) + [MovedPoint(p, d)]
  {
    assert (init + [p])[..|init|] == init;
  }

  lemma {:induction false} AccumulateMoved(ps: seq<Point>, d: real)
    ensures Accumulate(Moved(ps, d)) == Accumulate(ps).Shifted(d)
  {
    if ps != [] {
      var init, p := ps[..|ps| - 1], ps[|ps| - 1];
      assert ps == init + [p];
      AccumulateMoved(init, d);
      MovedOneMore(init, p, d);
      MovedSplits(init, p, d);
    }
  }

  lemma AccumulatePushed(ps: seq<Point>, x: real, y: real)
    ensures Accumulate(ps + [Point(1.0, x, y)]) == Accumulate(ps).Pushed(x, y)
  {
    assert (ps + [Point(1.0, x, y)])[..|ps|] == ps;
  }

  /** After any history the six accumulators are the weighted sums of the sample list. */
  lemma {:induction false} AccumulatorsRefineSamples(ops: seq<Op>)
    ensures SumsAfter(ops) == Accumulate(SamplesAfter(ops))
  {
    if ops != [] {
      var init := ops[..|ops| - 1];
      AccumulatorsRefineSamples(init);
      match ops[|ops| - 1]
      case Decay(f) => AccumulateAged(SamplesAfter(init), f);
      case Push(x, y) => AccumulatePushed(SamplesAfter(init), x, y);
      case ShiftX(d) => AccumulateMoved(SamplesAfter(init), d);
    }
  }

  // ---- The weighted squared error and its minimum ----

  /** Weighted squared error of the line y = a*x + b. */
  function Error(ps: seq<Point>, a: real, b: real): real {
    if ps == [] then 0.0
    else
      var p := ps[|ps| - 1];
      var e := p.y - a * p.x - b;
      Error(ps[..|ps| - 1], a, b) + p.w * e * e
  }

  /** sum of w * (u*x + v*y + t)^2 */
  function Form(ps: seq<Point>, u: real, v: real, t: real): real {
    if ps == [] then 0.0
    else
      Form(ps[..|ps| - 1], u, v, t) + FormAt(ps[|ps| - 1], u, v, t)
  }

  function FormAt(p: Point, u: real, v: real, t: real): real {
    var e := u * p.x + v * p.y + t;
    p.w * e * e
  }

  ghost predicate Weighted(ps: seq<Point>) {
    forall i | 0 <= i < |ps| :: ps[i].w >= 0.0
  }

  function FormOfSums(s: Sums, u: real, v: real, t: real): real {
    u * u * s.sxx + 2.0 * u * v * s.sxy + v * v * s.syy + 2.0 * u * t * s.sx + 2.0 * v * t * s.sy + t * t * s.n
  }

  lemma FormOfTerm(p: Point, u: real, v: real, t: real)
    ensures FormAt(p, u, v, t) == FormOfSums(Term(p), u, v, t)
  {
    var w, x, y := p.w, p.x, p.y;
    var e := u * x + v * y + t;
    assert e * e == u * u * (x * x) + 2.0 * u * v * (x * y) + v * v * (y * y)
                  + 2.0 * u * t * x + 2.0 * v * t * y + t * t;
    assert w * e * e == w * (e * e);
  }

  lemma FormOfSum(s: Sums, r: Sums, u: real, v: real, t: real)
    ensures FormOfSums(Add(s, r), u, v, t) == FormOfSums(s, u, v, t) + FormOfSums(r, u, v, t)
  {
  }

  lemma {:induction false} FormIsQuadratic(ps: seq<Point>, u: real, v: real, t: real)
    ensures Form(ps, u, v, t) == FormOfSums(Accumulate(ps), u, v, t)
  {
    if ps != [] {
      var p := ps[|ps| - 1];
      FormIsQuadratic(ps[..|ps| - 1], u, v, t);
      FormOfTerm(p, u, v, t);
      FormOfSum(Accumulate(ps[..|ps| - 1]), Term(p), u, v, t);
    }
  }

  lemma {:induction false} FormNonNegative(ps: seq<Point>, u: real, v: real, t: real)
    requires Weighted(ps)
    ensures Form(ps, u, v, t) >= 0.0
  {
    if ps != [] {
      var p := ps[|ps| - 1];
      FormNonNegative(ps[..|ps| - 1], u, v, t);
      var e := u * p.x + v * p.y + t;
      assert e * e >= 0.0;
      assert p.w * e * e == p.w * (e * e);
    }
  }

  lemma {:induction false} ErrorIsForm(ps: seq<Point>, a: real, b: real)
    ensures Error(ps, a, b) == Form(ps, -a, 1.0, -b)
  {
    if ps != [] {
      ErrorIsForm(ps[..|ps| - 1], a, b);
      var p := ps[|ps| - 1];
      assert p.y - a * p.x - b == -a * p.x + 1.0 * p.y + -b;
    }
  }

  // ---- Error about the means ----

  /** Error of the line y = a*x + b, from the centred sums. */
  function ErrorAt(c: Centred, a: real, b: real): real
    requires c.n > 0.0
  {
    Quadratic(c.xx, c.xy, c.yy, a) + c.n * Sqr(AtMean(c, a, b))
  }

  function Quadratic(xx: real, xy: real, yy: real, a: real): real {
    a * a * xx - 2.0 * a * xy + yy
  }

  /** How far the line passes from the mean point. */
  function AtMean(c: Centred, a: real, b: real): real
    requires c.n > 0.0
  {
    c.sy / c.n - a * (c.sx / c.n) - b
  }

  lemma ProductOverCount(p: real, q: real, n: real)
    requires n > 0.0
    ensures p * q / n == (p / n) * (q / n) * n
  {
    var mp, mq := p / n, q / n;
    assert mp * n == p && mq * n == q;
    assert p * q == (mp * mq * n) * n;
  }

  lemma MeanTimesCount(t: real, n: real)
    requires n > 0.0
    ensures t / n * n == t
  {
  }

  lemma ErrorAlgebra(n: real, mx: real, my: real, sxx: real, sxy: real, syy: real, a: real, b: real)
    ensures FormOfSums(Sums(n, mx * n, my * n, sxx, sxy, syy), -a, 1.0, -b)
         == Quadratic(sxx - mx * mx * n, sxy - mx * my * n, syy - my * my * n, a) + n * Sqr(my - a * mx - b)
  {
    var e := my - a * mx - b;
    assert Sqr(e) == my * my + a * a * (mx * mx) + b * b - 2.0 * a * (mx * my) - 2.0 * b * my + 2.0 * a * b * mx;
    assert n * Sqr(e) == my * my * n + a * a * (mx * mx * n) + b * b * n - 2.0 * a * (mx * my * n)
                       - 2.0 * b * (my * n) + 2.0 * a * b * (mx * n);
    assert a * a * (sxx - mx * mx * n) == a * a * sxx - a * a * (mx * mx * n);
    assert 2.0 * a * (sxy - mx * my * n) == 2.0 * a * sxy - 2.0 * a * (mx * my * n);
  }

  lemma CentreAboutMeans(s: Sums)
    requires s.n > 0.0
    ensures var mx, my := s.sx / s.n, s.sy / s.n;
            && s.sx == mx * s.n && s.sy == my * s.n
            && Centre(s) == Centred(s.n, s.sx, s.sy,
                                    s.sxx - mx * mx * s.n, s.sxy - mx * my * s.n, s.syy - my * my * s.n)
  {
    ProductOverCount(s.sx, s.sx, s.n);
    ProductOverCount(s.sx, s.sy, s.n);
    ProductOverCount(s.sy, s.sy, s.n);
    MeanTimesCount(s.sx, s.n);
    MeanTimesCount(s.sy, s.n);
  }

  lemma ErrorAboutMeans(s: Sums, c: Centred, mx: real, my: real, a: real, b: real)
    requires c.n == s.n > 0.0 && mx == c.sx / c.n && my == c.sy / c.n
    requires s.sx == mx * s.n && s.sy == my * s.n
    requires c.xx == s.sxx - mx * mx * s.n && c.xy == s.sxy - mx * my * s.n && c.yy == s.syy - my * my * s.n
    ensures FormOfSums(s, -a, 1.0, -b) == ErrorAt(c, a, b)
  {
    ErrorAlgebra(s.n, mx, my, s.sxx, s.sxy, s.syy, a, b);
  }

  lemma FormFromCentre(s: Sums, a: real, b: real)
    requires s.n > 0.0
    ensures FormOfSums(s, -a, 1.0, -b) == ErrorAt(Centre(s), a, b)
  {
    CentreAboutMeans(s);
    ErrorAboutMeans(s, Centre(s), s.sx / s.n, s.sy / s.n, a, b);
  }

  /** The centred sums tell the error of every line through the samples. */
  ghost predicate Represents(c: Centred, ps: seq<Point>) {
    c.n > 0.0 && forall a, b :: Error(ps, a, b) == ErrorAt(c, a, b)
  }

  lemma CentreRepresents(ps: seq<Point>)
    requires Accumulate(ps).n > 0.0
    ensures Represents(Centre(Accumulate(ps)), ps)
  {
    var s := Accumulate(ps);
    forall a, b ensures Error(ps, a, b) == ErrorAt(Centre(s), a, b) {
      ErrorIsForm(ps, a, b);
      FormIsQuadratic(ps, -a, 1.0, -b);
      FormFromCentre(s, a, b);
    }
  }

  // ---- The fitted line ----

  function Product(x: real, y: real): real { x * y }

  lemma ProductPositive(x: real, y: real)
    requires x > 0.0 && y > 0.0
    ensures Product(x, y) > 0.0
  {
  }

  lemma SquarePositive(d: real)
    requires d > 0.0
    ensures Sqr(d) > 0.0
  {
    ProductPositive(d, d);
  }

  lemma SquareOfNegation(d: real)
    ensures Sqr(-d) == Sqr(d)
  {
  }

  lemma SquareSign(d: real)
    ensures Sqr(d) >= 0.0
    ensures Sqr(d) == 0.0 ==> d == 0.0
  {
    if d > 0.0 {
      SquarePositive(d);
    } else if d < 0.0 {
      SquarePositive(-d);
      SquareOfNegation(d);
    }
  }

  lemma ScaledSquareSign(k: real, d: real)
    requires k > 0.0
    ensures k * Sqr(d) >= 0.0
    ensures k * Sqr(d) == 0.0 ==> d == 0.0
  {
    SquareSign(d);
    if Sqr(d) > 0.0 {
      assert k * Sqr(d) > 0.0;
    }
  }

  lemma CompleteSquare(xx: real, xy: real, yy: real, a: real, slope: real)
    requires slope * xx == xy
    ensures Quadratic(xx, xy, yy, a) == xx * Sqr(a - slope) + (yy - slope * xy)
  {
    assert xx * Sqr(a - slope) == a * a * xx - 2.0 * a * (slope * xx) + slope * (slope * xx);
  }

  lemma LineThroughMean(c: Centred)
    requires c.n >= 3.0 && LineOf(c).Some?
    ensures var f := LineOf(c).value;
            && c.xx > 0.0 && f.slope * c.xx == c.xy
            && AtMean(c, f.slope, f.intercept) == 0.0
  {
    var f := LineOf(c).value;
    MeanTimesCount(c.sx, c.n);
    MeanTimesCount(c.sy, c.n);
    var mx, my := c.sx / c.n, c.sy / c.n;
    MeanTimesCount(c.sy - f.slope * c.sx, c.n);
    assert f.intercept * c.n == my * c.n - f.slope * (mx * c.n);
    assert (my - f.slope * mx - f.intercept) * c.n == 0.0;
  }

  /** The error of any line: the fitted line's, plus what its slope and its level at the mean are off by. */
  lemma ErrorDecomposed(c: Centred, a: real, b: real)
    requires c.n >= 3.0 && LineOf(c).Some?
    ensures var f := LineOf(c).value;
            ErrorAt(c, a, b) == c.xx * Sqr(a - f.slope) + c.n * Sqr(AtMean(c, a, b)) + (c.yy - f.slope * c.xy)
  {
    LineThroughMean(c);
    CompleteSquare(c.xx, c.xy, c.yy, a, LineOf(c).value.slope);
  }

  lemma FittedError(c: Centred)
    requires c.n >= 3.0 && LineOf(c).Some?
    ensures var f := LineOf(c).value;
            && ErrorAt(c, f.slope, f.intercept) == c.yy - f.slope * c.xy
            && (ErrorAt(c, f.slope, f.intercept) >= 0.0 ==> ErrorAt(c, f.slope, f.intercept) == SseOf(c.xy, c.yy, f.slope))
  {
    var f := LineOf(c).value;
    LineThroughMean(c);
    ErrorDecomposed(c, f.slope, f.intercept);
  }

  lemma LineMinimises(c: Centred, a: real, b: real)
    requires c.n >= 3.0 && LineOf(c).Some?
    ensures var f := LineOf(c).value;
            && ErrorAt(c, f.slope, f.intercept) <= ErrorAt(c, a, b)
            && (ErrorAt(c, f.slope, f.intercept) == ErrorAt(c, a, b) ==> a == f.slope && b == f.intercept)
  {
    var f := LineOf(c).value;
    LineThroughMean(c);
    FittedError(c);
    ErrorDecomposed(c, a, b);
    ScaledSquareSign(c.xx, a - f.slope);
    ScaledSquareSign(c.n, AtMean(c, a, b));
  }

  /** The returned line is the unique minimiser of the weighted squared error over all lines. */
  lemma FitMinimisesError(ps: seq<Point>, a: real, b: real)
    requires FitLine(Accumulate(ps)).Some?
    ensures var f := FitLine(Accumulate(ps)).value;
            && Error(ps, f.slope, f.intercept) <= Error(ps, a, b)
            && (Error(ps, f.slope, f.intercept) == Error(ps, a, b) ==> a == f.slope && b == f.intercept)
  {
    var c := Centre(Accumulate(ps));
    CentreRepresents(ps);
    LineMinimises(c, a, b);
  }

  lemma LineDiagnostics(c: Centred)
    requires c.n >= 3.0 && LineOf(c).Some?
    ensures var f := LineOf(c).value;
            && c.xx > 0.0
            && f.r2 == R2Of(c.xx, c.xy, c.yy)
            && f.stderr2 == Stderr2Of(c.n, c.xx, SseOf(c.xy, c.yy, f.slope))
  {
  }

  lemma ErrorNonNegative(ps: seq<Point>, a: real, b: real)
    requires Weighted(ps)
    ensures Error(ps, a, b) >= 0.0
  {
    ErrorIsForm(ps, a, b);
    FormNonNegative(ps, -a, 1.0, -b);
  }

  /** The reported error is that of the residuals; its floor at zero never acts in exact arithmetic. */
  lemma StderrOfResiduals(ps: seq<Point>)
    requires Weighted(ps) && FitLine(Accumulate(ps)).Some?
    ensures var s := Accumulate(ps);
            var f := FitLine(s).value;
            && Error(ps, f.slope, f.intercept) >= 0.0
            && Centre(s).xx > 0.0
            && f.stderr2 == Stderr2Of(s.n, Centre(s).xx, Error(ps, f.slope, f.intercept))
  {
    var c := Centre(Accumulate(ps));
    var f := LineOf(c).value;
    CentreRepresents(ps);
    LineDiagnostics(c);
    FittedError(c);
    ErrorNonNegative(ps, f.slope, f.intercept);
  }

  // ---- Spread ----

  lemma RatioAtMostOne(p: real, q: real)
    requires 0.0 <= p <= q && q > 0.0
    ensures 0.0 <= p / q <= 1.0
  {
  }

  /** With errors never negative, a line exists only where the spreads obey Cauchy-Schwarz. */
  lemma ResidualBoundsCorrelation(c: Centred, slope: real)
    requires c.xx > 0.0 && slope * c.xx == c.xy && c.yy - slope * c.xy >= 0.0
    ensures c.yy >= 0.0 && Sqr(c.xy) <= c.xx * c.yy
    ensures c.yy == 0.0 ==> c.xy == 0.0
  {
    SquareSign(c.xy);
    SquareSign(slope);
    assert Sqr(c.xy) == c.xx * (slope * c.xy);
    assert slope * c.xy == c.xx * Sqr(slope);
    assert c.xx * Sqr(slope) >= 0.0;
    assert c.xx * (slope * c.xy) <= c.xx * c.yy;
    if c.yy == 0.0 {
      assert c.xx * c.yy == 0.0;
    }
  }

  lemma ExplainedShare(xx: real, xy: real, yy: real, slope: real)
    requires xx > 0.0 && yy > 0.0 && slope * xx == xy && Sqr(xy) <= xx * yy
    ensures 0.0 <= ShareOf(xx, xy, yy) <= 1.0
    ensures ShareOf(xx, xy, yy) * yy == slope * xy
  {
    SquareSign(xy);
    assert xx * yy > 0.0;
    RatioAtMostOne(Sqr(xy), xx * yy);
    assert Sqr(xy) == (slope * xy) * xx;
    assert Sqr(xy) / (xx * yy) == (slope * xy) / yy by {
      assert (slope * xy) / yy * (xx * yy) == (slope * xy) * xx;
    }
  }

  lemma R2IsShare(c: Centred)
    requires c.xx > 0.0 && c.yy > 0.0 && 0.0 <= ShareOf(c.xx, c.xy, c.yy) <= 1.0
    ensures R2Of(c.xx, c.xy, c.yy) == ShareOf(c.xx, c.xy, c.yy)
  {
  }

  lemma R2OfLine(c: Centred, slope: real)
    requires c.xx > 0.0 && slope * c.xx == c.xy && c.yy - slope * c.xy >= 0.0
    ensures Sqr(c.xy) <= c.xx * c.yy
    ensures 0.0 <= R2Of(c.xx, c.xy, c.yy) <= 1.0 && R2Of(c.xx, c.xy, c.yy) * c.yy == slope * c.xy
  {
    ResidualBoundsCorrelation(c, slope);
    if c.yy > 0.0 {
      ExplainedShare(c.xx, c.xy, c.yy, slope);
      R2IsShare(c);
    }
  }

  lemma R2OfFit(c: Centred)
    requires c.n >= 3.0 && LineOf(c).Some?
    requires var f := LineOf(c).value; ErrorAt(c, f.slope, f.intercept) >= 0.0
    ensures var f := LineOf(c).value;
            && Sqr(c.xy) <= c.xx * c.yy
            && 0.0 <= f.r2 <= 1.0
            && f.r2 * c.yy == c.yy - ErrorAt(c, f.slope, f.intercept)
  {
    var slope := LineOf(c).value.slope;
    LineThroughMean(c);
    LineDiagnostics(c);
    FittedError(c);
    R2OfLine(c, slope);
  }

  /** R-squared is the explained share of the spread in y, between 0 and 1 without the clamp. */
  lemma R2OfResiduals(ps: seq<Point>)
    requires Weighted(ps) && FitLine(Accumulate(ps)).Some?
    ensures var c := Centre(Accumulate(ps));
            var f := FitLine(Accumulate(ps)).value;
            && Sqr(c.xy) <= c.xx * c.yy
            && 0.0 <= f.r2 <= 1.0
            && f.r2 * c.yy == c.yy - Error(ps, f.slope, f.intercept)
  {
    var c := Centre(Accumulate(ps));
    var f := LineOf(c).value;
    CentreRepresents(ps);
    ErrorNonNegative(ps, f.slope, f.intercept);
    R2OfFit(c);
  }

  lemma SpreadAboutMean(s: Sums, mx: real, xx: real)
    requires s.sx == mx * s.n && xx == s.sxx - mx * mx * s.n
    ensures FormOfSums(s, 1.0, 0.0, -mx) == xx
  {
    assert 2.0 * -mx * (mx * s.n) == -2.0 * (mx * mx * s.n);
    assert -mx * -mx * s.n == mx * mx * s.n;
  }

  lemma FormOfSumsNonNegative(ps: seq<Point>, u: real, v: real, t: real)
    requires Weighted(ps)
    ensures FormOfSums(Accumulate(ps), u, v, t) >= 0.0
  {
    FormIsQuadratic(ps, u, v, t);
    FormNonNegative(ps, u, v, t);
  }

  /** The spread of x is never negative, so a non-positive one means no spread at all. */
  lemma SpreadNonNegative(ps: seq<Point>)
    requires Weighted(ps) && Accumulate(ps).n > 0.0
    ensures Centre(Accumulate(ps)).xx >= 0.0
  {
    var s := Accumulate(ps);
    CentreAboutMeans(s);
    SpreadAboutMean(s, s.sx / s.n, Centre(s).xx);
    FormOfSumsNonNegative(ps, 1.0, 0.0, -(s.sx / s.n));
  }

  lemma TiltedError(c: Centred, a: real)
    requires c.n > 0.0
    ensures ErrorAt(c, a, c.sy / c.n - a * (c.sx / c.n)) == Quadratic(c.xx, c.xy, c.yy, a)
  {
    var b := c.sy / c.n - a * (c.sx / c.n);
    assert AtMean(c, a, b) == 0.0;
  }

  lemma NoTilt(xx: real, xy: real, yy: real)
    requires xx == 0.0 && xy != 0.0
    ensures Quadratic(xx, xy, yy, (yy + 1.0) / (2.0 * xy)) == -1.0
  {
    var a := (yy + 1.0) / (2.0 * xy);
    assert a * (2.0 * xy) == yy + 1.0;
    assert a * a * xx == 0.0;
  }

  /** Without spread in x there is no co-spread either: Cauchy-Schwarz at its degenerate end. */
  lemma NoSpreadNoCospread(ps: seq<Point>)
    requires Weighted(ps) && Accumulate(ps).n > 0.0 && Centre(Accumulate(ps)).xx == 0.0
    ensures Centre(Accumulate(ps)).xy == 0.0
  {
    var c := Centre(Accumulate(ps));
    CentreRepresents(ps);
    if c.xy != 0.0 {
      var a := (c.yy + 1.0) / (2.0 * c.xy);
      TiltedError(c, a);
      NoTilt(c.xx, c.xy, c.yy);
      ErrorNonNegative(ps, a, c.sy / c.n - a * (c.sx / c.n));
    }
  }

  // ---- Histories ----

  ghost predicate Forgetting(ops: seq<Op>) {
    forall i | 0 <= i < |ops| :: ops[i].Decay? ==> 0.0 <= ops[i].factor <= 1.0
  }

  lemma {:induction false} SamplesWeighted(ops: seq<Op>)
    requires Forgetting(ops)
    ensures Weighted(SamplesAfter(ops))
  {
    if ops != [] {
      var init := ops[..|ops| - 1];
      SamplesWeighted(init);
      var ps := SamplesAfter(init);
      if ops[|ops| - 1].Decay? {
        var f := ops[|ops| - 1].factor;
        forall i | 0 <= i < |ps| ensures Aged(ps, f)[i].w >= 0.0 {
          assert ps[i].w * f >= 0.0;
        }
      }
    }
  }

  /** After any history of decays, pushes and shifts, the line is the least-squares line of its samples. */
  lemma HistoryFit(ops: seq<Op>, a: real, b: real)
    requires Forgetting(ops) && FitLine(SumsAfter(ops)).Some?
    ensures var ps, f := SamplesAfter(ops), FitLine(SumsAfter(ops)).value;
            && 0.0 <= Error(ps, f.slope, f.intercept) <= Error(ps, a, b)
            && (Error(ps, f.slope, f.intercept) == Error(ps, a, b) ==> a == f.slope && b == f.intercept)
  {
    AccumulatorsRefineSamples(ops);
    SamplesWeighted(ops);
    var ps, f := SamplesAfter(ops), FitLine(SumsAfter(ops)).value;
    FitMinimisesError(ps, a, b);
    ErrorNonNegative(ps, f.slope, f.intercept);
  }
}
