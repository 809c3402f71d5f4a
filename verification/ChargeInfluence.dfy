/** How far the reported remaining capacity can move the fitted slope. */
module ChargeInfluence {
  import opened Serials
  import opened LineFit
  import opened LeastSquares

  /** The samples of the flow `shape`, each lowered by the charge reported with it. */
  function WithCharge(shape: seq<Point>, qs: seq<real>): (ps: seq<Point>)
    requires |shape| == |qs|
    ensures |ps| == |shape|
    ensures forall i | 0 <= i < |ps| :: ps[i] == Point(shape[i].w, shape[i].x, shape[i].y - qs[i])
  {
    if shape == [] then []
    else
      var k := |shape| - 1;
      WithCharge(shape[..k], qs[..k]) + [Point(shape[k].w, shape[k].x, shape[k].y - qs[k])]
  }

  function SlopeWith(shape: seq<Point>, qs: seq<real>): Option<real>
    requires |shape| == |qs|
  {
    Slope(Accumulate(WithCharge(shape, qs)))
  }

  /** sum of w * (x - m) * y */
  function Moment(ps: seq<Point>, m: real): real {
    if ps == [] then 0.0
    else
      var p := ps[|ps| - 1];
      Moment(ps[..|ps| - 1], m) + p.w * (p.x - m) * p.y
  }

  /** sum of w * |x - m| */
  function Leverage(ps: seq<Point>, m: real): real {
    if ps == [] then 0.0
    else
      var p := ps[|ps| - 1];
      Leverage(ps[..|ps| - 1], m) + Arm(p, m)
  }

  function Arm(p: Point, m: real): real {
    p.w * Abs(p.x - m)
  }

  function Pull(p: Point, m: real, dq: real): real {
    p.w * (p.x - m) * dq
  }

  /** sum of w * (x - m) * (q' - q) */
  function Tilt(shape: seq<Point>, qs: seq<real>, qs': seq<real>, m: real): real
    requires |shape| == |qs| == |qs'|
  {
    if shape == [] then 0.0
    else
      var k := |shape| - 1;
      Tilt(shape[..k], qs[..k], qs'[..k], m) + Pull(shape[k], m, qs'[k] - qs[k])
  }

  /** The sums over x alone, which the charge does not enter. */
  predicate SameX(s: Sums, t: Sums) {
    s.n == t.n && s.sx == t.sx && s.sxx == t.sxx
  }

  lemma {:induction false} ChargeLeavesX(shape: seq<Point>, qs: seq<real>)
    requires |shape| == |qs|
    ensures SameX(Accumulate(WithCharge(shape, qs)), Accumulate(shape))
  {
    if shape != [] {
      var k := |shape| - 1;
      ChargeLeavesX(shape[..k], qs[..k]);
      assert WithCharge(shape, qs)[..k] == WithCharge(shape[..k], qs[..k]);
      SameXGrows(Accumulate(WithCharge(shape[..k], qs[..k])), Accumulate(shape[..k]), WithCharge(shape, qs)[k], shape[k]);
    }
  }

  lemma SameXGrows(s: Sums, t: Sums, p: Point, q: Point)
    requires SameX(s, t) && p.w == q.w && p.x == q.x
    ensures SameX(Add(s, Term(p)), Add(t, Term(q)))
  {
  }

  lemma {:induction false} MomentOfSums(ps: seq<Point>, m: real)
    ensures Moment(ps, m) == Accumulate(ps).sxy - m * Accumulate(ps).sy
  {
    if ps != [] {
      var p := ps[|ps| - 1];
      var s := Accumulate(ps[..|ps| - 1]);
      MomentOfSums(ps[..|ps| - 1], m);
      assert p.w * (p.x - m) * p.y == p.w * p.x * p.y - m * (p.w * p.y);
      assert m * (s.sy + p.w * p.y) == m * s.sy + m * (p.w * p.y);
    }
  }

  /** The co-spread is the moment about the mean. */
  lemma CospreadIsMoment(ps: seq<Point>)
    requires Accumulate(ps).n > 0.0
    ensures var s := Accumulate(ps); Centre(s).xy == Moment(ps, s.sx / s.n)
  {
    var s := Accumulate(ps);
    var mx := s.sx / s.n;
    MomentOfSums(ps, mx);
    CentreAboutMeans(s);
    assert mx * (s.sy / s.n) * s.n == mx * s.sy;
  }

  lemma {:induction false} MomentTilts(shape: seq<Point>, qs: seq<real>, qs': seq<real>, m: real)
    requires |shape| == |qs| == |qs'|
    ensures Moment(WithCharge(shape, qs), m) == Moment(WithCharge(shape, qs'), m) + Tilt(shape, qs, qs', m)
  {
    if shape != [] {
      var k := |shape| - 1;
      MomentTilts(shape[..k], qs[..k], qs'[..k], m);
      assert WithCharge(shape, qs)[..k] == WithCharge(shape[..k], qs[..k]);
      assert WithCharge(shape, qs')[..k] == WithCharge(shape[..k], qs'[..k]);
      var a, y := shape[k].w * (shape[k].x - m), shape[k].y;
      assert a * (y - qs[k]) == a * (y - qs'[k]) + a * (qs'[k] - qs[k]);
    }
  }

  predicate Within(qs: seq<real>, cap: real) {
    forall i | 0 <= i < |qs| :: 0.0 <= qs[i] <= cap
  }

  function Reach(cap: real, leverage: real): real {
    cap * leverage
  }

  lemma PullBounded(p: Point, m: real, dq: real, cap: real)
    requires p.w >= 0.0 && -cap <= dq <= cap
    ensures Abs(Pull(p, m, dq)) <= Reach(cap, Arm(p, m))
  {
    var a := p.w * Abs(p.x - m);
    assert a >= 0.0;
    assert a * dq <= a * cap && a * -cap <= a * dq;
    assert Pull(p, m, dq) == if p.x - m < 0.0 then -(a * dq) else a * dq;
  }

  lemma Distribute(cap: real, a: real, b: real)
    ensures Reach(cap, a + b) == Reach(cap, a) + Reach(cap, b)
  {
  }

  lemma {:induction false} TiltBounded(shape: seq<Point>, qs: seq<real>, qs': seq<real>, m: real, cap: real)
    requires |shape| == |qs| == |qs'| && Weighted(shape) && Within(qs, cap) && Within(qs', cap)
    ensures Abs(Tilt(shape, qs, qs', m)) <= Reach(cap, Leverage(shape, m))
  {
    if shape != [] {
      var k := |shape| - 1;
      TiltBounded(shape[..k], qs[..k], qs'[..k], m, cap);
      PullBounded(shape[k], m, qs'[k] - qs[k], cap);
      Distribute(cap, Leverage(shape[..k], m), Arm(shape[k], m));
    }
  }

  /** Charges that pull hardest: full on one side of the mean, empty on the other. */
  function Extreme(shape: seq<Point>, m: real, cap: real, above: bool): (qs: seq<real>)
    ensures |qs| == |shape|
    ensures cap >= 0.0 ==> Within(qs, cap)
  {
    if shape == [] then []
    else
      var k := |shape| - 1;
      Extreme(shape[..k], m, cap, above) + [if (shape[k].x > m) == above then cap else 0.0]
  }

  lemma ExtremePull(p: Point, m: real, cap: real, q: real, q': real)
    requires q == (if p.x > m then 0.0 else cap) && q' == (if p.x > m then cap else 0.0)
    ensures Pull(p, m, q' - q) == Reach(cap, Arm(p, m))
  {
    var d := p.x - m;
    if d > 0.0 {
      assert p.w * d * cap == cap * (p.w * d);
    } else {
      assert p.w * d * -cap == cap * (p.w * -d);
      assert Abs(d) == -d;
    }
  }

  lemma ExtremeAt(shape: seq<Point>, m: real, cap: real, above: bool)
    requires shape != []
    ensures var k, qs := |shape| - 1, Extreme(shape, m, cap, above);
            qs[..k] == Extreme(shape[..k], m, cap, above) && qs[k] == if (shape[k].x > m) == above then cap else 0.0
  {
  }

  lemma {:induction false} ExtremeTilt(shape: seq<Point>, m: real, cap: real)
    ensures Tilt(shape, Extreme(shape, m, cap, false), Extreme(shape, m, cap, true), m) == Reach(cap, Leverage(shape, m))
  {
    if shape == [] {
      assert Reach(cap, 0.0) == 0.0;
    } else {
      var k := |shape| - 1;
      var lo, hi := Extreme(shape, m, cap, false), Extreme(shape, m, cap, true);
      ExtremeTilt(shape[..k], m, cap);
      ExtremeAt(shape, m, cap, false);
      ExtremeAt(shape, m, cap, true);
      assert Tilt(shape, lo, hi, m) == Tilt(shape[..k], lo[..k], hi[..k], m) + Pull(shape[k], m, hi[k] - lo[k]);
      ExtremePull(shape[k], m, cap, lo[k], hi[k]);
      Distribute(cap, Leverage(shape[..k], m), Arm(shape[k], m));
    }
  }

  function Imbalance(s: Sums, m: real): real { s.sx - m * s.n }

  lemma ImbalanceStep(s: Sums, p: Point, m: real, k: real)
    ensures k * Imbalance(Add(s, Term(p)), m) == k * Imbalance(s, m) + Pull(p, m, k)
  {
    assert Imbalance(Add(s, Term(p)), m) == Imbalance(s, m) + p.w * (p.x - m);
    assert p.w * (p.x - m) * k == k * (p.w * (p.x - m));
  }

  lemma {:induction false} ConstantTilt(shape: seq<Point>, qs: seq<real>, qs': seq<real>, m: real, k: real)
    requires |shape| == |qs| == |qs'| && forall i | 0 <= i < |qs| :: qs'[i] == qs[i] + k
    ensures Tilt(shape, qs, qs', m) == k * Imbalance(Accumulate(shape), m)
  {
    if shape != [] {
      var j := |shape| - 1;
      ConstantTilt(shape[..j], qs[..j], qs'[..j], m, k);
      ImbalanceStep(Accumulate(shape[..j]), shape[j], m, k);
      assert qs'[j] - qs[j] == k;
      assert Tilt(shape, qs, qs', m) == Tilt(shape[..j], qs[..j], qs'[..j], m) + Pull(shape[j], m, k);
      assert Accumulate(shape) == Add(Accumulate(shape[..j]), Term(shape[j]));
    } else {
      assert Imbalance(EMPTY, m) == 0.0;
    }
  }

  // ---- The slope ----

  function Over(t: real, xx: real): real
    requires xx > 0.0
  {
    t / xx
  }

  lemma QuotientOfSum(sum: real, p: real, t: real, xx: real)
    requires xx > 0.0 && sum == p + t
    ensures Over(sum, xx) - Over(p, xx) == Over(t, xx)
  {
    var u, v := sum / xx, p / xx;
    assert u * xx == sum && v * xx == p;
    assert (u - v) * xx == t;
  }

  lemma SameXSameSpread(s: Sums, t: Sums)
    requires SameX(s, t) && s.n > 0.0
    ensures Centre(s).xx == Centre(t).xx
  {
  }

  /** The mean of x and its spread, from the flow alone. */
  function MeanX(shape: seq<Point>): real
    requires Accumulate(shape).n > 0.0
  {
    Accumulate(shape).sx / Accumulate(shape).n
  }

  function SpreadX(shape: seq<Point>): real
    requires Accumulate(shape).n > 0.0
  {
    Centre(Accumulate(shape)).xx
  }

  /** Enough samples, spread out: a line exists whatever the charges. */
  predicate Fittable(shape: seq<Point>) {
    Accumulate(shape).n >= 3.0 && SpreadX(shape) > 0.0
  }

  lemma SlopeFromMoment(shape: seq<Point>, qs: seq<real>)
    requires |shape| == |qs| && Fittable(shape)
    ensures SlopeWith(shape, qs) == Some(Over(Moment(WithCharge(shape, qs), MeanX(shape)), SpreadX(shape)))
  {
    var ps := WithCharge(shape, qs);
    ChargeLeavesX(shape, qs);
    SameXSameSpread(Accumulate(ps), Accumulate(shape));
    CospreadIsMoment(ps);
  }

  /** Replacing the charges moves the slope by their tilt over the spread: the slope is linear in them. */
  lemma SlopeDifference(shape: seq<Point>, qs: seq<real>, qs': seq<real>)
    requires |shape| == |qs| == |qs'| && Fittable(shape)
    ensures SlopeWith(shape, qs).Some? && SlopeWith(shape, qs').Some?
    ensures SlopeWith(shape, qs).value - SlopeWith(shape, qs').value
         == Over(Tilt(shape, qs, qs', MeanX(shape)), SpreadX(shape))
  {
    var m := MeanX(shape);
    SlopeFromMoment(shape, qs);
    SlopeFromMoment(shape, qs');
    MomentTilts(shape, qs, qs', m);
    QuotientOfSum(Moment(WithCharge(shape, qs), m), Moment(WithCharge(shape, qs'), m), Tilt(shape, qs, qs', m), SpreadX(shape));
  }

  lemma MeanBalances(shape: seq<Point>)
    requires Accumulate(shape).n > 0.0
    ensures Imbalance(Accumulate(shape), MeanX(shape)) == 0.0
  {
  }

  /** A constant added to every charge, a pinned one in particular, leaves the slope alone. */
  lemma ConstantChargeIsInvisible(shape: seq<Point>, qs: seq<real>, qs': seq<real>, k: real)
    requires |shape| == |qs| == |qs'| && Fittable(shape)
    requires forall i | 0 <= i < |qs| :: qs'[i] == qs[i] + k
    ensures SlopeWith(shape, qs) == SlopeWith(shape, qs')
  {
    SlopeDifference(shape, qs, qs');
    ConstantTilt(shape, qs, qs', MeanX(shape), k);
    MeanBalances(shape);
    assert k * 0.0 == 0.0;
    assert Tilt(shape, qs, qs', MeanX(shape)) == 0.0;
  }

  lemma OrderedQuotients(t: real, bound: real, xx: real)
    requires xx > 0.0 && t <= bound
    ensures Over(t, xx) <= Over(bound, xx)
  {
    var u, v := t / xx, bound / xx;
    assert u * xx == t && v * xx == bound;
    assert (v - u) * xx >= 0.0;
  }

  lemma QuotientBounded(t: real, bound: real, xx: real)
    requires xx > 0.0 && Abs(t) <= bound
    ensures Abs(Over(t, xx)) <= Over(bound, xx)
  {
    OrderedQuotients(t, bound, xx);
    OrderedQuotients(-t, bound, xx);
    QuotientOfSum(0.0, t, -t, xx);
    assert Over(0.0, xx) == 0.0;
  }

  /** How far replacing the charges moves the slope, when there is a line. */
  function Moves(shape: seq<Point>, qs: seq<real>, qs': seq<real>): real
    requires |shape| == |qs| == |qs'|
  {
    match (SlopeWith(shape, qs), SlopeWith(shape, qs'))
    case (Some(a), Some(b)) => Abs(a - b)
    case _ => 0.0
  }

  lemma MovesByTilt(shape: seq<Point>, qs: seq<real>, qs': seq<real>)
    requires |shape| == |qs| == |qs'| && Fittable(shape)
    ensures Moves(shape, qs, qs') == Abs(Over(Tilt(shape, qs, qs', MeanX(shape)), SpreadX(shape)))
  {
    SlopeDifference(shape, qs, qs');
  }

  /** The furthest any charges in 0..cap can move the slope: cap times the leverage over the spread. */
  function Influence(shape: seq<Point>, cap: real): real
    requires Fittable(shape)
  {
    Over(Reach(cap, Leverage(shape, MeanX(shape))), SpreadX(shape))
  }

  lemma InfluenceOfTilt(shape: seq<Point>, cap: real, tilt: real)
    requires Fittable(shape) && Abs(tilt) <= Reach(cap, Leverage(shape, MeanX(shape)))
    ensures Abs(Over(tilt, SpreadX(shape))) <= Influence(shape, cap)
  {
    QuotientBounded(tilt, Reach(cap, Leverage(shape, MeanX(shape))), SpreadX(shape));
  }

  lemma InfluenceBounded(shape: seq<Point>, qs: seq<real>, qs': seq<real>, cap: real)
    requires |shape| == |qs| == |qs'| && Fittable(shape) && Weighted(shape) && Within(qs, cap) && Within(qs', cap)
    ensures Moves(shape, qs, qs') <= Influence(shape, cap)
  {
    MovesByTilt(shape, qs, qs');
    TiltBounded(shape, qs, qs', MeanX(shape), cap);
    InfluenceOfTilt(shape, cap, Tilt(shape, qs, qs', MeanX(shape)));
  }

  lemma ReachNonNegative(cap: real, leverage: real)
    requires cap >= 0.0 && leverage >= 0.0
    ensures Reach(cap, leverage) >= 0.0
  {
  }

  lemma InfluenceNonNegative(shape: seq<Point>, cap: real)
    requires Fittable(shape) && Weighted(shape) && cap >= 0.0
    ensures Influence(shape, cap) >= 0.0
  {
    LeverageNonNegative(shape, MeanX(shape));
    var r := Reach(cap, Leverage(shape, MeanX(shape)));
    ReachNonNegative(cap, Leverage(shape, MeanX(shape)));
    OrderedQuotients(0.0, r, SpreadX(shape));
    assert Over(0.0, SpreadX(shape)) == 0.0;
  }

  /** The bound is reached. */
  lemma InfluenceReached(shape: seq<Point>, cap: real)
    requires Fittable(shape) && Weighted(shape) && cap >= 0.0
    ensures var lo := Extreme(shape, MeanX(shape), cap, false);
            var hi := Extreme(shape, MeanX(shape), cap, true);
            Within(lo, cap) && Within(hi, cap) && Moves(shape, lo, hi) == Influence(shape, cap)
  {
    var m := MeanX(shape);
    var lo, hi := Extreme(shape, m, cap, false), Extreme(shape, m, cap, true);
    MovesByTilt(shape, lo, hi);
    ExtremeTilt(shape, m, cap);
    InfluenceNonNegative(shape, cap);
  }

  lemma {:induction false} LeverageNonNegative(shape: seq<Point>, m: real)
    requires Weighted(shape)
    ensures Leverage(shape, m) >= 0.0
  {
    if shape != [] {
      LeverageNonNegative(shape[..|shape| - 1], m);
      var p := shape[|shape| - 1];
      assert p.w * Abs(p.x - m) >= 0.0;
    }
  }

  /** No charges within 0..cap move the slope by more than `limit`. */
  ghost predicate MovesAtMost(shape: seq<Point>, cap: real, limit: real) {
    forall qs: seq<real>, qs': seq<real> | |qs| == |shape| && |qs'| == |shape| && Within(qs, cap) && Within(qs', cap) ::
      Moves(shape, qs, qs') <= limit
  }

  /** The influence is exactly the least limit that holds for all charges. */
  lemma InfluenceIsSharp(shape: seq<Point>, cap: real, limit: real)
    requires Fittable(shape) && Weighted(shape) && cap >= 0.0
    ensures MovesAtMost(shape, cap, limit) <==> Influence(shape, cap) <= limit
  {
    InfluenceReached(shape, cap);
    forall qs: seq<real>, qs': seq<real> | |qs| == |shape| && |qs'| == |shape| && Within(qs, cap) && Within(qs', cap)
      ensures Moves(shape, qs, qs') <= Influence(shape, cap)
    {
      InfluenceBounded(shape, qs, qs', cap);
    }
  }

  lemma CompareQuotients(cap: real, leverage: real, xx: real, window: real)
    requires cap > 0.0 && xx > 0.0 && window > 0.0
    ensures Over(Reach(cap, leverage), xx) <= Over(cap, window) <==> window * leverage <= xx
  {
    var u, v := cap * leverage / xx, cap / window;
    assert u * xx == cap * leverage && v * window == cap;
    var k := xx * window;
    assert k > 0.0;
    assert u * k == cap * (window * leverage) && v * k == cap * xx;
  }

  lemma InfluenceAgainstWindow(shape: seq<Point>, cap: real, window: real)
    requires Fittable(shape) && cap > 0.0 && window > 0.0
    ensures Influence(shape, cap) <= Over(cap, window) <==> window * Leverage(shape, MeanX(shape)) <= SpreadX(shape)
  {
    CompareQuotients(cap, Leverage(shape, MeanX(shape)), SpreadX(shape), window);
  }

  /**
   * The documented bound, capacity over window, is not a theorem of least squares: it holds for all
   * charges exactly when the window times the leverage does not exceed the spread.
   */
  lemma WindowBoundExactly(shape: seq<Point>, cap: real, window: real)
    requires Fittable(shape) && Weighted(shape) && cap > 0.0 && window > 0.0
    ensures MovesAtMost(shape, cap, Over(cap, window)) <==> window * Leverage(shape, MeanX(shape)) <= SpreadX(shape)
  {
    InfluenceIsSharp(shape, cap, Over(cap, window));
    InfluenceAgainstWindow(shape, cap, window);
  }

  /** The two lines' slopes, by name. */
  lemma SlopesWithinInfluence(shape: seq<Point>, qs: seq<real>, qs': seq<real>, cap: real, a: Option<real>, b: Option<real>)
    requires |shape| == |qs| == |qs'| && Fittable(shape) && Weighted(shape) && Within(qs, cap) && Within(qs', cap)
    requires a == SlopeWith(shape, qs) && b == SlopeWith(shape, qs')
    ensures a.Some? && b.Some? && Abs(a.value - b.value) <= Influence(shape, cap)
  {
    SlopeDifference(shape, qs, qs');
    InfluenceBounded(shape, qs, qs', cap);
  }

  // ---- Samples within one window ----

  /** Every sample lies in lo..hi. */
  predicate Spans(ps: seq<Point>, lo: real, hi: real) {
    forall i | 0 <= i < |ps| :: lo <= ps[i].x <= hi
  }

  /** sum of w * (x - m) * (x - m), from the accumulators */
  function Inertia(s: Sums, m: real): real {
    s.sxx - 2.0 * (m * s.sx) + m * m * s.n
  }

  function ArmSquared(p: Point, m: real): real {
    p.w * ((p.x - m) * (p.x - m))
  }

  lemma InertiaStep(s: Sums, p: Point, m: real)
    ensures Inertia(Add(s, Term(p)), m) == Inertia(s, m) + ArmSquared(p, m)
  {
    assert m * (s.sx + p.w * p.x) == m * s.sx + m * (p.w * p.x);
    assert m * m * (s.n + p.w) == m * m * s.n + m * m * p.w;
    assert ArmSquared(p, m) == p.w * p.x * p.x - 2.0 * (m * (p.w * p.x)) + m * m * p.w;
  }

  lemma InertiaAtMean(shape: seq<Point>)
    requires Accumulate(shape).n > 0.0
    ensures Inertia(Accumulate(shape), MeanX(shape)) == SpreadX(shape)
  {
    var s, m := Accumulate(shape), MeanX(shape);
    CentreAboutMeans(s);
    assert m * (m * s.n) == m * m * s.n;
  }

  lemma SquareWithin(d: real, above: real, below: real, width: real, lean: real)
    requires -below <= d <= above && width == above + below && lean == above - below
    ensures 2.0 * (d * d) <= width * Abs(d) + lean * d
  {
    if d >= 0.0 {
      assert (above - d) * d >= 0.0;
      assert width * d + lean * d == 2.0 * (above * d);
    } else {
      assert (d + below) * -d >= 0.0;
      assert width * -d + lean * d == 2.0 * (below * -d);
    }
  }

  lemma WeightedBound(w: real, square: real, width: real, arm: real, lean: real, d: real)
    requires w >= 0.0 && 2.0 * square <= width * arm + lean * d
    ensures 2.0 * (w * square) <= width * (w * arm) + lean * (w * d)
  {
    var gap := width * arm + lean * d - 2.0 * square;
    assert w * gap >= 0.0;
    assert w * (width * arm) == width * (w * arm) && w * (lean * d) == lean * (w * d);
    assert w * gap == w * (width * arm) + w * (lean * d) - 2.0 * (w * square);
  }

  lemma PointWithin(p: Point, m: real, lo: real, hi: real)
    requires p.w >= 0.0 && lo <= p.x <= hi
    ensures 2.0 * ArmSquared(p, m) <= Reach(hi - lo, Arm(p, m)) + Pull(p, m, lo + hi - 2.0 * m)
  {
    var d, width, lean := p.x - m, hi - lo, lo + hi - 2.0 * m;
    SquareWithin(d, hi - m, m - lo, width, lean);
    WeightedBound(p.w, d * d, width, Abs(d), lean, d);
    assert Pull(p, m, lean) == lean * (p.w * d);
  }

  /** A bound on the inertia that each sample keeps. */
  predicate InertiaBounded(s: Sums, leverage: real, m: real, width: real, lean: real) {
    2.0 * Inertia(s, m) <= Reach(width, leverage) + lean * Imbalance(s, m)
  }

  lemma BoundedStep(s: Sums, leverage: real, p: Point, m: real, lo: real, hi: real)
    requires InertiaBounded(s, leverage, m, hi - lo, lo + hi - 2.0 * m) && p.w >= 0.0 && lo <= p.x <= hi
    ensures InertiaBounded(Add(s, Term(p)), leverage + Arm(p, m), m, hi - lo, lo + hi - 2.0 * m)
  {
    InertiaStep(s, p, m);
    PointWithin(p, m, lo, hi);
    Distribute(hi - lo, leverage, Arm(p, m));
    ImbalanceStep(s, p, m, lo + hi - 2.0 * m);
  }

  lemma {:induction false} InertiaWithin(ps: seq<Point>, m: real, lo: real, hi: real)
    requires Weighted(ps) && Spans(ps, lo, hi)
    ensures InertiaBounded(Accumulate(ps), Leverage(ps, m), m, hi - lo, lo + hi - 2.0 * m)
  {
    if ps == [] {
      NothingWeighed(m, hi - lo, lo + hi - 2.0 * m);
    } else {
      var init, p := ps[..|ps| - 1], ps[|ps| - 1];
      InertiaWithin(init, m, lo, hi);
      BoundedStep(Accumulate(init), Leverage(init, m), p, m, lo, hi);
    }
  }

  lemma NothingWeighed(m: real, width: real, lean: real)
    ensures InertiaBounded(EMPTY, 0.0, m, width, lean)
  {
    assert Imbalance(EMPTY, m) == 0.0;
  }

  /** Samples within one window spread at most half the window times their leverage. */
  lemma SpreadWithin(shape: seq<Point>, lo: real, hi: real)
    requires Accumulate(shape).n > 0.0 && Weighted(shape) && Spans(shape, lo, hi)
    ensures 2.0 * SpreadX(shape) <= Reach(hi - lo, Leverage(shape, MeanX(shape)))
  {
    InertiaWithin(shape, MeanX(shape), lo, hi);
    InertiaAtMean(shape);
    MeanBalances(shape);
    assert (lo + hi - 2.0 * MeanX(shape)) * 0.0 == 0.0;
  }

  lemma WindowIsPositive(shape: seq<Point>, lo: real, hi: real)
    requires Fittable(shape) && Weighted(shape) && Spans(shape, lo, hi)
    ensures hi > lo
  {
    SpreadWithin(shape, lo, hi);
    LeverageNonNegative(shape, MeanX(shape));
    PositiveReach(hi - lo, Leverage(shape, MeanX(shape)));
  }

  lemma PositiveReach(cap: real, leverage: real)
    requires leverage >= 0.0 && Reach(cap, leverage) > 0.0
    ensures cap > 0.0
  {
    if cap <= 0.0 {
      ReachNonNegative(-cap, leverage);
    }
  }

  lemma TwiceTheQuotient(cap: real, leverage: real, xx: real, window: real)
    requires cap > 0.0 && xx > 0.0 && window > 0.0 && 2.0 * xx <= Reach(window, leverage)
    ensures Over(Reach(cap, leverage), xx) >= 2.0 * Over(cap, window)
  {
    var u, v := cap * leverage / xx, cap / window;
    assert u * xx == cap * leverage && v * window == cap;
    var k := xx * window;
    assert k > 0.0;
    assert u * k == cap * (window * leverage) && v * k == cap * xx;
    assert cap * (window * leverage - 2.0 * xx) >= 0.0;
    assert (u - 2.0 * v) * k >= 0.0;
  }

  /**
   * While all samples lie within one window, charges within 0..cap can move the slope by twice the
   * documented bound, capacity over window, however the samples are weighted and spread.
   */
  lemma TwiceTheWindowBound(shape: seq<Point>, cap: real, lo: real, hi: real)
    requires Fittable(shape) && Weighted(shape) && Spans(shape, lo, hi) && cap > 0.0
    ensures hi > lo && Influence(shape, cap) >= 2.0 * Over(cap, hi - lo)
    ensures !MovesAtMost(shape, cap, Over(cap, hi - lo))
  {
    WindowIsPositive(shape, lo, hi);
    SpreadWithin(shape, lo, hi);
    TwiceTheQuotient(cap, Leverage(shape, MeanX(shape)), SpreadX(shape), hi - lo);
    PositiveQuotient(cap, hi - lo);
    InfluenceIsSharp(shape, cap, Over(cap, hi - lo));
  }

  lemma PositiveQuotient(t: real, xx: real)
    requires t > 0.0 && xx > 0.0
    ensures Over(t, xx) > 0.0
  {
    var u := t / xx;
    assert u * xx == t;
  }
}
