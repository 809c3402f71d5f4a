/** The sample list behind a device's fit, and what the reported charge can do to its slope. */
module DeviceHistory {
  import opened Serials
  import opened LineFit
  import opened LeastSquares
  import opened ChargeInfluence
  import opened Calibration
  import opened CalibratorRuns

  /** Whether the frame puts a point into `sn`'s fit: its own, some time after the last, charge reported. */
  predicate AnchorsFit(o: Options, c: Cal, f: Frame, sn: Serial)
    requires o.Valid()
  {
    f.sn == sn && StepHours(o, c.LiveOf(sn), f.s) > 0.0 && f.s.remainingAh.Some?
  }

  /** Earlier samples age, the new one has weight 1. */
  function Grown(o: Options, moved: DeviceState, hours: real, shape: seq<Point>): seq<Point>
    requires o.Valid()
  {
    Aged(shape, Aging(o.exp, hours, o.tauHours)) + [Point(1.0, moved.x, moved.cumNetAh - moved.cumBalAh)]
  }

  function MovedIf(shape: seq<Point>, far: bool, d: real): (r: seq<Point>)
    ensures |r| == |shape|
  {
    if far then Moved(shape, d) else shape
  }

  /** One anchored frame; the origin may move. */
  function ShapeStep(o: Options, dev: DeviceState, live: Live, s: Sample, shape: seq<Point>): seq<Point>
    requires o.Valid()
  {
    var hours := StepHours(o, live, s);
    var moved := Advanced(dev, live, s, hours);
    MovedIf(Grown(o, moved, hours, shape), moved.x > 50.0 * o.tauHours, moved.x - o.tauHours)
  }

  /** Weight, x and net flow of every sample of `sn`; the reported charge does not enter. */
  function Shape(o: Options, fs: seq<Frame>, sn: Serial): seq<Point>
    requires o.Valid()
  {
    if fs == [] then []
    else
      var init, f := fs[..|fs| - 1], fs[|fs| - 1];
      var c := Run(o, init);
      if AnchorsFit(o, c, f, sn) then ShapeStep(o, c.Device(sn), c.LiveOf(sn), f.s, Shape(o, init, sn))
      else Shape(o, init, sn)
  }

  /** The charges reported with those samples. */
  function Charges(o: Options, fs: seq<Frame>, sn: Serial): seq<real>
    requires o.Valid()
  {
    if fs == [] then []
    else
      var init, f := fs[..|fs| - 1], fs[|fs| - 1];
      if AnchorsFit(o, Run(o, init), f, sn) then Charges(o, init, sn) + [f.s.remainingAh.value]
      else Charges(o, init, sn)
  }

  lemma AgedCharge(shape: seq<Point>, qs: seq<real>, f: real)
    requires |shape| == |qs|
    ensures WithCharge(Aged(shape, f), qs) == Aged(WithCharge(shape, qs), f)
  {
    var a, b := WithCharge(Aged(shape, f), qs), Aged(WithCharge(shape, qs), f);
    var aged, lowered := Aged(shape, f), WithCharge(shape, qs);
    forall i | 0 <= i < |shape| ensures a[i] == b[i] {
      assert aged[i] == Point(shape[i].w * f, shape[i].x, shape[i].y);
      assert lowered[i] == Point(shape[i].w, shape[i].x, shape[i].y - qs[i]);
    }
  }

  lemma MovedCharge(shape: seq<Point>, qs: seq<real>, d: real)
    requires |shape| == |qs|
    ensures WithCharge(Moved(shape, d), qs) == Moved(WithCharge(shape, qs), d)
  {
  }

  lemma GrownCharge(shape: seq<Point>, qs: seq<real>, p: Point, q: real)
    requires |shape| == |qs|
    ensures WithCharge(shape + [p], qs + [q]) == WithCharge(shape, qs) + [Point(p.w, p.x, p.y - q)]
  {
  }

  /** The accumulators are the sums over these samples, each lowered by its charge. */
  predicate Sampled(fit: Sums, shape: seq<Point>, qs: seq<real>) {
    |shape| == |qs| && fit == Accumulate(WithCharge(shape, qs))
  }

  lemma GrownSums(fit: Sums, shape: seq<Point>, qs: seq<real>, f: real, x: real, flow: real, q: real)
    requires Sampled(fit, shape, qs)
    ensures Sampled(fit.Decayed(f).Pushed(x, flow - q), Aged(shape, f) + [Point(1.0, x, flow)], qs + [q])
  {
    var ps := WithCharge(shape, qs);
    AccumulateAged(ps, f);
    AgedCharge(shape, qs, f);
    AccumulatePushed(Aged(ps, f), x, flow - q);
    GrownCharge(Aged(shape, f), qs, Point(1.0, x, flow), q);
  }

  lemma AnchoredIsSampled(o: Options, moved: DeviceState, hours: real, q: real, hint: Option<real>, shape: seq<Point>, qs: seq<real>)
    requires o.Valid() && Sampled(moved.fit, shape, qs)
    ensures Sampled(Anchored(o, moved, hours, q, hint).fit, Grown(o, moved, hours, shape), qs + [q])
  {
    var flow := moved.cumNetAh - moved.cumBalAh;
    GrownSums(moved.fit, shape, qs, Aging(o.exp, hours, o.tauHours), moved.x, flow, q);
    assert moved.cumNetAh - q - moved.cumBalAh == flow - q;
  }

  lemma MovedSums(fit: Sums, shape: seq<Point>, qs: seq<real>, far: bool, d: real)
    requires Sampled(fit, shape, qs)
    ensures Sampled(if far then fit.Shifted(d) else fit, MovedIf(shape, far, d), qs)
  {
    if far {
      AccumulateMoved(WithCharge(shape, qs), d);
      MovedCharge(shape, qs, d);
    }
  }

  lemma RecentredFit(o: Options, dev: DeviceState)
    ensures Recentred(o, dev).fit
         == if dev.x > 50.0 * o.tauHours then dev.fit.Shifted(dev.x - o.tauHours) else dev.fit
  {
  }

  lemma RecentredIsSampled(o: Options, dev: DeviceState, shape: seq<Point>, qs: seq<real>)
    requires Sampled(dev.fit, shape, qs)
    ensures Sampled(Recentred(o, dev).fit, MovedIf(shape, dev.x > 50.0 * o.tauHours, dev.x - o.tauHours), qs)
  {
    RecentredFit(o, dev);
    MovedSums(dev.fit, shape, qs, dev.x > 50.0 * o.tauHours, dev.x - o.tauHours);
  }

  lemma IntegrateAnchors(o: Options, dev: DeviceState, live: Live, s: Sample)
    requires o.Valid() && StepHours(o, live, s) > 0.0 && s.remainingAh.Some?
    ensures var hours := StepHours(o, live, s);
            IntegrateDevice(o, dev, live, s, true)
            == Recentred(o, Anchored(o, Advanced(dev, live, s, hours), hours, s.remainingAh.value, s.capacityAh))
  {
  }

  lemma StepIsSampled(o: Options, dev: DeviceState, live: Live, s: Sample, shape: seq<Point>, qs: seq<real>)
    requires o.Valid() && Sampled(dev.fit, shape, qs)
    requires StepHours(o, live, s) > 0.0 && s.remainingAh.Some?
    ensures Sampled(IntegrateDevice(o, dev, live, s, true).fit, ShapeStep(o, dev, live, s, shape), qs + [s.remainingAh.value])
  {
    var hours, q := StepHours(o, live, s), s.remainingAh.value;
    var moved := Advanced(dev, live, s, hours);
    AnchoredIsSampled(o, moved, hours, q, s.capacityAh, shape, qs);
    RecentredIsSampled(o, Anchored(o, moved, hours, q, s.capacityAh), Grown(o, moved, hours, shape), qs + [q]);
    IntegrateAnchors(o, dev, live, s);
  }

  lemma NoAnchorNoSample(o: Options, c: Cal, f: Frame, sn: Serial)
    requires o.Valid() && !AnchorsFit(o, c, f, sn)
    ensures Observe(o, c, f.sn, f.s).Device(sn).fit == c.Device(sn).fit
  {
    if f.sn == sn {
      OwnFrame(o, c, sn, f.s, true);
    } else {
      OtherFrame(o, c, f.sn, f.s, true, sn);
    }
  }

  /** In every run a device's accumulators are the sums over its aged, shifted, charge-lowered samples. */
  lemma {:induction false} FitIsSampled(o: Options, fs: seq<Frame>, sn: Serial)
    requires o.Valid()
    ensures Sampled(Run(o, fs).Device(sn).fit, Shape(o, fs, sn), Charges(o, fs, sn))
  {
    if fs != [] {
      var init, f := fs[..|fs| - 1], fs[|fs| - 1];
      assert fs == init + [f];
      FitIsSampled(o, init, sn);
      RunStep(o, init, f);
      var c := Run(o, init);
      if AnchorsFit(o, c, f, sn) {
        OwnFrame(o, c, sn, f.s, true);
        StepIsSampled(o, c.Device(sn), c.LiveOf(sn), f.s, Shape(o, init, sn), Charges(o, init, sn));
      } else {
        NoAnchorNoSample(o, c, f, sn);
      }
    }
  }

  // ---- Two streams that differ in reported charge and capacity only ----

  ghost predicate SameButCharge(f: Frame, g: Frame) {
    && f.sn == g.sn
    && (f.s.remainingAh.Some? <==> g.s.remainingAh.Some?)
    && f.s == g.s.(remainingAh := f.s.remainingAh, capacityAh := f.s.capacityAh)
  }

  ghost predicate StreamsSameButCharge(fs: seq<Frame>, gs: seq<Frame>) {
    |fs| == |gs| && forall i | 0 <= i < |fs| :: SameButCharge(fs[i], gs[i])
  }

  /** The device states agree on what the flow determines. */
  predicate SameFlow(d: DeviceState, e: DeviceState) {
    d.x == e.x && d.cumNetAh == e.cumNetAh && d.cumBalAh == e.cumBalAh
  }

  lemma FlowStep(o: Options, d: DeviceState, e: DeviceState, l: Live, k: Live, s: Sample, t: Sample)
    requires o.Valid() && SameFlow(d, e) && Baseline(l) == Baseline(k)
    requires (s.remainingAh.Some? <==> t.remainingAh.Some?) && s == t.(remainingAh := s.remainingAh, capacityAh := s.capacityAh)
    ensures SameFlow(IntegrateDevice(o, d, l, s, true), IntegrateDevice(o, e, k, t, true))
    ensures Baseline(LiveAfter(l, s)) == Baseline(LiveAfter(k, t))
    ensures StepHours(o, l, s) == StepHours(o, k, t)
  {
  }

  lemma SameAdvance(o: Options, d: DeviceState, e: DeviceState, l: Live, k: Live, s: Sample, t: Sample)
    requires o.Valid() && SameFlow(d, e) && Baseline(l) == Baseline(k)
    requires s == t.(remainingAh := s.remainingAh, capacityAh := s.capacityAh)
    ensures StepHours(o, l, s) == StepHours(o, k, t)
    ensures var hours := StepHours(o, l, s); SameFlow(Advanced(d, l, s, hours), Advanced(e, k, t, hours))
  {
    var hours := StepHours(o, l, s);
    assert StepNet(l, s, hours) == StepNet(k, t, hours) && StepBleed(l, s, hours) == StepBleed(k, t, hours);
  }

  lemma GrownByFlow(o: Options, d: DeviceState, e: DeviceState, hours: real, shape: seq<Point>)
    requires o.Valid() && SameFlow(d, e)
    ensures Grown(o, d, hours, shape) == Grown(o, e, hours, shape)
  {
  }

  lemma SameShapeStep(o: Options, d: DeviceState, e: DeviceState, l: Live, k: Live, s: Sample, t: Sample, shape: seq<Point>)
    requires o.Valid() && SameFlow(d, e) && Baseline(l) == Baseline(k)
    requires s == t.(remainingAh := s.remainingAh, capacityAh := s.capacityAh)
    ensures ShapeStep(o, d, l, s, shape) == ShapeStep(o, e, k, t, shape)
  {
    var hours := StepHours(o, l, s);
    SameAdvance(o, d, e, l, k, s, t);
    GrownByFlow(o, Advanced(d, l, s, hours), Advanced(e, k, t, hours), hours, shape);
  }

  /** What the flow determines after a frame: baseline and running integrals. */
  ghost predicate FlowAgrees(c: Cal, d: Cal, sn: Serial) {
    SameFlow(c.Device(sn), d.Device(sn)) && Baseline(c.LiveOf(sn)) == Baseline(d.LiveOf(sn))
  }

  lemma FlowAgreesAfter(o: Options, c: Cal, d: Cal, f: Frame, g: Frame, sn: Serial)
    requires o.Valid() && FlowAgrees(c, d, sn) && SameButCharge(f, g)
    ensures FlowAgrees(Observe(o, c, f.sn, f.s), Observe(o, d, g.sn, g.s), sn)
    ensures AnchorsFit(o, c, f, sn) <==> AnchorsFit(o, d, g, sn)
  {
    if f.sn == sn {
      OwnFrame(o, c, sn, f.s, true);
      OwnFrame(o, d, sn, g.s, true);
      FlowStep(o, c.Device(sn), d.Device(sn), c.LiveOf(sn), d.LiveOf(sn), f.s, g.s);
    } else {
      OtherFrame(o, c, f.sn, f.s, true, sn);
      OtherFrame(o, d, g.sn, g.s, true, sn);
    }
  }

  lemma {:induction false} ChargeLeavesShape(o: Options, fs: seq<Frame>, gs: seq<Frame>, sn: Serial)
    requires o.Valid() && StreamsSameButCharge(fs, gs)
    ensures FlowAgrees(Run(o, fs), Run(o, gs), sn)
    ensures Shape(o, fs, sn) == Shape(o, gs, sn)
    decreases |fs|
  {
    if fs != [] {
      var k := |fs| - 1;
      var fi, gi, f, g := fs[..k], gs[..k], fs[k], gs[k];
      assert fs == fi + [f] && gs == gi + [g];
      ChargeLeavesShape(o, fi, gi, sn);
      RunStep(o, fi, f);
      RunStep(o, gi, g);
      var c, d := Run(o, fi), Run(o, gi);
      FlowAgreesAfter(o, c, d, f, g, sn);
      if AnchorsFit(o, c, f, sn) {
        SameShapeStep(o, c.Device(sn), d.Device(sn), c.LiveOf(sn), d.LiveOf(sn), f.s, g.s, Shape(o, fi, sn));
      }
    }
  }

  /** Every reported charge of `sn` lies in 0..cap. */
  ghost predicate ChargesWithin(fs: seq<Frame>, sn: Serial, cap: real) {
    forall i | 0 <= i < |fs| && fs[i].sn == sn && fs[i].s.remainingAh.Some? :: 0.0 <= fs[i].s.remainingAh.value <= cap
  }

  lemma AnchorReportsCharge(o: Options, c: Cal, f: Frame, sn: Serial)
    requires o.Valid() && AnchorsFit(o, c, f, sn)
    ensures f.sn == sn && f.s.remainingAh.Some?
  {
  }

  lemma WithinAppend(qs: seq<real>, q: real, cap: real)
    requires Within(qs, cap) && 0.0 <= q <= cap
    ensures Within(qs + [q], cap)
  {
  }

  lemma {:induction false} ChargesInRange(o: Options, fs: seq<Frame>, sn: Serial, cap: real)
    requires o.Valid() && ChargesWithin(fs, sn, cap)
    ensures Within(Charges(o, fs, sn), cap)
  {
    if fs != [] {
      var init, f := fs[..|fs| - 1], fs[|fs| - 1];
      ChargesInRange(o, init, sn, cap);
      if AnchorsFit(o, Run(o, init), f, sn) {
        AnchorReportsCharge(o, Run(o, init), f, sn);
        WithinAppend(Charges(o, init, sn), f.s.remainingAh.value, cap);
      }
    }
  }

  lemma AgedWeights(shape: seq<Point>, f: real)
    requires Weighted(shape) && f >= 0.0
    ensures Weighted(Aged(shape, f))
  {
    forall i | 0 <= i < |shape| ensures Aged(shape, f)[i].w >= 0.0 {
      assert shape[i].w * f >= 0.0;
    }
  }

  lemma ShapeStepWeighted(o: Options, dev: DeviceState, live: Live, s: Sample, shape: seq<Point>)
    requires o.Valid() && Exponential(o.exp) && Weighted(shape)
    ensures Weighted(ShapeStep(o, dev, live, s, shape))
  {
    var hours := StepHours(o, live, s);
    assert -hours / o.tauHours <= 0.0;
    AgedWeights(shape, Aging(o.exp, hours, o.tauHours));
  }

  lemma {:induction false} ShapeWeighted(o: Options, fs: seq<Frame>, sn: Serial)
    requires o.Valid() && Exponential(o.exp)
    ensures Weighted(Shape(o, fs, sn))
  {
    if fs != [] {
      var init, f := fs[..|fs| - 1], fs[|fs| - 1];
      ShapeWeighted(o, init, sn);
      ShapeStepWeighted(o, Run(o, init).Device(sn), Run(o, init).LiveOf(sn), f.s, Shape(o, init, sn));
    }
  }

  /** The slope fitted for a device after the stream. */
  function SlopeAfter(o: Options, fs: seq<Frame>, sn: Serial): Option<real>
    requires o.Valid()
  {
    Slope(Run(o, fs).Device(sn).fit)
  }

  lemma SampledSlope(o: Options, fs: seq<Frame>, sn: Serial)
    requires o.Valid()
    ensures |Shape(o, fs, sn)| == |Charges(o, fs, sn)|
    ensures SlopeAfter(o, fs, sn) == SlopeWith(Shape(o, fs, sn), Charges(o, fs, sn))
  {
    FitIsSampled(o, fs, sn);
  }

  /**
   * Whatever the BMS reports as remaining capacity, as long as it stays within 0..cap, the fitted
   * slope of a device stays within the influence its sample weights allow: never further apart than
   * cap times the leverage over the spread of x.
   */
  lemma ReportedChargeInfluence(o: Options, fs: seq<Frame>, gs: seq<Frame>, sn: Serial, cap: real)
    requires o.Valid() && Exponential(o.exp) && StreamsSameButCharge(fs, gs)
    requires ChargesWithin(fs, sn, cap) && ChargesWithin(gs, sn, cap)
    requires Fittable(Shape(o, fs, sn))
    ensures var a, b := SlopeAfter(o, fs, sn), SlopeAfter(o, gs, sn);
            a.Some? && b.Some? && Abs(a.value - b.value) <= Influence(Shape(o, fs, sn), cap)
  {
    SampledSlope(o, fs, sn);
    SampledSlope(o, gs, sn);
    ChargeLeavesShape(o, fs, gs, sn);
    ChargesInRange(o, fs, sn, cap);
    ChargesInRange(o, gs, sn, cap);
    ShapeWeighted(o, fs, sn);
    SlopesWithinInfluence(Shape(o, fs, sn), Charges(o, fs, sn), Charges(o, gs, sn), cap,
                          SlopeAfter(o, fs, sn), SlopeAfter(o, gs, sn));
  }

  // ---- What the weights are ----

  /** Each sample's weight is the forgetting factor over the hours since it was taken. */
  ghost predicate WeighedByAge(o: Options, shape: seq<Point>, x: real)
    requires o.Valid()
  {
    forall i | 0 <= i < |shape| :: shape[i].w == Aging(o.exp, x - shape[i].x, o.tauHours)
  }

  lemma QuotientAdds(a: real, b: real, tau: real)
    requires tau > 0.0
    ensures -(a + b) / tau == -a / tau + -b / tau
  {
    var p, q := -a / tau, -b / tau;
    assert p * tau == -a && q * tau == -b;
    assert (p + q) * tau == -(a + b);
  }

  lemma AgingAdds(o: Options, a: real, b: real)
    requires o.Valid() && Exponential(o.exp)
    ensures Aging(o.exp, a + b, o.tauHours) == Aging(o.exp, a, o.tauHours) * Aging(o.exp, b, o.tauHours)
  {
    QuotientAdds(a, b, o.tauHours);
    assert Multiplies(o.exp, -a / o.tauHours, -b / o.tauHours);
  }

  lemma OlderWeight(o: Options, w: real, age: real, hours: real, older: real)
    requires o.Valid() && Exponential(o.exp) && w == Aging(o.exp, age, o.tauHours) && older == age + hours
    ensures w * Aging(o.exp, hours, o.tauHours) == Aging(o.exp, older, o.tauHours)
  {
    AgingAdds(o, age, hours);
  }

  lemma NewWeight(o: Options, age: real)
    requires o.Valid() && Exponential(o.exp) && age == 0.0
    ensures Aging(o.exp, age, o.tauHours) == 1.0
  {
    assert -age / o.tauHours == 0.0;
  }

  lemma AgedByAge(o: Options, shape: seq<Point>, before: real, hours: real, after: real)
    requires o.Valid() && Exponential(o.exp) && WeighedByAge(o, shape, before) && after == before + hours
    ensures WeighedByAge(o, Aged(shape, Aging(o.exp, hours, o.tauHours)), after)
  {
    var factor := Aging(o.exp, hours, o.tauHours);
    var aged := Aged(shape, factor);
    forall i | 0 <= i < |aged| ensures aged[i].w == Aging(o.exp, after - aged[i].x, o.tauHours) {
      assert aged[i] == Point(shape[i].w * factor, shape[i].x, shape[i].y);
      OlderWeight(o, shape[i].w, before - shape[i].x, hours, after - shape[i].x);
    }
  }

  lemma AppendedByAge(o: Options, shape: seq<Point>, p: Point)
    requires o.Valid() && Exponential(o.exp) && WeighedByAge(o, shape, p.x) && p.w == 1.0
    ensures WeighedByAge(o, shape + [p], p.x)
  {
    NewWeight(o, p.x - p.x);
  }

  lemma GrownByAge(o: Options, before: real, moved: DeviceState, hours: real, shape: seq<Point>)
    requires o.Valid() && Exponential(o.exp) && WeighedByAge(o, shape, before) && moved.x == before + hours
    ensures WeighedByAge(o, Grown(o, moved, hours, shape), moved.x)
  {
    AgedByAge(o, shape, before, hours, moved.x);
    AppendedByAge(o, Aged(shape, Aging(o.exp, hours, o.tauHours)), Point(1.0, moved.x, moved.cumNetAh - moved.cumBalAh));
  }

  lemma MovedByAge(o: Options, shape: seq<Point>, x: real, d: real)
    requires o.Valid() && WeighedByAge(o, shape, x)
    ensures WeighedByAge(o, Moved(shape, d), x - d)
  {
    forall i | 0 <= i < |shape|
      ensures Moved(shape, d)[i].w == Aging(o.exp, (x - d) - Moved(shape, d)[i].x, o.tauHours)
    {
      assert (x - d) - Moved(shape, d)[i].x == x - shape[i].x;
    }
  }

  /** No step of `sn` with time in it lacks a charge reading. */
  predicate EveryStepAnchored(o: Options, fs: seq<Frame>, sn: Serial)
    requires o.Valid()
  {
    fs != [] ==>
      var init, f := fs[..|fs| - 1], fs[|fs| - 1];
      && EveryStepAnchored(o, init, sn)
      && (f.sn == sn && StepHours(o, Run(o, init).LiveOf(sn), f.s) > 0.0 ==> f.s.remainingAh.Some?)
  }

  lemma StepByAge(o: Options, dev: DeviceState, live: Live, s: Sample, shape: seq<Point>)
    requires o.Valid() && Exponential(o.exp) && WeighedByAge(o, shape, dev.x)
    requires StepHours(o, live, s) > 0.0 && s.remainingAh.Some?
    ensures WeighedByAge(o, ShapeStep(o, dev, live, s, shape), IntegrateDevice(o, dev, live, s, true).x)
  {
    var hours := StepHours(o, live, s);
    var moved := Advanced(dev, live, s, hours);
    GrownByAge(o, dev.x, moved, hours, shape);
    MovedByAge(o, Grown(o, moved, hours, shape), moved.x, moved.x - o.tauHours);
    IntegrateAnchors(o, dev, live, s);
  }

  lemma NoAnchorNoMove(o: Options, c: Cal, f: Frame, sn: Serial)
    requires o.Valid() && !AnchorsFit(o, c, f, sn)
    requires f.sn == sn && StepHours(o, c.LiveOf(sn), f.s) > 0.0 ==> f.s.remainingAh.Some?
    ensures Observe(o, c, f.sn, f.s).Device(sn).x == c.Device(sn).x
  {
    if f.sn == sn {
      OwnFrame(o, c, sn, f.s, true);
    } else {
      OtherFrame(o, c, f.sn, f.s, true, sn);
    }
  }

  /** When every step is anchored, weights decay as the exponential of integrated age over tau. */
  lemma {:induction false} WeightsForgetExponentially(o: Options, fs: seq<Frame>, sn: Serial)
    requires o.Valid() && Exponential(o.exp) && EveryStepAnchored(o, fs, sn)
    ensures WeighedByAge(o, Shape(o, fs, sn), Run(o, fs).Device(sn).x)
  {
    if fs != [] {
      var init, f := fs[..|fs| - 1], fs[|fs| - 1];
      assert fs == init + [f];
      WeightsForgetExponentially(o, init, sn);
      RunStep(o, init, f);
      var c := Run(o, init);
      if AnchorsFit(o, c, f, sn) {
        OwnFrame(o, c, sn, f.s, true);
        StepByAge(o, c.Device(sn), c.LiveOf(sn), f.s, Shape(o, init, sn));
      } else {
        NoAnchorNoMove(o, c, f, sn);
      }
    }
  }
}
