/** The documented bound on what the reported charge can do, capacity over window, on the streams of a device. */
module WindowBound {
  import opened Serials
  import opened LineFit
  import opened LeastSquares
  import opened ChargeInfluence
  import opened Calibration
  import opened CalibratorRuns
  import opened DeviceHistory

  // ---- Every sample lies within the integrated span ----

  predicate WithinSpan(shape: seq<Point>, dev: DeviceState) {
    Spans(shape, dev.x - dev.spanHours, dev.x)
  }

  lemma AdvancedWithinSpan(dev: DeviceState, live: Live, s: Sample, hours: real, shape: seq<Point>)
    requires WithinSpan(shape, dev) && hours >= 0.0
    ensures WithinSpan(shape, Advanced(dev, live, s, hours))
  {
  }

  lemma GrownWithinSpan(o: Options, moved: DeviceState, hours: real, shape: seq<Point>)
    requires o.Valid() && WithinSpan(shape, moved) && moved.spanHours >= 0.0
    ensures WithinSpan(Grown(o, moved, hours, shape), moved)
  {
  }

  lemma StepWithinSpan(o: Options, dev: DeviceState, live: Live, s: Sample, shape: seq<Point>)
    requires o.Valid() && WithinSpan(shape, dev) && dev.spanHours >= 0.0
    requires StepHours(o, live, s) > 0.0 && s.remainingAh.Some?
    ensures WithinSpan(ShapeStep(o, dev, live, s, shape), IntegrateDevice(o, dev, live, s, true))
  {
    var hours := StepHours(o, live, s);
    var moved := Advanced(dev, live, s, hours);
    AdvancedWithinSpan(dev, live, s, hours, shape);
    GrownWithinSpan(o, moved, hours, shape);
    IntegrateAnchors(o, dev, live, s);
  }

  lemma UnanchoredWithinSpan(o: Options, dev: DeviceState, live: Live, s: Sample, shape: seq<Point>)
    requires o.Valid() && WithinSpan(shape, dev) && (StepHours(o, live, s) <= 0.0 || s.remainingAh.None?)
    ensures WithinSpan(shape, IntegrateDevice(o, dev, live, s, true))
  {
    AdvancedWithinSpan(dev, live, s, StepHours(o, live, s), shape);
  }

  /** A frame that adds no sample moves the present point and the span together. */
  lemma NoSampleWithinSpan(o: Options, c: Cal, f: Frame, sn: Serial, shape: seq<Point>)
    requires o.Valid() && WithinSpan(shape, c.Device(sn)) && !AnchorsFit(o, c, f, sn)
    ensures WithinSpan(shape, Observe(o, c, f.sn, f.s).Device(sn))
    ensures Observe(o, c, f.sn, f.s).Device(sn).spanHours >= c.Device(sn).spanHours
  {
    if f.sn == sn {
      OwnFrame(o, c, sn, f.s, true);
      SpanGrows(o, c.Device(sn), c.LiveOf(sn), f.s);
      UnanchoredWithinSpan(o, c.Device(sn), c.LiveOf(sn), f.s, shape);
    } else {
      OtherFrame(o, c, f.sn, f.s, true, sn);
    }
  }

  lemma SpanGrows(o: Options, dev: DeviceState, live: Live, s: Sample)
    requires o.Valid()
    ensures IntegrateDevice(o, dev, live, s, true).spanHours >= dev.spanHours
  {
  }

  /** Samples within the span, which is not negative. */
  predicate Placed(shape: seq<Point>, dev: DeviceState) {
    dev.spanHours >= 0.0 && WithinSpan(shape, dev)
  }

  lemma SampleStays(o: Options, c: Cal, f: Frame, sn: Serial, shape: seq<Point>)
    requires o.Valid() && Placed(shape, c.Device(sn))
    ensures Placed(if AnchorsFit(o, c, f, sn) then ShapeStep(o, c.Device(sn), c.LiveOf(sn), f.s, shape) else shape,
                   Observe(o, c, f.sn, f.s).Device(sn))
  {
    if AnchorsFit(o, c, f, sn) {
      OwnFrame(o, c, sn, f.s, true);
      SpanGrows(o, c.Device(sn), c.LiveOf(sn), f.s);
      StepWithinSpan(o, c.Device(sn), c.LiveOf(sn), f.s, shape);
    } else {
      NoSampleWithinSpan(o, c, f, sn, shape);
    }
  }

  lemma {:induction false} SamplesWithinSpan(o: Options, fs: seq<Frame>, sn: Serial)
    requires o.Valid()
    ensures Placed(Shape(o, fs, sn), Run(o, fs).Device(sn))
  {
    if fs != [] {
      var init, f := fs[..|fs| - 1], fs[|fs| - 1];
      SamplesWithinSpan(o, init, sn);
      SampleStays(o, Run(o, init), f, sn, Shape(o, init, sn));
    }
  }

  // ---- The same stream with other charges reported ----

  /** Which frames put a sample into the device's fit. */
  function Marks(o: Options, fs: seq<Frame>, sn: Serial): (marks: seq<bool>)
    requires o.Valid()
    ensures |marks| == |fs|
  {
    if fs == [] then []
    else
      var init := fs[..|fs| - 1];
      Marks(o, init, sn) + [AnchorsFit(o, Run(o, init), fs[|fs| - 1], sn)]
  }

  /** A marked frame that reports a charge. */
  predicate Picks(f: Frame, mark: bool) {
    mark && f.s.remainingAh.Some?
  }

  /** The charges of the marked frames. */
  function Picked(fs: seq<Frame>, marks: seq<bool>): seq<real>
    requires |marks| == |fs|
  {
    if fs == [] then []
    else
      var k := |fs| - 1;
      Picked(fs[..k], marks[..k]) + if Picks(fs[k], marks[k]) then [fs[k].s.remainingAh.value] else []
  }

  function Reporting(f: Frame, q: real): Frame {
    f.(s := f.s.(remainingAh := Some(q)))
  }

  /** The stream, its marked frames reporting these charges instead. */
  function Recharged(fs: seq<Frame>, marks: seq<bool>, qs: seq<real>): (gs: seq<Frame>)
    requires |marks| == |fs|
    ensures |gs| == |fs|
  {
    if fs == [] then []
    else
      var k := |fs| - 1;
      if Picks(fs[k], marks[k]) && qs != [] then Recharged(fs[..k], marks[..k], qs[..|qs| - 1]) + [Reporting(fs[k], qs[|qs| - 1])]
      else Recharged(fs[..k], marks[..k], qs) + [fs[k]]
  }

  /** It differs from the first in reported charge only. */
  lemma {:induction false} RechargedSame(fs: seq<Frame>, marks: seq<bool>, qs: seq<real>)
    requires |marks| == |fs|
    ensures StreamsSameButCharge(fs, Recharged(fs, marks, qs))
    decreases |fs|
  {
    if fs != [] {
      var k := |fs| - 1;
      RechargedSame(fs[..k], marks[..k], if Picks(fs[k], marks[k]) && qs != [] then qs[..|qs| - 1] else qs);
    }
  }

  lemma PickedOneMore(fs: seq<Frame>, marks: seq<bool>, f: Frame, mark: bool)
    requires |marks| == |fs|
    ensures Picked(fs + [f], marks + [mark])
         == Picked(fs, marks) + if Picks(f, mark) then [f.s.remainingAh.value] else []
  {
    assert (fs + [f])[..|fs|] == fs && (marks + [mark])[..|fs|] == marks;
  }

  /** The charges of its marked frames are those given. */
  lemma {:induction false} RechargedPicks(fs: seq<Frame>, marks: seq<bool>, qs: seq<real>)
    requires |marks| == |fs| && |qs| == |Picked(fs, marks)|
    ensures Picked(Recharged(fs, marks, qs), marks) == qs
    decreases |fs|
  {
    if fs != [] {
      var k := |fs| - 1;
      var init, f, before, mark := fs[..k], fs[k], marks[..k], marks[k];
      assert marks == before + [mark];
      if Picks(f, mark) {
        RechargedPicks(init, before, qs[..|qs| - 1]);
        PickedOneMore(Recharged(init, before, qs[..|qs| - 1]), before, Reporting(f, qs[|qs| - 1]), mark);
      } else {
        RechargedPicks(init, before, qs);
        PickedOneMore(Recharged(init, before, qs), before, f, mark);
      }
    }
  }

  lemma {:induction false} RechargedWithin(fs: seq<Frame>, marks: seq<bool>, sn: Serial, qs: seq<real>, cap: real)
    requires |marks| == |fs| && Within(qs, cap) && ChargesWithin(fs, sn, cap)
    ensures ChargesWithin(Recharged(fs, marks, qs), sn, cap)
    decreases |fs|
  {
    if fs != [] {
      var k := |fs| - 1;
      RechargedWithin(fs[..k], marks[..k], sn, if Picks(fs[k], marks[k]) && qs != [] then qs[..|qs| - 1] else qs, cap);
    }
  }

  lemma {:induction false} MarksPick(o: Options, fs: seq<Frame>, sn: Serial)
    requires o.Valid()
    ensures Charges(o, fs, sn) == Picked(fs, Marks(o, fs, sn))
  {
    if fs != [] {
      var k := |fs| - 1;
      MarksPick(o, fs[..k], sn);
      assert Marks(o, fs, sn)[..k] == Marks(o, fs[..k], sn);
    }
  }

  /** Reported charges do not decide which frames put samples into the fit. */
  lemma {:induction false} ChargeLeavesMarks(o: Options, fs: seq<Frame>, gs: seq<Frame>, sn: Serial)
    requires o.Valid() && StreamsSameButCharge(fs, gs)
    ensures Marks(o, fs, sn) == Marks(o, gs, sn)
    decreases |fs|
  {
    if fs != [] {
      var k := |fs| - 1;
      ChargeLeavesMarks(o, fs[..k], gs[..k], sn);
      ChargeLeavesShape(o, fs[..k], gs[..k], sn);
      FlowAgreesAfter(o, Run(o, fs[..k]), Run(o, gs[..k]), fs[k], gs[k], sn);
    }
  }

  /** A stream that differs from `fs` only in charges reported within 0..cap. */
  ghost predicate Variant(fs: seq<Frame>, gs: seq<Frame>, sn: Serial, cap: real) {
    StreamsSameButCharge(fs, gs) && ChargesWithin(gs, sn, cap)
  }

  /** Any charges within 0..cap are those of some stream with the same flow. */
  lemma VariantAt(o: Options, fs: seq<Frame>, sn: Serial, qs: seq<real>, cap: real)
    requires o.Valid() && |qs| == |Shape(o, fs, sn)| && Within(qs, cap) && ChargesWithin(fs, sn, cap)
    ensures var gs := Recharged(fs, Marks(o, fs, sn), qs);
            Variant(fs, gs, sn, cap) && SlopeAfter(o, gs, sn) == SlopeWith(Shape(o, fs, sn), qs)
  {
    var marks := Marks(o, fs, sn);
    var gs := Recharged(fs, marks, qs);
    SampledSlope(o, fs, sn);
    MarksPick(o, fs, sn);
    RechargedSame(fs, marks, qs);
    RechargedPicks(fs, marks, qs);
    RechargedWithin(fs, marks, sn, qs, cap);
    ChargeLeavesMarks(o, fs, gs, sn);
    MarksPick(o, gs, sn);
    ChargeLeavesShape(o, fs, gs, sn);
    SampledSlope(o, gs, sn);
  }

  predicate Apart(a: Option<real>, b: Option<real>, distance: real) {
    a.Some? && b.Some? && Abs(a.value - b.value) >= distance
  }

  /** Charges reported within 0..cap, the flow unchanged, give slopes at least `distance` apart. */
  ghost predicate Sways(o: Options, fs: seq<Frame>, sn: Serial, cap: real, distance: real)
    requires o.Valid()
  {
    exists gs, hs ::
      Variant(fs, gs, sn, cap) && Variant(fs, hs, sn, cap) && Apart(SlopeAfter(o, gs, sn), SlopeAfter(o, hs, sn), distance)
  }

  lemma ExtremeSlopes(shape: seq<Point>, cap: real, lo: seq<real>, hi: seq<real>)
    requires Fittable(shape) && Weighted(shape) && cap >= 0.0
    requires lo == Extreme(shape, MeanX(shape), cap, false) && hi == Extreme(shape, MeanX(shape), cap, true)
    ensures Apart(SlopeWith(shape, lo), SlopeWith(shape, hi), Influence(shape, cap))
  {
    SlopeDifference(shape, lo, hi);
    InfluenceReached(shape, cap);
  }

  /** Streams attain the influence, and so anything below it. */
  lemma InfluenceAttained(o: Options, fs: seq<Frame>, sn: Serial, cap: real, distance: real)
    requires o.Valid() && cap >= 0.0 && ChargesWithin(fs, sn, cap)
    requires Weighted(Shape(o, fs, sn)) && Fittable(Shape(o, fs, sn)) && distance <= Influence(Shape(o, fs, sn), cap)
    ensures Sways(o, fs, sn, cap, distance)
  {
    var shape := Shape(o, fs, sn);
    var lo, hi := Extreme(shape, MeanX(shape), cap, false), Extreme(shape, MeanX(shape), cap, true);
    VariantAt(o, fs, sn, lo, cap);
    VariantAt(o, fs, sn, hi, cap);
    ExtremeSlopes(shape, cap, lo, hi);
    var gs, hs := Recharged(fs, Marks(o, fs, sn), lo), Recharged(fs, Marks(o, fs, sn), hi);
    assert Apart(SlopeAfter(o, gs, sn), SlopeAfter(o, hs, sn), distance);
  }

  lemma BoundBeforeTau(shape: seq<Point>, dev: DeviceState, cap: real, tau: real)
    requires Placed(shape, dev) && Weighted(shape) && Fittable(shape) && cap > 0.0 && dev.spanHours <= tau
    ensures var bound := AnchorError(cap, dev.spanHours, tau);
            bound.Some? && bound.value > 0.0 && 2.0 * bound.value <= Influence(shape, cap)
  {
    TwiceTheWindowBound(shape, cap, dev.x - dev.spanHours, dev.x);
    assert dev.x - (dev.x - dev.spanHours) == dev.spanHours;
    PositiveQuotient(cap, dev.spanHours);
  }

  /**
   * The documented bound fails on every stream that has not yet integrated more than the forgetting
   * constant: as soon as its samples allow a line, charges reported within 0..cap, the flow unchanged,
   * give slopes at least twice capacity over window apart.
   */
  lemma WindowBoundFails(o: Options, fs: seq<Frame>, sn: Serial, cap: real)
    requires o.Valid() && Exponential(o.exp) && cap > 0.0 && ChargesWithin(fs, sn, cap)
    requires Fittable(Shape(o, fs, sn)) && Run(o, fs).Device(sn).spanHours <= o.tauHours
    ensures var bound := AnchorError(cap, Run(o, fs).Device(sn).spanHours, o.tauHours);
            bound.Some? && bound.value > 0.0 && Sways(o, fs, sn, cap, 2.0 * bound.value)
  {
    ShapeWeighted(o, fs, sn);
    SamplesWithinSpan(o, fs, sn);
    var dev := Run(o, fs).Device(sn);
    BoundBeforeTau(Shape(o, fs, sn), dev, cap, o.tauHours);
    InfluenceAttained(o, fs, sn, cap, 2.0 * AnchorError(cap, dev.spanHours, o.tauHours).value);
  }
}
