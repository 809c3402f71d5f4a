/** When the charge balance holds exactly, the fitted slope is exactly the sensor's offset. */
module ExactRecovery {
  import opened Serials
  import opened LineFit
  import opened Calibration
  import opened CalibratorRuns

  /** b = slope * a + level * c, for three sums. */
  predicate Through(slope: real, level: real, b: real, a: real, c: real) {
    b == slope * a + level * c
  }

  /** Every sample behind the sums lies on y = slope*x + level. */
  predicate OnLine(s: Sums, slope: real, level: real) {
    && Through(slope, level, s.sy, s.sx, s.n)
    && Through(slope, level, s.sxy, s.sxx, s.sx)
    && Through(slope, level, s.syy, s.sxy, s.sy)
  }

  lemma ThroughScaled(slope: real, level: real, b: real, a: real, c: real, f: real)
    requires Through(slope, level, b, a, c)
    ensures Through(slope, level, b * f, a * f, c * f)
  {
    assert (slope * a + level * c) * f == slope * (a * f) + level * (c * f);
  }

  lemma DecayStaysOnLine(s: Sums, slope: real, level: real, f: real)
    requires OnLine(s, slope, level)
    ensures OnLine(s.Decayed(f), slope, level)
  {
    ThroughScaled(slope, level, s.sy, s.sx, s.n, f);
    ThroughScaled(slope, level, s.sxy, s.sxx, s.sx, f);
    ThroughScaled(slope, level, s.syy, s.sxy, s.sy, f);
  }

  lemma PointOnLine(slope: real, level: real, x: real, y: real)
    requires y == slope * x + level
    ensures Through(slope, level, y, x, 1.0)
    ensures Through(slope, level, x * y, x * x, x)
    ensures Through(slope, level, y * y, x * y, y)
  {
    assert x * y == x * (slope * x + level) == slope * (x * x) + level * x;
    assert y * y == (slope * x + level) * y == slope * (x * y) + level * y;
  }

  lemma ThroughSum(slope: real, level: real, b: real, a: real, c: real, q: real, p: real, r: real)
    requires Through(slope, level, b, a, c) && Through(slope, level, q, p, r)
    ensures Through(slope, level, b + q, a + p, c + r)
  {
    assert slope * (a + p) == slope * a + slope * p && level * (c + r) == level * c + level * r;
  }

  lemma PushStaysOnLine(s: Sums, slope: real, level: real, x: real, y: real)
    requires OnLine(s, slope, level) && y == slope * x + level
    ensures OnLine(s.Pushed(x, y), slope, level)
  {
    PointOnLine(slope, level, x, y);
    ThroughSum(slope, level, s.sy, s.sx, s.n, y, x, 1.0);
    ThroughSum(slope, level, s.sxy, s.sxx, s.sx, x * y, x * x, x);
    ThroughSum(slope, level, s.syy, s.sxy, s.sy, y * y, x * y, y);
  }

  lemma ShiftStaysOnLine(s: Sums, slope: real, level: real, d: real)
    requires OnLine(s, slope, level)
    ensures OnLine(s.Shifted(d), slope, level + slope * d)
  {
    var t := s.Shifted(d);
    var l := level + slope * d;
    assert slope * (s.sx - d * s.n) + l * s.n == slope * s.sx + level * s.n;
    assert slope * t.sxx == slope * s.sxx - 2.0 * d * (slope * s.sx) + d * (slope * d) * s.n;
    assert l * t.sx == level * s.sx - d * (level * s.n) + d * (slope * s.sx) - d * (slope * d) * s.n;
    assert d * s.sy == d * (slope * s.sx) + d * (level * s.n);
    assert t.sxy == slope * t.sxx + l * t.sx;
    assert slope * (s.sxy - d * s.sy) + l * s.sy == slope * s.sxy + level * s.sy;
  }

  lemma CancelFactor(a: real, b: real, n: real)
    requires n > 0.0 && a * n == b * n
    ensures a == b
  {
  }

  /** Taken about the means, the level drops out. */
  lemma CentredThrough(slope: real, level: real, n: real, sx: real, sy: real, u: real, b: real, a: real, q: real, p: real)
    requires n > 0.0 && Through(slope, level, b, a, u) && Through(slope, level, sy, sx, n)
    requires q == u * sy / n && p == u * sx / n
    ensures b - q == slope * (a - p)
  {
    assert q * n == u * sy == u * (slope * sx + level * n) == slope * (u * sx) + level * u * n;
    assert p * n == u * sx;
    assert slope * (p * n) + level * u * n == (slope * p + level * u) * n;
    CancelFactor(q, slope * p + level * u, n);
    assert slope * (a - p) == slope * a - slope * p;
  }

  lemma CentredOnLine(s: Sums, slope: real, level: real)
    requires OnLine(s, slope, level) && s.n > 0.0
    ensures var c := Centre(s);
            c.sy == slope * c.sx + level * c.n && c.xy == slope * c.xx && c.yy == slope * c.xy
  {
    CentredThrough(slope, level, s.n, s.sx, s.sy, s.sx, s.sxy, s.sxx, s.sx * s.sy / s.n, s.sx * s.sx / s.n);
    CentredThrough(slope, level, s.n, s.sx, s.sy, s.sy, s.syy, s.sxy, s.sy * s.sy / s.n, s.sy * s.sx / s.n);
    assert s.sy * s.sx == s.sx * s.sy;
  }

  lemma Cancel(v: real, k: real)
    requires k != 0.0
    ensures v * k / k == v
  {
  }

  /** A line through samples that all lie on one is that line, with no residual. */
  lemma LineOfOnLine(c: Centred, slope: real, level: real)
    requires c.n >= 3.0 && LineOf(c).Some?
    requires c.sy == slope * c.sx + level * c.n && c.xy == slope * c.xx && c.yy == slope * c.xy
    ensures var f := LineOf(c).value;
            f.slope == slope && f.intercept == level && f.stderr2 == 0.0
  {
    Cancel(slope, c.xx);
    Cancel(level, c.n);
    assert c.xy / c.xx == slope;
    assert SseOf(c.xy, c.yy, slope) == 0.0;
    assert Stderr2Of(c.n, c.xx, 0.0) == 0.0;
  }

  lemma FitOfOnLine(s: Sums, slope: real, level: real)
    requires OnLine(s, slope, level) && FitLine(s).Some?
    ensures var f := FitLine(s).value;
            f.slope == slope && f.intercept == level && f.stderr2 == 0.0
  {
    CentredOnLine(s, slope, level);
    LineOfOnLine(Centre(s), slope, level);
  }

  // ---- Streams whose charge balance holds exactly ----

  /** Over the frame's step: charge seen = charge gained + charge bled + offset times integrated time. */
  predicate StepBalances(o: Options, live: Live, s: Sample, gained: real, offset: real)
    requires o.Valid()
  {
    var hours := StepHours(o, live, s);
    StepNet(live, s, hours) == gained + StepBleed(live, s, hours) + offset * hours
  }

  /** True charge at the device's latest frame. */
  function ChargeAfter(fs: seq<Frame>, sn: Serial): real {
    if fs == [] then 0.0
    else
      var f := fs[|fs| - 1];
      if f.sn == sn then f.q else ChargeAfter(fs[..|fs| - 1], sn)
  }

  /** A frame reports the true charge or none; its step balances unless it is the device's first. */
  predicate FrameBalances(o: Options, live: Live, f: Frame, before: real, offset: real)
    requires o.Valid()
  {
    && (f.s.remainingAh.Some? ==> f.s.remainingAh.value == f.q)
    && (live.lastTs.Some? ==> StepBalances(o, live, f.s, f.q - before, offset))
  }

  predicate Balanced(o: Options, fs: seq<Frame>, sn: Serial, offset: real)
    requires o.Valid()
  {
    fs != [] ==>
      var init, f := fs[..|fs| - 1], fs[|fs| - 1];
      && Balanced(o, init, sn, offset)
      && (f.sn == sn ==> FrameBalances(o, Run(o, init).LiveOf(sn), f, ChargeAfter(init, sn), offset))
  }

  /** The closure quantity, less what the offset explains of it. */
  function Level(dev: DeviceState, q: real, offset: real): real {
    dev.cumNetAh - q - dev.cumBalAh - offset * dev.x
  }

  /** All the estimator's samples, and its present point, lie on one line of slope `offset`. */
  predicate Exact(dev: DeviceState, live: Live, q: real, offset: real) {
    && (live.lastTs.Some? <==> live.lastCurrent.Some?)
    && (live.lastTs.None? ==> dev.fit == EMPTY)
    && OnLine(dev.fit, offset, Level(dev, q, offset))
  }

  lemma AdvanceKeepsLevel(o: Options, dev: DeviceState, live: Live, s: Sample, hours: real, q: real, q': real, offset: real)
    requires o.Valid() && hours == StepHours(o, live, s) && StepBalances(o, live, s, q' - q, offset)
    ensures Level(Advanced(dev, live, s, hours), q', offset) == Level(dev, q, offset)
  {
    assert offset * (dev.x + hours) == offset * dev.x + offset * hours;
  }

  lemma AnchorStaysExact(o: Options, dev: DeviceState, hours: real, q: real, hint: Option<real>, offset: real)
    requires o.Valid() && OnLine(dev.fit, offset, Level(dev, q, offset))
    ensures var a := Anchored(o, dev, hours, q, hint);
            Level(a, q, offset) == Level(dev, q, offset) && OnLine(a.fit, offset, Level(a, q, offset))
  {
    var factor := Aging(o.exp, hours, o.tauHours);
    var level := Level(dev, q, offset);
    DecayStaysOnLine(dev.fit, offset, level, factor);
    PushStaysOnLine(dev.fit.Decayed(factor), offset, level, dev.x, dev.cumNetAh - q - dev.cumBalAh);
  }

  lemma RecentreStaysExact(o: Options, dev: DeviceState, q: real, offset: real)
    requires OnLine(dev.fit, offset, Level(dev, q, offset))
    ensures OnLine(Recentred(o, dev).fit, offset, Level(Recentred(o, dev), q, offset))
  {
    if dev.x > 50.0 * o.tauHours {
      var d := dev.x - o.tauHours;
      ShiftStaysOnLine(dev.fit, offset, Level(dev, q, offset), d);
      assert offset * (dev.x - d) == offset * dev.x - offset * d;
    }
  }

  lemma NoStepNoCharge(o: Options, live: Live, s: Sample, gained: real, offset: real)
    requires o.Valid() && StepHours(o, live, s) <= 0.0 && StepBalances(o, live, s, gained, offset)
    ensures gained == 0.0
  {
    assert offset * 0.0 == 0.0;
  }

  lemma FirstFrameStaysExact(o: Options, dev: DeviceState, live: Live, f: Frame, q: real, offset: real)
    requires o.Valid() && Exact(dev, live, q, offset) && live.lastTs.None?
    ensures Exact(IntegrateDevice(o, dev, live, f.s, true), LiveAfter(live, f.s), f.q, offset)
  {
    assert IntegrateDevice(o, dev, live, f.s, true) == dev;
    var level := Level(dev, f.q, offset);
    assert level * 0.0 == 0.0 && offset * 0.0 == 0.0;
  }

  lemma StepStaysExact(o: Options, dev: DeviceState, live: Live, f: Frame, q: real, offset: real)
    requires o.Valid() && Exact(dev, live, q, offset) && live.lastTs.Some? && FrameBalances(o, live, f, q, offset)
    ensures Exact(IntegrateDevice(o, dev, live, f.s, true), LiveAfter(live, f.s), f.q, offset)
  {
    var hours := StepHours(o, live, f.s);
    if hours <= 0.0 {
      NoStepNoCharge(o, live, f.s, f.q - q, offset);
    } else {
      var moved := Advanced(dev, live, f.s, hours);
      AdvanceKeepsLevel(o, dev, live, f.s, hours, q, f.q, offset);
      if f.s.remainingAh.Some? {
        AnchorStaysExact(o, moved, hours, f.q, f.s.capacityAh, offset);
        RecentreStaysExact(o, Anchored(o, moved, hours, f.q, f.s.capacityAh), f.q, offset);
      }
    }
  }

  lemma ExactIgnoresVerdict(dev: DeviceState, dev': DeviceState, live: Live, live': Live, q: real, offset: real)
    requires Exact(dev, live, q, offset) && Core(dev) == Core(dev') && Baseline(live) == Baseline(live')
    ensures Exact(dev', live', q, offset)
  {
  }

  lemma FrameStaysExact(o: Options, c: Cal, f: Frame, sn: Serial, q: real, offset: real)
    requires o.Valid() && Exact(c.Device(sn), c.LiveOf(sn), q, offset)
    requires f.sn == sn ==> FrameBalances(o, c.LiveOf(sn), f, q, offset)
    ensures var c' := Observe(o, c, f.sn, f.s);
            Exact(c'.Device(sn), c'.LiveOf(sn), if f.sn == sn then f.q else q, offset)
  {
    if f.sn == sn {
      var dev, live := c.Device(sn), c.LiveOf(sn);
      if live.lastTs.None? {
        FirstFrameStaysExact(o, dev, live, f, q, offset);
      } else {
        StepStaysExact(o, dev, live, f, q, offset);
      }
      OwnFrame(o, c, sn, f.s, true);
      var c' := Observe(o, c, sn, f.s);
      ExactIgnoresVerdict(IntegrateDevice(o, dev, live, f.s, true), c'.Device(sn), LiveAfter(live, f.s), c'.LiveOf(sn), f.q, offset);
    } else {
      OtherFrame(o, c, f.sn, f.s, true, sn);
    }
  }

  lemma {:induction false} RunStaysExact(o: Options, fs: seq<Frame>, sn: Serial, offset: real)
    requires o.Valid() && Balanced(o, fs, sn, offset)
    ensures Exact(Run(o, fs).Device(sn), Run(o, fs).LiveOf(sn), ChargeAfter(fs, sn), offset)
  {
    if fs == [] {
      assert offset * 0.0 == 0.0;
    } else {
      var init, f := fs[..|fs| - 1], fs[|fs| - 1];
      assert fs == init + [f];
      RunStaysExact(o, init, sn, offset);
      RunStep(o, init, f);
      FrameStaysExact(o, Run(o, init), f, sn, ChargeAfter(init, sn), offset);
    }
  }

  /**
   * Whatever the spacing of frames, the outages, the frames without a charge reading and the moves
   * of the origin: as soon as a line is returned its slope is the offset and its residual is zero.
   */
  lemma OffsetRecovered(o: Options, fs: seq<Frame>, sn: Serial, offset: real)
    requires o.Valid() && Balanced(o, fs, sn, offset) && FitLine(Run(o, fs).Device(sn).fit).Some?
    ensures var f := FitLine(Run(o, fs).Device(sn).fit).value;
            f.slope == offset && f.stderr2 == 0.0
  {
    RunStaysExact(o, fs, sn, offset);
    var dev := Run(o, fs).Device(sn);
    FitOfOnLine(dev.fit, offset, Level(dev, ChargeAfter(fs, sn), offset));
  }
}
