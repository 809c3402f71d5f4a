/** A device's samples always spread along x: three effective samples are enough for a line. */
module Spread {
  import opened Serials
  import opened LineFit
  import opened LeastSquares
  import opened Calibration
  import opened CalibratorRuns
  import opened Origin

  /** What a sample `e` past the mean of `n` adds to the spread. */
  function Gain(n: real, e: real): real
    requires n > 0.0
  {
    n * (e / (n + 1.0)) * e
  }

  lemma SpreadGain(n: real, mx: real, sxx: real, x: real)
    requires n > 0.0
    ensures var e := x - mx;
            sxx + x * x - (mx * n + x) * (mx * n + x) / (n + 1.0) == (sxx - mx * mx * n) + Gain(n, e)
  {
    var e := x - mx;
    var u := e / (n + 1.0);
    assert u * (n + 1.0) == e;
    var m := mx + u;
    assert m * (n + 1.0) == mx * n + x;
    assert (mx * n + x) * (mx * n + x) / (n + 1.0) == m * (mx * n + x) by {
      assert (mx * n + x) * (mx * n + x) == m * (mx * n + x) * (n + 1.0);
    }
    assert m * (mx * n + x) == mx * mx * n + mx * x + u * (mx * (n + 1.0) + e);
    assert u * (mx * (n + 1.0) + e) == mx * e + u * e;
    assert x * x == mx * mx + 2.0 * (mx * e) + e * e && mx * x == mx * mx + mx * e;
    assert e * e == u * e * n + u * e;
    assert n * u * e == u * e * n;
  }

  /** `x` is at or past every sample, and two samples or more are spread out. */
  predicate SpreadOut(s: Sums, x: real) {
    s == EMPTY || (s.n > 0.0 && s.sx <= x * s.n && Centre(s).xx >= 0.0 && (s.n > 1.0 ==> Centre(s).xx > 0.0))
  }

  lemma CentreOfDecay(s: Sums, f: real)
    requires s.n > 0.0 && f > 0.0
    ensures s.n * f > 0.0 && Centre(s.Decayed(f)).xx == Centre(s).xx * f
    ensures s.n * f > 0.0 && (s.sx * f) / (s.n * f) == s.sx / s.n
  {
    var mx := s.sx / s.n;
    assert mx * s.n == s.sx;
    assert (s.sx * f) / (s.n * f) == mx by {
      assert mx * (s.n * f) == s.sx * f;
    }
    CentreAboutMeans(s);
    CentreAboutMeans(s.Decayed(f));
    assert mx * mx * (s.n * f) == (mx * mx * s.n) * f;
  }

  lemma CentreOfPush(s: Sums, x: real, y: real)
    requires s.n > 0.0
    ensures var e := x - s.sx / s.n;
            Centre(s.Pushed(x, y)).xx == Centre(s).xx + Gain(s.n, e)
  {
    CentreAboutMeans(s);
    SpreadGain(s.n, s.sx / s.n, s.sxx, x);
  }

  lemma GainIsPositive(n: real, e: real)
    requires n > 0.0 && e > 0.0
    ensures Gain(n, e) > 0.0
  {
    var u := e / (n + 1.0);
    assert u * (n + 1.0) == e;
    assert u > 0.0;
    assert n * u > 0.0;
  }

  lemma PastTheMean(sx: real, n: real, before: real, x: real)
    requires n > 0.0 && sx <= before * n && before < x
    ensures sx / n < x && sx + x <= x * (n + 1.0)
  {
    assert sx / n * n == sx;
    assert before * n < x * n;
  }

  lemma FirstSample(x: real, y: real)
    ensures SpreadOut(EMPTY.Pushed(x, y), x)
  {
    var s := EMPTY.Pushed(x, y);
    assert s.sx * s.sx / s.n == x * x;
  }

  lemma DecayKeepsOrder(s: Sums, x: real, f: real)
    requires f > 0.0 && s.sx <= x * s.n
    ensures s.Decayed(f).sx <= x * s.Decayed(f).n
  {
    assert (x * s.n - s.sx) * f >= 0.0;
    var n' := s.n * f;
    assert x * n' == (x * s.n) * f;
  }

  lemma NextSample(s: Sums, before: real, f: real, x: real, y: real)
    requires s.n > 0.0 && s.sx <= before * s.n && Centre(s).xx >= 0.0 && before < x && f > 0.0
    ensures SpreadOut(s.Decayed(f).Pushed(x, y), x)
  {
    var d := s.Decayed(f);
    CentreOfDecay(s, f);
    DecayKeepsOrder(s, before, f);
    assert Centre(s).xx * f >= 0.0;
    PastTheMean(d.sx, d.n, before, x);
    CentreOfPush(d, x, y);
    GainIsPositive(d.n, x - d.sx / d.n);
    var t := d.Pushed(x, y);
    assert t.n > 0.0 && t.sx <= x * t.n;
    assert Centre(t).xx > 0.0;
  }

  lemma AnchorSpreads(o: Options, dev: DeviceState, before: real, hours: real, q: real, hint: Option<real>)
    requires o.Valid() && Exponential(o.exp) && hours > 0.0
    requires SpreadOut(dev.fit, before) && before < dev.x
    ensures SpreadOut(Anchored(o, dev, hours, q, hint).fit, dev.x)
  {
    var y := dev.cumNetAh - q - dev.cumBalAh;
    var factor := Aging(o.exp, hours, o.tauHours);
    assert -hours / o.tauHours <= 0.0;
    if dev.fit == EMPTY {
      assert EMPTY.Decayed(factor) == EMPTY;
      FirstSample(dev.x, y);
    } else {
      NextSample(dev.fit, before, factor, dev.x, y);
    }
  }

  lemma ShiftSpreads(s: Sums, x: real, d: real)
    requires SpreadOut(s, x)
    ensures SpreadOut(s.Shifted(d), x - d)
  {
    if s == EMPTY {
      assert EMPTY.Shifted(d) == EMPTY;
    } else {
      CentreOfShift(s, d);
      assert (x - d) * s.n == x * s.n - d * s.n;
    }
  }

  lemma LaterX(s: Sums, x: real, x': real)
    requires SpreadOut(s, x) && x <= x'
    ensures SpreadOut(s, x')
  {
    if s.n > 0.0 {
      assert x * s.n <= x' * s.n;
    }
  }

  lemma IntegrateSpreads(o: Options, dev: DeviceState, live: Live, s: Sample)
    requires o.Valid() && Exponential(o.exp) && SpreadOut(dev.fit, dev.x)
    ensures var d := IntegrateDevice(o, dev, live, s, true); SpreadOut(d.fit, d.x)
  {
    var hours := StepHours(o, live, s);
    if hours > 0.0 {
      var moved := Advanced(dev, live, s, hours);
      if s.remainingAh.Some? {
        var a := Anchored(o, moved, hours, s.remainingAh.value, s.capacityAh);
        AnchorSpreads(o, moved, dev.x, hours, s.remainingAh.value, s.capacityAh);
        ShiftSpreads(a.fit, a.x, a.x - o.tauHours);
      } else {
        LaterX(dev.fit, dev.x, moved.x);
      }
    }
  }

  lemma {:induction false} RunSpreads(o: Options, fs: seq<Frame>, sn: Serial)
    requires o.Valid() && Exponential(o.exp)
    ensures SpreadOut(Run(o, fs).Device(sn).fit, Run(o, fs).Device(sn).x)
  {
    if fs != [] {
      var init, f := fs[..|fs| - 1], fs[|fs| - 1];
      assert fs == init + [f];
      RunStep(o, init, f);
      RunSpreads(o, init, sn);
      var c := Run(o, init);
      if f.sn == sn {
        OwnFrame(o, c, sn, f.s, true);
        IntegrateSpreads(o, c.Device(sn), c.LiveOf(sn), f.s);
      } else {
        OtherFrame(o, c, f.sn, f.s, true, sn);
      }
    }
  }

  lemma SpreadHasLine(s: Sums, x: real)
    requires SpreadOut(s, x)
    ensures FitLine(s).Some? <==> s.n >= 3.0
  {
  }

  /** In every run: more than one effective sample means spread, and three mean a line. */
  lemma LineFromThreeSamples(o: Options, fs: seq<Frame>, sn: Serial)
    requires o.Valid() && Exponential(o.exp)
    ensures var fit := Run(o, fs).Device(sn).fit;
            && (fit.n > 1.0 ==> Centre(fit).xx > 0.0)
            && (FitLine(fit).Some? <==> fit.n >= 3.0)
  {
    RunSpreads(o, fs, sn);
    SpreadHasLine(Run(o, fs).Device(sn).fit, Run(o, fs).Device(sn).x);
  }
}
