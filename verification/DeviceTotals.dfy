/** A device's running totals from its frames alone, and the verdict they lead to. */
module DeviceTotals {
  import opened Serials
  import opened LineFit
  import opened LeastSquares
  import opened ChargeInfluence
  import opened Calibration
  import opened CalibratorRuns
  import opened Verdicts
  import opened DeviceHistory
  import opened Agreement
  import opened PairHistory

  // ---- Sums over the device's own frames ----

  /** Hours between two frames, the longest gap at most. */
  function Gap(o: Options, f: Frame, g: Frame): real
    requires o.Valid()
  {
    Clamp(g.s.nowSecs - f.s.nowSecs, 0.0, o.maxGapSecs) / 3600.0
  }

  /** Time, charge and bleed integrated, and the largest capacity seen with a charge reading. */
  datatype Totals = Totals(span: real, net: real, bleed: real, capacity: real)

  const NO_TOTALS := Totals(0.0, 0.0, 0.0, 0.0)

  /** One interval, from `f` to `g`. */
  function Added(o: Options, t: Totals, f: Frame, g: Frame): Totals
    requires o.Valid()
  {
    var h := Gap(o, f, g);
    var bleed :=
      if f.s.balanceA.Some? && g.s.balanceA.Some? then
        MeanOver(Max(f.s.balanceA.value, 0.0), Max(g.s.balanceA.value, 0.0), h)
      else 0.0;
    var capacity :=
      if h > 0.0 && g.s.remainingAh.Some? then
        Max(Max(t.capacity, if g.s.capacityAh.Some? then g.s.capacityAh.value else 0.0), g.s.remainingAh.value)
      else t.capacity;
    Totals(t.span + h, t.net + MeanOver(f.s.currentA, g.s.currentA, h), t.bleed + bleed, capacity)
  }

  /** Over all intervals between the device's frames. */
  function TotalsOf(o: Options, fs: seq<Frame>, sn: Serial): Totals
    requires o.Valid()
  {
    if fs == [] then NO_TOTALS
    else
      var init, g := fs[..|fs| - 1], fs[|fs| - 1];
      var f := Latest(init, sn);
      if g.sn == sn && f.Some? then Added(o, TotalsOf(o, init, sn), f.value, g) else TotalsOf(o, init, sn)
  }

  predicate HasTotals(dev: DeviceState, t: Totals) {
    dev.spanHours == t.span && dev.cumNetAh == t.net && dev.cumBalAh == t.bleed && dev.capacityAh == t.capacity
  }

  /** What the scratch remembers is the device's latest frame. */
  predicate RemembersFrame(live: Live, f: Option<Frame>) {
    match f
    case None => live.lastTs.None? && live.lastCurrent.None? && live.lastBalance.None?
    case Some(g) => live.lastTs == Some(g.s.nowSecs) && live.lastCurrent == Some(g.s.currentA) && live.lastBalance == g.s.balanceA
  }

  lemma HoursAreGap(o: Options, live: Live, f: Frame, g: Frame)
    requires o.Valid() && RemembersFrame(live, Some(f))
    ensures StepHours(o, live, g.s) == Gap(o, f, g) && Gap(o, f, g) >= 0.0
  {
  }

  lemma IntegratedAdds(o: Options, dev: DeviceState, live: Live, t: Totals, f: Frame, g: Frame)
    requires o.Valid() && HasTotals(dev, t) && RemembersFrame(live, Some(f))
    ensures HasTotals(IntegrateDevice(o, dev, live, g.s, true), Added(o, t, f, g))
  {
    HoursAreGap(o, live, f, g);
    StepIntegrals(o, dev, live, g.s);
  }

  lemma FirstAddsNothing(o: Options, dev: DeviceState, live: Live, s: Sample)
    requires o.Valid() && RemembersFrame(live, None)
    ensures IntegrateDevice(o, dev, live, s, true) == dev
  {
  }

  lemma TotalsStep(o: Options, c: Cal, f: Option<Frame>, g: Frame, sn: Serial, t: Totals)
    requires o.Valid() && HasTotals(c.Device(sn), t) && RemembersFrame(c.LiveOf(sn), f)
    ensures var c' := Observe(o, c, g.sn, g.s);
            && HasTotals(c'.Device(sn), if g.sn == sn && f.Some? then Added(o, t, f.value, g) else t)
            && RemembersFrame(c'.LiveOf(sn), if g.sn == sn then Some(g) else f)
  {
    if g.sn == sn {
      OwnFrame(o, c, sn, g.s, true);
      if f.Some? {
        IntegratedAdds(o, c.Device(sn), c.LiveOf(sn), t, f.value, g);
      } else {
        FirstAddsNothing(o, c.Device(sn), c.LiveOf(sn), g.s);
      }
    } else {
      OtherFrame(o, c, g.sn, g.s, true, sn);
    }
  }

  /**
   * In every run a device's integrated time, net charge, bleed and known capacity are the sums, and the
   * maximum, over the intervals between its own frames: each as long as its gap, the longest gap at most.
   */
  lemma {:induction false} RunHasTotals(o: Options, fs: seq<Frame>, sn: Serial)
    requires o.Valid()
    ensures HasTotals(Run(o, fs).Device(sn), TotalsOf(o, fs, sn))
    ensures RemembersFrame(Run(o, fs).LiveOf(sn), Latest(fs, sn))
  {
    if fs != [] {
      var init, g := fs[..|fs| - 1], fs[|fs| - 1];
      RunHasTotals(o, init, sn);
      TotalsStep(o, Run(o, init), Latest(init, sn), g, sn, TotalsOf(o, init, sn));
    }
  }

  // ---- The verdict ----

  /** Long enough integrated for the gate: the capacity is known and small against the window. */
  predicate LongEnough(o: Options, t: Totals) {
    && t.span >= o.minSpanHours
    && 0.0 < t.capacity <= o.maxAnchorErrorAmperes * t.span
    && t.capacity <= o.maxAnchorErrorAmperes * o.tauHours
  }

  lemma QuotientAtMost(a: real, b: real, limit: real)
    requires b > 0.0
    ensures a / b <= limit <==> a <= limit * b
  {
    var q := a / b;
    assert q * b == a;
    if q <= limit {
      assert (limit - q) * b >= 0.0;
    } else {
      assert (q - limit) * b > 0.0;
    }
  }

  lemma SmallerFactor(capacity: real, limit: real, less: real, more: real)
    requires 0.0 < less <= more && 0.0 < capacity <= limit * less
    ensures capacity <= limit * more
  {
    assert limit > 0.0;
    assert limit * (more - less) >= 0.0;
  }

  lemma WarmedUpMeans(o: Options, dev: DeviceState, t: Totals)
    requires o.Valid() && HasTotals(dev, t) && t.span >= 0.0
    ensures WarmedUp(o, dev) <==> LongEnough(o, t)
  {
    var window, limit := Min(t.span, o.tauHours), o.maxAnchorErrorAmperes;
    if t.capacity > 0.0 && window > 0.0 {
      QuotientAtMost(t.capacity, window, limit);
      if t.capacity <= limit * window {
        SmallerFactor(t.capacity, limit, window, t.span);
        SmallerFactor(t.capacity, limit, window, o.tauHours);
      }
    } else if t.capacity > 0.0 {
      assert t.span == 0.0 && limit * 0.0 == 0.0;
    }
  }

  lemma {:induction false} SpanNonNegative(o: Options, fs: seq<Frame>, sn: Serial)
    requires o.Valid()
    ensures TotalsOf(o, fs, sn).span >= 0.0
  {
    if fs != [] {
      SpanNonNegative(o, fs[..|fs| - 1], sn);
    }
  }

  /** The device's samples, each lowered by its charge. */
  function SamplesOf(o: Options, fs: seq<Frame>, sn: Serial): seq<Point>
    requires o.Valid() && |Shape(o, fs, sn)| == |Charges(o, fs, sn)|
  {
    WithCharge(Shape(o, fs, sn), Charges(o, fs, sn))
  }

  /** The squared residual that the limit on the slope's standard error allows. */
  function Allowed(o: Options, s: Sums): real
    requires s.n > 0.0
  {
    Sqr(o.maxStderrAmperes) * ((s.n - 2.0) * Centre(s).xx)
  }

  /** The squared residuals leave a standard error of the slope within the limit. */
  predicate Quiet(o: Options, ps: seq<Point>, line: Fit)
    requires Accumulate(ps).n > 0.0
  {
    o.maxStderrAmperes >= 0.0 && Error(ps, line.slope, line.intercept) <= Allowed(o, Accumulate(ps))
  }

  lemma TwiceOver(a: real, b: real, c: real, limit: real, e: real, most: real)
    requires b > 0.0 && c > 0.0 && e == a / b / c && most == limit * (b * c)
    ensures e <= limit <==> a <= most
  {
    var q := a / b;
    assert q * b == a;
    QuotientAtMost(q, c, limit);
    if q <= limit * c {
      assert (limit * c - q) * b >= 0.0;
    } else {
      assert (q - limit * c) * b > 0.0;
    }
    assert limit * c * b == limit * (b * c);
  }

  lemma WithinAllowed(o: Options, s: Sums, error: real, stderr2: real)
    requires s.n >= 3.0 && Centre(s).xx > 0.0 && stderr2 == Stderr2Of(s.n, Centre(s).xx, error)
    ensures stderr2 <= Sqr(o.maxStderrAmperes) <==> error <= Allowed(o, s)
  {
    TwiceOver(error, s.n - 2.0, Centre(s).xx, Sqr(o.maxStderrAmperes), stderr2, Allowed(o, s));
  }

  lemma NoisyMeans(o: Options, ps: seq<Point>)
    requires Weighted(ps) && FitLine(Accumulate(ps)).Some?
    ensures var line := FitLine(Accumulate(ps)).value;
            !TooNoisy(line.stderr2, o.maxStderrAmperes) <==> Quiet(o, ps, line)
  {
    var s, line := Accumulate(ps), FitLine(Accumulate(ps)).value;
    StderrOfResiduals(ps);
    WithinAllowed(o, s, Error(ps, line.slope, line.intercept), line.stderr2);
  }

  /** The worst disagreement published is none, or within the limit. */
  predicate PeersAgree(o: Options, live: Live) {
    live.peerDisagreement.Some? ==> live.peerDisagreement.value <= o.peerMaxDisagreementAmperes
  }

  /** What the totals, the samples and the peers say of a device after its own frame. */
  function Verdict(o: Options, t: Totals, ps: seq<Point>, live: Live): Hold {
    match FitLine(Accumulate(ps))
    case None => NoFit
    case Some(line) =>
      if !LongEnough(o, t) then Warmup
      else if !Quiet(o, ps, line) then Noisy
      else if !PeersAgree(o, live) then PeerDisagreement
      else NoHold
  }

  lemma RecomputedHold(o: Options, c: Cal, sn: Serial)
    requires o.Valid() && sn in c.devices
    ensures var c' := Recompute(o, c, sn);
            var dev, live := c'.Device(sn), c'.LiveOf(sn);
            live.hold ==
              match FitLine(dev.fit)
              case None => NoFit
              case Some(line) =>
                if !WarmedUp(o, dev) then Warmup
                else if TooNoisy(line.stderr2, o.maxStderrAmperes) then Noisy
                else if !PeersAgree(o, live) then PeerDisagreement
                else NoHold
  {
  }

  lemma HoldOfFrame(o: Options, fs: seq<Frame>, f: Frame, t: Totals, ps: seq<Point>)
    requires o.Valid() && Weighted(ps)
    requires var dev := Run(o, fs + [f]).Device(f.sn); HasTotals(dev, t) && t.span >= 0.0 && dev.fit == Accumulate(ps)
    ensures Run(o, fs + [f]).LiveOf(f.sn).hold == Verdict(o, t, ps, Run(o, fs + [f]).LiveOf(f.sn))
  {
    RunStep(o, fs, f);
    RecomputedHold(o, UpdatePeers(o, Integrate(o, Run(o, fs), f.sn, f.s, true), f.sn, f.s), f.sn);
    WarmedUpMeans(o, Run(o, fs + [f]).Device(f.sn), t);
    if FitLine(Accumulate(ps)).Some? {
      NoisyMeans(o, ps);
    }
  }

  lemma LoweredWeighted(shape: seq<Point>, qs: seq<real>)
    requires |shape| == |qs| && Weighted(shape)
    ensures Weighted(WithCharge(shape, qs))
  {
  }

  /** Without a hold the offset is the line's slope within the clamp; with one it stays. */
  predicate Obeys(o: Options, before: DeviceState, dev: DeviceState, hold: Hold, line: Option<Fit>)
    requires o.Valid()
  {
    if hold == NoHold then
      line.Some? && dev.applied == Clamp(line.value.slope, -o.maxOffsetAmperes, o.maxOffsetAmperes)
    else dev.applied == before.applied
  }

  lemma FrameObeys(o: Options, fs: seq<Frame>, f: Frame)
    requires o.Valid()
    ensures var dev := Run(o, fs + [f]).Device(f.sn);
            Obeys(o, Run(o, fs).Device(f.sn), dev, Run(o, fs + [f]).LiveOf(f.sn).hold, FitLine(dev.fit))
  {
    RunStep(o, fs, f);
    GateDecides(o, Run(o, fs), f.sn, f.s);
  }

  lemma SamplesHeld(o: Options, fs: seq<Frame>, sn: Serial)
    requires o.Valid() && Exponential(o.exp)
    ensures |Shape(o, fs, sn)| == |Charges(o, fs, sn)|
    ensures Weighted(SamplesOf(o, fs, sn)) && Run(o, fs).Device(sn).fit == Accumulate(SamplesOf(o, fs, sn))
  {
    FitIsSampled(o, fs, sn);
    ShapeWeighted(o, fs, sn);
    LoweredWeighted(Shape(o, fs, sn), Charges(o, fs, sn));
  }

  /**
   * The whole verdict, from the frames. After a device's own frame the hold is, in this order: no line
   * through its samples; too little time integrated, or the known capacity too large against it and the
   * forgetting constant; residuals too large; a peer disagreeing; or none. Without a hold the offset in
   * force is the slope of the least-squares line within the clamp, with one it stays what it was.
   */
  lemma VerdictFromFrames(o: Options, fs: seq<Frame>, f: Frame)
    requires o.Valid() && Exponential(o.exp)
    ensures |Shape(o, fs + [f], f.sn)| == |Charges(o, fs + [f], f.sn)|
    ensures var c, ps := Run(o, fs + [f]), SamplesOf(o, fs + [f], f.sn);
            && c.LiveOf(f.sn).hold == Verdict(o, TotalsOf(o, fs + [f], f.sn), ps, c.LiveOf(f.sn))
            && Obeys(o, Run(o, fs).Device(f.sn), c.Device(f.sn), c.LiveOf(f.sn).hold, FitLine(Accumulate(ps)))
  {
    SamplesHeld(o, fs + [f], f.sn);
    RunHasTotals(o, fs + [f], f.sn);
    SpanNonNegative(o, fs + [f], f.sn);
    HoldOfFrame(o, fs, f, TotalsOf(o, fs + [f], f.sn), SamplesOf(o, fs + [f], f.sn));
    FrameObeys(o, fs, f);
  }
}
