/** Moving the origin of x and capping the published peers change nothing that is decided. */
module Origin {
  import opened Serials
  import opened LineFit
  import opened LeastSquares
  import opened Calibration
  import opened CalibratorRuns

  // ---- The fit does not see where x starts ----

  lemma ShiftCompose(s: Sums, d: real, e: real)
    ensures s.Shifted(d).Shifted(e) == s.Shifted(d + e)
  {
    var t, u := s.Shifted(d).Shifted(e), s.Shifted(d + e);
    assert (d + e) * s.n == d * s.n + e * s.n;
    assert (d + e) * s.sy == d * s.sy + e * s.sy;
    assert (d + e) * (d + e) * s.n == d * d * s.n + 2.0 * (d * e * s.n) + e * e * s.n;
    assert 2.0 * (d + e) * s.sx == 2.0 * d * s.sx + 2.0 * e * s.sx;
    assert 2.0 * e * (s.sx - d * s.n) == 2.0 * e * s.sx - 2.0 * (d * e * s.n);
    assert t.sx == u.sx && t.sxy == u.sxy;
    assert t.sxx == u.sxx;
  }

  lemma ShiftNone(s: Sums)
    ensures s.Shifted(0.0) == s
  {
  }

  lemma ScaledOnce(a: real, b: real, d: real, f: real, b': real)
    requires b' == b * f
    ensures (a - d * b) * f == a * f - d * b'
  {
    assert (a - d * b) * f == a * f - d * (b * f);
  }

  lemma ScaledTwice(a: real, b: real, n: real, d: real, f: real, b': real, n': real)
    requires b' == b * f && n' == n * f
    ensures (a - 2.0 * d * b + d * d * n) * f == a * f - 2.0 * d * b' + d * d * n'
  {
    var e, g := 2.0 * d, d * d;
    assert (a - e * b + g * n) * f == a * f - e * (b * f) + g * (n * f);
  }

  lemma DecayOfOffset(s: Sums, d: real, f: real)
    ensures s.Shifted(d).Decayed(f).sx == s.Decayed(f).Shifted(d).sx
    ensures s.Shifted(d).Decayed(f).sxy == s.Decayed(f).Shifted(d).sxy
  {
    ScaledOnce(s.sx, s.n, d, f, s.n * f);
    ScaledOnce(s.sxy, s.sy, d, f, s.sy * f);
  }

  lemma DecayOfSquares(s: Sums, d: real, f: real)
    ensures s.Shifted(d).Decayed(f).sxx == s.Decayed(f).Shifted(d).sxx
  {
    ScaledTwice(s.sxx, s.sx, s.n, d, f, s.sx * f, s.n * f);
  }

  lemma ShiftDecay(s: Sums, d: real, f: real)
    ensures s.Shifted(d).Decayed(f) == s.Decayed(f).Shifted(d)
  {
    DecayOfOffset(s, d, f);
    DecayOfSquares(s, d, f);
  }

  lemma ShiftedSquare(sxx: real, sx: real, n: real, x: real, d: real, x': real, usx: real, un: real)
    requires x' == x - d && usx == sx + x && un == n + 1.0
    ensures sxx - 2.0 * d * sx + d * d * n + x' * x' == sxx + x * x - 2.0 * d * usx + d * d * un
  {
    var e, g := 2.0 * d, d * d;
    assert x' * x' == (x - d) * (x - d) == x * x - e * x + g;
    assert e * usx == e * (sx + x) == e * sx + e * x;
    assert g * un == g * (n + 1.0) == g * n + g;
  }

  lemma ShiftedProduct(sxy: real, sy: real, x: real, y: real, d: real, x': real, usy: real)
    requires x' == x - d && usy == sy + y
    ensures sxy - d * sy + x' * y == sxy + x * y - d * usy
  {
    assert x' * y == (x - d) * y == x * y - d * y;
    assert d * usy == d * (sy + y) == d * sy + d * y;
  }

  lemma ShiftedCount(sx: real, n: real, x: real, d: real, un: real)
    requires un == n + 1.0
    ensures sx - d * n + (x - d) == sx + x - d * un
  {
    assert d * un == d * (n + 1.0) == d * n + d;
  }

  lemma PushOfSquares(s: Sums, d: real, x: real, y: real)
    ensures s.Shifted(d).Pushed(x - d, y).sxx == s.Pushed(x, y).Shifted(d).sxx
  {
    ShiftedSquare(s.sxx, s.sx, s.n, x, d, x - d, s.sx + x, s.n + 1.0);
  }

  lemma PushOfProducts(s: Sums, d: real, x: real, y: real)
    ensures s.Shifted(d).Pushed(x - d, y).sxy == s.Pushed(x, y).Shifted(d).sxy
  {
    ShiftedProduct(s.sxy, s.sy, x, y, d, x - d, s.sy + y);
  }

  lemma PushOfCount(s: Sums, d: real, x: real, y: real)
    ensures s.Shifted(d).Pushed(x - d, y).sx == s.Pushed(x, y).Shifted(d).sx
  {
    ShiftedCount(s.sx, s.n, x, d, s.n + 1.0);
  }

  lemma ShiftPush(s: Sums, d: real, x: real, y: real)
    ensures s.Shifted(d).Pushed(x - d, y) == s.Pushed(x, y).Shifted(d)
  {
    PushOfSquares(s, d, x, y);
    PushOfProducts(s, d, x, y);
    PushOfCount(s, d, x, y);
  }

  lemma ShiftAboutMeans(n: real, mx: real, my: real, d: real, sxx: real, sxy: real)
    ensures (sxx - 2.0 * d * (mx * n) + d * d * n) - (mx - d) * (mx - d) * n == sxx - mx * mx * n
    ensures (sxy - d * (my * n)) - (mx - d) * my * n == sxy - mx * my * n
  {
    assert (mx - d) * (mx - d) * n == mx * mx * n - 2.0 * d * (mx * n) + d * d * n;
  }

  lemma CentreOfShift(s: Sums, d: real)
    requires s.n > 0.0
    ensures Centre(s.Shifted(d)) == Centre(s).(sx := s.sx - d * s.n)
  {
    var t := s.Shifted(d);
    CentreAboutMeans(s);
    CentreAboutMeans(t);
    var mx, my := s.sx / s.n, s.sy / s.n;
    assert t.sx / t.n == mx - d by {
      assert (mx - d) * s.n == t.sx;
    }
    ShiftAboutMeans(s.n, mx, my, d, s.sxx, s.sxy);
  }

  /** The fits agree on everything that is used: existence, slope, R-squared, standard error. */
  ghost predicate SameLine(f: Option<Fit>, g: Option<Fit>) {
    && (f.Some? <==> g.Some?)
    && (f.Some? ==> f.value.(intercept := g.value.intercept) == g.value)
  }

  lemma SameCentreSameLine(c: Centred, c': Centred)
    requires c.n >= 3.0 && c == c'.(sx := c.sx)
    ensures SameLine(LineOf(c), LineOf(c'))
  {
  }

  lemma FitOfShift(s: Sums, d: real)
    ensures SameLine(FitLine(s.Shifted(d)), FitLine(s))
  {
    if s.n >= 3.0 {
      CentreOfShift(s, d);
      SameCentreSameLine(Centre(s.Shifted(d)), Centre(s));
    }
  }

  // ---- Devices that differ only in the origin of x ----

  predicate SameUpToOrigin(d: DeviceState, d': DeviceState) {
    && d == d'.(fit := d.fit, x := d.x)
    && d.fit == d'.fit.Shifted(d'.x - d.x)
  }

  lemma OriginLine(d: DeviceState, d': DeviceState)
    requires SameUpToOrigin(d, d')
    ensures SameLine(FitLine(d.fit), FitLine(d'.fit))
  {
    FitOfShift(d'.fit, d'.x - d.x);
  }

  lemma RecentreLeft(o: Options, d: DeviceState, d': DeviceState)
    requires SameUpToOrigin(d, d')
    ensures SameUpToOrigin(Recentred(o, d), d')
  {
    var e := d.x - o.tauHours;
    ShiftCompose(d'.fit, d'.x - d.x, e);
  }

  lemma RecentreRight(o: Options, d: DeviceState, d': DeviceState)
    requires SameUpToOrigin(d, d')
    ensures SameUpToOrigin(d, Recentred(o, d'))
  {
    if d'.x > 50.0 * o.tauHours {
      var e := d'.x - o.tauHours;
      ShiftCompose(d'.fit, e, d'.x - e - d.x);
    }
  }

  lemma AnchorOrigin(o: Options, o': Options, d: DeviceState, d': DeviceState, hours: real, q: real, hint: Option<real>)
    requires o.Valid() && ApartFromCap(o, o') && SameUpToOrigin(d, d')
    ensures SameUpToOrigin(Anchored(o, d, hours, q, hint), Anchored(o', d', hours, q, hint))
  {
    var factor := Aging(o.exp, hours, o.tauHours);
    var shift := d'.x - d.x;
    ShiftDecay(d'.fit, shift, factor);
    ShiftPush(d'.fit.Decayed(factor), shift, d'.x, d.cumNetAh - q - d.cumBalAh);
  }

  /** The options agree on everything but how many peers are published. */
  ghost predicate ApartFromCap(o: Options, o': Options) {
    o == o'.(peerMaxPublished := o.peerMaxPublished)
  }

  lemma IntegrateOrigin(o: Options, o': Options, d: DeviceState, d': DeviceState, l: Live, l': Live, s: Sample, r: bool, r': bool)
    requires o.Valid() && ApartFromCap(o, o') && SameUpToOrigin(d, d') && Unlisted(l) == Unlisted(l')
    ensures SameUpToOrigin(IntegrateDevice(o, d, l, s, r), IntegrateDevice(o', d', l', s, r'))
    ensures Unlisted(LiveAfter(l, s)) == Unlisted(LiveAfter(l', s))
  {
    var hours := StepHours(o, l, s);
    assert l' == l.(peers := l'.peers);
    if hours > 0.0 {
      var m, m' := Advanced(d, l, s, hours), Advanced(d', l', s, hours);
      assert m'.x - m.x == d'.x - d.x;
      assert SameUpToOrigin(m, m');
      if s.remainingAh.Some? {
        var a, a' := Anchored(o, m, hours, s.remainingAh.value, s.capacityAh), Anchored(o', m', hours, s.remainingAh.value, s.capacityAh);
        AnchorOrigin(o, o', m, m', hours, s.remainingAh.value, s.capacityAh);
        RecentreLeft(o, a, a');
        RecentreRight(o', a, a');
        RecentreRight(o', Recentred(o, a), a');
      }
    }
  }

  /** A device's scratch without the published list. */
  function Unlisted(l: Live): Live {
    l.(peers := [])
  }

  // ---- Calibrators that differ only in origins and published lists ----

  ghost predicate Twins(c: Cal, c': Cal) {
    && c.pairs == c'.pairs && c.pairLive == c'.pairLive
    && c.devices.Keys == c'.devices.Keys && c.live.Keys == c'.live.Keys
    && (forall k | k in c.devices :: SameUpToOrigin(c.devices[k], c'.devices[k]))
    && (forall k | k in c.live :: Unlisted(c.live[k]) == Unlisted(c'.live[k]))
  }

  lemma TwinEntries(c: Cal, c': Cal, sn: Serial)
    requires Twins(c, c')
    ensures SameUpToOrigin(c.Device(sn), c'.Device(sn)) && Unlisted(c.LiveOf(sn)) == Unlisted(c'.LiveOf(sn))
  {
    ShiftNone(EMPTY);
  }

  lemma TwinIntegrate(o: Options, o': Options, c: Cal, c': Cal, sn: Serial, s: Sample, r: bool, r': bool)
    requires o.Valid() && ApartFromCap(o, o') && Twins(c, c')
    ensures Twins(Integrate(o, c, sn, s, r), Integrate(o', c', sn, s, r'))
  {
    TwinEntries(c, c', sn);
    IntegrateOrigin(o, o', c.Device(sn), c'.Device(sn), c.LiveOf(sn), c'.LiveOf(sn), s, r, r');
  }

  lemma {:induction false} TwinNear(o: Options, o': Options, c: Cal, c': Cal, sn: Serial, s: Sample, keys: seq<Serial>)
    requires ApartFromCap(o, o') && Twins(c, c')
    ensures NearAmong(o, c, sn, s, keys) == NearAmong(o', c', sn, s, keys)
  {
    if keys != [] {
      TwinEntries(c, c', keys[0]);
      TwinNear(o, o', c, c', sn, s, keys[1..]);
    }
  }

  lemma TwinPairStep(o: Options, o': Options, c: Cal, c': Cal, sn: Serial, s: Sample, other: Serial, cur: real)
    requires o.Valid() && ApartFromCap(o, o') && Twins(c, c')
    ensures Twins(PairStep(o, c, sn, s, other, cur), PairStep(o', c', sn, s, other, cur))
  {
  }

  lemma {:induction false} TwinPairSteps(o: Options, o': Options, c: Cal, c': Cal, sn: Serial, s: Sample, peers: seq<Serial>)
    requires o.Valid() && ApartFromCap(o, o') && Twins(c, c')
    requires forall p | p in peers :: c.LiveOf(p).lastRaw.Some? && c'.LiveOf(p).lastRaw.Some?
    ensures Twins(PairSteps(o, c, sn, s, peers), PairSteps(o', c', sn, s, peers))
    decreases |peers|
  {
    if peers != [] {
      TwinEntries(c, c', peers[0]);
      var cur := c.LiveOf(peers[0]).lastRaw.value.1;
      TwinPairStep(o, o', c, c', sn, s, peers[0], cur);
      var d, d' := PairStep(o, c, sn, s, peers[0], cur), PairStep(o', c', sn, s, peers[0], cur);
      assert forall p :: d.LiveOf(p) == c.LiveOf(p) && d'.LiveOf(p) == c'.LiveOf(p);
      TwinPairSteps(o, o', d, d', sn, s, peers[1..]);
    }
  }

  lemma TwinUpdatePeers(o: Options, o': Options, c: Cal, c': Cal, sn: Serial, s: Sample)
    requires o.Valid() && ApartFromCap(o, o') && Twins(c, c')
    ensures Twins(UpdatePeers(o, c, sn, s), UpdatePeers(o', c', sn, s))
  {
    TwinNear(o, o', c, c', sn, s, Sorted(c.live.Keys));
    TwinPairSteps(o, o', c, c', sn, s, NearAmong(o, c, sn, s, Sorted(c.live.Keys)));
  }

  lemma TwinReport(o: Options, o': Options, c: Cal, c': Cal, sn: Serial, own: real, other: Serial)
    requires ApartFromCap(o, o') && Twins(c, c')
    ensures PeerReportOf(o, c, sn, own, other) == PeerReportOf(o', c', sn, own, other)
  {
    if other in c.devices {
      OriginLine(c.devices[other], c'.devices[other]);
    }
  }

  lemma {:induction false} TwinReports(o: Options, o': Options, c: Cal, c': Cal, sn: Serial, own: real, keys: seq<Serial>)
    requires ApartFromCap(o, o') && Twins(c, c')
    ensures ReportsAmong(o, c, sn, own, keys) == ReportsAmong(o', c', sn, own, keys)
  {
    if keys != [] {
      TwinReport(o, o', c, c', sn, own, keys[0]);
      TwinReports(o, o', c, c', sn, own, keys[1..]);
    }
  }

  lemma TwinProposal(o: Options, o': Options, d: DeviceState, d': DeviceState)
    requires o.Valid() && ApartFromCap(o, o') && SameUpToOrigin(d, d')
    ensures Proposal(o, d) == Proposal(o', d') && Slope(d.fit) == Slope(d'.fit)
  {
    OriginLine(d, d');
  }

  lemma TwinPeerReports(o: Options, o': Options, c: Cal, c': Cal, sn: Serial)
    requires ApartFromCap(o, o') && Twins(c, c') && o.Valid()
    ensures PeerReports(o, c, sn, Slope(c.Device(sn).fit)) == PeerReports(o', c', sn, Slope(c'.Device(sn).fit))
  {
    TwinEntries(c, c', sn);
    TwinProposal(o, o', c.Device(sn), c'.Device(sn));
    var own := Slope(c.Device(sn).fit);
    if own.Some? {
      TwinReports(o, o', c, c', sn, own.value, Sorted(c.devices.Keys));
    }
  }

  /** The parts of a verdict, from which `Recompute` builds the new state. */
  function Judged(o: Options, c: Cal, sn: Serial, proposal: (real, Hold), reports: seq<PeerReport>): Cal
    requires sn in c.devices
  {
    var worst := WorstDisagreement(reports);
    var veto := proposal.1 == NoHold && worst.Some? && worst.value > o.peerMaxDisagreementAmperes;
    var dev := c.devices[sn];
    c.(devices := c.devices[sn := dev.(applied := if veto then dev.applied else proposal.0)],
       live := c.live[sn := c.LiveOf(sn).(
         hold := if veto then PeerDisagreement else proposal.1,
         peers := Truncated(reports, o.peerMaxPublished),
         peerDisagreement := worst)])
  }

  lemma RecomputeJudges(o: Options, c: Cal, sn: Serial)
    requires o.Valid() && sn in c.devices
    ensures Recompute(o, c, sn)
         == Judged(o, c, sn, Proposal(o, c.Device(sn)), PeerReports(o, c, sn, Slope(c.Device(sn).fit)))
  {
  }

  lemma TwinJudged(o: Options, o': Options, c: Cal, c': Cal, sn: Serial, proposal: (real, Hold), reports: seq<PeerReport>)
    requires ApartFromCap(o, o') && Twins(c, c') && sn in c.devices
    ensures Twins(Judged(o, c, sn, proposal, reports), Judged(o', c', sn, proposal, reports))
  {
    TwinEntries(c, c', sn);
  }

  lemma TwinRecompute(o: Options, o': Options, c: Cal, c': Cal, sn: Serial)
    requires o.Valid() && ApartFromCap(o, o') && Twins(c, c') && sn in c.devices
    ensures Twins(Recompute(o, c, sn), Recompute(o', c', sn))
  {
    TwinEntries(c, c', sn);
    TwinProposal(o, o', c.Device(sn), c'.Device(sn));
    TwinPeerReports(o, o', c, c', sn);
    RecomputeJudges(o, c, sn);
    RecomputeJudges(o', c', sn);
    TwinJudged(o, o', c, c', sn, Proposal(o, c.Device(sn)), PeerReports(o, c, sn, Slope(c.Device(sn).fit)));
  }

  lemma TwinObserve(o: Options, o': Options, c: Cal, c': Cal, sn: Serial, s: Sample, r: bool, r': bool)
    requires o.Valid() && ApartFromCap(o, o') && Twins(c, c')
    ensures Twins(ObserveWith(o, c, sn, s, r), ObserveWith(o', c', sn, s, r'))
  {
    var i, i' := Integrate(o, c, sn, s, r), Integrate(o', c', sn, s, r');
    TwinIntegrate(o, o', c, c', sn, s, r, r');
    TwinUpdatePeers(o, o', i, i', sn, s);
    TwinRecompute(o, o', UpdatePeers(o, i, sn, s), UpdatePeers(o', i', sn, s), sn);
  }

  // ---- Whole runs ----

  /** The reference run: the origin of x never moves. */
  function RunStill(o: Options, fs: seq<Frame>): Cal
    requires o.Valid()
  {
    if fs == [] then NEW_CAL
    else
      var f := fs[|fs| - 1];
      ObserveWith(o, RunStill(o, fs[..|fs| - 1]), f.sn, f.s, false)
  }

  lemma {:induction false} TwinStillRun(o: Options, fs: seq<Frame>)
    requires o.Valid()
    ensures Twins(Run(o, fs), RunStill(o, fs))
  {
    if fs != [] {
      var init, f := fs[..|fs| - 1], fs[|fs| - 1];
      TwinStillRun(o, init);
      TwinObserve(o, o, Run(o, init), RunStill(o, init), f.sn, f.s, true, false);
    }
  }

  lemma StillIntegrate(o: Options, d: DeviceState, l: Live, s: Sample)
    requires o.Valid() && d.x == d.spanHours
    ensures var d' := IntegrateDevice(o, d, l, s, false);
            d'.x == d'.spanHours
  {
  }

  lemma StillStep(o: Options, c: Cal, sn: Serial, s: Sample, k: Serial)
    requires o.Valid() && c.Device(k).x == c.Device(k).spanHours
    ensures var c' := ObserveWith(o, c, sn, s, false);
            c'.Device(k).x == c'.Device(k).spanHours
  {
    if k == sn {
      StillOwn(o, c, sn, s);
    } else {
      OtherFrame(o, c, sn, s, false, k);
    }
  }

  lemma StillOwn(o: Options, c: Cal, sn: Serial, s: Sample)
    requires o.Valid() && c.Device(sn).x == c.Device(sn).spanHours
    ensures var c' := ObserveWith(o, c, sn, s, false);
            c'.Device(sn).x == c'.Device(sn).spanHours
  {
    OwnFrame(o, c, sn, s, false);
    StillIntegrate(o, c.Device(sn), c.LiveOf(sn), s);
  }

  lemma {:induction false} StillXIsSpan(o: Options, fs: seq<Frame>, k: Serial)
    requires o.Valid()
    ensures RunStill(o, fs).Device(k).x == RunStill(o, fs).Device(k).spanHours
  {
    if fs != [] {
      var init, f := fs[..|fs| - 1], fs[|fs| - 1];
      StillXIsSpan(o, init, k);
      StillStep(o, RunStill(o, init), f.sn, f.s, k);
    }
  }

  /**
   * At every step of every run the device reads exactly as if x were its total integrated hours:
   * same line but for the intercept, same hold, same offset in force.
   */
  lemma RecentringInvisible(o: Options, fs: seq<Frame>, sn: Serial)
    requires o.Valid()
    ensures var c, still := Run(o, fs), RunStill(o, fs);
            && SameLine(FitLine(c.Device(sn).fit), FitLine(still.Device(sn).fit))
            && c.Device(sn).applied == still.Device(sn).applied
            && c.LiveOf(sn).hold == still.LiveOf(sn).hold
            && c.LiveOf(sn).peerDisagreement == still.LiveOf(sn).peerDisagreement
            && still.Device(sn).x == still.Device(sn).spanHours == c.Device(sn).spanHours
  {
    var c, still := Run(o, fs), RunStill(o, fs);
    TwinStillRun(o, fs);
    TwinEntries(c, still, sn);
    OriginLine(c.Device(sn), still.Device(sn));
    StillXIsSpan(o, fs, sn);
    assert Unlisted(c.LiveOf(sn)).hold == c.LiveOf(sn).hold;
    assert Unlisted(c.LiveOf(sn)).peerDisagreement == c.LiveOf(sn).peerDisagreement;
  }

  /** After every anchored frame x lies within fifty time constants of its origin. */
  lemma XStaysNearOrigin(o: Options, c: Cal, sn: Serial, s: Sample)
    requires o.Valid() && StepHours(o, c.LiveOf(sn), s) > 0.0 && s.remainingAh.Some?
    ensures Observe(o, c, sn, s).Device(sn).x <= 50.0 * o.tauHours
  {
    OwnFrame(o, c, sn, s, true);
  }

  lemma IntegrateSame(o: Options, o': Options, d: DeviceState, l: Live, l': Live, s: Sample)
    requires o.Valid() && ApartFromCap(o, o') && l' == l.(peers := l'.peers)
    ensures IntegrateDevice(o, d, l, s, true) == IntegrateDevice(o', d, l', s, true)
  {
    var hours := StepHours(o, l, s);
    assert StepHours(o', l', s) == hours;
    if hours > 0.0 {
      var m := Advanced(d, l, s, hours);
      assert StepNet(l, s, hours) == StepNet(l', s, hours) && StepBleed(l, s, hours) == StepBleed(l', s, hours);
      assert Advanced(d, l', s, hours) == m;
      if s.remainingAh.Some? {
        var a := Anchored(o, m, hours, s.remainingAh.value, s.capacityAh);
        assert Anchored(o', m, hours, s.remainingAh.value, s.capacityAh) == a;
        assert Recentred(o, a) == Recentred(o', a);
      }
    }
  }

  lemma SameDevicesIntegrate(o: Options, o': Options, c: Cal, c': Cal, sn: Serial, s: Sample)
    requires o.Valid() && ApartFromCap(o, o') && Twins(c, c') && c.devices == c'.devices
    ensures Integrate(o, c, sn, s, true).devices == Integrate(o', c', sn, s, true).devices
  {
    TwinEntries(c, c', sn);
    var l, l' := c.LiveOf(sn), c'.LiveOf(sn);
    assert l' == l.(peers := l'.peers);
    IntegrateSame(o, o', c.Device(sn), l, l', s);
  }

  lemma SameDevicesJudged(o: Options, o': Options, c: Cal, c': Cal, sn: Serial)
    requires o.Valid() && ApartFromCap(o, o') && Twins(c, c') && c.devices == c'.devices && sn in c.devices
    ensures Recompute(o, c, sn).devices == Recompute(o', c', sn).devices
  {
    TwinEntries(c, c', sn);
    TwinProposal(o, o', c.Device(sn), c'.Device(sn));
    TwinPeerReports(o, o', c, c', sn);
    RecomputeJudges(o, c, sn);
    RecomputeJudges(o', c', sn);
  }

  lemma SameDevicesAfter(o: Options, o': Options, c: Cal, c': Cal, sn: Serial, s: Sample)
    requires o.Valid() && ApartFromCap(o, o') && Twins(c, c') && c.devices == c'.devices
    ensures Observe(o, c, sn, s).devices == Observe(o', c', sn, s).devices
  {
    var i, i' := Integrate(o, c, sn, s, true), Integrate(o', c', sn, s, true);
    SameDevicesIntegrate(o, o', c, c', sn, s);
    TwinIntegrate(o, o', c, c', sn, s, true, true);
    TwinUpdatePeers(o, o', i, i', sn, s);
    SameDevicesJudged(o, o', UpdatePeers(o, i, sn, s), UpdatePeers(o', i', sn, s), sn);
  }

  lemma {:induction false} CapRuns(o: Options, o': Options, fs: seq<Frame>)
    requires o.Valid() && ApartFromCap(o, o')
    ensures Twins(Run(o, fs), Run(o', fs)) && Run(o, fs).devices == Run(o', fs).devices
  {
    if fs != [] {
      var init, f := fs[..|fs| - 1], fs[|fs| - 1];
      CapRuns(o, o', init);
      TwinObserve(o, o', Run(o, init), Run(o', init), f.sn, f.s, true, true);
      SameDevicesAfter(o, o', Run(o, init), Run(o', init), f.sn, f.s);
    }
  }

  /** How many peers are published decides nothing: persisted state, holds and disagreements are the same. */
  lemma PublicationCapDecidesNothing(o: Options, o': Options, fs: seq<Frame>, sn: Serial)
    requires o.Valid() && ApartFromCap(o, o')
    ensures var c, c' := Run(o, fs), Run(o', fs);
            && c.Persisted() == c'.Persisted()
            && c.LiveOf(sn).hold == c'.LiveOf(sn).hold
            && c.LiveOf(sn).peerDisagreement == c'.LiveOf(sn).peerDisagreement
  {
    var c, c' := Run(o, fs), Run(o', fs);
    CapRuns(o, o', fs);
    TwinEntries(c, c', sn);
    assert Unlisted(c.LiveOf(sn)).hold == c.LiveOf(sn).hold;
    assert Unlisted(c.LiveOf(sn)).peerDisagreement == c.LiveOf(sn).peerDisagreement;
  }
}
