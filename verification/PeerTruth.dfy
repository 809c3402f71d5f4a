/** What the peer check measures: how far the difference of two sensors is from what their offsets explain. */
module PeerTruth {
  import opened Serials
  import opened LineFit
  import opened LeastSquares
  import opened Calibration
  import opened CalibratorRuns
  import opened DeviceHistory
  import opened ExactRecovery
  import opened Verdicts
  import opened PairHistory

  /** The difference larger minus smaller of a quantity each device has. */
  function Excess(a: Serial, ofA: real, b: Serial, ofB: real): real {
    if Less(a, b) then ofB - ofA else ofA - ofB
  }

  /** The paired readings of two devices, in the order of their serials. */
  function Readings(o: Options, fs: seq<Frame>, a: Serial, b: Serial): seq<Point>
    requires o.Valid()
  {
    if Less(a, b) then PairSamples(o, fs, a, b) else PairSamples(o, fs, b, a)
  }

  /** Whenever the two devices meet, the larger reads `delta` more. */
  predicate AlwaysDiffer(o: Options, fs: seq<Frame>, a: Serial, b: Serial, delta: real)
    requires o.Valid()
  {
    Differ(Readings(o, fs, a, b), delta)
  }

  /** What a report of `sn` on `other` says when the pair's line and both slopes are as given. */
  predicate Truthful(p: PeerReport, sn: Serial, own: real, other: Serial, theirs: real, delta: real) {
    && p.relativeOffset == (if Less(sn, other) then -delta else delta)
    && p.slope == 1.0 && p.r2 == 1.0
    && p.disagreement == Abs(delta - Excess(sn, own, other, theirs))
  }

  lemma AbsOfEither(u: real, v: real)
    requires u == v || u == -v
    ensures Abs(u) == Abs(v)
  {
  }

  lemma DisagreementIs(sn: Serial, own: real, other: Serial, theirs: real, delta: real, relative: real)
    requires relative == if Less(sn, other) then -delta else delta
    ensures Abs(relative - (own - theirs)) == Abs(delta - Excess(sn, own, other, theirs))
  {
    AbsOfEither(relative - (own - theirs), delta - Excess(sn, own, other, theirs));
  }

  lemma ReportReads(o: Options, c: Cal, sn: Serial, other: Serial, own: real, theirs: real, delta: real)
    requires sn != other && ReportOn(o, c, sn, other).Some?
    requires Slope(c.Device(sn).fit).Some? ==> Slope(c.Device(sn).fit).value == own
    requires Slope(c.Device(other).fit).Some? ==> Slope(c.Device(other).fit).value == theirs
    requires var line := FitLine(c.Pair(PairKey(sn, other).0)); line.Some? ==> Parallel(line.value, delta)
    ensures Truthful(ReportOn(o, c, sn, other).value, sn, own, other, theirs, delta)
  {
    DisagreementIs(sn, own, other, theirs, delta, ReportOn(o, c, sn, other).value.relativeOffset);
  }

  /** The charge balances of the two devices hold, each with its own sensor's offset. */
  predicate BothBalanced(o: Options, fs: seq<Frame>, a: Serial, ofA: real, b: Serial, ofB: real)
    requires o.Valid()
  {
    Balanced(o, fs, a, ofA) && Balanced(o, fs, b, ofB)
  }

  lemma SlopeIsOffset(o: Options, fs: seq<Frame>, sn: Serial, offset: real)
    requires o.Valid() && Balanced(o, fs, sn, offset)
    ensures var slope := Slope(Run(o, fs).Device(sn).fit); slope.Some? ==> slope.value == offset
  {
    if FitLine(Run(o, fs).Device(sn).fit).Some? {
      OffsetRecovered(o, fs, sn, offset);
    }
  }

  lemma PairIsParallel(o: Options, fs: seq<Frame>, a: Serial, b: Serial, delta: real)
    requires o.Valid() && Exponential(o.exp) && AllPlausible(fs) && Plausible(a) && Plausible(b) && a != b
    requires AlwaysDiffer(o, fs, a, b, delta)
    ensures var line := FitLine(Run(o, fs).Pair(PairKey(a, b).0)); line.Some? ==> Parallel(line.value, delta)
  {
    LessIsTotal(a, b);
    if FitLine(Run(o, fs).Pair(PairKey(a, b).0)).Some? {
      if Less(a, b) {
        DifferenceRecovered(o, fs, a, b, delta);
      } else {
        DifferenceRecovered(o, fs, b, a, delta);
      }
    }
  }

  lemma ReportIsTruthful(o: Options, fs: seq<Frame>, sn: Serial, own: real, other: Serial, theirs: real, delta: real)
    requires o.Valid() && Exponential(o.exp) && AllPlausible(fs) && Plausible(sn) && Plausible(other) && sn != other
    requires BothBalanced(o, fs, sn, own, other, theirs) && AlwaysDiffer(o, fs, sn, other, delta)
    requires ReportOn(o, Run(o, fs), sn, other).Some?
    ensures Truthful(ReportOn(o, Run(o, fs), sn, other).value, sn, own, other, theirs, delta)
  {
    SlopeIsOffset(o, fs, sn, own);
    SlopeIsOffset(o, fs, other, theirs);
    PairIsParallel(o, fs, sn, other, delta);
    ReportReads(o, Run(o, fs), sn, other, own, theirs, delta);
  }

  // ---- What a device publishes on its own frame ----

  lemma VerdictOfFrame(o: Options, fs: seq<Frame>, f: Frame)
    requires o.Valid()
    ensures var c, sn := Run(o, fs + [f]), f.sn;
            && c.LiveOf(sn).peers == Truncated(FullReports(o, c, sn), o.peerMaxPublished)
            && c.LiveOf(sn).peerDisagreement == WorstDisagreement(FullReports(o, c, sn))
            && (c.LiveOf(sn).hold == PeerDisagreement ==>
                  c.LiveOf(sn).peerDisagreement.Some? && c.LiveOf(sn).peerDisagreement.value > o.peerMaxDisagreementAmperes)
  {
    RunStep(o, fs, f);
    var pre := UpdatePeers(o, Integrate(o, Run(o, fs), f.sn, f.s, true), f.sn, f.s);
    RecomputeLive(o, pre, f.sn);
    RecomputeReports(o, pre, f.sn);
    GateDecides(o, Run(o, fs), f.sn, f.s);
    VetoOnlyOverLimit(o, pre, f.sn);
  }

  lemma VetoOnlyOverLimit(o: Options, c: Cal, sn: Serial)
    requires o.Valid() && sn in c.devices
    ensures var live := Recompute(o, c, sn).LiveOf(sn);
            live.hold == PeerDisagreement ==>
              live.peerDisagreement.Some? && live.peerDisagreement.value > o.peerMaxDisagreementAmperes
  {
  }

  lemma ListedReport(o: Options, c: Cal, sn: Serial, p: PeerReport)
    requires p in FullReports(o, c, sn)
    ensures ReportOn(o, c, sn, p.peerSn) == Some(p) && p.peerSn != sn
  {
    PeerReportsComplete(o, c, sn, p.peerSn);
  }

  /**
   * Two devices whose charge balances hold with their own offsets, and whose readings differ by `delta`
   * whenever they meet: what either publishes of the other carries `delta` with its own sign, and a
   * disagreement of exactly what the two offsets leave unexplained of it.
   */
  lemma PublishedReportIsTruthful(
      o: Options, fs: seq<Frame>, f: Frame, own: real, other: Serial, theirs: real, delta: real, p: PeerReport)
    requires o.Valid() && Exponential(o.exp) && AllPlausible(fs + [f]) && Plausible(f.sn) && Plausible(other) && f.sn != other
    requires BothBalanced(o, fs + [f], f.sn, own, other, theirs) && AlwaysDiffer(o, fs + [f], f.sn, other, delta)
    requires p in Run(o, fs + [f]).LiveOf(f.sn).peers && p.peerSn == other
    ensures Truthful(p, f.sn, own, other, theirs, delta)
  {
    VerdictOfFrame(o, fs, f);
    ListedReport(o, Run(o, fs + [f]), f.sn, p);
    ReportIsTruthful(o, fs + [f], f.sn, own, other, theirs, delta);
  }

  // ---- When the offsets explain everything ----

  /** Every device's charge balance holds with its own offset. */
  ghost predicate AllBalanced(o: Options, fs: seq<Frame>, offsets: Serial -> real)
    requires o.Valid()
  {
    forall k :: Balanced(o, fs, k, offsets(k))
  }

  /** Whenever `sn` meets another device, their readings differ by exactly their offsets. */
  ghost predicate OffsetsExplain(o: Options, fs: seq<Frame>, sn: Serial, offsets: Serial -> real)
    requires o.Valid()
  {
    forall k | Plausible(k) && k != sn :: AlwaysDiffer(o, fs, sn, k, Excess(sn, offsets(sn), k, offsets(k)))
  }

  /** Every device the calibrator knows is one the service accepts. */
  lemma {:induction false} DevicesArePlausible(o: Options, fs: seq<Frame>, sn: Serial)
    requires o.Valid() && AllPlausible(fs) && sn in Run(o, fs).devices
    ensures Plausible(sn)
  {
    if fs != [] {
      var init, f := fs[..|fs| - 1], fs[|fs| - 1];
      if f.sn != sn {
        OtherDeviceKnown(o, Run(o, init), f.sn, f.s, sn);
        DevicesArePlausible(o, init, sn);
      }
    }
  }

  lemma OtherDeviceKnown(o: Options, c: Cal, sn: Serial, s: Sample, other: Serial)
    requires o.Valid() && other != sn && other in Observe(o, c, sn, s).devices
    ensures other in c.devices
  {
    var i := Integrate(o, c, sn, s, true);
    RecomputeKeepsFits(o, UpdatePeers(o, i, sn, s), sn);
    assert i.devices.Keys == c.devices.Keys + {sn};
  }

  lemma ReportedIsPlausible(o: Options, fs: seq<Frame>, sn: Serial, p: PeerReport)
    requires o.Valid() && AllPlausible(fs) && p in FullReports(o, Run(o, fs), sn)
    ensures ReportOn(o, Run(o, fs), sn, p.peerSn) == Some(p) && p.peerSn != sn && Plausible(p.peerSn)
  {
    ListedReport(o, Run(o, fs), sn, p);
    assert p.peerSn in Run(o, fs).devices by {
      PeerReportsComplete(o, Run(o, fs), sn, p.peerSn);
    }
    DevicesArePlausible(o, fs, p.peerSn);
  }

  lemma ExplainedReport(o: Options, fs: seq<Frame>, sn: Serial, offsets: Serial -> real, p: PeerReport)
    requires o.Valid() && Exponential(o.exp) && AllPlausible(fs) && Plausible(sn)
    requires AllBalanced(o, fs, offsets) && OffsetsExplain(o, fs, sn, offsets)
    requires p in FullReports(o, Run(o, fs), sn)
    ensures p.disagreement == 0.0
  {
    var k := p.peerSn;
    ReportedIsPlausible(o, fs, sn, p);
    ReportIsTruthful(o, fs, sn, offsets(sn), k, offsets(k), Excess(sn, offsets(sn), k, offsets(k)));
  }

  /**
   * When the sensors' offsets alone explain how their readings differ, peers never disagree: the worst
   * disagreement a device publishes is zero, and no peer vetoes its correction.
   */
  lemma ExplainedNeverVetoed(o: Options, fs: seq<Frame>, f: Frame, offsets: Serial -> real)
    requires o.Valid() && Exponential(o.exp) && AllPlausible(fs + [f]) && Plausible(f.sn) && o.peerMaxDisagreementAmperes >= 0.0
    requires AllBalanced(o, fs + [f], offsets) && OffsetsExplain(o, fs + [f], f.sn, offsets)
    ensures var live := Run(o, fs + [f]).LiveOf(f.sn);
            && (live.peerDisagreement.Some? ==> live.peerDisagreement.value == 0.0)
            && live.hold != PeerDisagreement
  {
    var reports := FullReports(o, Run(o, fs + [f]), f.sn);
    VerdictOfFrame(o, fs, f);
    forall p | p in reports ensures p.disagreement == 0.0 {
      ExplainedReport(o, fs + [f], f.sn, offsets, p);
    }
    assert WorstDisagreement(reports).Some? ==> WorstDisagreement(reports).value == 0.0;
  }

  // ---- When they do not ----

  /** The pair has met often and variedly enough for a line, and both devices have one. */
  ghost predicate Comparable(o: Options, fs: seq<Frame>, a: Serial, b: Serial)
    requires o.Valid()
  {
    var ps := Readings(o, fs, a, b);
    && FitLine(Accumulate(ps)).Some? && Accumulate(ps).n >= o.peerMinWeight
    && Slope(Run(o, fs).Device(a).fit).Some? && Slope(Run(o, fs).Device(b).fit).Some?
  }

  lemma KnownByLine(c: Cal, sn: Serial, key: string)
    ensures Slope(c.Device(sn).fit).Some? ==> sn in c.devices
    ensures FitLine(c.Pair(key)).Some? ==> key in c.pairs && c.pairs[key] == c.Pair(key)
  {
  }

  lemma ReadingsAreHeld(o: Options, fs: seq<Frame>, a: Serial, b: Serial)
    requires o.Valid() && AllPlausible(fs) && Plausible(a) && Plausible(b) && a != b
    ensures Run(o, fs).Pair(PairKey(a, b).0) == Accumulate(Readings(o, fs, a, b))
  {
    LessIsTotal(a, b);
    if Less(a, b) {
      PairIsSampled(o, fs, a, b);
    } else {
      PairIsSampled(o, fs, b, a);
    }
  }

  lemma ComparableIsReported(o: Options, fs: seq<Frame>, sn: Serial, other: Serial, delta: real)
    requires o.Valid() && Exponential(o.exp) && AllPlausible(fs) && Plausible(sn) && Plausible(other) && sn != other
    requires o.peerSlopeTolerance >= 0.0 && o.peerMinR2 <= 1.0
    requires Comparable(o, fs, sn, other) && AlwaysDiffer(o, fs, sn, other, delta)
    ensures ReportOn(o, Run(o, fs), sn, other).Some?
  {
    var c := Run(o, fs);
    ReadingsAreHeld(o, fs, sn, other);
    PairIsParallel(o, fs, sn, other, delta);
    KnownByLine(c, sn, PairKey(sn, other).0);
    KnownByLine(c, other, PairKey(sn, other).0);
  }

  lemma ReportOfComparable(o: Options, fs: seq<Frame>, sn: Serial, own: real, other: Serial, theirs: real, delta: real)
    requires o.Valid() && Exponential(o.exp) && AllPlausible(fs) && Plausible(sn) && Plausible(other) && sn != other
    requires o.peerSlopeTolerance >= 0.0 && o.peerMinR2 <= 1.0 && Comparable(o, fs, sn, other)
    requires BothBalanced(o, fs, sn, own, other, theirs) && AlwaysDiffer(o, fs, sn, other, delta)
    ensures var p := ReportOn(o, Run(o, fs), sn, other);
            && p.Some? && p.value in FullReports(o, Run(o, fs), sn)
            && p.value.disagreement == Abs(delta - Excess(sn, own, other, theirs))
  {
    ComparableIsReported(o, fs, sn, other, delta);
    ReportIsTruthful(o, fs, sn, own, other, theirs, delta);
    PeerReportsComplete(o, Run(o, fs), sn, other);
  }

  /** The published worst disagreement is at least `rest`, and above the limit no offset is applied. */
  predicate Noticed(o: Options, live: Live, rest: real) {
    && live.peerDisagreement.Some? && live.peerDisagreement.value >= rest
    && (rest > o.peerMaxDisagreementAmperes ==> live.hold != NoHold)
  }

  /** A report counts on its device's frame, published or not. */
  lemma ReportCounts(o: Options, fs: seq<Frame>, f: Frame, p: PeerReport)
    requires o.Valid() && p in FullReports(o, Run(o, fs + [f]), f.sn)
    ensures Noticed(o, Run(o, fs + [f]).LiveOf(f.sn), p.disagreement)
  {
    var c := Run(o, fs + [f]);
    VerdictOfFrame(o, fs, f);
    ListedReport(o, c, f.sn, p);
    PeerReportsComplete(o, c, f.sn, p.peerSn);
    RunStep(o, fs, f);
    GateDecides(o, Run(o, fs), f.sn, f.s);
  }

  /**
   * And when they do not: a peer whose pair has weight enough is never overlooked. The published worst
   * disagreement is at least what the two offsets leave unexplained, published in the list or not, and
   * above the limit the device's correction is held.
   */
  lemma UnexplainedIsVetoed(o: Options, fs: seq<Frame>, f: Frame, own: real, other: Serial, theirs: real, delta: real)
    requires o.Valid() && Exponential(o.exp) && AllPlausible(fs + [f]) && Plausible(f.sn) && Plausible(other) && f.sn != other
    requires o.peerSlopeTolerance >= 0.0 && o.peerMinR2 <= 1.0 && Comparable(o, fs + [f], f.sn, other)
    requires BothBalanced(o, fs + [f], f.sn, own, other, theirs) && AlwaysDiffer(o, fs + [f], f.sn, other, delta)
    ensures Noticed(o, Run(o, fs + [f]).LiveOf(f.sn), Abs(delta - Excess(f.sn, own, other, theirs)))
  {
    ReportOfComparable(o, fs + [f], f.sn, own, other, theirs, delta);
    ReportCounts(o, fs, f, ReportOn(o, Run(o, fs + [f]), f.sn, other).value);
  }

  // ---- Every report, from the frames ----

  /** What `sn` may report of `other`: a line through their paired readings, good enough, against both slopes. */
  predicate ReportsLine(o: Options, p: PeerReport, ps: seq<Point>, smaller: bool, own: Option<real>, theirs: Option<real>) {
    var line := FitLine(Accumulate(ps));
    && line.Some? && Accumulate(ps).n >= o.peerMinWeight
    && 1.0 - o.peerSlopeTolerance <= line.value.slope <= 1.0 + o.peerSlopeTolerance && line.value.r2 >= o.peerMinR2
    && own.Some? && theirs.Some?
    && p.relativeOffset == (if smaller then -line.value.intercept else line.value.intercept)
    && p.slope == line.value.slope && p.r2 == line.value.r2
    && p.disagreement == Abs(p.relativeOffset - (own.value - theirs.value))
  }

  lemma ReportOfLine(o: Options, c: Cal, sn: Serial, p: PeerReport, ps: seq<Point>)
    requires ReportOn(o, c, sn, p.peerSn) == Some(p) && c.Pair(PairKey(sn, p.peerSn).0) == Accumulate(ps)
    ensures ReportsLine(o, p, ps, Less(sn, p.peerSn), Slope(c.Device(sn).fit), Slope(c.Device(p.peerSn).fit))
  {
  }

  /**
   * In every run, whatever the readings: each report a device publishes on its own frame is the line
   * through the readings paired with that peer, heavy and straight enough, signed by the order of the
   * serials, and measured against the slopes of the two devices.
   */
  lemma ReportsFromFrames(o: Options, fs: seq<Frame>, f: Frame, p: PeerReport)
    requires o.Valid() && AllPlausible(fs + [f]) && Plausible(f.sn)
    requires p in Run(o, fs + [f]).LiveOf(f.sn).peers
    ensures ReportsLine(o, p, Readings(o, fs + [f], f.sn, p.peerSn), Less(f.sn, p.peerSn),
                        SlopeAfter(o, fs + [f], f.sn), SlopeAfter(o, fs + [f], p.peerSn))
  {
    var c, k := Run(o, fs + [f]), p.peerSn;
    VerdictOfFrame(o, fs, f);
    ReportedIsPlausible(o, fs + [f], f.sn, p);
    ReadingsAreHeld(o, fs + [f], f.sn, k);
    ReportOfLine(o, c, f.sn, p, Readings(o, fs + [f], f.sn, k));
  }

  /** The pair's line is heavy and straight enough, and both devices have a slope. */
  predicate Compares(o: Options, pair: Sums, own: Option<real>, theirs: Option<real>) {
    var line := FitLine(pair);
    && line.Some? && pair.n >= o.peerMinWeight
    && 1.0 - o.peerSlopeTolerance <= line.value.slope <= 1.0 + o.peerSlopeTolerance && line.value.r2 >= o.peerMinR2
    && own.Some? && theirs.Some?
  }

  /** How far the line is from what the two slopes explain. */
  function Rest(pair: Sums, smaller: bool, own: Option<real>, theirs: Option<real>): real
    requires FitLine(pair).Some? && own.Some? && theirs.Some?
  {
    var level := FitLine(pair).value.intercept;
    Abs((if smaller then -level else level) - (own.value - theirs.value))
  }

  lemma ReportedIffCompares(o: Options, c: Cal, sn: Serial, other: Serial)
    requires sn != other
    ensures var pair, own, theirs, p :=
              c.Pair(PairKey(sn, other).0), Slope(c.Device(sn).fit), Slope(c.Device(other).fit), ReportOn(o, c, sn, other);
            && (p.Some? <==> Compares(o, pair, own, theirs))
            && (p.Some? ==> p.value.disagreement == Rest(pair, Less(sn, other), own, theirs))
  {
    KnownByLine(c, sn, PairKey(sn, other).0);
    KnownByLine(c, other, PairKey(sn, other).0);
  }

  /** Another device the service accepts, with a line to compare. */
  predicate Peer(o: Options, fs: seq<Frame>, sn: Serial, other: Serial)
    requires o.Valid()
  {
    && Plausible(other) && other != sn
    && Compares(o, Accumulate(Readings(o, fs, sn, other)), SlopeAfter(o, fs, sn), SlopeAfter(o, fs, other))
  }

  /** What it leaves unexplained. */
  function Unexplained(o: Options, fs: seq<Frame>, sn: Serial, other: Serial): real
    requires o.Valid() && Peer(o, fs, sn, other)
  {
    Rest(Accumulate(Readings(o, fs, sn, other)), Less(sn, other), SlopeAfter(o, fs, sn), SlopeAfter(o, fs, other))
  }

  lemma PeerIsReported(o: Options, fs: seq<Frame>, sn: Serial, other: Serial)
    requires o.Valid() && AllPlausible(fs) && Plausible(sn) && Plausible(other) && sn != other
    ensures var p := ReportOn(o, Run(o, fs), sn, other);
            && (p.Some? <==> Peer(o, fs, sn, other))
            && (p.Some? ==> p.value.disagreement == Unexplained(o, fs, sn, other) && p.value in FullReports(o, Run(o, fs), sn))
  {
    ReadingsAreHeld(o, fs, sn, other);
    ReportedIffCompares(o, Run(o, fs), sn, other);
    PeerReportsComplete(o, Run(o, fs), sn, other);
  }

  lemma ListedIsPeer(o: Options, fs: seq<Frame>, sn: Serial, all: seq<PeerReport>, p: PeerReport)
    requires o.Valid() && AllPlausible(fs) && Plausible(sn) && all == FullReports(o, Run(o, fs), sn) && p in all
    ensures Peer(o, fs, sn, p.peerSn) && p.disagreement == Unexplained(o, fs, sn, p.peerSn)
  {
    ReportedIsPlausible(o, fs, sn, p);
    PeerIsReported(o, fs, sn, p.peerSn);
  }

  /**
   * The worst disagreement from the frames: after its own frame a device's is the largest over all other
   * devices whose paired readings give a line heavy and straight enough, published in the list or not, and
   * none exactly when there is no such device.
   */
  lemma WorstFromFrames(o: Options, fs: seq<Frame>, f: Frame)
    requires o.Valid() && AllPlausible(fs + [f]) && Plausible(f.sn)
    ensures var es, worst := fs + [f], Run(o, fs + [f]).LiveOf(f.sn).peerDisagreement;
            && (forall k | Peer(o, es, f.sn, k) :: worst.Some? && worst.value >= Unexplained(o, es, f.sn, k))
            && (worst.Some? ==> exists k :: Peer(o, es, f.sn, k) && worst.value == Unexplained(o, es, f.sn, k))
  {
    var es := fs + [f];
    var reports := FullReports(o, Run(o, es), f.sn);
    var worst := WorstDisagreement(reports);
    VerdictOfFrame(o, fs, f);
    forall k | Peer(o, es, f.sn, k) ensures worst.Some? && worst.value >= Unexplained(o, es, f.sn, k) {
      PeerIsReported(o, es, f.sn, k);
    }
    if worst.Some? {
      var p :| p in reports && p.disagreement == worst.value;
      ListedIsPeer(o, es, f.sn, reports, p);
    }
  }

  /** These are the first of `all`, as many as the cap allows. */
  predicate FirstOf(ps: seq<PeerReport>, all: seq<PeerReport>, cap: nat) {
    |ps| <= cap && ps <= all && (|ps| < cap ==> ps == all)
  }

  lemma TruncatedIsFirst(all: seq<PeerReport>, cap: nat)
    ensures FirstOf(Truncated(all, cap), all, cap)
  {
  }

  /** A report is among the first, or they are as many as allowed and all before it. */
  lemma AmongTheFirst(ps: seq<PeerReport>, all: seq<PeerReport>, cap: nat, p: PeerReport)
    requires FirstOf(ps, all, cap) && InSerialOrder(all) && p in all
    ensures p in ps || (|ps| == cap && forall q | q in ps :: Less(q.peerSn, p.peerSn))
  {
    var j :| 0 <= j < |all| && all[j] == p;
    if j < |ps| {
      assert ps[j] == p;
    } else {
      forall q | q in ps ensures Less(q.peerSn, p.peerSn) {
        var i :| 0 <= i < |ps| && ps[i] == q;
        assert all[i] == q;
      }
    }
  }

  /** Listed, or behind a list that is full. */
  ghost predicate ListedOrBehind(ps: seq<PeerReport>, cap: nat, k: Serial) {
    (exists p :: p in ps && p.peerSn == k) || (|ps| == cap && forall p | p in ps :: Less(p.peerSn, k))
  }

  lemma FirstAreInOrder(ps: seq<PeerReport>, all: seq<PeerReport>, cap: nat)
    requires FirstOf(ps, all, cap) && InSerialOrder(all)
    ensures InSerialOrder(ps) && forall p | p in ps :: p in all
  {
    assert forall i | 0 <= i < |ps| :: ps[i] == all[i];
  }

  lemma PublishedIsFirst(o: Options, fs: seq<Frame>, f: Frame)
    requires o.Valid()
    ensures FirstOf(Run(o, fs + [f]).LiveOf(f.sn).peers, FullReports(o, Run(o, fs + [f]), f.sn), o.peerMaxPublished)
    ensures InSerialOrder(FullReports(o, Run(o, fs + [f]), f.sn))
  {
    VerdictOfFrame(o, fs, f);
    TruncatedIsFirst(FullReports(o, Run(o, fs + [f]), f.sn), o.peerMaxPublished);
    PeerReportsComplete(o, Run(o, fs + [f]), f.sn, f.sn);
  }

  lemma PeerIsListed(
      o: Options, fs: seq<Frame>, sn: Serial, ps: seq<PeerReport>, all: seq<PeerReport>, cap: nat, k: Serial)
    requires o.Valid() && AllPlausible(fs) && Plausible(sn) && all == FullReports(o, Run(o, fs), sn)
    requires FirstOf(ps, all, cap) && InSerialOrder(all) && Peer(o, fs, sn, k)
    ensures ListedOrBehind(ps, cap, k)
  {
    PeerIsReported(o, fs, sn, k);
    var p := ReportOn(o, Run(o, fs), sn, k).value;
    assert p.peerSn == k;
    AmongTheFirst(ps, all, cap, p);
  }

  /**
   * The published list from the frames: the first devices in serial order, up to the cap, whose paired
   * readings give a line heavy and straight enough, each with what that line leaves unexplained.
   */
  lemma PublishedFromFrames(o: Options, fs: seq<Frame>, f: Frame)
    requires o.Valid() && AllPlausible(fs + [f]) && Plausible(f.sn)
    ensures var es, ps := fs + [f], Run(o, fs + [f]).LiveOf(f.sn).peers;
            && |ps| <= o.peerMaxPublished && InSerialOrder(ps)
            && (forall p | p in ps :: Peer(o, es, f.sn, p.peerSn) && p.disagreement == Unexplained(o, es, f.sn, p.peerSn))
            && (forall k | Peer(o, es, f.sn, k) :: ListedOrBehind(ps, o.peerMaxPublished, k))
  {
    var es := fs + [f];
    var ps, all := Run(o, es).LiveOf(f.sn).peers, FullReports(o, Run(o, es), f.sn);
    PublishedIsFirst(o, fs, f);
    FirstAreInOrder(ps, all, o.peerMaxPublished);
    forall p | p in ps ensures Peer(o, es, f.sn, p.peerSn) && p.disagreement == Unexplained(o, es, f.sn, p.peerSn) {
      ListedIsPeer(o, es, f.sn, all, p);
    }
    forall k | Peer(o, es, f.sn, k) ensures ListedOrBehind(ps, o.peerMaxPublished, k) {
      PeerIsListed(o, es, f.sn, ps, all, o.peerMaxPublished, k);
    }
  }
}
