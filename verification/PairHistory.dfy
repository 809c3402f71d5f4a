/** What the regression of a pair of devices has seen: their readings, paired by time, from the frames alone. */
module PairHistory {
  import opened Serials
  import opened LineFit
  import opened LeastSquares
  import opened Calibration
  import opened CalibratorRuns
  import opened ExactRecovery
  import opened Verdicts

  // ---- The paired readings of a stream ----

  /** A device's latest frame. */
  function Latest(fs: seq<Frame>, sn: Serial): Option<Frame> {
    if fs == [] then None
    else if fs[|fs| - 1].sn == sn then Some(fs[|fs| - 1])
    else Latest(fs[..|fs| - 1], sn)
  }

  /** The other device of the pair. */
  function Partner(a: Serial, b: Serial, sn: Serial): Serial {
    if sn == a then b else a
  }

  /** After `fs`, the frame is one of the pair's and near enough in time to the other's latest. */
  predicate Meets(o: Options, fs: seq<Frame>, f: Frame, a: Serial, b: Serial) {
    && (f.sn == a || f.sn == b)
    && (var g := Latest(fs, Partner(a, b, f.sn));
        g.Some? && Abs(f.s.nowSecs - g.value.s.nowSecs) <= o.peerMaxSkewSecs)
  }

  /** The reading of `a` on x, that of the other device on y. */
  function Paired(f: Frame, g: Frame, a: Serial): Point {
    if f.sn == a then Point(1.0, f.s.currentA, g.s.currentA) else Point(1.0, g.s.currentA, f.s.currentA)
  }

  /** When the pair last met. */
  function MetAt(o: Options, fs: seq<Frame>, a: Serial, b: Serial): Option<real> {
    if fs == [] then None
    else
      var init, f := fs[..|fs| - 1], fs[|fs| - 1];
      if Meets(o, init, f, a, b) then Some(f.s.nowSecs) else MetAt(o, init, a, b)
  }

  /** What earlier samples keep of their weight: the exponential of the hours since the pair last met. */
  function Fading(o: Options, last: Option<real>, now: real): real
    requires o.Valid()
  {
    match last
    case None => 1.0
    case Some(at) => o.exp(-(Max(now - at, 0.0) / 3600.0) / o.peerTauHours)
  }

  /** The pair's samples, `a` on x and `b` on y, each weight the product of all fadings since. */
  function PairSamples(o: Options, fs: seq<Frame>, a: Serial, b: Serial): seq<Point>
    requires o.Valid()
  {
    if fs == [] then []
    else
      var init, f := fs[..|fs| - 1], fs[|fs| - 1];
      if Meets(o, init, f, a, b) then
        Aged(PairSamples(o, init, a, b), Fading(o, MetAt(o, init, a, b), f.s.nowSecs))
        + [Paired(f, Latest(init, Partner(a, b, f.sn)).value, a)]
      else PairSamples(o, init, a, b)
  }

  /** Every serial in the stream is one the service accepts. */
  predicate AllPlausible(fs: seq<Frame>) {
    forall i | 0 <= i < |fs| :: Plausible(fs[i].sn)
  }

  // ---- What the calibrator remembers of the stream ----

  function ReadingOf(g: Option<Frame>): Option<(real, real)> {
    match g
    case None => None
    case Some(f) => Some((f.s.nowSecs, f.s.currentA))
  }

  lemma {:induction false} LatestIsRemembered(o: Options, fs: seq<Frame>, sn: Serial)
    requires o.Valid()
    ensures Run(o, fs).LiveOf(sn).lastRaw == ReadingOf(Latest(fs, sn))
  {
    if fs != [] {
      var init, f := fs[..|fs| - 1], fs[|fs| - 1];
      LatestIsRemembered(o, init, sn);
      if f.sn == sn {
        OwnFrame(o, Run(o, init), sn, f.s, true);
      } else {
        OtherFrame(o, Run(o, init), f.sn, f.s, true, sn);
      }
    }
  }

  lemma LiveKeysRecomputed(o: Options, c: Cal, sn: Serial)
    requires o.Valid() && sn in c.live
    ensures Recompute(o, c, sn).live.Keys == c.live.Keys
  {
  }

  lemma LiveKeysObserved(o: Options, c: Cal, sn: Serial, s: Sample)
    requires o.Valid()
    ensures Observe(o, c, sn, s).live.Keys == c.live.Keys + {sn}
  {
    var i := Integrate(o, c, sn, s, true);
    assert i.live.Keys == c.live.Keys + {sn};
    LiveKeysRecomputed(o, UpdatePeers(o, i, sn, s), sn);
  }

  ghost predicate KnowsPlausible(c: Cal) {
    forall k | k in c.live :: Plausible(k)
  }

  lemma {:induction false} LiveArePlausible(o: Options, fs: seq<Frame>)
    requires o.Valid() && AllPlausible(fs)
    ensures KnowsPlausible(Run(o, fs))
  {
    if fs != [] {
      var init, f := fs[..|fs| - 1], fs[|fs| - 1];
      LiveArePlausible(o, init);
      LiveKeysObserved(o, Run(o, init), f.sn, f.s);
    }
  }

  // ---- One frame's pairings ----

  lemma {:induction false} NearAscending(o: Options, c: Cal, sn: Serial, s: Sample, keys: seq<Serial>)
    requires Ascending(keys)
    ensures Ascending(NearAmong(o, c, sn, s, keys))
  {
    if keys != [] {
      NearAscending(o, c, sn, s, keys[1..]);
      forall k | k in NearAmong(o, c, sn, s, keys[1..]) ensures Less(keys[0], k) {
        var j :| 0 <= j < |keys| - 1 && keys[1..][j] == k;
        assert keys[j + 1] == k;
      }
    }
  }

  /** The regression of a pair, and when it was last fed. */
  predicate SamePair(c: Cal, c': Cal, key: string) {
    c.Pair(key) == c'.Pair(key) && c.PairLive(key) == c'.PairLive(key)
  }

  lemma OtherPairKept(o: Options, c: Cal, sn: Serial, s: Sample, other: Serial, cur: real, key: string)
    requires o.Valid() && PairKey(sn, other).0 != key
    ensures SamePair(PairStep(o, c, sn, s, other, cur), c, key)
  {
  }

  lemma {:induction false} OtherPairsKept(o: Options, c: Cal, sn: Serial, s: Sample, peers: seq<Serial>, key: string)
    requires o.Valid() && forall p | p in peers :: c.LiveOf(p).lastRaw.Some? && PairKey(sn, p).0 != key
    ensures SamePair(PairSteps(o, c, sn, s, peers), c, key)
    decreases |peers|
  {
    if peers != [] {
      var cur := c.LiveOf(peers[0]).lastRaw.value.1;
      var c' := PairStep(o, c, sn, s, peers[0], cur);
      OtherPairKept(o, c, sn, s, peers[0], cur, key);
      assert forall p :: c'.LiveOf(p) == c.LiveOf(p);
      OtherPairsKept(o, c', sn, s, peers[1..], key);
    }
  }

  lemma SameStepOfPair(o: Options, c: Cal, c': Cal, sn: Serial, s: Sample, other: Serial, cur: real)
    requires o.Valid() && SamePair(c, c', PairKey(sn, other).0)
    ensures SamePair(PairStep(o, c, sn, s, other, cur), PairStep(o, c', sn, s, other, cur), PairKey(sn, other).0)
  {
  }

  lemma OneKeyEach(sn: Serial, p: Serial, k: Serial)
    requires Plausible(sn) && Plausible(p) && Plausible(k) && p != k
    ensures PairKey(sn, p).0 != PairKey(sn, k).0
  {
    PairKeyInjective(sn, p, sn, k);
  }

  /** Of all pairings of one frame, exactly one touches the pair with `other`. */
  lemma {:induction false} OnePairing(o: Options, c: Cal, sn: Serial, s: Sample, peers: seq<Serial>, other: Serial)
    requires o.Valid() && Plausible(sn) && Ascending(peers) && other in peers
    requires forall p | p in peers :: c.LiveOf(p).lastRaw.Some? && Plausible(p)
    ensures SamePair(PairSteps(o, c, sn, s, peers),
                     PairStep(o, c, sn, s, other, c.LiveOf(other).lastRaw.value.1), PairKey(sn, other).0)
    decreases |peers|
  {
    var key, first, rest := PairKey(sn, other).0, peers[0], peers[1..];
    var cur := c.LiveOf(first).lastRaw.value.1;
    var c' := PairStep(o, c, sn, s, first, cur);
    assert forall p :: c'.LiveOf(p) == c.LiveOf(p);
    if first == other {
      forall p | p in rest ensures PairKey(sn, p).0 != key {
        var j :| 0 <= j < |rest| && rest[j] == p;
        LessIsAsymmetric(peers[0], peers[j + 1]);
        OneKeyEach(sn, p, other);
      }
      OtherPairsKept(o, c', sn, s, rest, key);
    } else {
      assert other in rest;
      OneKeyEach(sn, first, other);
      OtherPairKept(o, c, sn, s, first, cur, key);
      OnePairing(o, c', sn, s, rest, other);
      SameStepOfPair(o, c', c, sn, s, other, c.LiveOf(other).lastRaw.value.1);
    }
  }

  /** The devices a frame is paired with, in serial order. */
  function PeersOf(o: Options, c: Cal, sn: Serial, s: Sample): seq<Serial>
    requires o.Valid()
  {
    var i := Integrate(o, c, sn, s, true);
    NearAmong(o, i, sn, s, Sorted(i.live.Keys))
  }

  lemma PeerIsNear(o: Options, c: Cal, sn: Serial, s: Sample, p: Serial)
    requires o.Valid()
    ensures p in PeersOf(o, c, sn, s) <==>
              && p != sn && c.LiveOf(p).lastRaw.Some?
              && Abs(s.nowSecs - c.LiveOf(p).lastRaw.value.0) <= o.peerMaxSkewSecs
    ensures p != sn ==> Integrate(o, c, sn, s, true).LiveOf(p) == c.LiveOf(p)
    ensures p in PeersOf(o, c, sn, s) ==> p in c.live
  {
  }

  /** The rest of the frame leaves what the pairings make of the pair. */
  lemma ObservedPairings(o: Options, c: Cal, sn: Serial, s: Sample, key: string)
    requires o.Valid() && forall p | p in PeersOf(o, c, sn, s) :: Integrate(o, c, sn, s, true).LiveOf(p).lastRaw.Some?
    ensures SamePair(Observe(o, c, sn, s), PairSteps(o, Integrate(o, c, sn, s, true), sn, s, PeersOf(o, c, sn, s)), key)
  {
    RecomputeKeepsFits(o, UpdatePeers(o, Integrate(o, c, sn, s, true), sn, s), sn);
  }

  /** The frame pairs with `other` when `other`'s last reading is near. */
  lemma FramePairs(o: Options, c: Cal, sn: Serial, s: Sample, other: Serial)
    requires o.Valid() && KnowsPlausible(c) && Plausible(sn) && other != sn
    requires var last := c.LiveOf(other).lastRaw; last.Some? && Abs(s.nowSecs - last.value.0) <= o.peerMaxSkewSecs
    ensures SamePair(Observe(o, c, sn, s), PairStep(o, c, sn, s, other, c.LiveOf(other).lastRaw.value.1), PairKey(sn, other).0)
  {
    var i, peers := Integrate(o, c, sn, s, true), PeersOf(o, c, sn, s);
    forall p | p in peers ensures i.LiveOf(p).lastRaw.Some? && Plausible(p) {
      PeerIsNear(o, c, sn, s, p);
    }
    PeerIsNear(o, c, sn, s, other);
    NearAscending(o, i, sn, s, Sorted(i.live.Keys));
    OnePairing(o, i, sn, s, peers, other);
    SameStepOfPair(o, i, c, sn, s, other, c.LiveOf(other).lastRaw.value.1);
    ObservedPairings(o, c, sn, s, PairKey(sn, other).0);
  }

  /** And leaves alone every pair that is not its own, or not near. */
  lemma FrameLeavesPair(o: Options, c: Cal, sn: Serial, s: Sample, a: Serial, b: Serial)
    requires o.Valid() && KnowsPlausible(c) && Plausible(sn) && Plausible(a) && Plausible(b) && a != b
    requires sn == a || sn == b ==>
               var last := c.LiveOf(Partner(a, b, sn)).lastRaw;
               last.None? || Abs(s.nowSecs - last.value.0) > o.peerMaxSkewSecs
    ensures SamePair(Observe(o, c, sn, s), c, PairKey(a, b).0)
  {
    var i, peers := Integrate(o, c, sn, s, true), PeersOf(o, c, sn, s);
    forall p | p in peers ensures i.LiveOf(p).lastRaw.Some? && PairKey(sn, p).0 != PairKey(a, b).0 {
      PeerIsNear(o, c, sn, s, p);
      PairKeyInjective(sn, p, a, b);
    }
    OtherPairsKept(o, i, sn, s, peers, PairKey(a, b).0);
    ObservedPairings(o, c, sn, s, PairKey(a, b).0);
  }

  // ---- Runs ----

  /** The pair's regression is the sums over these samples, last fed at that time. */
  predicate PairHolds(o: Options, c: Cal, a: Serial, b: Serial, ps: seq<Point>, at: Option<real>) {
    c.Pair(PairKey(a, b).0) == Accumulate(ps) && c.PairLive(PairKey(a, b).0) == at
  }

  lemma PairStepSamples(o: Options, c: Cal, f: Frame, g: Frame, a: Serial, b: Serial, ps: seq<Point>, at: Option<real>)
    requires o.Valid() && Less(a, b) && PairHolds(o, c, a, b, ps, at)
    requires (f.sn == a && g.sn == b) || (f.sn == b && g.sn == a)
    ensures PairHolds(o, PairStep(o, c, f.sn, f.s, g.sn, g.s.currentA), a, b,
                      Aged(ps, Fading(o, at, f.s.nowSecs)) + [Paired(f, g, a)], Some(f.s.nowSecs))
  {
    LessIsAsymmetric(a, b);
    var p := Paired(f, g, a);
    AccumulateAged(ps, Fading(o, at, f.s.nowSecs));
    AccumulatePushed(Aged(ps, Fading(o, at, f.s.nowSecs)), p.x, p.y);
  }

  lemma LatestIsItsOwn(fs: seq<Frame>, sn: Serial)
    requires Latest(fs, sn).Some?
    ensures Latest(fs, sn).value.sn == sn
  {
    if fs[|fs| - 1].sn != sn {
      LatestIsItsOwn(fs[..|fs| - 1], sn);
    }
  }

  lemma MeetingAdds(o: Options, init: seq<Frame>, f: Frame, a: Serial, b: Serial)
    requires o.Valid() && AllPlausible(init) && Plausible(f.sn) && Plausible(a) && Plausible(b) && Less(a, b)
    requires PairHolds(o, Run(o, init), a, b, PairSamples(o, init, a, b), MetAt(o, init, a, b)) && Meets(o, init, f, a, b)
    ensures PairHolds(o, Observe(o, Run(o, init), f.sn, f.s), a, b,
                      Aged(PairSamples(o, init, a, b), Fading(o, MetAt(o, init, a, b), f.s.nowSecs))
                      + [Paired(f, Latest(init, Partner(a, b, f.sn)).value, a)],
                      Some(f.s.nowSecs))
  {
    var c, p := Run(o, init), Partner(a, b, f.sn);
    LessIsAsymmetric(a, b);
    LiveArePlausible(o, init);
    LatestIsRemembered(o, init, p);
    LatestIsItsOwn(init, p);
    FramePairs(o, c, f.sn, f.s, p);
    PairKeyIsSymmetric(a, b);
    PairStepSamples(o, c, f, Latest(init, p).value, a, b, PairSamples(o, init, a, b), MetAt(o, init, a, b));
  }

  lemma NoMeetingLeaves(o: Options, init: seq<Frame>, f: Frame, a: Serial, b: Serial)
    requires o.Valid() && AllPlausible(init) && Plausible(f.sn) && Plausible(a) && Plausible(b) && Less(a, b)
    requires !Meets(o, init, f, a, b)
    ensures SamePair(Observe(o, Run(o, init), f.sn, f.s), Run(o, init), PairKey(a, b).0)
  {
    LessIsAsymmetric(a, b);
    LiveArePlausible(o, init);
    LatestIsRemembered(o, init, Partner(a, b, f.sn));
    FrameLeavesPair(o, Run(o, init), f.sn, f.s, a, b);
  }

  lemma {:induction false} PairRun(o: Options, fs: seq<Frame>, a: Serial, b: Serial)
    requires o.Valid() && AllPlausible(fs) && Plausible(a) && Plausible(b) && Less(a, b)
    ensures PairHolds(o, Run(o, fs), a, b, PairSamples(o, fs, a, b), MetAt(o, fs, a, b))
  {
    if fs != [] {
      var init, f := fs[..|fs| - 1], fs[|fs| - 1];
      PairRun(o, init, a, b);
      if Meets(o, init, f, a, b) {
        MeetingAdds(o, init, f, a, b);
      } else {
        NoMeetingLeaves(o, init, f, a, b);
      }
    }
  }

  /**
   * In every run a pair's regression is the weighted sums over its paired readings: the smaller serial's
   * on x and the larger's on y, both within the skew, fading with the hours between meetings.
   */
  lemma PairIsSampled(o: Options, fs: seq<Frame>, a: Serial, b: Serial)
    requires o.Valid() && AllPlausible(fs) && Plausible(a) && Plausible(b) && Less(a, b)
    ensures Run(o, fs).Pair(a + "|" + b) == Accumulate(PairSamples(o, fs, a, b))
  {
    PairRun(o, fs, a, b);
  }

  // ---- Readings that always differ by the same ----

  /** On every sample the larger serial reads `delta` more than the smaller. */
  predicate Differ(ps: seq<Point>, delta: real) {
    forall i | 0 <= i < |ps| :: ps[i].y == ps[i].x + delta
  }

  lemma WeighedThrough(w: real, slope: real, level: real, b: real, a: real, c: real, wb: real, wa: real, wc: real)
    requires Through(slope, level, b, a, c) && wb == w * b && wa == w * a && wc == w * c
    ensures Through(slope, level, wb, wa, wc)
  {
    assert w * (slope * a + level * c) == slope * (w * a) + level * (w * c);
  }

  lemma TermOnLine(p: Point, slope: real, level: real)
    requires p.y == slope * p.x + level
    ensures OnLine(Term(p), slope, level)
  {
    PointOnLine(slope, level, p.x, p.y);
    var t := Term(p);
    WeighedThrough(p.w, slope, level, p.y, p.x, 1.0, t.sy, t.sx, t.n);
    WeighedThrough(p.w, slope, level, p.x * p.y, p.x * p.x, p.x, t.sxy, t.sxx, t.sx);
    WeighedThrough(p.w, slope, level, p.y * p.y, p.x * p.y, p.y, t.syy, t.sxy, t.sy);
  }

  lemma SumOnLine(s: Sums, t: Sums, slope: real, level: real)
    requires OnLine(s, slope, level) && OnLine(t, slope, level)
    ensures OnLine(Add(s, t), slope, level)
  {
    ThroughSum(slope, level, s.sy, s.sx, s.n, t.sy, t.sx, t.n);
    ThroughSum(slope, level, s.sxy, s.sxx, s.sx, t.sxy, t.sxx, t.sx);
    ThroughSum(slope, level, s.syy, s.sxy, s.sy, t.syy, t.sxy, t.sy);
  }

  lemma {:induction false} DifferOnLine(ps: seq<Point>, delta: real)
    requires Differ(ps, delta)
    ensures OnLine(Accumulate(ps), 1.0, delta)
  {
    if ps == [] {
      assert delta * 0.0 == 0.0;
    } else {
      var init, p := ps[..|ps| - 1], ps[|ps| - 1];
      DifferOnLine(init, delta);
      TermOnLine(p, 1.0, delta);
      SumOnLine(Accumulate(init), Term(p), 1.0, delta);
    }
  }

  lemma {:induction false} DifferWithoutError(ps: seq<Point>, delta: real)
    requires Differ(ps, delta)
    ensures Error(ps, 1.0, delta) == 0.0
  {
    if ps != [] {
      DifferWithoutError(ps[..|ps| - 1], delta);
      var p := ps[|ps| - 1];
      assert p.y - 1.0 * p.x - delta == 0.0;
    }
  }

  lemma AgedStayWeighted(ps: seq<Point>, f: real)
    requires Weighted(ps) && f >= 0.0
    ensures Weighted(Aged(ps, f))
  {
    forall i | 0 <= i < |ps| ensures Aged(ps, f)[i].w >= 0.0 {
      assert ps[i].w * f >= 0.0;
    }
  }

  lemma FadingNonNegative(o: Options, last: Option<real>, now: real)
    requires o.Valid() && Exponential(o.exp)
    ensures Fading(o, last, now) >= 0.0
  {
    if last.Some? {
      var hours := Max(now - last.value, 0.0) / 3600.0;
      assert -hours / o.peerTauHours <= 0.0;
    }
  }

  lemma {:induction false} PairSamplesWeighted(o: Options, fs: seq<Frame>, a: Serial, b: Serial)
    requires o.Valid() && Exponential(o.exp)
    ensures Weighted(PairSamples(o, fs, a, b))
  {
    if fs != [] {
      var init, f := fs[..|fs| - 1], fs[|fs| - 1];
      PairSamplesWeighted(o, init, a, b);
      if Meets(o, init, f, a, b) {
        FadingNonNegative(o, MetAt(o, init, a, b), f.s.nowSecs);
        AgedStayWeighted(PairSamples(o, init, a, b), Fading(o, MetAt(o, init, a, b), f.s.nowSecs));
      }
    }
  }

  lemma WholeShare(r2: real, yy: real, error: real)
    requires yy > 0.0 && error == 0.0 && r2 * yy == yy - error
    ensures r2 == 1.0
  {
  }

  /** A perfect line of slope one. */
  predicate Parallel(f: Fit, delta: real) {
    f.slope == 1.0 && f.intercept == delta && f.stderr2 == 0.0 && f.r2 == 1.0
  }

  lemma DifferIsParallel(ps: seq<Point>, delta: real)
    requires Weighted(ps) && Differ(ps, delta) && FitLine(Accumulate(ps)).Some?
    ensures Parallel(FitLine(Accumulate(ps)).value, delta)
  {
    var s := Accumulate(ps);
    var f := FitLine(s).value;
    DifferOnLine(ps, delta);
    FitOfOnLine(s, 1.0, delta);
    R2OfResiduals(ps);
    assert Error(ps, f.slope, f.intercept) == 0.0 by {
      DifferWithoutError(ps, delta);
    }
    assert Centre(s).yy > 0.0 by {
      CentredOnLine(s, 1.0, delta);
    }
    WholeShare(f.r2, Centre(s).yy, Error(ps, f.slope, f.intercept));
  }

  /**
   * If whenever the two devices meet the larger serial reads `delta` more than the smaller, then as soon
   * as the pair's regression gives a line, its slope is one and its intercept `delta`, without residual.
   */
  lemma DifferenceRecovered(o: Options, fs: seq<Frame>, a: Serial, b: Serial, delta: real)
    requires o.Valid() && Exponential(o.exp) && AllPlausible(fs) && Plausible(a) && Plausible(b) && Less(a, b)
    requires Differ(PairSamples(o, fs, a, b), delta) && FitLine(Run(o, fs).Pair(a + "|" + b)).Some?
    ensures Parallel(FitLine(Run(o, fs).Pair(a + "|" + b)).value, delta)
  {
    PairIsSampled(o, fs, a, b);
    PairSamplesWeighted(o, fs, a, b);
    DifferIsParallel(PairSamples(o, fs, a, b), delta);
  }
}
