/** Self-calibration of the pack current sensor: the estimator's state and its steps. */
module Calibration {
  import opened Serials
  import opened LineFit

  /** `exp` stands for the exponential function. */
  datatype Options = Options(
    exp: real -> real,
    tauHours: real,
    minSpanHours: real,
    maxAnchorErrorAmperes: real,
    maxOffsetAmperes: real,
    maxStderrAmperes: real,
    maxGapSecs: real,
    peerMaxSkewSecs: real,
    peerTauHours: real,
    peerMinWeight: real,
    peerSlopeTolerance: real,
    peerMinR2: real,
    peerMaxPublished: nat,
    peerMaxDisagreementAmperes: real)
  {
    /** What the configuration loader guarantees: positive time constants, ordered clamp bounds. */
    predicate Valid() {
      tauHours > 0.0 && peerTauHours > 0.0 && maxGapSecs >= 0.0 && maxOffsetAmperes >= 0.0
    }
  }

  /** The laws of the exponential the estimator relies on. */
  ghost predicate Exponential(exp: real -> real) {
    && exp(0.0) == 1.0
    && (forall h :: h <= 0.0 ==> 0.0 < exp(h) <= 1.0)
    && (forall a, b :: Multiplies(exp, a, b))
  }

  ghost predicate Multiplies(exp: real -> real, a: real, b: real) {
    exp(a + b) == exp(a) * exp(b)
  }

  /** One realtime frame's worth of input. */
  datatype Sample = Sample(
    currentA: real, balanceA: Option<real>, remainingAh: Option<real>, capacityAh: Option<real>, nowSecs: real)

  /** Why the estimate is not being applied; `NoHold` when it is. */
  datatype Hold = NoHold | Warmup | NoFit | Noisy | PeerDisagreement

  datatype PeerReport = PeerReport(
    peerSn: Serial, relativeOffset: real, slope: real, r2: real, disagreement: real)

  /** Persisted per-device estimator state. */
  datatype DeviceState = DeviceState(
    fit: Sums, x: real, spanHours: real, cumNetAh: real, cumBalAh: real, applied: real, capacityAh: real)

  const NEW_DEVICE := DeviceState(EMPTY, 0.0, 0.0, 0.0, 0.0, 0.0, 0.0)

  /** Non-persisted per-device scratch: the previous frame and the latest verdict. */
  datatype Live = Live(
    lastTs: Option<real>, lastCurrent: Option<real>, lastBalance: Option<real>,
    lastRaw: Option<(real, real)>,
    hold: Hold, peers: seq<PeerReport>, peerDisagreement: Option<real>)

  const NEW_LIVE := Live(None, None, None, None, Warmup, [], None)

  /** What is persisted. */
  datatype State = State(devices: map<Serial, DeviceState>, pairs: map<string, Sums>)

  /** Everything a calibrator knows; `pairLive` holds when each pair's fit was last aged. */
  datatype Cal = Cal(
    devices: map<Serial, DeviceState>, pairs: map<string, Sums>,
    live: map<Serial, Live>, pairLive: map<string, Option<real>>)
  {
    function Device(sn: Serial): DeviceState {
      if sn in devices then devices[sn] else NEW_DEVICE
    }

    function LiveOf(sn: Serial): Live {
      if sn in live then live[sn] else NEW_LIVE
    }

    function Pair(key: string): Sums {
      if key in pairs then pairs[key] else EMPTY
    }

    function PairLive(key: string): Option<real> {
      if key in pairLive then pairLive[key] else None
    }

    function Persisted(): State {
      State(devices, pairs)
    }
  }

  const NEW_CAL := Cal(map[], map[], map[], map[])

  /** Forgetting factor over `hours`. */
  function Aging(exp: real -> real, hours: real, tau: real): real
    requires tau != 0.0
  {
    exp(-hours / tau)
  }

  // ---- Integration of one frame ----

  /** Hours the frame adds: the gap since the previous frame, capped, never negative. */
  function StepHours(o: Options, live: Live, s: Sample): (hours: real)
    requires o.Valid()
    ensures hours >= 0.0
  {
    if live.lastTs.Some? && live.lastCurrent.Some? then
      Clamp(s.nowSecs - live.lastTs.value, 0.0, o.maxGapSecs) / 3600.0
    else 0.0
  }

  /** Charge through the current sensor over the step. */
  function StepNet(live: Live, s: Sample, hours: real): real {
    if live.lastCurrent.Some? then (live.lastCurrent.value + s.currentA) / 2.0 * hours else 0.0
  }

  /** Balancer bleed over the step; a negative reading counts as none. */
  function StepBleed(live: Live, s: Sample, hours: real): real {
    if live.lastBalance.Some? && s.balanceA.Some? then
      (Max(live.lastBalance.value, 0.0) + Max(s.balanceA.value, 0.0)) / 2.0 * hours
    else 0.0
  }

  function Advanced(dev: DeviceState, live: Live, s: Sample, hours: real): DeviceState {
    dev.(cumNetAh := dev.cumNetAh + StepNet(live, s, hours),
         cumBalAh := dev.cumBalAh + StepBleed(live, s, hours),
         x := dev.x + hours,
         spanHours := dev.spanHours + hours)
  }

  /** The fit after one point of the closure quantity, read at remaining capacity `q`. */
  function Anchored(o: Options, dev: DeviceState, hours: real, q: real, hint: Option<real>): DeviceState
    requires o.Valid()
  {
    var known := Max(Max(dev.capacityAh, if hint.Some? then hint.value else 0.0), q);
    var y := dev.cumNetAh - q - dev.cumBalAh;
    dev.(capacityAh := known, fit := dev.fit.Decayed(Aging(o.exp, hours, o.tauHours)).Pushed(dev.x, y))
  }

  /** Moves the origin of x when it has run far from it. */
  function Recentred(o: Options, dev: DeviceState): DeviceState {
    if dev.x > 50.0 * o.tauHours then
      var d := dev.x - o.tauHours;
      dev.(fit := dev.fit.Shifted(d), x := dev.x - d)
    else dev
  }

  /** `recentre` is on in the program; the run that never moves the origin is its reference. */
  function IntegrateDevice(o: Options, dev: DeviceState, live: Live, s: Sample, recentre: bool): DeviceState
    requires o.Valid()
  {
    var hours := StepHours(o, live, s);
    if hours <= 0.0 then dev
    else
      var moved := Advanced(dev, live, s, hours);
      match s.remainingAh
      case None => moved
      case Some(q) =>
        var anchored := Anchored(o, moved, hours, q, s.capacityAh);
        if recentre then Recentred(o, anchored) else anchored
  }

  function LiveAfter(live: Live, s: Sample): Live {
    live.(lastTs := Some(s.nowSecs), lastCurrent := Some(s.currentA),
          lastBalance := s.balanceA, lastRaw := Some((s.nowSecs, s.currentA)))
  }

  function Integrate(o: Options, c: Cal, sn: Serial, s: Sample, recentre: bool): Cal
    requires o.Valid()
  {
    c.(devices := c.devices[sn := IntegrateDevice(o, c.Device(sn), c.LiveOf(sn), s, recentre)],
       live := c.live[sn := LiveAfter(c.LiveOf(sn), s)])
  }

  // ---- Peer regressions ----

  /** Whether `other` reported recently enough to pair with this sample. */
  predicate Near(o: Options, c: Cal, sn: Serial, s: Sample, other: Serial) {
    other != sn && c.LiveOf(other).lastRaw.Some?
    && Abs(s.nowSecs - c.LiveOf(other).lastRaw.value.0) <= o.peerMaxSkewSecs
  }

  function NearAmong(o: Options, c: Cal, sn: Serial, s: Sample, keys: seq<Serial>): (r: seq<Serial>)
    ensures forall k :: k in r <==> k in keys && Near(o, c, sn, s, k)
  {
    if keys == [] then []
    else (if Near(o, c, sn, s, keys[0]) then [keys[0]] else []) + NearAmong(o, c, sn, s, keys[1..])
  }

  /** Feeds one pair of readings into the pair's regression of the larger serial on the smaller. */
  function PairStep(o: Options, c: Cal, sn: Serial, s: Sample, other: Serial, otherCur: real): Cal
    requires o.Valid()
  {
    var (key, flipped) := PairKey(sn, other);
    var (x, y) := if flipped then (otherCur, s.currentA) else (s.currentA, otherCur);
    var factor := match c.PairLive(key)
      case None => 1.0
      case Some(last) => Aging(o.exp, Max(s.nowSecs - last, 0.0) / 3600.0, o.peerTauHours);
    c.(pairLive := c.pairLive[key := Some(s.nowSecs)],
       pairs := c.pairs[key := c.Pair(key).Decayed(factor).Pushed(x, y)])
  }

  function PairSteps(o: Options, c: Cal, sn: Serial, s: Sample, peers: seq<Serial>): (r: Cal)
    requires o.Valid()
    requires forall p | p in peers :: c.LiveOf(p).lastRaw.Some?
    ensures r.devices == c.devices && r.live == c.live
    decreases |peers|
  {
    if peers == [] then c
    else
      var cur := c.LiveOf(peers[0]).lastRaw.value.1;
      var c' := PairStep(o, c, sn, s, peers[0], cur);
      assert forall p :: c'.LiveOf(p) == c.LiveOf(p);
      PairSteps(o, c', sn, s, peers[1..])
  }

  function UpdatePeers(o: Options, c: Cal, sn: Serial, s: Sample): (r: Cal)
    requires o.Valid()
    ensures r.devices == c.devices && r.live == c.live
  {
    PairSteps(o, c, sn, s, NearAmong(o, c, sn, s, Sorted(c.live.Keys)))
  }

  // ---- The verdict ----

  /** Capacity over window; `None` stands for infinity, when nothing bounds the error yet. */
  function AnchorError(capacityAh: real, spanHours: real, tauHours: real): Option<real> {
    var window := Min(spanHours, tauHours);
    if capacityAh <= 0.0 || window <= 0.0 then None else Some(capacityAh / window)
  }

  predicate Exceeds(error: Option<real>, limit: real) {
    error.None? || error.value > limit
  }

  /** `stderr > limit`, on the square: a standard error is not negative. */
  predicate TooNoisy(stderr2: real, limit: real) {
    limit < 0.0 || stderr2 > Sqr(limit)
  }

  /** The offset and hold before the peers are asked. */
  function Proposal(o: Options, dev: DeviceState): (real, Hold)
    requires o.Valid()
  {
    match FitLine(dev.fit)
    case None => (dev.applied, NoFit)
    case Some(f) =>
      if dev.spanHours < o.minSpanHours
         || Exceeds(AnchorError(dev.capacityAh, dev.spanHours, o.tauHours), o.maxAnchorErrorAmperes)
      then (dev.applied, Warmup)
      else if TooNoisy(f.stderr2, o.maxStderrAmperes) then (dev.applied, Noisy)
      else (Clamp(f.slope, -o.maxOffsetAmperes, o.maxOffsetAmperes), NoHold)
  }

  /** What the pair regression says about `sn` against `other`, when it qualifies. */
  function PeerReportOf(o: Options, c: Cal, sn: Serial, own: real, other: Serial): Option<PeerReport> {
    var (key, flipped) := PairKey(sn, other);
    if other == sn || other !in c.devices || key !in c.pairs || c.pairs[key].n < o.peerMinWeight then None
    else
      match FitLine(c.pairs[key])
      case None => None
      case Some(f) =>
        if Abs(f.slope - 1.0) > o.peerSlopeTolerance || f.r2 < o.peerMinR2 then None
        else
          var relative := if flipped then f.intercept else -f.intercept;
          match Slope(c.devices[other].fit)
          case None => None
          case Some(estimate) =>
            Some(PeerReport(other, relative, f.slope, f.r2, Abs(relative - (own - estimate))))
  }

  function ReportsAmong(o: Options, c: Cal, sn: Serial, own: real, keys: seq<Serial>): seq<PeerReport> {
    if keys == [] then []
    else
      (match PeerReportOf(o, c, sn, own, keys[0]) case Some(p) => [p] case None => [])
      + ReportsAmong(o, c, sn, own, keys[1..])
  }

  /** Every qualifying peer, in serial order. */
  function PeerReports(o: Options, c: Cal, sn: Serial, own: Option<real>): seq<PeerReport> {
    match own
    case None => []
    case Some(v) => ReportsAmong(o, c, sn, v, Sorted(c.devices.Keys))
  }

  function WorstDisagreement(reports: seq<PeerReport>): (r: Option<real>)
    ensures r.None? <==> reports == []
    ensures r.Some? ==> forall p | p in reports :: p.disagreement <= r.value
    ensures r.Some? ==> exists p :: p in reports && p.disagreement == r.value
  {
    if reports == [] then None
    else
      var d := reports[0].disagreement;
      match WorstDisagreement(reports[1..])
      case None =>
        assert reports[0] in reports;
        Some(d)
      case Some(worst) =>
        assert reports[0] in reports;
        assert exists p :: p in reports[1..] && p.disagreement == worst;
        Some(Max(d, worst))
  }

  function Truncated(reports: seq<PeerReport>, n: nat): seq<PeerReport> {
    if |reports| <= n then reports else reports[..n]
  }

  function Recompute(o: Options, c: Cal, sn: Serial): Cal
    requires o.Valid()
  {
    if sn !in c.devices then c
    else
      var dev := c.devices[sn];
      var (proposed, gate) := Proposal(o, dev);
      var reports := PeerReports(o, c, sn, Slope(dev.fit));
      var worst := WorstDisagreement(reports);
      var veto := gate == NoHold && worst.Some? && worst.value > o.peerMaxDisagreementAmperes;
      c.(devices := c.devices[sn := dev.(applied := if veto then dev.applied else proposed)],
         live := c.live[sn := c.LiveOf(sn).(
           hold := if veto then PeerDisagreement else gate,
           peers := Truncated(reports, o.peerMaxPublished),
           peerDisagreement := worst)])
  }

  /** One frame through the calibrator. */
  function ObserveWith(o: Options, c: Cal, sn: Serial, s: Sample, recentre: bool): Cal
    requires o.Valid()
  {
    Recompute(o, UpdatePeers(o, Integrate(o, c, sn, s, recentre), sn, s), sn)
  }

  function Observe(o: Options, c: Cal, sn: Serial, s: Sample): Cal
    requires o.Valid()
  {
    ObserveWith(o, c, sn, s, true)
  }

  /** A calibrator reloaded from a snapshot: only admitted serials, only pairs of admitted serials. */
  function Restore(c: Cal, state: State, admitted: set<Serial>): Cal {
    c.(devices := map sn | sn in state.devices && sn in admitted :: state.devices[sn],
       pairs := map key | key in state.pairs && (forall p | p in SplitBar(key) :: p in admitted) :: state.pairs[key])
  }
}
