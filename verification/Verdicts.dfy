/** When an offset is applied, which peers are consulted, and what the publication cap can change. */
module Verdicts {
  import opened Serials
  import opened LineFit
  import opened Calibration
  import opened CalibratorRuns

  // ---- The list of peer reports ----

  lemma {:induction false} ReportsListed(o: Options, c: Cal, sn: Serial, own: real, keys: seq<Serial>)
    ensures forall p | p in ReportsAmong(o, c, sn, own, keys) ::
              p.peerSn in keys && PeerReportOf(o, c, sn, own, p.peerSn) == Some(p)
    ensures forall k | k in keys && PeerReportOf(o, c, sn, own, k).Some? ::
              PeerReportOf(o, c, sn, own, k).value in ReportsAmong(o, c, sn, own, keys)
  {
    if keys != [] {
      ReportsListed(o, c, sn, own, keys[1..]);
    }
  }

  ghost predicate InSerialOrder(reports: seq<PeerReport>) {
    forall i, j | 0 <= i < j < |reports| :: Less(reports[i].peerSn, reports[j].peerSn)
  }

  lemma {:induction false} ReportsOrdered(o: Options, c: Cal, sn: Serial, own: real, keys: seq<Serial>)
    requires Ascending(keys)
    ensures InSerialOrder(ReportsAmong(o, c, sn, own, keys))
  {
    if keys != [] {
      ReportsOrdered(o, c, sn, own, keys[1..]);
      ReportsListed(o, c, sn, own, keys[1..]);
      var rest := ReportsAmong(o, c, sn, own, keys[1..]);
      forall p | p in rest ensures Less(keys[0], p.peerSn) {
        var j :| 0 <= j < |keys| - 1 && keys[1..][j] == p.peerSn;
        assert keys[j + 1] == p.peerSn;
      }
    }
  }

  /** `sn`'s report on `other`, if it has a line of its own and the pair qualifies. */
  function ReportOn(o: Options, c: Cal, sn: Serial, other: Serial): Option<PeerReport> {
    match Slope(c.Device(sn).fit)
    case None => None
    case Some(own) => PeerReportOf(o, c, sn, own, other)
  }

  /** The qualifying peers are listed once each, in serial order, with nothing missing. */
  lemma PeerReportsComplete(o: Options, c: Cal, sn: Serial, other: Serial)
    ensures var reports := PeerReports(o, c, sn, Slope(c.Device(sn).fit));
            && InSerialOrder(reports)
            && (ReportOn(o, c, sn, other).Some? <==> exists p :: p in reports && p.peerSn == other)
            && (ReportOn(o, c, sn, other).Some? ==> ReportOn(o, c, sn, other).value in reports)
            && (forall p | p in reports :: p.peerSn in c.devices && ReportOn(o, c, sn, p.peerSn) == Some(p))
  {
    var own := Slope(c.Device(sn).fit);
    if own.Some? {
      ReportsListed(o, c, sn, own.value, Sorted(c.devices.Keys));
      ReportsOrdered(o, c, sn, own.value, Sorted(c.devices.Keys));
    }
  }

  /** Two devices list each other or neither does, with negated offset and equal diagnostics. */
  lemma PeerSymmetry(o: Options, c: Cal, a: Serial, b: Serial)
    ensures var p, q := ReportOn(o, c, a, b), ReportOn(o, c, b, a);
            && (p.Some? <==> q.Some?)
            && (p.Some? ==>
                  && p.value.relativeOffset == -q.value.relativeOffset
                  && p.value.slope == q.value.slope
                  && p.value.r2 == q.value.r2
                  && p.value.disagreement == q.value.disagreement)
  {
    if a != b {
      PairKeyIsSymmetric(a, b);
    }
  }

  /** Restoring keeps a pair exactly when both of its serials are admitted. */
  lemma RestoreKeepsAdmittedPairs(c: Cal, state: State, admitted: set<Serial>, a: Serial, b: Serial)
    requires Plausible(a) && Plausible(b)
    ensures var key := PairKey(a, b).0;
            key in Restore(c, state, admitted).pairs <==> key in state.pairs && a in admitted && b in admitted
  {
    PairKeySplits(a, b);
    var parts := SplitBar(PairKey(a, b).0);
    assert parts[0] in parts && parts[1] in parts;
  }

  // ---- The gates ----

  /** Long enough integrated, and the remaining capacity can no longer be shifting the slope much. */
  predicate WarmedUp(o: Options, dev: DeviceState) {
    && dev.spanHours >= o.minSpanHours
    && !Exceeds(AnchorError(dev.capacityAh, dev.spanHours, o.tauHours), o.maxAnchorErrorAmperes)
  }

  /** Every condition for a correction to be applied, over all devices, published or not. */
  ghost predicate Eligible(o: Options, c: Cal, sn: Serial) {
    var fit := FitLine(c.Device(sn).fit);
    && fit.Some?
    && WarmedUp(o, c.Device(sn))
    && !TooNoisy(fit.value.stderr2, o.maxStderrAmperes)
    && (forall other | other in c.devices && ReportOn(o, c, sn, other).Some? ::
          ReportOn(o, c, sn, other).value.disagreement <= o.peerMaxDisagreementAmperes)
  }

  /** The calibrators hold the same fits, whatever offsets are in force. */
  ghost predicate SameFits(c: Cal, c': Cal) {
    && c.pairs == c'.pairs && c.devices.Keys == c'.devices.Keys
    && (forall k | k in c.devices :: c.devices[k].fit == c'.devices[k].fit)
  }

  lemma ReportIgnoresVerdict(o: Options, c: Cal, c': Cal, sn: Serial, own: real, other: Serial)
    requires SameFits(c, c')
    ensures PeerReportOf(o, c, sn, own, other) == PeerReportOf(o, c', sn, own, other)
  {
  }

  lemma {:induction false} ReportsIgnoreVerdict(o: Options, c: Cal, c': Cal, sn: Serial, own: real, keys: seq<Serial>)
    requires SameFits(c, c')
    ensures ReportsAmong(o, c, sn, own, keys) == ReportsAmong(o, c', sn, own, keys)
  {
    if keys != [] {
      ReportIgnoresVerdict(o, c, c', sn, own, keys[0]);
      ReportsIgnoreVerdict(o, c, c', sn, own, keys[1..]);
    }
  }

  lemma PeerReportsIgnoreVerdict(o: Options, c: Cal, c': Cal, sn: Serial, own: Option<real>)
    requires SameFits(c, c')
    ensures PeerReports(o, c, sn, own) == PeerReports(o, c', sn, own)
  {
    if own.Some? {
      ReportsIgnoreVerdict(o, c, c', sn, own.value, Sorted(c.devices.Keys));
    }
  }

  lemma RecomputeKeepsFits(o: Options, c: Cal, sn: Serial)
    requires o.Valid()
    ensures SameFits(c, Recompute(o, c, sn)) && Recompute(o, c, sn).pairLive == c.pairLive
  {
  }

  /** The full list of qualifying peers, in the state the step leaves behind. */
  function FullReports(o: Options, c: Cal, sn: Serial): seq<PeerReport> {
    PeerReports(o, c, sn, Slope(c.Device(sn).fit))
  }

  lemma RecomputeLive(o: Options, c: Cal, sn: Serial)
    requires o.Valid() && sn in c.devices
    ensures var c' := Recompute(o, c, sn);
            && c'.LiveOf(sn).peerDisagreement == WorstDisagreement(FullReports(o, c, sn))
            && c'.LiveOf(sn).peers == Truncated(FullReports(o, c, sn), o.peerMaxPublished)
  {
  }

  lemma RecomputeReports(o: Options, c: Cal, sn: Serial)
    requires o.Valid() && sn in c.devices
    ensures FullReports(o, Recompute(o, c, sn), sn) == FullReports(o, c, sn)
  {
    RecomputeKeepsFits(o, c, sn);
    PeerReportsIgnoreVerdict(o, c, Recompute(o, c, sn), sn, Slope(c.Device(sn).fit));
  }

  lemma EligibleWithoutVeto(o: Options, c: Cal, sn: Serial)
    requires o.Valid() && sn in c.devices
    ensures var worst := WorstDisagreement(PeerReports(o, c, sn, Slope(c.Device(sn).fit)));
            Eligible(o, c, sn) <==>
              Proposal(o, c.Device(sn)).1 == NoHold && !(worst.Some? && worst.value > o.peerMaxDisagreementAmperes)
  {
    var reports := PeerReports(o, c, sn, Slope(c.Device(sn).fit));
    forall other ensures ReportOn(o, c, sn, other).Some? ==> ReportOn(o, c, sn, other).value in reports {
      PeerReportsComplete(o, c, sn, other);
    }
    forall p | p in reports ensures p.peerSn in c.devices && ReportOn(o, c, sn, p.peerSn) == Some(p) {
      PeerReportsComplete(o, c, sn, p.peerSn);
    }
  }

  lemma EligibleIgnoresVerdict(o: Options, c: Cal, c': Cal, sn: Serial)
    requires SameFits(c, c') && Core(c.Device(sn)) == Core(c'.Device(sn))
    ensures Eligible(o, c, sn) <==> Eligible(o, c', sn)
  {
    assert c.Device(sn).fit == c'.Device(sn).fit;
    var own := Slope(c.Device(sn).fit);
    if own.Some? {
      forall other ensures ReportOn(o, c, sn, other) == ReportOn(o, c', sn, other) {
        ReportIgnoresVerdict(o, c, c', sn, own.value, other);
      }
    }
  }

  lemma RecomputeDecides(o: Options, c: Cal, sn: Serial)
    requires o.Valid() && sn in c.devices
    ensures var c' := Recompute(o, c, sn);
            var worst := WorstDisagreement(FullReports(o, c, sn));
            var clear := Proposal(o, c.Device(sn)).1 == NoHold
                         && !(worst.Some? && worst.value > o.peerMaxDisagreementAmperes);
            && (c'.LiveOf(sn).hold == NoHold <==> clear)
            && c'.Device(sn) == c.Device(sn).(applied := if clear then Proposal(o, c.Device(sn)).0 else c.Device(sn).applied)
  {
  }

  lemma ProposedOffset(o: Options, dev: DeviceState)
    requires o.Valid() && Proposal(o, dev).1 == NoHold
    ensures FitLine(dev.fit).Some?
    ensures Proposal(o, dev).0 == Clamp(FitLine(dev.fit).value.slope, -o.maxOffsetAmperes, o.maxOffsetAmperes)
  {
  }

  /** The offset a device may apply: its slope within the hard clamp. */
  function ClampedSlope(o: Options, dev: DeviceState): real
    requires o.Valid() && FitLine(dev.fit).Some?
  {
    Clamp(FitLine(dev.fit).value.slope, -o.maxOffsetAmperes, o.maxOffsetAmperes)
  }

  lemma IntegrationKeepsOffset(o: Options, dev: DeviceState, live: Live, s: Sample)
    requires o.Valid()
    ensures IntegrateDevice(o, dev, live, s, true).applied == dev.applied
  {
  }

  lemma RecomputeGate(o: Options, c: Cal, sn: Serial)
    requires o.Valid() && sn in c.devices
    ensures var c' := Recompute(o, c, sn);
            && (c'.LiveOf(sn).hold == NoHold <==> Eligible(o, c', sn))
            && (Eligible(o, c', sn) ==> c'.Device(sn).applied == ClampedSlope(o, c'.Device(sn)))
            && (!Eligible(o, c', sn) ==> c'.Device(sn).applied == c.Device(sn).applied)
            && c'.LiveOf(sn).peers == Truncated(FullReports(o, c', sn), o.peerMaxPublished)
  {
    var c' := Recompute(o, c, sn);
    RecomputeDecides(o, c, sn);
    RecomputeKeepsFits(o, c, sn);
    RecomputeLive(o, c, sn);
    RecomputeReports(o, c, sn);
    EligibleWithoutVeto(o, c, sn);
    EligibleIgnoresVerdict(o, c, c', sn);
    if Eligible(o, c, sn) {
      ProposedOffset(o, c.Device(sn));
    }
  }

  /**
   * On a device's own frame the hold is lifted exactly when every condition holds, peers beyond the
   * publication cap included; then the clamped slope is applied, and otherwise the offset stays.
   */
  lemma GateDecides(o: Options, c: Cal, sn: Serial, s: Sample)
    requires o.Valid()
    ensures var c' := Observe(o, c, sn, s);
            && (c'.LiveOf(sn).hold == NoHold <==> Eligible(o, c', sn))
            && (Eligible(o, c', sn) ==> c'.Device(sn).applied == ClampedSlope(o, c'.Device(sn)))
            && (!Eligible(o, c', sn) ==> c'.Device(sn).applied == c.Device(sn).applied)
            && c'.LiveOf(sn).peers == Truncated(FullReports(o, c', sn), o.peerMaxPublished)
  {
    var pre := UpdatePeers(o, Integrate(o, c, sn, s, true), sn, s);
    IntegrationKeepsOffset(o, c.Device(sn), c.LiveOf(sn), s);
    RecomputeGate(o, pre, sn);
  }

  /** No applied offset outside the hard clamp. */
  predicate WithinClamp(o: Options, dev: DeviceState) {
    -o.maxOffsetAmperes <= dev.applied <= o.maxOffsetAmperes
  }

  lemma OwnFrameWithinClamp(o: Options, c: Cal, sn: Serial, s: Sample)
    requires o.Valid() && WithinClamp(o, c.Device(sn))
    ensures WithinClamp(o, Observe(o, c, sn, s).Device(sn))
  {
    GateDecides(o, c, sn, s);
  }

  /** Whatever the stream, no applied offset ever leaves the hard clamp. */
  lemma {:induction false} OffsetBounded(o: Options, fs: seq<Frame>, sn: Serial)
    requires o.Valid()
    ensures WithinClamp(o, Run(o, fs).Device(sn))
  {
    if fs != [] {
      var init, f := fs[..|fs| - 1], fs[|fs| - 1];
      assert fs == init + [f];
      OffsetBounded(o, init, sn);
      RunStep(o, init, f);
      if f.sn == sn {
        OwnFrameWithinClamp(o, Run(o, init), sn, f.s);
      } else {
        OtherFrame(o, Run(o, init), f.sn, f.s, true, sn);
      }
    }
  }

  /** An offset moves only on its device's own frame, and only with the hold lifted. */
  lemma OffsetMovesOnlyWhenEligible(o: Options, fs: seq<Frame>, f: Frame, sn: Serial)
    requires o.Valid()
    requires Run(o, fs + [f]).Device(sn).applied != Run(o, fs).Device(sn).applied
    ensures f.sn == sn && Eligible(o, Run(o, fs + [f]), sn) && Run(o, fs + [f]).LiveOf(sn).hold == NoHold
  {
    RunStep(o, fs, f);
    if f.sn == sn {
      GateDecides(o, Run(o, fs), sn, f.s);
    } else {
      OtherFrame(o, Run(o, fs), f.sn, f.s, true, sn);
    }
  }

  // ---- Warmup does not come back ----

  lemma SpanAndCapacityGrow(o: Options, dev: DeviceState, live: Live, s: Sample)
    requires o.Valid()
    ensures var d := IntegrateDevice(o, dev, live, s, true);
            d.spanHours >= dev.spanHours && d.capacityAh >= dev.capacityAh
  {
  }

  lemma {:induction false} GrowthOverRun(o: Options, fs: seq<Frame>, k: nat, sn: Serial)
    requires o.Valid() && k <= |fs|
    ensures Run(o, fs[..k]).Device(sn).spanHours <= Run(o, fs).Device(sn).spanHours
    ensures Run(o, fs[..k]).Device(sn).capacityAh <= Run(o, fs).Device(sn).capacityAh
    decreases |fs|
  {
    if k == |fs| {
      assert fs[..k] == fs;
    } else {
      var init, f := fs[..|fs| - 1], fs[|fs| - 1];
      assert fs == init + [f] && init[..k] == fs[..k];
      GrowthOverRun(o, init, k, sn);
      RunStep(o, init, f);
      var c := Run(o, init);
      if f.sn == sn {
        OwnFrame(o, c, sn, f.s, true);
        SpanAndCapacityGrow(o, c.Device(sn), c.LiveOf(sn), f.s);
      } else {
        OtherFrame(o, c, f.sn, f.s, true, sn);
      }
    }
  }

  lemma WiderWindow(capacity: real, w: real, w': real)
    requires capacity > 0.0 && 0.0 < w <= w'
    ensures capacity / w' <= capacity / w
  {
    var a, b := capacity / w, capacity / w';
    assert a * w == capacity && b * w' == capacity;
  }

  /** A longer span never makes the anchor error worse. */
  lemma AnchorErrorShrinks(capacity: real, span: real, span': real, tau: real)
    requires span <= span'
    ensures AnchorError(capacity, span, tau).Some? ==>
              && AnchorError(capacity, span', tau).Some?
              && AnchorError(capacity, span', tau).value <= AnchorError(capacity, span, tau).value
  {
    if AnchorError(capacity, span, tau).Some? {
      WiderWindow(capacity, Min(span, tau), Min(span', tau));
    }
  }

  lemma WarmedUpStays(o: Options, dev: DeviceState, dev': DeviceState)
    requires WarmedUp(o, dev) && dev.spanHours <= dev'.spanHours && dev.capacityAh == dev'.capacityAh
    ensures WarmedUp(o, dev')
  {
    AnchorErrorShrinks(dev.capacityAh, dev.spanHours, dev'.spanHours, o.tauHours);
  }

  /** Once a device has warmed up, it stays so for as long as its known capacity does not grow. */
  lemma WarmupDoesNotReturn(o: Options, fs: seq<Frame>, k: nat, sn: Serial)
    requires o.Valid() && k <= |fs|
    requires WarmedUp(o, Run(o, fs[..k]).Device(sn))
    requires Run(o, fs).Device(sn).capacityAh <= Run(o, fs[..k]).Device(sn).capacityAh
    ensures WarmedUp(o, Run(o, fs).Device(sn))
  {
    GrowthOverRun(o, fs, k, sn);
    WarmedUpStays(o, Run(o, fs[..k]).Device(sn), Run(o, fs).Device(sn));
  }

  /** A warmed-up device's own frame never reads `Warmup`. */
  lemma WarmedUpHold(o: Options, c: Cal, sn: Serial, s: Sample)
    requires o.Valid()
    ensures var c' := Observe(o, c, sn, s);
            c'.LiveOf(sn).hold == Warmup <==> FitLine(c'.Device(sn).fit).Some? && !WarmedUp(o, c'.Device(sn))
  {
  }
}
