/** The calibrator object: the estimator's steps in place, against their specification. */
module CalibratorObject {
  import opened Serials
  import opened LineFit
  import opened Calibration

  class Calibrator {
    const o: Options
    var devices: map<Serial, DeviceState>
    var pairs: map<string, Sums>
    var live: map<Serial, Live>
    var pairLive: map<string, Option<real>>

    function View(): Cal
      reads this
    {
      Cal(devices, pairs, live, pairLive)
    }

    constructor (o: Options)
      ensures this.o == o && View() == NEW_CAL
    {
      this.o := o;
      devices, pairs, live, pairLive := map[], map[], map[], map[];
    }

    /** Feeds one frame; returns the offset to subtract from its current. */
    method Observe(sn: Serial, s: Sample) returns (offset: real)
      requires o.Valid()
      modifies this
      ensures View() == Calibration.Observe(o, old(View()), sn, s)
      ensures offset == View().Device(sn).applied
    {
      Integrate(sn, s);
      UpdatePeers(sn, s);
      Recompute(sn);
      offset := if sn in devices then devices[sn].applied else 0.0;
    }

    method Integrate(sn: Serial, s: Sample)
      requires o.Valid()
      modifies this`devices, this`live
      ensures View() == Calibration.Integrate(o, old(View()), sn, s, true)
    {
      var dev := if sn in devices then devices[sn] else NEW_DEVICE;
      var scratch := if sn in live then live[sn] else NEW_LIVE;
      var hours := StepHours(o, scratch, s);
      if hours > 0.0 {
        dev := dev.(cumNetAh := dev.cumNetAh + StepNet(scratch, s, hours));
        dev := dev.(cumBalAh := dev.cumBalAh + StepBleed(scratch, s, hours));
        dev := dev.(x := dev.x + hours, spanHours := dev.spanHours + hours);
        if s.remainingAh.Some? {
          dev := Anchor(dev, hours, s.remainingAh.value, s.capacityAh);
        }
      }
      devices := devices[sn := dev];
      live := live[sn := LiveAfter(scratch, s)];
    }

    /** One point of the closure fit, and the move of the origin of x when it has run far. */
    method Anchor(dev: DeviceState, hours: real, q: real, hint: Option<real>) returns (r: DeviceState)
      requires o.Valid()
      ensures r == Recentred(o, Anchored(o, dev, hours, q, hint))
    {
      var known := Max(Max(dev.capacityAh, if hint.Some? then hint.value else 0.0), q);
      var y := dev.cumNetAh - q - dev.cumBalAh;
      var fit := new EwFit(dev.fit);
      fit.Decay(Aging(o.exp, hours, o.tauHours));
      fit.Push(dev.x, y);
      r := dev.(capacityAh := known, fit := fit.Value());
      if r.x > 50.0 * o.tauHours {
        var d := r.x - o.tauHours;
        fit.ShiftX(d);
        r := r.(fit := fit.Value(), x := r.x - d);
      }
    }

    method UpdatePeers(sn: Serial, s: Sample)
      requires o.Valid()
      modifies this`pairs, this`pairLive
      ensures View() == Calibration.UpdatePeers(o, old(View()), sn, s)
    {
      var peers := NearAmong(o, View(), sn, s, Sorted(live.Keys));
      ghost var start := View();
      for i := 0 to |peers|
        invariant live == start.live && devices == start.devices
        invariant PairSteps(o, View(), sn, s, peers[i..]) == PairSteps(o, start, sn, s, peers)
      {
        var other := peers[i];
        assert peers[i..][0] == other && peers[i..][1..] == peers[i + 1..];
        PairWith(sn, s, other);
      }
    }

    /** One pair's regression: larger serial against smaller, whichever of them reported. */
    method PairWith(sn: Serial, s: Sample, other: Serial)
      requires o.Valid() && View().LiveOf(other).lastRaw.Some?
      modifies this`pairs, this`pairLive
      ensures View() == PairStep(o, old(View()), sn, s, other, old(View()).LiveOf(other).lastRaw.value.1)
    {
      var (key, flipped) := PairKey(sn, other);
      var x, y := s.currentA, live[other].lastRaw.value.1;
      if flipped {
        x, y := y, x;
      }
      var factor := 1.0;
      if key in pairLive && pairLive[key].Some? {
        factor := Aging(o.exp, Max(s.nowSecs - pairLive[key].value, 0.0) / 3600.0, o.peerTauHours);
      }
      pairLive := pairLive[key := Some(s.nowSecs)];
      var fit := new EwFit(if key in pairs then pairs[key] else EMPTY);
      fit.Decay(factor);
      fit.Push(x, y);
      pairs := pairs[key := fit.Value()];
    }

    static function Listing(reports: seq<PeerReport>, report: Option<PeerReport>): seq<PeerReport> {
      if report.Some? then reports + [report.value] else reports
    }

    static lemma OneMoreReport(o: Options, c: Cal, sn: Serial, own: real, keys: seq<Serial>, i: nat, reports: seq<PeerReport>)
      requires i < |keys|
      ensures reports + ReportsAmong(o, c, sn, own, keys[i..])
           == Listing(reports, PeerReportOf(o, c, sn, own, keys[i])) + ReportsAmong(o, c, sn, own, keys[i + 1..])
    {
      assert keys[i..][0] == keys[i] && keys[i..][1..] == keys[i + 1..];
    }

    method PeerReports(sn: Serial, own: Option<real>) returns (reports: seq<PeerReport>)
      ensures reports == Calibration.PeerReports(o, View(), sn, own)
    {
      reports := [];
      if own.Some? {
        var keys := Sorted(devices.Keys);
        assert keys[0..] == keys;
        for i := 0 to |keys|
          invariant reports + ReportsAmong(o, View(), sn, own.value, keys[i..]) == ReportsAmong(o, View(), sn, own.value, keys)
        {
          OneMoreReport(o, View(), sn, own.value, keys, i, reports);
          var report := PeerReportOf(o, View(), sn, own.value, keys[i]);
          if report.Some? {
            reports := reports + [report.value];
          }
        }
        assert ReportsAmong(o, View(), sn, own.value, keys[|keys|..]) == [];
      }
    }

    method Recompute(sn: Serial)
      requires o.Valid()
      modifies this`devices, this`live
      ensures View() == Calibration.Recompute(o, old(View()), sn)
    {
      if sn in devices {
        var dev := devices[sn];
        var (offset, hold) := Proposal(o, dev);
        var reports := PeerReports(sn, Slope(dev.fit));
        var worst := WorstDisagreement(reports);
        if hold == NoHold && worst.Some? && worst.value > o.peerMaxDisagreementAmperes {
          offset := dev.applied;
          hold := PeerDisagreement;
        }
        devices := devices[sn := dev.(applied := offset)];
        var scratch := if sn in live then live[sn] else NEW_LIVE;
        live := live[sn := scratch.(hold := hold, peers := Truncated(reports, o.peerMaxPublished), peerDisagreement := worst)];
      }
    }

    method Restore(state: State, admitted: set<Serial>)
      modifies this`devices, this`pairs
      ensures View() == Calibration.Restore(old(View()), state, admitted)
    {
      devices := map sn | sn in state.devices && sn in admitted :: state.devices[sn];
      pairs := map key | key in state.pairs && (forall p | p in SplitBar(key) :: p in admitted) :: state.pairs[key];
    }
  }
}
