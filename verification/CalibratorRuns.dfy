/** Runs of the calibrator over interleaved streams: what one device's frames do, and to whom. */
module CalibratorRuns {
  import opened Serials
  import opened LineFit
  import opened Calibration

  /** A frame of the stream; `q` is the charge the pack truly holds, whether or not it is reported. */
  datatype Frame = Frame(sn: Serial, s: Sample, q: real)

  /** A fresh calibrator after the stream. */
  function Run(o: Options, fs: seq<Frame>): Cal
    requires o.Valid()
  {
    if fs == [] then NEW_CAL
    else
      var f := fs[|fs| - 1];
      Observe(o, Run(o, fs[..|fs| - 1]), f.sn, f.s)
  }

  /** The device state without the offset in force, which depends on peers. */
  function Core(dev: DeviceState): DeviceState {
    dev.(applied := 0.0)
  }

  /** The previous frame's readings, without the verdict on them. */
  function Baseline(live: Live): Live {
    live.(hold := Warmup, peers := [], peerDisagreement := None)
  }

  /** A device's own frame moves its estimator by the integration step alone. */
  lemma OwnFrame(o: Options, c: Cal, sn: Serial, s: Sample, recentre: bool)
    requires o.Valid()
    ensures var c' := ObserveWith(o, c, sn, s, recentre);
            && sn in c'.devices
            && Core(c'.Device(sn)) == Core(IntegrateDevice(o, c.Device(sn), c.LiveOf(sn), s, recentre))
            && Baseline(c'.LiveOf(sn)) == Baseline(LiveAfter(c.LiveOf(sn), s))
  {
  }

  /** Another device's frame leaves this device entirely alone. */
  lemma OtherFrame(o: Options, c: Cal, sn: Serial, s: Sample, recentre: bool, other: Serial)
    requires o.Valid() && other != sn
    ensures var c' := ObserveWith(o, c, sn, s, recentre);
            c'.Device(other) == c.Device(other) && c'.LiveOf(other) == c.LiveOf(other)
  {
  }

  /** The integration carries the offset in force along and reads nothing from it. */
  lemma OffsetRidesAlong(o: Options, d: DeviceState, applied: real, l: Live, s: Sample, recentre: bool)
    requires o.Valid()
    ensures IntegrateDevice(o, d.(applied := applied), l, s, recentre)
         == IntegrateDevice(o, d, l, s, recentre).(applied := applied)
  {
  }

  /** Nor does it read the verdict on the previous frame. */
  lemma VerdictNotRead(o: Options, d: DeviceState, l: Live, l': Live, s: Sample, recentre: bool)
    requires o.Valid() && Baseline(l) == Baseline(l')
    ensures IntegrateDevice(o, d, l, s, recentre) == IntegrateDevice(o, d, l', s, recentre)
  {
    SameStep(o, l, l', s);
  }

  lemma SameStep(o: Options, l: Live, l': Live, s: Sample)
    requires o.Valid() && Baseline(l) == Baseline(l')
    ensures StepHours(o, l, s) == StepHours(o, l', s)
    ensures forall hours :: StepNet(l, s, hours) == StepNet(l', s, hours)
    ensures forall hours :: StepBleed(l, s, hours) == StepBleed(l', s, hours)
  {
  }

  lemma CoreStep(o: Options, d: DeviceState, d': DeviceState, l: Live, l': Live, s: Sample, recentre: bool)
    requires o.Valid() && Core(d) == Core(d') && Baseline(l) == Baseline(l')
    ensures Core(IntegrateDevice(o, d, l, s, recentre)) == Core(IntegrateDevice(o, d', l', s, recentre))
    ensures Baseline(LiveAfter(l, s)) == Baseline(LiveAfter(l', s))
  {
    assert d' == d.(applied := d'.applied);
    OffsetRidesAlong(o, d, d'.applied, l', s, recentre);
    VerdictNotRead(o, d, l, l', s, recentre);
  }

  function Own(fs: seq<Frame>, sn: Serial): seq<Frame> {
    if fs == [] then []
    else
      var init, f := Own(fs[..|fs| - 1], sn), fs[|fs| - 1];
      if f.sn == sn then init + [f] else init
  }

  /** The two calibrators know the same of `sn`, its offset in force apart. */
  ghost predicate Agree(c: Cal, c': Cal, sn: Serial) {
    Core(c.Device(sn)) == Core(c'.Device(sn)) && Baseline(c.LiveOf(sn)) == Baseline(c'.LiveOf(sn))
  }

  lemma OwnFrameAgrees(o: Options, c: Cal, c': Cal, sn: Serial, s: Sample)
    requires o.Valid() && Agree(c, c', sn)
    ensures Agree(Observe(o, c, sn, s), Observe(o, c', sn, s), sn)
  {
    OwnFrame(o, c, sn, s, true);
    OwnFrame(o, c', sn, s, true);
    CoreStep(o, c.Device(sn), c'.Device(sn), c.LiveOf(sn), c'.LiveOf(sn), s, true);
  }

  lemma OtherFrameAgrees(o: Options, c: Cal, c': Cal, other: Serial, s: Sample, sn: Serial)
    requires o.Valid() && Agree(c, c', sn) && other != sn
    ensures Agree(Observe(o, c, other, s), c', sn)
  {
    OtherFrame(o, c, other, s, true, sn);
  }

  lemma RunStep(o: Options, init: seq<Frame>, f: Frame)
    requires o.Valid()
    ensures Run(o, init + [f]) == Observe(o, Run(o, init), f.sn, f.s)
  {
    assert (init + [f])[..|init|] == init;
  }

  /** However the streams interleave, a device's estimator is what its own frames alone produce. */
  lemma {:induction false} Projection(o: Options, fs: seq<Frame>, sn: Serial)
    requires o.Valid()
    ensures Agree(Run(o, fs), Run(o, Own(fs, sn)), sn)
  {
    if fs != [] {
      var init, f := fs[..|fs| - 1], fs[|fs| - 1];
      assert fs == init + [f];
      Projection(o, init, sn);
      RunStep(o, init, f);
      if f.sn == sn {
        RunStep(o, Own(init, sn), f);
        OwnFrameAgrees(o, Run(o, init), Run(o, Own(init, sn)), sn, f.s);
      } else {
        OtherFrameAgrees(o, Run(o, init), Run(o, Own(init, sn)), f.sn, f.s, sn);
      }
    }
  }
}
