/** The counters and the calibrator integrate the same charge, and the file never says otherwise. */
module Agreement {
  import opened Serials
  import opened LineFit
  import opened Calibration
  import opened CalibratorRuns
  import opened Verdicts
  import opened Accounting
  import opened CounterFacts
  import opened Protocol
  import opened MachineShape
  import opened Conservation

  // ---- One interval, integrated twice ----

  /** Calibration is on, and both integrations cap a gap alike. */
  predicate EqualGaps(o: Config) {
    o.Valid() && o.calibrationEnabled && o.maxGapSecs == o.calibration.maxGapSecs
  }

  /** The slot and the calibrator saw the same previous frame. */
  predicate SameBaseline(e: LastSeries, live: Live) {
    e.lastTs == live.lastTs && e.lastCurrent == live.lastCurrent && e.lastBalanceA == live.lastBalance
  }

  /** A device's integrals after the step, whatever the fit makes of it. */
  lemma StepIntegrals(o: Options, dev: DeviceState, live: Live, s: Sample)
    requires o.Valid()
    ensures var dev', hours := IntegrateDevice(o, dev, live, s, true), StepHours(o, live, s);
            && dev'.cumNetAh == dev.cumNetAh + StepNet(live, s, hours)
            && dev'.cumBalAh == dev.cumBalAh + StepBleed(live, s, hours)
  {
    var hours := StepHours(o, live, s);
    if hours <= 0.0 {
      NothingInNoTime(live, s);
    }
  }

  lemma NothingInNoTime(live: Live, s: Sample)
    ensures StepNet(live, s, 0.0) == 0.0 && StepBleed(live, s, 0.0) == 0.0
  {
  }

  function MeanOver(prev: real, cur: real, hours: real): real {
    (prev + cur) / 2.0 * hours
  }

  lemma SecondsAreHours(prev: real, cur: real, secs: real, hours: real)
    requires hours == secs / 3600.0
    ensures MeanPerHour(prev, cur, secs) == MeanOver(prev, cur, hours)
  {
    var a := (prev + cur) / 2.0;
    assert a * secs / 3600.0 == a * (secs / 3600.0) == a * hours;
  }

  lemma NoTime(prev: real, cur: real)
    ensures MeanOver(prev, cur, 0.0) == 0.0
  {
  }

  /** The two sides of an integral are its positive and its negative part. */
  lemma TrapezoidSides(prev: real, cur: real, dt: real, gap: real)
    requires gap >= 0.0
    ensures var v := MeanOver(prev, cur, Clamp(dt, 0.0, gap) / 3600.0);
            TrapezoidHours(prev, cur, dt, gap) == Split(Max(v, 0.0), Max(-v, 0.0))
  {
    if dt > 0.0 {
      assert Clamp(dt, 0.0, gap) == Min(dt, gap);
      SecondsAreHours(prev, cur, Min(dt, gap), Clamp(dt, 0.0, gap) / 3600.0);
    } else {
      assert Clamp(dt, 0.0, gap) / 3600.0 == 0.0;
      NoTime(prev, cur);
    }
  }

  lemma NetOfSides(v: real)
    ensures Split(Max(v, 0.0), Max(-v, 0.0)).Net() == v
  {
  }

  /** Two readings at or above zero charge only. */
  lemma BleedNet(prev: real, cur: real, dt: real, gap: real)
    requires gap >= 0.0 && prev >= 0.0 && cur >= 0.0
    ensures TrapezoidHours(prev, cur, dt, gap).charge == MeanOver(prev, cur, Clamp(dt, 0.0, gap) / 3600.0)
  {
    TrapezoidSides(prev, cur, dt, gap);
  }

  /** The calibrator's hours are the capped gap the counters integrate over. */
  lemma SameHours(o: Config, live: Live, s: Sample)
    requires EqualGaps(o) && live.lastTs.Some? && live.lastCurrent.Some?
    ensures StepHours(o.calibration, live, s) == Clamp(s.nowSecs - live.lastTs.value, 0.0, o.maxGapSecs) / 3600.0
  {
  }

  /** A frame of a device that has been seen before, or never. */
  predicate Consistent(live: Live) {
    && (live.lastTs.Some? <==> live.lastCurrent.Some?)
    && (live.lastTs.None? ==> live.lastBalance.None?)
  }

  /** Charge of an interval, as the counters see it. */
  function CountedAh(o: Config, e: LastSeries, cur: real, now: real): Split {
    if e.lastTs.Some? && e.lastCurrent.Some? then
      TrapezoidHours(e.lastCurrent.value, cur, now - e.lastTs.value, o.maxGapSecs)
    else NOTHING
  }

  /** Bleed of an interval, as the counters see it. */
  function CountedBleed(o: Config, e: LastSeries, d: RealtimeData, now: real): real {
    if e.lastTs.Some? && e.lastCurrent.Some? && e.lastBalanceA.Some? && d.balanceCurrentA.Some? then
      TrapezoidHours(Max(e.lastBalanceA.value, 0.0), Max(d.balanceCurrentA.value, 0.0), now - e.lastTs.value, o.maxGapSecs).charge
    else 0.0
  }

  lemma IntervalParts(o: Config, e: LastSeries, d: RealtimeData, cur: real, offset: real, now: real)
    ensures var p := IntervalDeltas(o, e, d, cur, offset, now);
            p.ah == CountedAh(o, e, cur, now) && p.balanceAh == CountedBleed(o, e, d, now)
  {
  }

  lemma StepNetIsMean(live: Live, s: Sample, hours: real)
    requires live.lastCurrent.Some?
    ensures StepNet(live, s, hours) == MeanOver(live.lastCurrent.value, s.currentA, hours)
  {
  }

  lemma CountedNet(o: Config, e: LastSeries, cur: real, now: real, mean: real)
    requires o.maxGapSecs >= 0.0 && e.lastTs.Some? && e.lastCurrent.Some?
    requires mean == MeanOver(e.lastCurrent.value, cur, Clamp(now - e.lastTs.value, 0.0, o.maxGapSecs) / 3600.0)
    ensures CountedAh(o, e, cur, now) == Split(Max(mean, 0.0), Max(-mean, 0.0))
  {
    TrapezoidSides(e.lastCurrent.value, cur, now - e.lastTs.value, o.maxGapSecs);
  }

  lemma SameNet(o: Config, e: LastSeries, live: Live, s: Sample)
    requires EqualGaps(o) && SameBaseline(e, live) && Consistent(live)
    ensures CountedAh(o, e, s.currentA, s.nowSecs).Net() == StepNet(live, s, StepHours(o.calibration, live, s))
  {
    if e.lastTs.Some? {
      var mean := StepNet(live, s, StepHours(o.calibration, live, s));
      SameHours(o, live, s);
      StepNetIsMean(live, s, StepHours(o.calibration, live, s));
      CountedNet(o, e, s.currentA, s.nowSecs, mean);
      NetOfSides(mean);
    }
  }

  lemma SameBleed(o: Config, e: LastSeries, live: Live, d: RealtimeData, s: Sample)
    requires EqualGaps(o) && SameBaseline(e, live) && Consistent(live) && s.balanceA == d.balanceCurrentA
    ensures CountedBleed(o, e, d, s.nowSecs) == StepBleed(live, s, StepHours(o.calibration, live, s))
  {
    if e.lastTs.Some? && e.lastBalanceA.Some? && d.balanceCurrentA.Some? {
      var prev, next := Max(e.lastBalanceA.value, 0.0), Max(d.balanceCurrentA.value, 0.0);
      BleedNet(prev, next, s.nowSecs - e.lastTs.value, o.maxGapSecs);
      SameHours(o, live, s);
    }
  }

  /** Deltas are what the calibrator integrates over the same step. */
  predicate Follows(o: Options, live: Live, s: Sample, p: Pending)
    requires o.Valid()
  {
    var hours := StepHours(o, live, s);
    p.ah.Net() == StepNet(live, s, hours) && p.balanceAh == StepBleed(live, s, hours)
  }

  lemma IntervalFollows(o: Config, e: LastSeries, live: Live, d: RealtimeData, offset: real, s: Sample)
    requires EqualGaps(o) && SameBaseline(e, live) && Consistent(live) && s.balanceA == d.balanceCurrentA
    ensures Follows(o.calibration, live, s, IntervalDeltas(o, e, d, s.currentA, offset, s.nowSecs))
  {
    IntervalParts(o, e, d, s.currentA, offset, s.nowSecs);
    SameNet(o, e, live, s);
    SameBleed(o, e, live, d, s);
  }

  // ---- The state in memory ----

  /** Amounts of a series this process holds, exported or not. */
  function Held(s: Machine, c: Counter, sn: Serial): real {
    Read(s.base, Series(c, sn)) + Read(s.integrated, Series(c, sn))
  }

  predicate Matches(charge: real, discharge: real, bleed: real, dev: DeviceState) {
    charge - discharge == dev.cumNetAh && bleed == dev.cumBalAh
  }

  predicate HeldMatches(s: Machine, sn: Serial) {
    Matches(Held(s, ChargeAh, sn), Held(s, DischargeAh, sn), Held(s, BalanceAh, sn), s.m.cal.Device(sn))
  }

  predicate Baselined(m: Shared, sn: Serial) {
    var live := m.cal.LiveOf(sn);
    SameBaseline(Tracked(m, sn), live) && Consistent(live)
  }

  ghost predicate AllBaselined(m: Shared) {
    forall sn :: Baselined(m, sn)
  }

  ghost predicate MemoryAgrees(s: Machine) {
    && s.m.cal.devices.Keys <= s.m.devices.Keys
    && (forall sn :: HeldMatches(s, sn))
  }

  // ---- The file ----

  function Learned(f: Option<File>, sn: Serial): DeviceState {
    if f.Some? && sn in f.value.calibration.devices then f.value.calibration.devices[sn] else NEW_DEVICE
  }

  predicate RowMatches(f: Option<File>, sn: Serial) {
    Matches(FileTotal(f, Series(ChargeAh, sn)), FileTotal(f, Series(DischargeAh, sn)), FileTotal(f, Series(BalanceAh, sn)),
            Learned(f, sn))
  }

  /** The file's counters and the file's calibrator tell the same story of every device. */
  ghost predicate FileAgrees(f: Option<File>) {
    && (f.Some? ==> f.value.calibration.devices.Keys <= f.value.rows.Keys)
    && (forall sn :: RowMatches(f, sn))
  }

  ghost predicate PayloadAgrees(phase: Phase) {
    match phase
    case Writing(f, _) => FileAgrees(Some(f))
    case Renamed(f, _) => FileAgrees(Some(f))
    case _ => true
  }

  ghost predicate Agreeing(s: Machine) {
    && (forall f | f in s.disk :: FileAgrees(f))
    && (s.up ==> MemoryAgrees(s) && PayloadAgrees(s.phase))
  }

  // ---- What the accounting relies on in the calibrator ----

  /** One device's integrals and baseline move with its own frame; nothing of another device does. */
  ghost predicate CalStep(o: Options, c: Cal, c': Cal, sn: Serial, s: Sample)
    requires o.Valid()
  {
    var live := c.LiveOf(sn);
    var hours := StepHours(o, live, s);
    && c'.Device(sn).cumNetAh == c.Device(sn).cumNetAh + StepNet(live, s, hours)
    && c'.Device(sn).cumBalAh == c.Device(sn).cumBalAh + StepBleed(live, s, hours)
    && c'.LiveOf(sn).lastTs == Some(s.nowSecs) && c'.LiveOf(sn).lastCurrent == Some(s.currentA)
    && c'.LiveOf(sn).lastBalance == s.balanceA
    && c'.devices.Keys == c.devices.Keys + {sn}
    && (forall k | k != sn :: c'.Device(k) == c.Device(k) && c'.LiveOf(k) == c.LiveOf(k))
  }

  ghost predicate Integrating(o: Config) {
    o.Valid() && forall c, sn, s :: CalStep(o.calibration, c, o.observe(c, sn, s), sn, s)
  }

  /** Equal gaps, and a calibrator that integrates. */
  ghost predicate SameGaps(o: Config) {
    EqualGaps(o) && Integrating(o)
  }

  /** And no nudge. */
  ghost predicate Comparable(o: Config) {
    SameGaps(o) && forall v :: o.bump(v) == v
  }

  lemma KeysObserved(o: Options, c: Cal, sn: Serial, s: Sample)
    requires o.Valid()
    ensures Observe(o, c, sn, s).devices.Keys == c.devices.Keys + {sn}
  {
    var integrated := Integrate(o, c, sn, s, true);
    assert integrated.devices.Keys == c.devices.Keys + {sn};
    RecomputeKeepsFits(o, UpdatePeers(o, integrated, sn, s), sn);
  }

  /** The modelled calibrator steps that way. */
  lemma ObserveSteps(o: Options, c: Cal, sn: Serial, s: Sample)
    requires o.Valid()
    ensures CalStep(o, c, Observe(o, c, sn, s), sn, s)
  {
    OwnFrame(o, c, sn, s, true);
    StepIntegrals(o, c.Device(sn), c.LiveOf(sn), s);
    KeysObserved(o, c, sn, s);
    forall k | k != sn ensures Observe(o, c, sn, s).Device(k) == c.Device(k) && Observe(o, c, sn, s).LiveOf(k) == c.LiveOf(k) {
      OtherFrame(o, c, sn, s, true, k);
    }
  }

  lemma CalibratorIntegrates(o: Config)
    requires Calibrates(o)
    ensures Integrating(o)
  {
    forall c, sn, s ensures CalStep(o.calibration, c, o.observe(c, sn, s), sn, s) {
      ObserveSteps(o.calibration, c, sn, s);
    }
  }

  // ---- A frame ----

  /** What one accumulated frame does to its slot, its device and the others. */
  ghost predicate FrameIntegrates(m: Shared, m': Shared, sn: Serial, delta: Pending) {
    && Baselined(m', sn)
    && m'.cal.Device(sn).cumNetAh == m.cal.Device(sn).cumNetAh + delta.ah.Net()
    && m'.cal.Device(sn).cumBalAh == m.cal.Device(sn).cumBalAh + delta.balanceAh
    && m'.cal.devices.Keys == m.cal.devices.Keys + {sn}
    && sn in m'.devices
    && (forall k | k != sn ::
          m'.cal.Device(k) == m.cal.Device(k) && m'.cal.LiveOf(k) == m.cal.LiveOf(k) && Tracked(m', k) == Tracked(m, k))
  }

  /** No ceiling cuts the frame's deltas. */
  predicate Uncut(o: Config, m: Shared, sn: Serial, d: RealtimeData, cur: real, offset: real, now: real) {
    DeltaAt(o, m, sn, d, cur, offset, now) == IntervalDeltas(o, Tracked(m, sn), d, cur, offset, now)
  }

  lemma NotRejectedIsUncut(
      o: Config, m: Shared, cal: Cal, sn: Serial, d: RealtimeData, cur: real, offset: real, now: real)
    requires AccumulateAt(o, m.(cal := cal), sn, d, cur, offset, now).rejected <= m.rejected
    ensures Uncut(o, m, sn, d, cur, offset, now)
  {
    assert Tracked(m.(cal := cal), sn) == Tracked(m, sn);
  }

  lemma DeltaFollows(o: Config, m: Shared, sn: Serial, d: RealtimeData, offset: real, s: Sample)
    requires EqualGaps(o) && Baselined(m, sn) && s.balanceA == d.balanceCurrentA
    requires Uncut(o, m, sn, d, s.currentA, offset, s.nowSecs)
    ensures Follows(o.calibration, m.cal.LiveOf(sn), s, DeltaAt(o, m, sn, d, s.currentA, offset, s.nowSecs))
  {
    IntervalFollows(o, Tracked(m, sn), m.cal.LiveOf(sn), d, offset, s);
  }

  /** A slot that records the frame, beside a calibrator that integrates it. */
  lemma RecordedIntegrates(o: Options, m: Shared, m': Shared, sn: Serial, s: Sample, p: Pending)
    requires o.Valid() && CalStep(o, m.cal, m'.cal, sn, s) && Follows(o, m.cal.LiveOf(sn), s, p) && sn in m'.devices
    requires Tracked(m', sn).lastTs == Some(s.nowSecs) && Tracked(m', sn).lastCurrent == Some(s.currentA)
    requires Tracked(m', sn).lastBalanceA == s.balanceA
    requires forall k | k != sn :: Tracked(m', k) == Tracked(m, k)
    ensures FrameIntegrates(m, m', sn, p)
  {
  }

  /** The deltas settle what the calibrator integrates of the same frame. */
  lemma SettledFollows(o: Config, m: Shared, sn: Serial, d: RealtimeData, now: real)
    requires EqualGaps(o) && Integrates(o, m, sn, d) && Baselined(m, sn)
    requires Accumulate(o, m, sn, d, now).rejected <= m.rejected
    ensures Follows(o.calibration, m.cal.LiveOf(sn), SampleOf(m.rated, sn, d, d.currentA.value, now),
                    SettledDelta(o, m, sn, d, now))
  {
    var cur := d.currentA.value;
    var offset := OffsetFor(o, m, sn, d, cur, now);
    NotRejectedIsUncut(o, m, Calibrated(o, m, sn, d, cur, now), sn, d, cur, offset, now);
    DeltaFollows(o, m, sn, d, offset, SampleOf(m.rated, sn, d, cur, now));
  }

  lemma CalibratedSteps(o: Config, m: Shared, sn: Serial, d: RealtimeData, cur: real, now: real)
    requires Integrating(o) && o.calibrationEnabled
    ensures CalStep(o.calibration, m.cal, Calibrated(o, m, sn, d, cur, now), sn, SampleOf(m.rated, sn, d, cur, now))
  {
  }

  lemma AccumulateAtIntegrates(
      o: Config, m: Shared, cal: Cal, sn: Serial, d: RealtimeData, offset: real, s: Sample, p: Pending)
    requires o.Valid() && CalStep(o.calibration, m.cal, cal, sn, s) && Follows(o.calibration, m.cal.LiveOf(sn), s, p)
    requires s.balanceA == d.balanceCurrentA
    ensures FrameIntegrates(m, AccumulateAt(o, m.(cal := cal), sn, d, s.currentA, offset, s.nowSecs), sn, p)
  {
    AccumulateRecords(o, m, cal, sn, d, s.currentA, offset, s.nowSecs);
    RecordedIntegrates(o.calibration, m, AccumulateAt(o, m.(cal := cal), sn, d, s.currentA, offset, s.nowSecs), sn, s, p);
  }

  lemma AccumulateIntegrates(o: Config, m: Shared, sn: Serial, d: RealtimeData, now: real)
    requires SameGaps(o) && Integrates(o, m, sn, d) && Baselined(m, sn)
    requires Accumulate(o, m, sn, d, now).rejected <= m.rejected
    ensures FrameIntegrates(m, Accumulate(o, m, sn, d, now), sn, SettledDelta(o, m, sn, d, now))
  {
    var cur := d.currentA.value;
    SettledFollows(o, m, sn, d, now);
    CalibratedSteps(o, m, sn, d, cur, now);
    AccumulateAtIntegrates(o, m, Calibrated(o, m, sn, d, cur, now), sn, d, OffsetFor(o, m, sn, d, cur, now),
                           SampleOf(m.rated, sn, d, cur, now), SettledDelta(o, m, sn, d, now));
  }

  /** The same when the serial had to be tracked first. */
  lemma RealtimeIntegrates(o: Config, m: Shared, sn: Serial, d: RealtimeData, now: real)
    requires SameGaps(o) && Integrates(o, Track(o, m, sn), sn, d) && Baselined(m, sn)
    requires Realtime(o, m, sn, d, now).rejected <= m.rejected
    ensures FrameIntegrates(m, Realtime(o, m, sn, d, now), sn, DeltaOf(o, m, sn, d, now))
  {
    TrackLeaves(o, m, sn);
    AccumulateIntegrates(o, Track(o, m, sn), sn, d, now);
  }

  // ---- Slot and calibrator saw the same previous frame ----

  lemma SameHistoryBaselined(m: Shared, m': Shared)
    requires AllBaselined(m) && m'.cal == m.cal && forall k :: SameHistory(Tracked(m, k), Tracked(m', k))
    ensures AllBaselined(m')
  {
    forall k ensures Baselined(m', k) {
      assert Baselined(m, k) && SameHistory(Tracked(m, k), Tracked(m', k));
    }
  }

  lemma AccumulateBaselines(o: Config, m: Shared, sn: Serial, d: RealtimeData, now: real)
    requires SameGaps(o) && AllBaselined(m) && Integrates(o, m, sn, d)
    ensures AllBaselined(Accumulate(o, m, sn, d, now))
  {
    var cur, m' := d.currentA.value, Accumulate(o, m, sn, d, now);
    var cal := Calibrated(o, m, sn, d, cur, now);
    AccumulateRecords(o, m, cal, sn, d, cur, OffsetFor(o, m, sn, d, cur, now), now);
    assert CalStep(o.calibration, m.cal, cal, sn, SampleOf(m.rated, sn, d, cur, now));
    forall k ensures Baselined(m', k) {
      assert Baselined(m, k);
    }
  }

  lemma RealtimeBaselines(o: Config, m: Shared, sn: Serial, d: RealtimeData, now: real)
    requires SameGaps(o) && AllBaselined(m)
    ensures AllBaselined(Realtime(o, m, sn, d, now))
  {
    var t := Track(o, m, sn);
    TrackLeaves(o, m, sn);
    SameHistoryBaselined(m, t);
    if Integrates(o, t, sn, d) {
      AccumulateBaselines(o, t, sn, d, now);
    }
  }

  lemma StepBaselines(env: Env, s: Machine, e: Event)
    requires SameGaps(env.o) && AllBaselined(s.m) && Enabled(env, s, e)
    ensures AllBaselined(Step(env, s, e).m)
  {
    if e.Frame? {
      RealtimeBaselines(env.o, s.m, e.sn, e.d, e.now);
    } else if e.Restart? {
      FreshSlots(env.o, s.visible, s.clock);
    } else {
      StepKeepsMemory(env, s, e);
      SameHistoryBaselined(s.m, Step(env, s, e).m);
    }
  }

  lemma {:induction false} RunBaselines(env: Env, file: Option<File>, es: seq<Event>)
    requires SameGaps(env.o)
    ensures AllBaselined(Exec(env, Boot(env, file), es).m)
  {
    if es == [] {
      FreshSlots(env.o, file, 0.0);
    } else {
      RunBaselines(env, file, es[..|es| - 1]);
      var before, e := Exec(env, Boot(env, file), es[..|es| - 1]), es[|es| - 1];
      if Enabled(env, before, e) {
        StepBaselines(env, before, e);
      }
    }
  }

  // ---- Frames in the machine ----

  /** What a process holds rises by the delta. */
  ghost predicate HoldsMore(s: Machine, s': Machine, sn: Serial, delta: Pending) {
    forall c, k :: Held(s', c, k) == Held(s, c, k) + if k == sn then Part(delta, c) else 0.0
  }

  lemma HeldGrows(s: Machine, s': Machine, sn: Serial, delta: Pending)
    requires s'.base == s.base && s'.integrated == Applied(s.integrated, map[sn := delta]) && NonNegative(delta)
    ensures HoldsMore(s, s', sn, delta)
  {
    forall c, k ensures Held(s', c, k) == Held(s, c, k) + if k == sn then Part(delta, c) else 0.0 {
      AddedReads(s.integrated, sn, delta, Series(c, k));
    }
  }

  lemma NothingIntegrated(s: Machine, sn: Serial, t: Series)
    ensures Read(Applied(s.integrated, map[sn := NO_PENDING]), t) == Read(s.integrated, t)
  {
    AppliedReads(s.integrated, map[sn := NO_PENDING], t);
  }

  lemma HoldingAgrees(s: Machine, s': Machine)
    requires MemoryAgrees(s) && s'.m.cal == s.m.cal && s.m.devices.Keys <= s'.m.devices.Keys && s'.base == s.base
    requires forall t :: Read(s'.integrated, t) == Read(s.integrated, t)
    ensures MemoryAgrees(s')
  {
    forall k ensures HeldMatches(s', k) {
      assert HeldMatches(s, k);
    }
  }

  lemma FrameMatches(s: Machine, s': Machine, sn: Serial, delta: Pending, k: Serial)
    requires HeldMatches(s, k) && FrameIntegrates(s.m, s'.m, sn, delta) && HoldsMore(s, s', sn, delta)
    ensures HeldMatches(s', k)
  {
  }

  /** A frame that is integrated. */
  lemma IntegratedAgrees(s: Machine, s': Machine, sn: Serial, delta: Pending)
    requires MemoryAgrees(s) && FrameIntegrates(s.m, s'.m, sn, delta) && HoldsMore(s, s', sn, delta)
    requires s.m.devices.Keys <= s'.m.devices.Keys
    ensures MemoryAgrees(s')
  {
    forall k ensures HeldMatches(s', k) {
      FrameMatches(s, s', sn, delta, k);
    }
  }

  /** And one that is not. */
  lemma IgnoredAgrees(s: Machine, s': Machine, sn: Serial)
    requires MemoryAgrees(s) && s'.m.cal == s.m.cal && s.m.devices.Keys <= s'.m.devices.Keys
    requires s'.base == s.base && s'.integrated == Applied(s.integrated, map[sn := NO_PENDING])
    ensures MemoryAgrees(s')
  {
    forall t ensures Read(s'.integrated, t) == Read(s.integrated, t) {
      NothingIntegrated(s, sn, t);
    }
    HoldingAgrees(s, s');
  }

  lemma FrameMemoryAgrees(env: Env, s: Machine, sn: Serial, d: RealtimeData, now: real)
    requires SameGaps(env.o) && MemoryAgrees(s) && AllBaselined(s.m)
    requires Realtime(env.o, s.m, sn, d, now).rejected <= s.m.rejected
    ensures MemoryAgrees(OnFrame(env, s, sn, d, now))
  {
    var m', delta := Realtime(env.o, s.m, sn, d, now), DeltaOf(env.o, s.m, sn, d, now);
    FramedFields(s, m', sn, delta);
    assert s.m.devices.Keys <= m'.devices.Keys by {
      FrameEffect(env.o, s.m, sn, d, now);
    }
    if Integrates(env.o, Track(env.o, s.m, sn), sn, d) {
      assert Baselined(s.m, sn);
      RealtimeIntegrates(env.o, s.m, sn, d, now);
      DeltaNonNegative(env.o, s.m, sn, d, now);
      HeldGrows(s, Framed(s, m', sn, delta), sn, delta);
      IntegratedAgrees(s, Framed(s, m', sn, delta), sn, delta);
    } else {
      IgnoredAgrees(s, Framed(s, m', sn, delta), sn);
    }
  }

  // ---- The flush and the disk ----

  lemma PayloadFollowsMemory(env: Env, s: Machine)
    requires Comparable(env.o) && Shape(env, s) && Unlocked(s) && s.phase.Idle? && Accounted(s) && MemoryAgrees(s)
    ensures FileAgrees(Some(Payload(env.o, s.m)))
  {
    var f := Some(Payload(env.o, s.m));
    forall sn ensures RowMatches(f, sn) {
      PayloadHolds(env, s, ChargeAh, sn);
      PayloadHolds(env, s, DischargeAh, sn);
      PayloadHolds(env, s, BalanceAh, sn);
      assert HeldMatches(s, sn);
    }
  }

  /** Without a nudge, the file gets exactly what the process holds. */
  lemma PayloadHolds(env: Env, s: Machine, c: Counter, sn: Serial)
    requires Comparable(env.o) && Shape(env, s) && Unlocked(s) && s.phase.Idle? && Accounted(s)
    ensures FileTotal(Some(Payload(env.o, s.m)), Series(c, sn)) == Held(s, c, sn)
  {
    var t := Series(c, sn);
    PayloadTotal(env.o, s.m, t);
    ReadNonNegative(env.o, s.m, t);
    assert Read(s.m.counters, t) + Queued(s.m, t) + InFlight(s.phase, t) == Held(s, c, sn);
  }

  /** A restart brings back every device the file knows. */
  lemma RestoredDevice(o: Config, f: Option<File>, now: real, sn: Serial)
    requires o.Valid() && FileOk(o, f) && FileAgrees(f)
    ensures Restored(o, f, now).cal.Device(sn) == Learned(f, sn)
    ensures Restored(o, f, now).cal.devices.Keys <= Restored(o, f, now).devices.Keys
  {
    RestoredOk(o, f, now);
    if f.Some? {
      assert RestoredSerials(o, f.value.rows) == f.value.rows.Keys;
    }
  }

  lemma RestartAgrees(env: Env, s: Machine)
    requires env.o.Valid() && Shape(env, s) && Agreeing(s)
    ensures Agreeing(OnRestart(env, s))
  {
    var s' := OnRestart(env, s);
    RestoredOk(env.o, s.visible, s.clock);
    assert FileAgrees(s.visible);
    forall sn ensures HeldMatches(s', sn) && s'.m.cal.devices.Keys <= s'.m.devices.Keys {
      assert RowMatches(s.visible, sn);
      RestoredDevice(env.o, s.visible, s.clock, sn);
    }
  }

  lemma BeginAgrees(env: Env, s: Machine, force: bool, serializes: bool)
    requires Comparable(env.o) && Shape(env, s) && s.up && Accounted(s) && Agreeing(s) && Unlocked(s)
    ensures Agreeing(OnBegin(env, s, force, serializes))
  {
    BeginKeepsMemory(env, s, force, serializes);
    HoldingAgrees(s, OnBegin(env, s, force, serializes));
    if Writes(env.o, s.m, force, s.clock) && serializes {
      PayloadFollowsMemory(env, s);
    }
  }

  lemma OtherAgrees(env: Env, s: Machine, e: Event)
    requires Shape(env, s) && Agreeing(s) && Enabled(env, s, e) && !e.Frame? && !e.Restart? && !e.Begin?
    ensures Agreeing(Step(env, s, e))
  {
    StepKeepsMemory(env, s, e);
    if s.up {
      HoldingAgrees(s, Step(env, s, e));
    }
  }

  // ---- Runs ----

  lemma StepAgrees(env: Env, s: Machine, e: Event)
    requires Comparable(env.o) && Shape(env, s) && (s.up ==> Accounted(s)) && Agreeing(s) && Enabled(env, s, e)
    requires AllBaselined(s.m) && Step(env, s, e).clamps == s.clamps
    ensures Agreeing(Step(env, s, e))
  {
    if e.Frame? {
      FramedFields(s, Realtime(env.o, s.m, e.sn, e.d, e.now), e.sn, DeltaOf(env.o, s.m, e.sn, e.d, e.now));
      FrameMemoryAgrees(env, s, e.sn, e.d, e.now);
    } else if e.Begin? {
      BeginAgrees(env, s, e.force, e.serializes);
    } else if e.Restart? {
      RestartAgrees(env, s);
    } else {
      OtherAgrees(env, s, e);
    }
  }

  lemma {:induction false} RunAgrees(env: Env, es: seq<Event>)
    requires Comparable(env.o) && Exec(env, Boot(env, None), es).clamps == 0
    ensures Agreeing(Exec(env, Boot(env, None), es))
  {
    if es == [] {
      assert Boot(env, None).m.cal == NEW_CAL;
    } else {
      var init, e := es[..|es| - 1], es[|es| - 1];
      var before := Exec(env, Boot(env, None), init);
      if Enabled(env, before, e) {
        ClampsOnlyGrow(env, before, e);
        RunAgrees(env, init);
        RunKeepsShape(env, None, init, 0.0);
        RunConserves(env, None, init, 0.0);
        RunBaselines(env, None, init);
        StepAgrees(env, before, e);
      } else {
        RunAgrees(env, init);
      }
    }
  }

  /**
   * Counters and calibrator never drift apart on disk. From an empty disk, with calibration on, equal
   * gap caps, no nudge and no ceiling ever cutting a frame: in every file the disk may hold, and in the
   * one being written, each device's net charge counted is the net charge the calibrator integrated,
   * and likewise the bleed. Failed writes, deaths, power losses and restarts included.
   */
  lemma CountersAndCalibratorAgree(env: Env, es: seq<Event>, f: File, sn: Serial)
    requires Calibrates(env.o) && EqualGaps(env.o) && (forall v :: env.o.bump(v) == v)
    requires Exec(env, Boot(env, None), es).clamps == 0
    requires var s := Exec(env, Boot(env, None), es);
             Some(f) in s.disk || (s.up && (s.phase.Writing? || s.phase.Renamed?) && f == s.phase.payload)
    ensures f.calibration.devices.Keys <= f.rows.Keys
    ensures sn in f.rows && sn in f.calibration.devices ==>
              && f.rows[sn].chargeAh - f.rows[sn].dischargeAh == f.calibration.devices[sn].cumNetAh
              && f.rows[sn].balanceAh == f.calibration.devices[sn].cumBalAh
    ensures sn in f.rows && sn !in f.calibration.devices ==>
              f.rows[sn].chargeAh == f.rows[sn].dischargeAh && f.rows[sn].balanceAh == 0.0
  {
    CalibratorIntegrates(env.o);
    RunAgrees(env, es);
    assert FileAgrees(Some(f));
    assert RowMatches(Some(f), sn);
  }
}
