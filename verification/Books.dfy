/** The calibrated counters against the raw ones: what the offset takes out, and when that is exactly right. */
module Books {
  import opened Serials
  import opened LineFit
  import opened Calibration
  import opened CalibratorRuns
  import opened Accounting
  import opened CounterFacts
  import opened Protocol
  import opened MachineShape
  import opened Conservation
  import opened Agreement

  // ---- One interval ----

  /** The offset in force for a device. */
  function InForce(o: Config, m: Shared, sn: Serial): real {
    if o.calibrationEnabled then m.cal.Device(sn).applied else 0.0
  }

  function LastOffset(e: LastSeries): real {
    if e.lastOffset.Some? then e.lastOffset.value else 0.0
  }

  /** An interval ends with the frame: the device has been seen before. */
  predicate EndsInterval(e: LastSeries) {
    e.lastTs.Some? && e.lastCurrent.Some?
  }

  /** Capped length of the interval that ends with a frame. */
  function IntervalHours(o: Config, e: LastSeries, now: real): real
    requires o.Valid() && EndsInterval(e)
  {
    Clamp(now - e.lastTs.value, 0.0, o.maxGapSecs) / 3600.0
  }

  /** Calibrated charge of an interval. */
  function CountedCal(o: Config, e: LastSeries, cur: real, offset: real, now: real): Split {
    if EndsInterval(e) then
      TrapezoidHours(e.lastCurrent.value - LastOffset(e), cur - offset, now - e.lastTs.value, o.maxGapSecs)
    else NOTHING
  }

  lemma CalParts(o: Config, e: LastSeries, d: RealtimeData, cur: real, offset: real, now: real)
    ensures IntervalDeltas(o, e, d, cur, offset, now).calAh == CountedCal(o, e, cur, offset, now)
  {
  }

  lemma MeanOfDifference(a: real, b: real, p: real, q: real, h: real)
    ensures MeanOver(a - p, b - q, h) == MeanOver(a, b, h) - MeanOver(p, q, h)
  {
  }

  lemma CorrectedSides(o: Config, e: LastSeries, cur: real, offset: real, now: real, mean: real)
    requires o.Valid() && EndsInterval(e)
    requires mean == MeanOver(e.lastCurrent.value - LastOffset(e), cur - offset, IntervalHours(o, e, now))
    ensures CountedCal(o, e, cur, offset, now) == Split(Max(mean, 0.0), Max(-mean, 0.0))
  {
    TrapezoidSides(e.lastCurrent.value - LastOffset(e), cur - offset, now - e.lastTs.value, o.maxGapSecs);
  }

  /** The calibrated charge is the raw charge less the mean offset over the interval. */
  lemma CorrectedCharges(o: Config, e: LastSeries, cur: real, offset: real, now: real, ah: Split, calAh: Split, taken: real)
    requires o.Valid() && EndsInterval(e)
    requires ah == CountedAh(o, e, cur, now) && calAh == CountedCal(o, e, cur, offset, now)
    requires taken == MeanOver(LastOffset(e), offset, IntervalHours(o, e, now))
    ensures calAh.Net() == ah.Net() - taken
  {
    var h := IntervalHours(o, e, now);
    var raw := MeanOver(e.lastCurrent.value, cur, h);
    MeanOfDifference(e.lastCurrent.value, cur, LastOffset(e), offset, h);
    CorrectedSides(o, e, cur, offset, now, raw - taken);
    CountedNet(o, e, cur, now, raw);
    NetsOfSides(ah, calAh, raw, taken);
  }

  // ---- The offset a slot remembers is the one the calibrator has in force ----

  predicate Remembers(o: Config, m: Shared, sn: Serial) {
    var e := Tracked(m, sn);
    && (EndsInterval(e) ==> e.lastOffset.Some?)
    && (e.lastOffset.Some? ==> e.lastOffset.value == InForce(o, m, sn))
  }

  ghost predicate AllRemember(o: Config, m: Shared) {
    forall sn :: Remembers(o, m, sn)
  }

  lemma RecordedRemembers(o: Config, m: Shared, m': Shared, sn: Serial)
    requires AllRemember(o, m) && Tracked(m', sn).lastOffset == Some(InForce(o, m', sn))
    requires forall k | k != sn :: Tracked(m', k) == Tracked(m, k) && InForce(o, m', k) == InForce(o, m, k)
    ensures AllRemember(o, m')
  {
    forall k ensures Remembers(o, m', k) {
      assert Remembers(o, m, k);
    }
  }

  lemma OffsetsKept(o: Config, m: Shared, sn: Serial, d: RealtimeData, cur: real, now: real, k: Serial)
    requires Integrating(o) && k != sn
    ensures Calibrated(o, m, sn, d, cur, now).Device(k) == m.cal.Device(k)
  {
    if o.calibrationEnabled {
      CalibratedSteps(o, m, sn, d, cur, now);
    }
  }

  lemma FrameRemembers(o: Config, m: Shared, sn: Serial, d: RealtimeData, now: real)
    requires Integrating(o) && AllRemember(o, m) && Integrates(o, m, sn, d)
    ensures AllRemember(o, Accumulate(o, m, sn, d, now))
  {
    var cur, m' := d.currentA.value, Accumulate(o, m, sn, d, now);
    AccumulateRecords(o, m, Calibrated(o, m, sn, d, cur, now), sn, d, cur, OffsetFor(o, m, sn, d, cur, now), now);
    forall k | k != sn ensures Tracked(m', k) == Tracked(m, k) && InForce(o, m', k) == InForce(o, m, k) {
      OffsetsKept(o, m, sn, d, cur, now, k);
    }
    RecordedRemembers(o, m, m', sn);
  }

  lemma SameHistoryRemembers(o: Config, m: Shared, m': Shared)
    requires AllRemember(o, m) && m'.cal == m.cal
    requires forall k :: SameHistory(Tracked(m, k), Tracked(m', k))
    ensures AllRemember(o, m')
  {
    forall k ensures Remembers(o, m', k) {
      assert Remembers(o, m, k) && SameHistory(Tracked(m, k), Tracked(m', k));
    }
  }

  lemma RealtimeRemembers(o: Config, m: Shared, sn: Serial, d: RealtimeData, now: real)
    requires Integrating(o) && AllRemember(o, m)
    ensures AllRemember(o, Realtime(o, m, sn, d, now))
  {
    var t := Track(o, m, sn);
    TrackLeaves(o, m, sn);
    SameHistoryRemembers(o, m, t);
    if Integrates(o, t, sn, d) {
      FrameRemembers(o, t, sn, d, now);
    }
  }

  lemma StepRemembers(env: Env, s: Machine, e: Event)
    requires Integrating(env.o) && AllRemember(env.o, s.m) && Enabled(env, s, e)
    ensures AllRemember(env.o, Step(env, s, e).m)
  {
    if e.Frame? {
      RealtimeRemembers(env.o, s.m, e.sn, e.d, e.now);
    } else if e.Restart? {
      FreshSlots(env.o, s.visible, s.clock);
    } else {
      StepKeepsMemory(env, s, e);
      SameHistoryRemembers(env.o, s.m, Step(env, s, e).m);
    }
  }

  lemma {:induction false} RunRemembers(env: Env, file: Option<File>, es: seq<Event>)
    requires Integrating(env.o)
    ensures AllRemember(env.o, Exec(env, Boot(env, file), es).m)
  {
    if es == [] {
      FreshSlots(env.o, file, 0.0);
    } else {
      RunRemembers(env, file, es[..|es| - 1]);
      var before := Exec(env, Boot(env, file), es[..|es| - 1]);
      if Enabled(env, before, es[|es| - 1]) {
        StepRemembers(env, before, es[|es| - 1]);
      }
    }
  }

  // ---- Raw and calibrated books ----

  /** Net amount of two counters of one device. */
  function NetOf(amounts: map<Series, real>, charge: Counter, discharge: Counter, sn: Serial): real {
    Read(amounts, Series(charge, sn)) - Read(amounts, Series(discharge, sn))
  }

  /** What the offset in force and the one before it take out of the interval a frame ends. */
  function Taken(o: Config, m: Shared, sn: Serial, offset: real, now: real): real
    requires o.Valid()
  {
    var e := Tracked(m, sn);
    if EndsInterval(e) then MeanOver(InForce(o, m, sn), offset, IntervalHours(o, e, now)) else 0.0
  }

  /** What a frame's offsets take out, when it is integrated at all. */
  function CorrectionOf(env: Env, s: Machine, sn: Serial, d: RealtimeData, now: real): real
    requires env.o.Valid()
  {
    if Integrates(env.o, Track(env.o, s.m, sn), sn, d) then
      Taken(env.o, s.m, sn, InForce(env.o, OnFrame(env, s, sn, d, now).m, sn), now)
    else 0.0
  }

  /** The calibrated net is the raw net less `taken`. */
  predicate NetLess(p: Pending, taken: real) {
    p.calAh.Net() == p.ah.Net() - taken
  }

  /** All the offsets took out of a device's charge since the process started. */
  function Correction(env: Env, file: Option<File>, es: seq<Event>, sn: Serial): real
    requires env.o.Valid()
  {
    if es == [] then 0.0
    else
      var before, e := Exec(env, Boot(env, file), es[..|es| - 1]), es[|es| - 1];
      var sofar := Correction(env, file, es[..|es| - 1], sn);
      if !Enabled(env, before, e) then sofar
      else if e.Restart? then 0.0
      else if e.Frame? && e.sn == sn then sofar + CorrectionOf(env, before, sn, e.d, e.now)
      else sofar
  }

  lemma NetsOfSides(ah: Split, calAh: Split, raw: real, taken: real)
    requires ah == Split(Max(raw, 0.0), Max(-raw, 0.0))
    requires calAh == Split(Max(raw - taken, 0.0), Max(-(raw - taken), 0.0))
    ensures calAh.Net() == ah.Net() - taken
  {
  }

  lemma TakenOverInterval(o: Config, m: Shared, sn: Serial, offset: real, now: real)
    requires o.Valid() && Remembers(o, m, sn) && EndsInterval(Tracked(m, sn))
    ensures Taken(o, m, sn, offset, now)
         == MeanOver(LastOffset(Tracked(m, sn)), offset, IntervalHours(o, Tracked(m, sn), now))
  {
  }

  lemma InForceAfter(o: Config, m: Shared, sn: Serial, d: RealtimeData, now: real)
    requires Integrates(o, m, sn, d)
    ensures InForce(o, Accumulate(o, m, sn, d, now), sn) == OffsetFor(o, m, sn, d, d.currentA.value, now)
  {
    var cur := d.currentA.value;
    AccumulateRecords(o, m, Calibrated(o, m, sn, d, cur, now), sn, d, cur, OffsetFor(o, m, sn, d, cur, now), now);
  }

  lemma FrameBooks(env: Env, s: Machine, sn: Serial, d: RealtimeData, now: real)
    requires env.o.Valid() && AllRemember(env.o, s.m)
    requires Realtime(env.o, s.m, sn, d, now).rejected <= s.m.rejected
    ensures NetLess(DeltaOf(env.o, s.m, sn, d, now), CorrectionOf(env, s, sn, d, now))
  {
    var o, t := env.o, Track(env.o, s.m, sn);
    TrackLeaves(o, s.m, sn);
    if Integrates(o, t, sn, d) {
      var e, cur := Tracked(t, sn), d.currentA.value;
      var offset := OffsetFor(o, t, sn, d, cur, now);
      var p, taken := DeltaAt(o, t, sn, d, cur, offset, now), Taken(o, t, sn, offset, now);
      assert Remembers(o, t, sn) by {
        assert Remembers(o, s.m, sn);
      }
      InForceAfter(o, t, sn, d, now);
      assert NetLess(p, taken) by {
        NotRejectedIsUncut(o, t, Calibrated(o, t, sn, d, cur, now), sn, d, cur, offset, now);
        IntervalParts(o, e, d, cur, offset, now);
        CalParts(o, e, d, cur, offset, now);
        if EndsInterval(e) {
          TakenOverInterval(o, t, sn, offset, now);
          CorrectedCharges(o, e, cur, offset, now, p.ah, p.calAh, taken);
        }
      }
    }
  }

  lemma NetGrows(amounts: map<Series, real>, k: Serial, p: Pending, charge: Counter, discharge: Counter, sn: Serial)
    requires NonNegative(p)
    ensures NetOf(Applied(amounts, map[k := p]), charge, discharge, sn)
         == NetOf(amounts, charge, discharge, sn) + if k == sn then Part(p, charge) - Part(p, discharge) else 0.0
  {
    AddedReads(amounts, k, p, Series(charge, sn));
    AddedReads(amounts, k, p, Series(discharge, sn));
  }

  ghost predicate BooksBalance(amounts: map<Series, real>, sn: Serial, taken: real) {
    NetOf(amounts, CalChargeAh, CalDischargeAh, sn) == NetOf(amounts, ChargeAh, DischargeAh, sn) - taken
  }

  lemma FramedKeepsBooks(s: Machine, m': Shared, k: Serial, p: Pending, sn: Serial, taken: real, more: real)
    requires BooksBalance(s.integrated, sn, taken) && NonNegative(p) && NetLess(p, more)
    ensures BooksBalance(Framed(s, m', k, p).integrated, sn, taken + if k == sn then more else 0.0)
  {
    FramedFields(s, m', k, p);
    NetGrows(s.integrated, k, p, CalChargeAh, CalDischargeAh, sn);
    NetGrows(s.integrated, k, p, ChargeAh, DischargeAh, sn);
  }

  lemma FrameKeepsBooks(env: Env, s: Machine, k: Serial, d: RealtimeData, now: real, sn: Serial, taken: real)
    requires env.o.Valid() && AllRemember(env.o, s.m) && BooksBalance(s.integrated, sn, taken)
    requires Realtime(env.o, s.m, k, d, now).rejected <= s.m.rejected
    ensures BooksBalance(OnFrame(env, s, k, d, now).integrated, sn,
                         taken + if k == sn then CorrectionOf(env, s, sn, d, now) else 0.0)
  {
    DeltaNonNegative(env.o, s.m, k, d, now);
    FrameBooks(env, s, k, d, now);
    FramedKeepsBooks(s, Realtime(env.o, s.m, k, d, now), k, DeltaOf(env.o, s.m, k, d, now), sn, taken,
                     CorrectionOf(env, s, k, d, now));
  }

  /**
   * The calibrated books. While no ceiling cuts a frame: of all a process integrated, the calibrated
   * net charge is the raw net charge less, per interval, the mean of the offsets in force at its two
   * ends over its capped length. Flushes, failed writes and restarts included.
   */
  lemma {:induction false} CalibratedBooks(env: Env, file: Option<File>, es: seq<Event>, sn: Serial)
    requires Integrating(env.o) && Exec(env, Boot(env, file), es).clamps == 0
    ensures BooksBalance(Exec(env, Boot(env, file), es).integrated, sn, Correction(env, file, es, sn))
  {
    if es != [] {
      var init, e := es[..|es| - 1], es[|es| - 1];
      var before := Exec(env, Boot(env, file), init);
      if Enabled(env, before, e) {
        ClampsOnlyGrow(env, before, e);
        CalibratedBooks(env, file, init, sn);
        if e.Frame? {
          RunRemembers(env, file, init);
          FrameKeepsBooks(env, before, e.sn, e.d, e.now, sn, Correction(env, file, init, sn));
        } else if !e.Restart? {
          StepKeepsMemory(env, before, e);
        }
      } else {
        CalibratedBooks(env, file, init, sn);
      }
    }
  }

  // ---- While the offset is zero ----

  /** Calibrated and raw counters of a device read the same, charge and energy alike. */
  predicate SameBooks(amounts: map<Series, real>, sn: Serial) {
    && Read(amounts, Series(CalChargeAh, sn)) == Read(amounts, Series(ChargeAh, sn))
    && Read(amounts, Series(CalDischargeAh, sn)) == Read(amounts, Series(DischargeAh, sn))
    && Read(amounts, Series(CalChargeWh, sn)) == Read(amounts, Series(ChargeWh, sn))
    && Read(amounts, Series(CalDischargeWh, sn)) == Read(amounts, Series(DischargeWh, sn))
  }

  /** Nothing in force at either end: the calibrated deltas are the raw ones, ceilings included. */
  lemma UncorrectedDelta(o: Config, m: Shared, sn: Serial, d: RealtimeData, cur: real, now: real)
    requires Remembers(o, m, sn) && InForce(o, m, sn) == 0.0
    ensures var p := DeltaAt(o, m, sn, d, cur, 0.0, now);
            p.calAh == p.ah && p.calWh == p.wh
  {
    var e := Tracked(m, sn);
    if EndsInterval(e) {
      assert e.lastCurrent.value - LastOffset(e) == e.lastCurrent.value && cur - 0.0 == cur;
    }
  }

  lemma UncorrectedFrame(o: Config, m: Shared, sn: Serial, d: RealtimeData, now: real)
    requires AllRemember(o, m)
    requires InForce(o, m, sn) == 0.0 && InForce(o, Realtime(o, m, sn, d, now), sn) == 0.0
    ensures var p := DeltaOf(o, m, sn, d, now);
            p.calAh == p.ah && p.calWh == p.wh
  {
    var t := Track(o, m, sn);
    TrackLeaves(o, m, sn);
    if Integrates(o, t, sn, d) {
      assert Remembers(o, t, sn) by {
        assert Remembers(o, m, sn);
      }
      InForceAfter(o, t, sn, d, now);
      UncorrectedDelta(o, t, sn, d, d.currentA.value, now);
    }
  }

  lemma PairKeepsSame(amounts: map<Series, real>, k: Serial, p: Pending, c: Counter, c': Counter, sn: Serial)
    requires NonNegative(p) && Read(amounts, Series(c, sn)) == Read(amounts, Series(c', sn))
    requires k == sn ==> Part(p, c) == Part(p, c')
    ensures Read(Applied(amounts, map[k := p]), Series(c, sn)) == Read(Applied(amounts, map[k := p]), Series(c', sn))
  {
    AddedReads(amounts, k, p, Series(c, sn));
    AddedReads(amounts, k, p, Series(c', sn));
  }

  lemma AppliedKeepsSame(amounts: map<Series, real>, k: Serial, p: Pending, sn: Serial)
    requires SameBooks(amounts, sn) && NonNegative(p) && (k == sn ==> p.calAh == p.ah && p.calWh == p.wh)
    ensures SameBooks(Applied(amounts, map[k := p]), sn)
  {
    PairKeepsSame(amounts, k, p, CalChargeAh, ChargeAh, sn);
    PairKeepsSame(amounts, k, p, CalDischargeAh, DischargeAh, sn);
    PairKeepsSame(amounts, k, p, CalChargeWh, ChargeWh, sn);
    PairKeepsSame(amounts, k, p, CalDischargeWh, DischargeWh, sn);
  }

  lemma FramedKeepsSame(s: Machine, m': Shared, k: Serial, p: Pending, sn: Serial)
    requires SameBooks(s.integrated, sn) && NonNegative(p) && (k == sn ==> p.calAh == p.ah && p.calWh == p.wh)
    ensures SameBooks(Framed(s, m', k, p).integrated, sn)
  {
    FramedFields(s, m', k, p);
    AppliedKeepsSame(s.integrated, k, p, sn);
  }

  lemma StepKeepsSame(env: Env, s: Machine, e: Event, sn: Serial)
    requires env.o.Valid() && AllRemember(env.o, s.m) && SameBooks(s.integrated, sn) && Enabled(env, s, e)
    requires InForce(env.o, s.m, sn) == 0.0 && InForce(env.o, Step(env, s, e).m, sn) == 0.0
    ensures SameBooks(Step(env, s, e).integrated, sn)
  {
    if e.Frame? {
      DeltaNonNegative(env.o, s.m, e.sn, e.d, e.now);
      if e.sn == sn {
        UncorrectedFrame(env.o, s.m, sn, e.d, e.now);
      }
      FramedKeepsSame(s, Realtime(env.o, s.m, e.sn, e.d, e.now), e.sn, DeltaOf(env.o, s.m, e.sn, e.d, e.now), sn);
    } else if !e.Restart? {
      StepKeepsMemory(env, s, e);
    }
  }

  lemma ZeroSoFar(env: Env, file: Option<File>, es: seq<Event>, sn: Serial)
    requires es != []
    requires forall k | 0 <= k <= |es| :: InForce(env.o, Exec(env, Boot(env, file), es[..k]).m, sn) == 0.0
    ensures var init := es[..|es| - 1];
            && (forall k | 0 <= k <= |init| :: InForce(env.o, Exec(env, Boot(env, file), init[..k]).m, sn) == 0.0)
            && InForce(env.o, Exec(env, Boot(env, file), init).m, sn) == 0.0
            && InForce(env.o, Exec(env, Boot(env, file), es).m, sn) == 0.0
  {
    var init := es[..|es| - 1];
    forall k | 0 <= k <= |init| ensures InForce(env.o, Exec(env, Boot(env, file), init[..k]).m, sn) == 0.0 {
      assert init[..k] == es[..k];
    }
    assert es[..|es|] == es;
  }

  /** As long as no offset has been in force for a device, its calibrated and raw books are the same. */
  lemma {:induction false} UncalibratedBooks(env: Env, file: Option<File>, es: seq<Event>, sn: Serial)
    requires Integrating(env.o)
    requires forall k | 0 <= k <= |es| :: InForce(env.o, Exec(env, Boot(env, file), es[..k]).m, sn) == 0.0
    ensures SameBooks(Exec(env, Boot(env, file), es).integrated, sn)
  {
    if es != [] {
      var init, e := es[..|es| - 1], es[|es| - 1];
      ZeroSoFar(env, file, es, sn);
      UncalibratedBooks(env, file, init, sn);
      var before := Exec(env, Boot(env, file), init);
      if Enabled(env, before, e) {
        RunRemembers(env, file, init);
        StepKeepsSame(env, before, e, sn);
      }
    }
  }
}
