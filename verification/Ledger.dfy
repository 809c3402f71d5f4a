/** What the nine counters of a device stand for: sums over its readings, interval by interval. */
module Ledger {
  import opened Serials
  import opened LineFit
  import opened Calibration
  import opened Accounting
  import opened Protocol
  import opened MachineShape
  import opened Conservation
  import opened Agreement
  import opened Books

  // ---- The readings ----

  /** An integrated frame: when, the readings it carries, and the offset in force once it is in. */
  datatype Reading = Reading(at: real, amps: real, volts: Option<real>, bleed: Option<real>, offset: real)

  /** The device's integrated frames since the process started, in order. */
  function Log(env: Env, file: Option<File>, es: seq<Event>, sn: Serial): seq<Reading> {
    if es == [] then []
    else
      var s, e := Exec(env, Boot(env, file), es[..|es| - 1]), es[|es| - 1];
      var before := Log(env, file, es[..|es| - 1], sn);
      if !Enabled(env, s, e) then before
      else if e.Restart? then []
      else if e.Frame? && e.sn == sn then before + LoggedOf(env, s, e.sn, e.d, e.now)
      else before
  }

  /** What the log gains by a frame: nothing without a current, or for a serial there is no room for. */
  function LoggedOf(env: Env, s: Machine, sn: Serial, d: RealtimeData, now: real): seq<Reading> {
    if Integrates(env.o, Track(env.o, s.m, sn), sn, d) then
      [Reading(now, d.currentA.value, d.packV, d.balanceCurrentA, InForce(env.o, OnFrame(env, s, sn, d, now).m, sn))]
    else []
  }

  // ---- The amounts of an interval ----

  /** Length of an interval, the longest gap at most. */
  function Hours(o: Config, p: Reading, r: Reading): real
    requires o.Valid()
  {
    Clamp(r.at - p.at, 0.0, o.maxGapSecs) / 3600.0
  }

  /** The trapezoid of current, power or bleed over an interval, before and after correction. */
  function Mean(o: Config, p: Reading, r: Reading, c: Counter): real
    requires o.Valid()
  {
    match c
    case ChargeAh => MeanOver(p.amps, r.amps, Hours(o, p, r))
    case DischargeAh => MeanOver(p.amps, r.amps, Hours(o, p, r))
    case CalChargeAh => MeanOver(p.amps - p.offset, r.amps - r.offset, Hours(o, p, r))
    case CalDischargeAh => MeanOver(p.amps - p.offset, r.amps - r.offset, Hours(o, p, r))
    case ChargeWh => MeanPower(o, p, r, p.amps, r.amps)
    case DischargeWh => MeanPower(o, p, r, p.amps, r.amps)
    case CalChargeWh => MeanPower(o, p, r, p.amps - p.offset, r.amps - r.offset)
    case CalDischargeWh => MeanPower(o, p, r, p.amps - p.offset, r.amps - r.offset)
    case BalanceAh =>
      if p.bleed.Some? && r.bleed.Some? then MeanOver(Max(p.bleed.value, 0.0), Max(r.bleed.value, 0.0), Hours(o, p, r))
      else 0.0
  }

  /** Energy needs a voltage at both ends. */
  function MeanPower(o: Config, p: Reading, r: Reading, before: real, after: real): real
    requires o.Valid()
  {
    if p.volts.Some? && r.volts.Some? then
      MeanOver(Watts(before, p.volts.value), Watts(after, r.volts.value), Hours(o, p, r))
    else 0.0
  }

  predicate Discharges(c: Counter) {
    c.DischargeAh? || c.DischargeWh? || c.CalDischargeAh? || c.CalDischargeWh?
  }

  /** A charge counter takes the positive part, a discharge counter the negative. */
  function Side(o: Config, p: Reading, r: Reading, c: Counter): real
    requires o.Valid()
  {
    Max(if Discharges(c) then -Mean(o, p, r, c) else Mean(o, p, r, c), 0.0)
  }

  function Ceiling(o: Config, c: Counter): real {
    if c.ChargeWh? || c.DischargeWh? || c.CalChargeWh? || c.CalDischargeWh? then o.maxFrameWh else o.maxFrameAh
  }

  /** The sum of a counter's side over all intervals of the log, each under the ceiling if that is asked for. */
  function Sum(o: Config, log: seq<Reading>, c: Counter, capped: bool): real
    requires o.Valid()
  {
    if |log| < 2 then 0.0
    else
      var k := |log| - 1;
      var side := Side(o, log[k - 1], log[k], c);
      Sum(o, log[..k], c, capped) + if capped then Min(side, Ceiling(o, c)) else side
  }

  // ---- One interval ----

  /** The slot remembers the reading as its previous frame. */
  predicate Previous(e: LastSeries, p: Reading) {
    && e.lastTs == Some(p.at) && e.lastCurrent == Some(p.amps) && e.lastPackV == p.volts
    && e.lastBalanceA == p.bleed && e.lastOffset == Some(p.offset)
  }

  lemma SidesOf(prev: real, cur: real, dt: real, gap: real, h: real, v: real)
    requires gap >= 0.0 && h == Clamp(dt, 0.0, gap) / 3600.0 && v == MeanOver(prev, cur, h)
    ensures TrapezoidHours(prev, cur, dt, gap) == Split(Max(v, 0.0), Max(-v, 0.0))
  {
    TrapezoidSides(prev, cur, dt, gap);
  }

  /** The deltas' two charges and the bleed. */
  lemma ChargeSides(o: Config, e: LastSeries, d: RealtimeData, p: Reading, r: Reading)
    requires o.Valid() && Previous(e, p) && r.volts == d.packV && r.bleed == d.balanceCurrentA
    ensures var q := IntervalDeltas(o, e, d, r.amps, r.offset, r.at);
            && q.ah == Split(Side(o, p, r, ChargeAh), Side(o, p, r, DischargeAh))
            && q.calAh == Split(Side(o, p, r, CalChargeAh), Side(o, p, r, CalDischargeAh))
  {
    SidesOf(p.amps, r.amps, r.at - p.at, o.maxGapSecs, Hours(o, p, r), Mean(o, p, r, ChargeAh));
    SidesOf(p.amps - p.offset, r.amps - r.offset, r.at - p.at, o.maxGapSecs, Hours(o, p, r), Mean(o, p, r, CalChargeAh));
  }

  lemma EnergySides(o: Config, e: LastSeries, d: RealtimeData, p: Reading, r: Reading)
    requires o.Valid() && Previous(e, p) && r.volts == d.packV
    ensures var q := IntervalDeltas(o, e, d, r.amps, r.offset, r.at);
            && q.wh == Split(Side(o, p, r, ChargeWh), Side(o, p, r, DischargeWh))
            && q.calWh == Split(Side(o, p, r, CalChargeWh), Side(o, p, r, CalDischargeWh))
  {
    if p.volts.Some? && r.volts.Some? {
      var u, v := p.volts.value, r.volts.value;
      SidesOf(Watts(p.amps, u), Watts(r.amps, v), r.at - p.at, o.maxGapSecs, Hours(o, p, r), Mean(o, p, r, ChargeWh));
      SidesOf(Watts(p.amps - p.offset, u), Watts(r.amps - r.offset, v), r.at - p.at, o.maxGapSecs, Hours(o, p, r),
              Mean(o, p, r, CalChargeWh));
    }
  }

  lemma BleedSide(o: Config, e: LastSeries, d: RealtimeData, p: Reading, r: Reading)
    requires o.Valid() && Previous(e, p) && r.bleed == d.balanceCurrentA
    ensures IntervalDeltas(o, e, d, r.amps, r.offset, r.at).balanceAh == Side(o, p, r, BalanceAh)
  {
    if p.bleed.Some? && r.bleed.Some? {
      SidesOf(Max(p.bleed.value, 0.0), Max(r.bleed.value, 0.0), r.at - p.at, o.maxGapSecs, Hours(o, p, r), Mean(o, p, r, BalanceAh));
    }
  }

  lemma IntervalSides(o: Config, e: LastSeries, d: RealtimeData, p: Reading, r: Reading, c: Counter)
    requires o.Valid() && Previous(e, p) && r.volts == d.packV && r.bleed == d.balanceCurrentA
    ensures Part(IntervalDeltas(o, e, d, r.amps, r.offset, r.at), c) == Side(o, p, r, c)
  {
    if c.BalanceAh? {
      BleedSide(o, e, d, p, r);
    } else if c.ChargeAh? || c.DischargeAh? || c.CalChargeAh? || c.CalDischargeAh? {
      ChargeSides(o, e, d, p, r);
    } else {
      EnergySides(o, e, d, p, r);
    }
  }

  lemma CappedPart(o: Config, p: Pending, c: Counter)
    ensures Part(Ceilings(o, p), c) == Min(Part(p, c), Ceiling(o, c))
  {
  }

  // ---- Slot and log ----

  /** The slot's previous frame is the last of the log; without one the slot has none. */
  predicate Follows(m: Shared, log: seq<Reading>, sn: Serial) {
    var e := Tracked(m, sn);
    if log == [] then e.lastTs.None? else Previous(e, log[|log| - 1])
  }

  lemma SumOneMore(o: Config, log: seq<Reading>, r: Reading, c: Counter, capped: bool)
    requires o.Valid()
    ensures Sum(o, log + [r], c, capped) == Sum(o, log, c, capped) + Amount(o, log, r, c, capped)
  {
    assert (log + [r])[..|log|] == log;
  }

  /** What an integrated frame adds is the side of the interval it ends. */
  lemma LoggedDelta(o: Config, t: Shared, sn: Serial, d: RealtimeData, log: seq<Reading>, r: Reading, c: Counter)
    requires o.Valid() && Follows(t, log, sn) && r.volts == d.packV && r.bleed == d.balanceCurrentA
    ensures var raw := Part(IntervalDeltas(o, Tracked(t, sn), d, r.amps, r.offset, r.at), c);
            && raw == (if log == [] then 0.0 else Side(o, log[|log| - 1], r, c))
            && Part(DeltaAt(o, t, sn, d, r.amps, r.offset, r.at), c) == Min(raw, Ceiling(o, c))
  {
    if log != [] {
      IntervalSides(o, Tracked(t, sn), d, log[|log| - 1], r, c);
    }
    CappedPart(o, IntervalDeltas(o, Tracked(t, sn), d, r.amps, r.offset, r.at), c);
  }

  /** The counters integrated so far are the sums over the log, uncapped as long as nothing was cut. */
  ghost predicate Kept(o: Config, s: Machine, log: seq<Reading>, sn: Serial)
    requires o.Valid()
  {
    && Follows(s.m, log, sn)
    && (forall c :: Read(s.integrated, Series(c, sn)) == Sum(o, log, c, true))
    && (s.clamps == 0 ==> forall c :: Read(s.integrated, Series(c, sn)) == Sum(o, log, c, false))
  }

  lemma LoggedSlot(env: Env, s: Machine, sn: Serial, d: RealtimeData, now: real)
    requires Integrates(env.o, Track(env.o, s.m, sn), sn, d)
    ensures |LoggedOf(env, s, sn, d, now)| == 1
    ensures Previous(Tracked(OnFrame(env, s, sn, d, now).m, sn), LoggedOf(env, s, sn, d, now)[0])
    ensures LoggedOf(env, s, sn, d, now)[0].offset == OffsetFor(env.o, Track(env.o, s.m, sn), sn, d, d.currentA.value, now)
  {
    var o, t, cur := env.o, Track(env.o, s.m, sn), d.currentA.value;
    AccumulateRecords(o, t, Calibrated(o, t, sn, d, cur, now), sn, d, cur, OffsetFor(o, t, sn, d, cur, now), now);
    InForceAfter(o, t, sn, d, now);
  }

  /** The amount a logged frame adds to a counter. */
  function Amount(o: Config, log: seq<Reading>, r: Reading, c: Counter, capped: bool): real
    requires o.Valid()
  {
    if log == [] then 0.0
    else
      var side := Side(o, log[|log| - 1], r, c);
      if capped then Min(side, Ceiling(o, c)) else side
  }

  lemma LoggedAmount(
      env: Env, s: Machine, sn: Serial, d: RealtimeData, now: real, log: seq<Reading>, r: Reading, c: Counter, capped: bool)
    requires env.o.Valid() && Follows(s.m, log, sn) && Integrates(env.o, Track(env.o, s.m, sn), sn, d)
    requires [r] == LoggedOf(env, s, sn, d, now)
    requires capped || Realtime(env.o, s.m, sn, d, now).rejected <= s.m.rejected
    ensures Part(DeltaOf(env.o, s.m, sn, d, now), c) == Amount(env.o, log, r, c, capped)
  {
    var o, t := env.o, Track(env.o, s.m, sn);
    TrackLeaves(o, s.m, sn);
    LoggedSlot(env, s, sn, d, now);
    LoggedDelta(o, t, sn, d, log, r, c);
    if !capped {
      NotRejectedIsUncut(o, t, Calibrated(o, t, sn, d, r.amps, now), sn, d, r.amps, r.offset, now);
    }
  }

  lemma LoggedRead(
      env: Env, s: Machine, sn: Serial, d: RealtimeData, now: real, log: seq<Reading>, r: Reading, c: Counter, capped: bool)
    requires env.o.Valid() && Follows(s.m, log, sn) && Integrates(env.o, Track(env.o, s.m, sn), sn, d)
    requires [r] == LoggedOf(env, s, sn, d, now) && Read(s.integrated, Series(c, sn)) == Sum(env.o, log, c, capped)
    requires capped || Realtime(env.o, s.m, sn, d, now).rejected <= s.m.rejected
    ensures Read(OnFrame(env, s, sn, d, now).integrated, Series(c, sn)) == Sum(env.o, log + [r], c, capped)
  {
    LoggedAmount(env, s, sn, d, now, log, r, c, capped);
    DeltaNonNegative(env.o, s.m, sn, d, now);
    FramedFields(s, Realtime(env.o, s.m, sn, d, now), sn, DeltaOf(env.o, s.m, sn, d, now));
    AddedReads(s.integrated, sn, DeltaOf(env.o, s.m, sn, d, now), Series(c, sn));
    SumOneMore(env.o, log, r, c, capped);
  }

  lemma LoggedKept(env: Env, s: Machine, sn: Serial, d: RealtimeData, now: real, log: seq<Reading>)
    requires env.o.Valid() && Kept(env.o, s, log, sn) && Integrates(env.o, Track(env.o, s.m, sn), sn, d)
    ensures Kept(env.o, OnFrame(env, s, sn, d, now), log + LoggedOf(env, s, sn, d, now), sn)
  {
    var s', more := OnFrame(env, s, sn, d, now), LoggedOf(env, s, sn, d, now);
    LoggedSlot(env, s, sn, d, now);
    assert more == [more[0]];
    forall c ensures Read(s'.integrated, Series(c, sn)) == Sum(env.o, log + more, c, true) {
      LoggedRead(env, s, sn, d, now, log, more[0], c, true);
    }
    if s'.clamps == 0 {
      forall c ensures Read(s'.integrated, Series(c, sn)) == Sum(env.o, log + more, c, false) {
        LoggedRead(env, s, sn, d, now, log, more[0], c, false);
      }
    }
  }

  lemma SameSlotKept(o: Config, s: Machine, s': Machine, log: seq<Reading>, sn: Serial)
    requires o.Valid() && Kept(o, s, log, sn) && SameHistory(Tracked(s.m, sn), Tracked(s'.m, sn)) && s'.clamps >= s.clamps
    requires forall c :: Read(s'.integrated, Series(c, sn)) == Read(s.integrated, Series(c, sn))
    ensures Kept(o, s', log, sn)
  {
  }

  lemma UnloggedHistory(o: Config, m: Shared, k: Serial, d: RealtimeData, now: real, sn: Serial)
    requires k == sn ==> !Integrates(o, Track(o, m, k), k, d)
    ensures SameHistory(Tracked(m, sn), Tracked(Realtime(o, m, k, d, now), sn))
    ensures k == sn ==> DeltaOf(o, m, k, d, now) == NO_PENDING
  {
    if k == sn {
      TrackLeaves(o, m, sn);
    } else {
      FrameEffect(o, m, k, d, now);
      OtherSlotsKept(o, m, Realtime(o, m, k, d, now), k, sn);
    }
  }

  /** A frame of another device, or one that is not integrated. */
  lemma UnloggedKept(env: Env, s: Machine, k: Serial, d: RealtimeData, now: real, log: seq<Reading>, sn: Serial)
    requires env.o.Valid() && Kept(env.o, s, log, sn)
    requires k == sn ==> !Integrates(env.o, Track(env.o, s.m, k), k, d)
    ensures Kept(env.o, OnFrame(env, s, k, d, now), log, sn)
  {
    var m', delta := Realtime(env.o, s.m, k, d, now), DeltaOf(env.o, s.m, k, d, now);
    UnloggedHistory(env.o, s.m, k, d, now, sn);
    FramedFields(s, m', k, delta);
    forall c ensures Read(Framed(s, m', k, delta).integrated, Series(c, sn)) == Read(s.integrated, Series(c, sn)) {
      DeltaNonNegative(env.o, s.m, k, d, now);
      AddedReads(s.integrated, k, delta, Series(c, sn));
    }
    SameSlotKept(env.o, s, Framed(s, m', k, delta), log, sn);
  }

  lemma {:induction false} RunKept(env: Env, file: Option<File>, es: seq<Event>, sn: Serial)
    requires env.o.Valid()
    ensures Kept(env.o, Exec(env, Boot(env, file), es), Log(env, file, es, sn), sn)
  {
    if es == [] {
      FreshSlots(env.o, file, 0.0);
    } else {
      var init, e := es[..|es| - 1], es[|es| - 1];
      RunKept(env, file, init, sn);
      var s := Exec(env, Boot(env, file), init);
      if Enabled(env, s, e) {
        StepKept(env, s, e, Log(env, file, init, sn), sn);
      }
    }
  }

  lemma StepKept(env: Env, s: Machine, e: Event, log: seq<Reading>, sn: Serial)
    requires env.o.Valid() && Kept(env.o, s, log, sn) && Enabled(env, s, e)
    ensures Kept(env.o, Step(env, s, e),
                 if e.Restart? then [] else if e.Frame? && e.sn == sn then log + LoggedOf(env, s, e.sn, e.d, e.now) else log, sn)
  {
    if e.Frame? {
      if e.sn == sn && Integrates(env.o, Track(env.o, s.m, sn), sn, e.d) {
        LoggedKept(env, s, sn, e.d, e.now, log);
      } else {
        assert log + [] == log;
        UnloggedKept(env, s, e.sn, e.d, e.now, log, sn);
      }
    } else if e.Restart? {
      FreshSlots(env.o, s.visible, s.clock);
    } else {
      StepKeepsMemory(env, s, e);
      SameSlotKept(env.o, s, Step(env, s, e), log, sn);
    }
  }

  /**
   * In every run all nine counters of a device are exactly the sums over the intervals between its
   * integrated frames since the process started: charge, energy and bleed, raw and corrected, each
   * direction on its own counter and each amount under the ceiling of one frame.
   */
  lemma CountersAreSums(env: Env, file: Option<File>, es: seq<Event>, sn: Serial, c: Counter)
    requires env.o.Valid()
    ensures Read(Exec(env, Boot(env, file), es).integrated, Series(c, sn)) == Sum(env.o, Log(env, file, es, sn), c, true)
  {
    RunKept(env, file, es, sn);
  }

  // ---- The energy books ----

  /** What the offsets take out of an interval's energy: the mean of offset times voltage over its hours. */
  function TakenWh(o: Config, p: Reading, r: Reading): real
    requires o.Valid()
  {
    if p.volts.Some? && r.volts.Some? then
      (p.offset * p.volts.value + r.offset * r.volts.value) / 2.0 * Hours(o, p, r)
    else 0.0
  }

  /** And out of all intervals of the log. */
  function CorrectionWh(o: Config, log: seq<Reading>): real
    requires o.Valid()
  {
    if |log| < 2 then 0.0
    else CorrectionWh(o, log[..|log| - 1]) + TakenWh(o, log[|log| - 2], log[|log| - 1])
  }

  lemma CorrectedPower(a: real, p: real, u: real, power: real, taken: real)
    requires power == a * u && taken == p * u
    ensures Watts(a - p, u) == power - taken
  {
  }

  /** The corrected energy of an interval is the raw energy less what the offsets take out. */
  lemma CorrectedEnergy(o: Config, p: Reading, r: Reading)
    requires o.Valid()
    ensures Mean(o, p, r, CalChargeWh) == Mean(o, p, r, ChargeWh) - TakenWh(o, p, r)
  {
    if p.volts.Some? && r.volts.Some? {
      var u, v := p.volts.value, r.volts.value;
      CorrectedPower(p.amps, p.offset, u, p.amps * u, p.offset * u);
      CorrectedPower(r.amps, r.offset, v, r.amps * v, r.offset * v);
      MeanOfDifference(p.amps * u, r.amps * v, p.offset * u, r.offset * v, Hours(o, p, r));
    }
  }

  /** Net of the two energy counters over the log, nothing cut. */
  function NetWh(o: Config, log: seq<Reading>, charge: Counter, discharge: Counter): real
    requires o.Valid()
  {
    Sum(o, log, charge, false) - Sum(o, log, discharge, false)
  }

  lemma {:induction false} EnergyLess(o: Config, log: seq<Reading>)
    requires o.Valid()
    ensures NetWh(o, log, CalChargeWh, CalDischargeWh) == NetWh(o, log, ChargeWh, DischargeWh) - CorrectionWh(o, log)
  {
    if |log| >= 2 {
      EnergyLess(o, log[..|log| - 1]);
      CorrectedEnergy(o, log[|log| - 2], log[|log| - 1]);
    }
  }

  /**
   * The calibrated energy books. While no ceiling cuts a frame, a process's calibrated net energy is its
   * raw net energy less, per interval with a voltage at both ends, the mean of offset times voltage over
   * the interval's capped length. Flushes, failed writes and restarts included.
   */
  lemma CalibratedEnergyBooks(env: Env, file: Option<File>, es: seq<Event>, sn: Serial)
    requires env.o.Valid() && Exec(env, Boot(env, file), es).clamps == 0
    ensures var amounts := Exec(env, Boot(env, file), es).integrated;
            NetOf(amounts, CalChargeWh, CalDischargeWh, sn)
            == NetOf(amounts, ChargeWh, DischargeWh, sn) - CorrectionWh(env.o, Log(env, file, es, sn))
  {
    RunKept(env, file, es, sn);
    EnergyLess(env.o, Log(env, file, es, sn));
  }

  // ---- What is cut is counted ----

  /** Some amount of the interval the reading ends exceeds its ceiling. */
  ghost predicate Exceeds(o: Config, log: seq<Reading>, r: Reading)
    requires o.Valid()
  {
    log != [] && exists c :: Side(o, log[|log| - 1], r, c) > Ceiling(o, c)
  }

  lemma CutAmount(o: Config, p: Pending, c: Counter)
    ensures Part(p, c) > Ceiling(o, c) ==> Part(Ceilings(o, p), c) != Part(p, c)
  {
    CappedPart(o, p, c);
  }

  lemma UncutWhole(o: Config, p: Pending)
    requires forall c :: Part(p, c) <= Ceiling(o, c)
    ensures Ceilings(o, p) == p
  {
    assert Part(p, ChargeAh) <= o.maxFrameAh && Part(p, DischargeAh) <= o.maxFrameAh;
    assert Part(p, CalChargeAh) <= o.maxFrameAh && Part(p, CalDischargeAh) <= o.maxFrameAh;
    assert Part(p, ChargeWh) <= o.maxFrameWh && Part(p, DischargeWh) <= o.maxFrameWh;
    assert Part(p, CalChargeWh) <= o.maxFrameWh && Part(p, CalDischargeWh) <= o.maxFrameWh;
    assert Part(p, BalanceAh) <= o.maxFrameAh;
  }

  lemma CutIsExcess(o: Config, t: Shared, sn: Serial, d: RealtimeData, log: seq<Reading>, r: Reading)
    requires o.Valid() && Follows(t, log, sn) && r.volts == d.packV && r.bleed == d.balanceCurrentA
    ensures var raw := IntervalDeltas(o, Tracked(t, sn), d, r.amps, r.offset, r.at);
            Ceilings(o, raw) != raw <==> Exceeds(o, log, r)
  {
    var raw := IntervalDeltas(o, Tracked(t, sn), d, r.amps, r.offset, r.at);
    forall c ensures Part(raw, c) == if log == [] then 0.0 else Side(o, log[|log| - 1], r, c) {
      LoggedDelta(o, t, sn, d, log, r, c);
    }
    if Exceeds(o, log, r) {
      var c :| Side(o, log[|log| - 1], r, c) > Ceiling(o, c);
      CutAmount(o, raw, c);
    } else {
      forall c ensures Part(raw, c) <= Ceiling(o, c) {
        assert Part(raw, c) == if log == [] then 0.0 else Side(o, log[|log| - 1], r, c);
      }
      UncutWhole(o, raw);
    }
  }

  lemma AccumulateCounts(o: Config, t: Shared, sn: Serial, d: RealtimeData, now: real)
    requires Integrates(o, t, sn, d)
    ensures var cur := d.currentA.value;
            var raw := IntervalDeltas(o, Tracked(t, sn), d, cur, OffsetFor(o, t, sn, d, cur, now), now);
            Accumulate(o, t, sn, d, now).rejected == t.rejected + if Ceilings(o, raw) != raw then 1 else 0
  {
    var cal := Calibrated(o, t, sn, d, d.currentA.value, now);
    assert Tracked(t.(cal := cal), sn) == Tracked(t, sn);
  }

  /** In every run an integrated frame is counted as cut exactly when an amount of its interval exceeds its ceiling. */
  lemma CutIsCounted(env: Env, file: Option<File>, es: seq<Event>, sn: Serial, d: RealtimeData, now: real, r: Reading)
    requires env.o.Valid()
    requires var s := Exec(env, Boot(env, file), es);
             Integrates(env.o, Track(env.o, s.m, sn), sn, d) && [r] == LoggedOf(env, s, sn, d, now)
    ensures var s := Exec(env, Boot(env, file), es);
            Realtime(env.o, s.m, sn, d, now).rejected
            == s.m.rejected + if Exceeds(env.o, Log(env, file, es, sn), r) then 1 else 0
  {
    var s := Exec(env, Boot(env, file), es);
    RunKept(env, file, es, sn);
    TrackLeaves(env.o, s.m, sn);
    LoggedSlot(env, s, sn, d, now);
    CutIsExcess(env.o, Track(env.o, s.m, sn), sn, d, Log(env, file, es, sn), r);
    AccumulateCounts(env.o, Track(env.o, s.m, sn), sn, d, now);
  }
}
