/** The charge and energy counters: integration of frames, and the steps of the write-ahead flush. */
module Accounting {
  import opened Serials
  import opened LineFit
  import opened Calibration

  // ---- Directional amounts ----

  /** An integrated quantity split by direction; one side is zero. */
  datatype Split = Split(charge: real, discharge: real) {
    function Plus(other: Split): Split {
      Split(charge + other.charge, discharge + other.discharge)
    }

    function Net(): real { charge - discharge }

    function Clamped(max: real): Split {
      Split(Min(charge, max), Min(discharge, max))
    }
  }

  const NOTHING := Split(0.0, 0.0)

  /** The mean of two readings over `secs`, in per-hour units. */
  function MeanPerHour(prev: real, cur: real, secs: real): real {
    (prev + cur) / 2.0 * secs / 3600.0
  }

  function Watts(amps: real, volts: real): real {
    amps * volts
  }

  /** Trapezoidal integral in per-hour units; the gap is capped, a non-positive one adds nothing. */
  function TrapezoidHours(prev: real, cur: real, dtSecs: real, maxGap: real): Split {
    if dtSecs <= 0.0 then NOTHING
    else
      var value := MeanPerHour(prev, cur, Min(dtSecs, maxGap));
      if value >= 0.0 then Split(value, 0.0) else Split(0.0, -value)
  }

  /** Integrated deltas waiting to be exported. */
  datatype Pending = Pending(ah: Split, wh: Split, calAh: Split, calWh: Split, balanceAh: real) {
    function Plus(other: Pending): Pending {
      Pending(ah.Plus(other.ah), wh.Plus(other.wh), calAh.Plus(other.calAh), calWh.Plus(other.calWh),
              balanceAh + other.balanceAh)
    }
  }

  const NO_PENDING := Pending(NOTHING, NOTHING, NOTHING, NOTHING, 0.0)

  // ---- The nine counters ----

  datatype Counter =
    | ChargeAh | DischargeAh | ChargeWh | DischargeWh
    | CalChargeAh | CalDischargeAh | CalChargeWh | CalDischargeWh | BalanceAh

  const COUNTERS: set<Counter> :=
    {ChargeAh, DischargeAh, ChargeWh, DischargeWh, CalChargeAh, CalDischargeAh, CalChargeWh, CalDischargeWh, BalanceAh}

  datatype Series = Series(counter: Counter, sn: Serial)

  function Part(p: Pending, c: Counter): real {
    match c
    case ChargeAh => p.ah.charge
    case DischargeAh => p.ah.discharge
    case ChargeWh => p.wh.charge
    case DischargeWh => p.wh.discharge
    case CalChargeAh => p.calAh.charge
    case CalDischargeAh => p.calAh.discharge
    case CalChargeWh => p.calWh.charge
    case CalDischargeWh => p.calWh.discharge
    case BalanceAh => p.balanceAh
  }

  /** Persisted totals of one device. */
  datatype CoulombEntry = CoulombEntry(
    chargeAh: real, dischargeAh: real, chargeWh: real, dischargeWh: real,
    calChargeAh: real, calDischargeAh: real, calChargeWh: real, calDischargeWh: real, balanceAh: real)

  function Total(e: CoulombEntry, c: Counter): real {
    match c
    case ChargeAh => e.chargeAh
    case DischargeAh => e.dischargeAh
    case ChargeWh => e.chargeWh
    case DischargeWh => e.dischargeWh
    case CalChargeAh => e.calChargeAh
    case CalDischargeAh => e.calDischargeAh
    case CalChargeWh => e.calChargeWh
    case CalDischargeWh => e.calDischargeWh
    case BalanceAh => e.balanceAh
  }

  /** The exported value of a series; one that does not exist reads zero. */
  function Read(counters: map<Series, real>, s: Series): real {
    if s in counters then counters[s] else 0.0
  }

  /** A counter only ever rises. */
  function Raise(counters: map<Series, real>, s: Series, v: real): map<Series, real> {
    if v > 0.0 then counters[s := Read(counters, s) + v] else counters
  }

  /** The series a set of pending deltas raises. */
  function Raised(snapshot: map<Serial, Pending>): set<Series> {
    set sn, c | sn in snapshot && c in COUNTERS && Part(snapshot[sn], c) > 0.0 :: Series(c, sn)
  }

  function PartOf(snapshot: map<Serial, Pending>, s: Series): real {
    if s.sn in snapshot then Max(Part(snapshot[s.sn], s.counter), 0.0) else 0.0
  }

  /** The counters with a whole snapshot added, in whatever order. */
  function Applied(counters: map<Series, real>, snapshot: map<Serial, Pending>): map<Series, real> {
    map s | s in counters.Keys + Raised(snapshot) :: Read(counters, s) + PartOf(snapshot, s)
  }

  // ---- State ----

  datatype Config = Config(
    maxGapSecs: real,
    maxDevices: nat,
    minInterval: real,
    maxFrameAh: real,
    maxFrameWh: real,
    calibrationEnabled: bool,
    calibration: Options,
    observe: (Cal, Serial, Sample) -> Cal,
    bump: real -> real)
  {
    predicate Valid() {
      maxGapSecs >= 0.0 && minInterval > 0.0 && maxFrameAh > 0.0 && maxFrameWh > 0.0 && calibration.Valid()
    }

    /** Whether one more serial may be tracked; 0 means no limit. */
    predicate HasRoom(tracked: nat) {
      maxDevices == 0 || tracked < maxDevices
    }
  }

  /** The calibrator the accounting feeds is the modelled one. */
  ghost predicate Calibrates(o: Config) {
    o.Valid() && forall c, sn, s :: o.observe(c, sn, s) == Observe(o.calibration, c, sn, s)
  }

  /** The nudge of a persisted total: never down, never by more than `eps`, positive totals only. */
  ghost predicate Nudges(bump: real -> real, eps: real) {
    forall v :: if v > 0.0 then v <= bump(v) <= v + eps else bump(v) == v
  }

  /** A decoded realtime frame, as far as accounting reads it. */
  datatype RealtimeData = RealtimeData(
    packV: Option<real>, currentA: Option<real>, remainingAh: Option<real>, balanceCurrentA: Option<real>)

  /** Per device: the previous frame, and the deltas not yet exported. */
  datatype LastSeries = LastSeries(
    lastTs: Option<real>, lastCurrent: Option<real>, lastPackV: Option<real>, lastBalanceA: Option<real>,
    lastOffset: Option<real>, pending: Pending)

  const NEW_SERIES := LastSeries(None, None, None, None, None, NO_PENDING)

  /** What sits behind the mutex, with the exported counters. */
  datatype Shared = Shared(
    devices: map<Serial, LastSeries>,
    cal: Cal,
    rated: map<Serial, real>,
    counters: map<Series, real>,
    writing: bool,
    lastPersistAt: Option<real>,
    freshAt: Option<real>,
    rejected: nat)

  const FRESH := Shared(map[], NEW_CAL, map[], map[], false, None, None, 0)

  /** The state file. */
  datatype File = File(rows: map<Serial, CoulombEntry>, calibration: State)

  // ---- Integration of one frame ----

  /** Deltas of one interval, before the per-frame ceilings. */
  function RawDeltas(o: Config, e: LastSeries, d: RealtimeData, cur: real, offset: real, now: real): Pending
    requires e.lastTs.Some? && e.lastCurrent.Some?
  {
    var dt, gap, last := now - e.lastTs.value, o.maxGapSecs, e.lastCurrent.value;
    var calPrev := last - (if e.lastOffset.Some? then e.lastOffset.value else 0.0);
    var calCur := cur - offset;
    var ah, calAh := TrapezoidHours(last, cur, dt, gap), TrapezoidHours(calPrev, calCur, dt, gap);
    var powered := e.lastPackV.Some? && d.packV.Some?;
    var wh := if powered then
        TrapezoidHours(Watts(last, e.lastPackV.value), Watts(cur, d.packV.value), dt, gap)
      else NOTHING;
    var calWh := if powered then
        TrapezoidHours(Watts(calPrev, e.lastPackV.value), Watts(calCur, d.packV.value), dt, gap)
      else NOTHING;
    var bleed :=
      if e.lastBalanceA.Some? && d.balanceCurrentA.Some? then
        TrapezoidHours(Max(e.lastBalanceA.value, 0.0), Max(d.balanceCurrentA.value, 0.0), dt, gap).charge
      else 0.0;
    Pending(ah, wh, calAh, calWh, bleed)
  }

  /** The deltas under the per-frame ceilings. */
  function Ceilings(o: Config, p: Pending): Pending {
    Pending(p.ah.Clamped(o.maxFrameAh), p.wh.Clamped(o.maxFrameWh),
            p.calAh.Clamped(o.maxFrameAh), p.calWh.Clamped(o.maxFrameWh), Min(p.balanceAh, o.maxFrameAh))
  }

  function IntervalDeltas(o: Config, e: LastSeries, d: RealtimeData, cur: real, offset: real, now: real): Pending {
    if e.lastTs.Some? && e.lastCurrent.Some? then RawDeltas(o, e, d, cur, offset, now) else NO_PENDING
  }

  function HintOf(rated: map<Serial, real>, sn: Serial): Option<real> {
    if sn in rated && rated[sn] > 0.0 then Some(rated[sn]) else None
  }

  function SampleOf(rated: map<Serial, real>, sn: Serial, d: RealtimeData, cur: real, now: real): Sample {
    Sample(cur, d.balanceCurrentA, d.remainingAh, HintOf(rated, sn), now)
  }

  /** The calibrator after the frame; untouched when calibration is off. */
  function Calibrated(o: Config, m: Shared, sn: Serial, d: RealtimeData, cur: real, now: real): Cal {
    if o.calibrationEnabled then o.observe(m.cal, sn, SampleOf(m.rated, sn, d, cur, now)) else m.cal
  }

  /** The offset in force for the frame. */
  function OffsetFor(o: Config, m: Shared, sn: Serial, d: RealtimeData, cur: real, now: real): real {
    if o.calibrationEnabled then Calibrated(o, m, sn, d, cur, now).Device(sn).applied else 0.0
  }

  function Tracked(m: Shared, sn: Serial): LastSeries {
    if sn in m.devices then m.devices[sn] else NEW_SERIES
  }

  /** Whether a frame of `sn` is integrated: it carries a current, and the serial is or can be tracked. */
  predicate Integrates(o: Config, m: Shared, sn: Serial, d: RealtimeData) {
    d.currentA.Some? && (sn in m.devices || o.HasRoom(|m.devices|))
  }

  /** What the frame adds to its device's pending deltas, with this offset in force. */
  function DeltaAt(o: Config, m: Shared, sn: Serial, d: RealtimeData, cur: real, offset: real, now: real): Pending {
    Ceilings(o, IntervalDeltas(o, Tracked(m, sn), d, cur, offset, now))
  }

  /** The accounting side of a frame, given the offset in force. */
  function AccumulateAt(o: Config, m: Shared, sn: Serial, d: RealtimeData, cur: real, offset: real, now: real): Shared {
    var delta := DeltaAt(o, m, sn, d, cur, offset, now);
    var clamped := delta != IntervalDeltas(o, Tracked(m, sn), d, cur, offset, now);
    var e := LastSeries(Some(now), Some(cur), d.packV, d.balanceCurrentA, Some(offset), Tracked(m, sn).pending.Plus(delta));
    m.(devices := m.devices[sn := e], rejected := if clamped then m.rejected + 1 else m.rejected)
  }

  /** The integration of one accepted realtime frame, under the lock. */
  function Accumulate(o: Config, m: Shared, sn: Serial, d: RealtimeData, now: real): Shared {
    if !Integrates(o, m, sn, d) then m
    else
      var cur := d.currentA.value;
      AccumulateAt(o, m.(cal := Calibrated(o, m, sn, d, cur, now)), sn, d, cur, OffsetFor(o, m, sn, d, cur, now), now)
  }

  /** Reserves a slot for a new serial while there is room. */
  function Admit(o: Config, m: Shared, sn: Serial): Shared {
    if o.maxDevices == 0 || sn in m.devices || !o.HasRoom(|m.devices|) then m
    else m.(devices := m.devices[sn := NEW_SERIES])
  }

  predicate Admitted(o: Config, m: Shared, sn: Serial) {
    o.maxDevices == 0 || sn in m.devices || o.HasRoom(|m.devices|)
  }

  /** Tracks the serial of a decoded frame, if there is room for it. */
  function Track(o: Config, m: Shared, sn: Serial): Shared {
    if sn in m.devices || !o.HasRoom(|m.devices|) then m else m.(devices := m.devices[sn := NEW_SERIES])
  }

  /** A decoded realtime frame that passed the gate. */
  function Realtime(o: Config, m: Shared, sn: Serial, d: RealtimeData, now: real): Shared {
    Accumulate(o, Track(o, m, sn), sn, d, now)
  }

  /** A decoded config frame: the rated capacity it carries, and a slot for its serial. */
  function Configure(o: Config, m: Shared, sn: Serial, ratedAh: Option<real>): Shared {
    Track(o, if ratedAh.Some? then m.(rated := m.rated[sn := ratedAh.value]) else m, sn)
  }

  // ---- The flush ----

  /** Every device's pending deltas, also those that have none. */
  function Snapshot(m: Shared): map<Serial, Pending> {
    map sn | sn in m.devices :: m.devices[sn].pending
  }

  function Emptied(devices: map<Serial, LastSeries>): map<Serial, LastSeries> {
    map sn | sn in devices :: devices[sn].(pending := NO_PENDING)
  }

  function EntryFor(o: Config, counters: map<Series, real>, sn: Serial, p: Pending): CoulombEntry {
    CoulombEntry(
      o.bump(Read(counters, Series(ChargeAh, sn)) + p.ah.charge),
      o.bump(Read(counters, Series(DischargeAh, sn)) + p.ah.discharge),
      o.bump(Read(counters, Series(ChargeWh, sn)) + p.wh.charge),
      o.bump(Read(counters, Series(DischargeWh, sn)) + p.wh.discharge),
      o.bump(Read(counters, Series(CalChargeAh, sn)) + p.calAh.charge),
      o.bump(Read(counters, Series(CalDischargeAh, sn)) + p.calAh.discharge),
      o.bump(Read(counters, Series(CalChargeWh, sn)) + p.calWh.charge),
      o.bump(Read(counters, Series(CalDischargeWh, sn)) + p.calWh.discharge),
      o.bump(Read(counters, Series(BalanceAh, sn)) + p.balanceAh))
  }

  /** What the file will hold: counters plus everything pending, and the calibrator beside them. */
  function Payload(o: Config, m: Shared): File {
    File(map sn | sn in m.devices :: EntryFor(o, m.counters, sn, m.devices[sn].pending), m.cal.Persisted())
  }

  predicate AnyPending(m: Shared) {
    exists sn :: sn in m.devices && m.devices[sn].pending != NO_PENDING
  }

  /** An unforced flush with nothing pending: no write, the file still matches the counters. */
  predicate Idles(m: Shared, force: bool) {
    !m.writing && !force && !AnyPending(m)
  }

  predicate Throttled(o: Config, m: Shared, now: real) {
    m.lastPersistAt.Some? && now - m.lastPersistAt.value < o.minInterval
  }

  /** A flush that gets as far as a write. */
  predicate Writes(o: Config, m: Shared, force: bool, now: real) {
    !m.writing && (force || (AnyPending(m) && !Throttled(o, m, now)))
  }

  /** First phase, under the lock. */
  function BeginFlush(o: Config, m: Shared, force: bool, now: real, serializes: bool): Shared {
    if Idles(m, force) then m.(freshAt := Some(now))
    else if Writes(o, m, force, now) && serializes then m.(devices := Emptied(m.devices), writing := true)
    else m
  }

  function Requeued(devices: map<Serial, LastSeries>, snapshot: map<Serial, Pending>): map<Serial, LastSeries> {
    map sn | sn in devices ::
      if sn in snapshot then devices[sn].(pending := devices[sn].pending.Plus(snapshot[sn])) else devices[sn]
  }

  /** Third phase, under the lock again. */
  function EndFlush(m: Shared, snapshot: map<Serial, Pending>, written: bool, now: real): Shared {
    if written then
      m.(counters := Applied(m.counters, snapshot), lastPersistAt := Some(now), freshAt := Some(now), writing := false)
    else
      m.(devices := Requeued(m.devices, snapshot), lastPersistAt := Some(now), writing := false)
  }

  /** Without a state file nothing can be written first: deltas are exported at once. */
  function FlushUnpersisted(m: Shared): Shared {
    m.(devices := Emptied(m.devices), counters := Applied(m.counters, Snapshot(m)))
  }

  /** How a flush goes: when it is decided and ended, whether the state serializes and the write succeeds. */
  datatype FlushIo = FlushIo(begunAt: real, serializes: bool, written: bool, endedAt: real)

  /** A whole flush that nothing interrupts. */
  function Flushed(o: Config, m: Shared, persisted: bool, force: bool, io: FlushIo): Shared {
    if !persisted then FlushUnpersisted(m)
    else
      var begun := BeginFlush(o, m, force, io.begunAt, io.serializes);
      if Writes(o, m, force, io.begunAt) && io.serializes then EndFlush(begun, Snapshot(m), io.written, io.endedAt)
      else begun
  }

  // ---- Restart ----

  /** The serials a restart restores: all of them, or the first in serial order up to the cap. */
  function RestoredSerials(o: Config, rows: map<Serial, CoulombEntry>): set<Serial> {
    var keys := Sorted(rows.Keys);
    if o.maxDevices == 0 || |keys| <= o.maxDevices then rows.Keys
    else FirstKeys(keys, o.maxDevices)
  }

  function FirstKeys(keys: seq<Serial>, n: nat): set<Serial>
    requires n <= |keys|
  {
    set i | 0 <= i < n :: keys[i]
  }

  /** Empty slots for the given serials. */
  function Slots(kept: set<Serial>): map<Serial, LastSeries> {
    map sn | sn in kept :: NEW_SERIES
  }

  function RestoredCounters(rows: map<Serial, CoulombEntry>, kept: set<Serial>): map<Series, real> {
    map s | s in (set sn, c | sn in kept && c in COUNTERS :: Series(c, sn))
            && s.sn in rows && Total(rows[s.sn], s.counter) > 0.0
      :: Total(rows[s.sn], s.counter)
  }

  /** A process started on the file it finds, or on none. */
  function Restored(o: Config, file: Option<File>, now: real): Shared {
    match file
    case None => FRESH.(freshAt := Some(now))
    case Some(f) =>
      var kept := RestoredSerials(o, f.rows);
      FRESH.(devices := Slots(kept),
             counters := RestoredCounters(f.rows, kept),
             cal := Restore(NEW_CAL, f.calibration, kept),
             freshAt := Some(now))
  }
}
