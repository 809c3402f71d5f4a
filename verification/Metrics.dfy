/** The metrics object: counters, pending deltas and the flush, in place, against their specification. */
module MetricsObject {
  import opened Serials
  import opened LineFit
  import opened Calibration
  import opened CalibratorObject
  import opened Accounting
  import opened CounterFacts

  class Metrics {
    const o: Config
    const calibrator: Calibrator
    var devices: map<Serial, LastSeries>
    var rated: map<Serial, real>
    var counters: map<Series, real>
    var writing: bool
    var lastPersistAt: Option<real>
    var freshAt: Option<real>
    var rejected: nat

    ghost predicate Valid()
      reads this
    {
      o.Valid() && calibrator.o == o.calibration
    }

    function View(): Shared
      reads this, calibrator
    {
      Shared(devices, calibrator.View(), rated, counters, writing, lastPersistAt, freshAt, rejected)
    }

    constructor (o: Config)
      requires o.Valid()
      ensures Valid() && this.o == o && View() == FRESH && fresh(calibrator)
    {
      this.o := o;
      calibrator := new Calibrator(o.calibration);
      devices, rated, counters := map[], map[], map[];
      writing, lastPersistAt, freshAt, rejected := false, None, None, 0;
    }

    method Admit(sn: Serial) returns (admitted: bool)
      requires Valid()
      modifies this`devices
      ensures View() == Accounting.Admit(o, old(View()), sn)
      ensures admitted == Admitted(o, old(View()), sn)
    {
      if o.maxDevices == 0 || sn in devices {
        return true;
      }
      if |devices| < o.maxDevices {
        devices := devices[sn := NEW_SERIES];
        return true;
      }
      return false;
    }

    method Track(sn: Serial)
      requires Valid()
      modifies this`devices
      ensures View() == Accounting.Track(o, old(View()), sn)
    {
      if sn !in devices && o.HasRoom(|devices|) {
        devices := devices[sn := NEW_SERIES];
      }
    }

    method UpdateConfig(sn: Serial, ratedAh: Option<real>)
      requires Valid()
      modifies this`devices, this`rated
      ensures View() == Configure(o, old(View()), sn, ratedAh)
    {
      if ratedAh.Some? {
        rated := rated[sn := ratedAh.value];
      }
      Track(sn);
    }

    /** Deltas of the interval that ends with this frame, and whether a ceiling cut any of them. */
    method Interval(e: LastSeries, d: RealtimeData, cur: real, offset: real, now: real)
      returns (delta: Pending, clamped: bool)
      requires Valid()
      ensures delta == Ceilings(o, IntervalDeltas(o, e, d, cur, offset, now))
      ensures clamped <==> delta != IntervalDeltas(o, e, d, cur, offset, now)
    {
      delta, clamped := NO_PENDING, false;
      if e.lastTs.Some? && e.lastCurrent.Some? {
        var raw := RawDeltas(o, e, d, cur, offset, now);
        delta := Ceilings(o, raw);
        clamped := delta.ah != raw.ah || delta.calAh != raw.calAh || delta.wh != raw.wh
                   || delta.calWh != raw.calWh || delta.balanceAh != raw.balanceAh;
      }
    }

    /** The offset in force for the frame; the calibrator sees the raw reading. */
    method OffsetOf(sn: Serial, d: RealtimeData, cur: real, now: real) returns (offset: real)
      requires Valid() && Calibrates(o)
      modifies calibrator
      ensures View() == old(View()).(cal := Calibrated(o, old(View()), sn, d, cur, now))
      ensures offset == OffsetFor(o, old(View()), sn, d, cur, now)
    {
      offset := 0.0;
      if o.calibrationEnabled {
        offset := calibrator.Observe(sn, SampleOf(rated, sn, d, cur, now));
      }
    }

    /** Integrates a frame that passed the gate; calibration runs first, on the raw reading. */
    method AccumulateCoulombs(sn: Serial, d: RealtimeData, now: real)
      requires Valid() && Calibrates(o)
      modifies this`devices, this`rejected, calibrator
      ensures View() == Accumulate(o, old(View()), sn, d, now)
    {
      if d.currentA.None? {
        return;
      }
      var cur := d.currentA.value;
      if sn !in devices && !o.HasRoom(|devices|) {
        return;
      }
      var offset := OffsetOf(sn, d, cur, now);
      AccumulateWith(sn, d, cur, offset, now);
    }

    method AccumulateWith(sn: Serial, d: RealtimeData, cur: real, offset: real, now: real)
      requires Valid()
      modifies this`devices, this`rejected
      ensures View() == AccumulateAt(o, old(View()), sn, d, cur, offset, now)
    {
      var e := if sn in devices then devices[sn] else NEW_SERIES;
      var delta, clamped := Interval(e, d, cur, offset, now);
      devices := devices[sn := LastSeries(Some(now), Some(cur), d.packV, d.balanceCurrentA, Some(offset), e.pending.Plus(delta))];
      if clamped {
        rejected := rejected + 1;
      }
    }

    /** First phase of a flush: decides whether to write, and takes what is pending. */
    method BeginFlush(force: bool, now: real, serializes: bool)
      returns (started: bool, payload: File, snapshot: map<Serial, Pending>)
      requires Valid()
      modifies this`devices, this`freshAt, this`writing
      ensures View() == Accounting.BeginFlush(o, old(View()), force, now, serializes)
      ensures started <==> Writes(o, old(View()), force, now) && serializes
      ensures started ==> payload == Payload(o, old(View())) && snapshot == Snapshot(old(View()))
    {
      started, payload, snapshot := false, File(map[], State(map[], map[])), map[];
      if writing {
        return;
      }
      if !force {
        if !AnyPending(View()) {
          freshAt := Some(now);
          return;
        }
        if Throttled(o, View(), now) {
          return;
        }
      }
      payload := Payload(o, View());
      snapshot := TakePending();
      if serializes {
        writing := true;
        started := true;
      } else {
        RequeuePending(snapshot);
        TakeThenRequeue(old(devices));
      }
    }

    method TakePending() returns (snapshot: map<Serial, Pending>)
      requires Valid()
      modifies this`devices
      ensures snapshot == Snapshot(old(View()))
      ensures View() == old(View()).(devices := Emptied(old(devices)))
    {
      snapshot := map sn | sn in devices :: devices[sn].pending;
      devices := map sn | sn in devices :: devices[sn].(pending := NO_PENDING);
    }

    method RequeuePending(snapshot: map<Serial, Pending>)
      requires Valid()
      modifies this`devices
      ensures View() == old(View()).(devices := Requeued(old(devices), snapshot))
    {
      var todo := snapshot.Keys;
      ghost var start := devices;
      while todo != {}
        invariant todo <= snapshot.Keys && devices.Keys == start.Keys
        invariant forall sn | sn in devices ::
          devices[sn] == if sn in snapshot.Keys - todo then start[sn].(pending := start[sn].pending.Plus(snapshot[sn])) else start[sn]
      {
        var sn :| sn in todo;
        todo := todo - {sn};
        if sn in devices {
          devices := devices[sn := devices[sn].(pending := devices[sn].pending.Plus(snapshot[sn]))];
        }
      }
    }

    method Inc(c: Counter, sn: Serial, v: real)
      modifies this`counters
      ensures counters == Raise(old(counters), Series(c, sn), v)
    {
      if v > 0.0 {
        counters := counters[Series(c, sn) := Read(counters, Series(c, sn)) + v];
      }
    }

    method ApplyOne(sn: Serial, p: Pending)
      modifies this`counters
      ensures counters == Applied(old(counters), map[sn := p])
    {
      ghost var h := RaiseNine(sn, Parts(p));
      NineRaisesApply(h, sn, p);
    }

    /** Raises the nine counters of one device, each on its own. */
    method RaiseNine(sn: Serial, v: seq<real>) returns (ghost h: seq<map<Series, real>>)
      requires |v| == 9
      modifies this`counters
      ensures NineRaises(h, sn, v) && h[0] == old(counters) && h[9] == counters
    {
      ghost var h0 := counters;
      Inc(ChargeAh, sn, v[0]);
      ghost var h1 := counters;
      Inc(DischargeAh, sn, v[1]);
      ghost var h2 := counters;
      Inc(ChargeWh, sn, v[2]);
      ghost var h3 := counters;
      Inc(DischargeWh, sn, v[3]);
      ghost var h4 := counters;
      Inc(CalChargeAh, sn, v[4]);
      ghost var h5 := counters;
      Inc(CalDischargeAh, sn, v[5]);
      ghost var h6 := counters;
      Inc(CalChargeWh, sn, v[6]);
      ghost var h7 := counters;
      Inc(CalDischargeWh, sn, v[7]);
      ghost var h8 := counters;
      Inc(BalanceAh, sn, v[8]);
      h := [h0, h1, h2, h3, h4, h5, h6, h7, h8, counters];
    }

    method ApplyPending(snapshot: map<Serial, Pending>)
      modifies this`counters
      ensures counters == Applied(old(counters), snapshot)
    {
      var todo := snapshot.Keys;
      ghost var done: map<Serial, Pending> := map[];
      assert counters == Applied(counters, done);
      while todo != {}
        invariant todo <= snapshot.Keys
        invariant done == map sn | sn in snapshot && sn !in todo :: snapshot[sn]
        invariant counters == Applied(old(counters), done)
      {
        var sn :| sn in todo;
        ApplyOne(sn, snapshot[sn]);
        AppliedOneMore(old(counters), done, sn, snapshot[sn]);
        todo := todo - {sn};
        done := done[sn := snapshot[sn]];
      }
      assert done == snapshot;
    }

    /** Third phase: the counters rise only when the file holds the new values. */
    method EndFlush(snapshot: map<Serial, Pending>, written: bool, now: real)
      requires Valid()
      modifies this
      ensures Valid() && View() == Accounting.EndFlush(old(View()), snapshot, written, now)
    {
      lastPersistAt := Some(now);
      if written {
        ApplyPending(snapshot);
        freshAt := Some(now);
      } else {
        RequeuePending(snapshot);
      }
      writing := false;
    }

    /** The flush when no state file is configured. */
    method FlushUnpersisted()
      requires Valid()
      modifies this`devices, this`counters
      ensures View() == Accounting.FlushUnpersisted(old(View()))
    {
      var snapshot := TakePending();
      ApplyPending(snapshot);
    }

    /** Persists what is pending, or exports it at once when there is nowhere to persist it. */
    method FlushCoulombState(persisted: bool, force: bool, io: FlushIo)
      requires Valid()
      modifies this
      ensures Valid() && View() == Flushed(o, old(View()), persisted, force, io)
    {
      if !persisted {
        FlushUnpersisted();
        return;
      }
      var started, payload, snapshot := BeginFlush(force, io.begunAt, io.serializes);
      if started {
        EndFlush(snapshot, io.written, io.endedAt);
      }
    }

    /** Seeds a fresh object from the state file, serial by serial up to the cap. */
    method RestoreCoulombs(file: Option<File>, now: real)
      requires Valid() && View() == FRESH
      modifies this, calibrator
      ensures Valid() && View() == Restored(o, file, now)
    {
      freshAt := Some(now);
      if file.None? {
        return;
      }
      RestoreRows(file.value.rows);
      SlotKeys(RestoredSerials(o, file.value.rows));
      calibrator.Restore(file.value.calibration, devices.Keys);
    }

    method RestoreRows(rows: map<Serial, CoulombEntry>)
      requires Valid() && devices == map[] && counters == map[]
      modifies this`devices, this`counters
      ensures devices == Slots(RestoredSerials(o, rows))
      ensures counters == RestoredCounters(rows, RestoredSerials(o, rows))
    {
      var keys := Sorted(rows.Keys);
      NoneKept(rows, keys);
      for i := 0 to |keys|
        invariant RestoredSoFar(rows, keys, i)
      {
        RestoreNext(rows, keys, i);
      }
      KeptAtEnd(o, rows);
    }

    /** Slots and counters are those of the first `i` serials, as far as the cap allows. */
    ghost predicate RestoredSoFar(rows: map<Serial, CoulombEntry>, keys: seq<Serial>, i: nat)
      requires i <= |keys|
      reads this
    {
      var n := KeptOf(o, i);
      && |devices| == n
      && devices == Slots(FirstKeys(keys, n))
      && counters == RestoredCounters(rows, FirstKeys(keys, n))
    }

    /** The next serial, unless the cap is reached. */
    method RestoreNext(rows: map<Serial, CoulombEntry>, keys: seq<Serial>, i: nat)
      requires Ascending(keys) && i < |keys| && keys[i] in rows && RestoredSoFar(rows, keys, i)
      modifies this`devices, this`counters
      ensures RestoredSoFar(rows, keys, i + 1)
    {
      if o.maxDevices == 0 || |devices| < o.maxDevices {
        FirstKeysGrow(keys, i);
        ghost var h := RaiseNine(keys[i], Totals(rows[keys[i]]));
        RestoredOneMore(rows, FirstKeys(keys, i), keys[i], h);
        SlotsGrow(FirstKeys(keys, i), keys[i]);
        devices := devices[keys[i] := NEW_SERIES];
        SlotsCount(keys, i + 1);
      }
    }
  }
}
