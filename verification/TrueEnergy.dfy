/** With an exact charge balance, the calibrated energy is that of the true current from the first application on. */
module TrueEnergy {
  import opened Serials
  import opened LineFit
  import opened Calibration
  import opened CalibratorRuns
  import opened ExactRecovery
  import opened Accounting
  import opened Protocol
  import opened Conservation
  import opened Agreement
  import opened Books
  import opened TrueCharge
  import opened Ledger

  /** Energy of the true current over an interval: the readings less the sensor's offset, times the voltages. */
  function TruePower(o: Config, p: Reading, r: Reading, offset: real): real
    requires o.Valid()
  {
    if p.volts.Some? && r.volts.Some? then
      MeanOver((p.amps - offset) * p.volts.value, (r.amps - offset) * r.volts.value, Hours(o, p, r))
    else 0.0
  }

  /** And over all intervals of the log. */
  function TrueWh(o: Config, log: seq<Reading>, offset: real): real
    requires o.Valid()
  {
    if |log| < 2 then 0.0
    else TrueWh(o, log[..|log| - 1], offset) + TruePower(o, log[|log| - 2], log[|log| - 1], offset)
  }

  /** How far the calibrated energy is from the true energy. */
  function EnergyError(o: Config, log: seq<Reading>, offset: real): real
    requires o.Valid()
  {
    NetWh(o, log, CalChargeWh, CalDischargeWh) - TrueWh(o, log, offset)
  }

  lemma PowerAtOffset(o: Config, p: Reading, r: Reading, offset: real)
    requires o.Valid() && p.offset == offset && r.offset == offset
    ensures Mean(o, p, r, CalChargeWh) == TruePower(o, p, r, offset)
  {
  }

  lemma IntervalKeepsError(o: Config, log: seq<Reading>, r: Reading, offset: real)
    requires o.Valid() && log != [] && log[|log| - 1].offset == offset && r.offset == offset
    ensures EnergyError(o, log + [r], offset) == EnergyError(o, log, offset)
  {
    assert (log + [r])[..|log|] == log && (log + [r])[|log| - 1] == log[|log| - 1];
    SumOneMore(o, log, r, CalChargeWh, false);
    SumOneMore(o, log, r, CalDischargeWh, false);
    PowerAtOffset(o, log[|log| - 1], r, offset);
  }

  // ---- The log once the offset is in force ----

  predicate EndsAt(log: seq<Reading>, offset: real) {
    log != [] && log[|log| - 1].offset == offset
  }

  lemma SlotAtOffset(o: Config, m: Shared, log: seq<Reading>, sn: Serial, offset: real)
    requires Ledger.Follows(m, log, sn) && Baselined(m, sn) && Remembers(o, m, sn)
    requires m.cal.LiveOf(sn).lastTs.Some? && InForce(o, m, sn) == offset
    ensures EndsAt(log, offset)
  {
  }

  /** Uncut, uninterrupted, balanced with this offset, and the offset applied. */
  ghost predicate SinceApplied(env: Env, es: seq<Event>, truth: nat -> real, sn: Serial, offset: real) {
    && Calibrates(env.o) && EqualGaps(env.o) && Uninterrupted(es)
    && Abs(offset) <= env.o.calibration.maxOffsetAmperes
    && Exec(env, Boot(env, None), es).clamps == 0
    && Balanced(env.o.calibration, Stream(env, es, truth), sn, offset)
    && HasApplied(env.o.calibration, Stream(env, es, truth), sn)
  }

  lemma LogAtOffset(env: Env, es: seq<Event>, truth: nat -> real, sn: Serial, offset: real)
    requires SinceApplied(env, es, truth, sn, offset)
    ensures EndsAt(Log(env, None, es, sn), offset)
  {
    var s, fs := Exec(env, Boot(env, None), es), Stream(env, es, truth);
    IsWatched(env, es, truth);
    InForceIsTheOffset(env, s, fs, sn, offset);
    RunKept(env, None, es, sn);
    assert Baselined(s.m, sn) && Remembers(env.o, s.m, sn);
    SlotAtOffset(env.o, s.m, Log(env, None, es, sn), sn, offset);
  }

  lemma LogGrowsByOne(env: Env, es: seq<Event>, e: Event, sn: Serial)
    requires Uninterrupted(es)
    ensures var log, more := Log(env, None, es, sn), Log(env, None, es + [e], sn);
            more == log || (more != [] && more == log + [more[|more| - 1]])
  {
    assert (es + [e])[..|es|] == es && (es + [e])[|es|] == e;
    NothingRestored(env, es);
  }

  lemma OneMoreKeepsError(env: Env, es: seq<Event>, e: Event, truth: nat -> real, sn: Serial, offset: real)
    requires SinceApplied(env, es, truth, sn, offset) && SinceApplied(env, es + [e], truth, sn, offset)
    ensures EnergyError(env.o, Log(env, None, es + [e], sn), offset) == EnergyError(env.o, Log(env, None, es, sn), offset)
  {
    var log, more := Log(env, None, es, sn), Log(env, None, es + [e], sn);
    LogAtOffset(env, es, truth, sn, offset);
    LogAtOffset(env, es + [e], truth, sn, offset);
    LogGrowsByOne(env, es, e, sn);
    if more != log {
      IntervalKeepsError(env.o, log, more[|more| - 1], offset);
    }
  }

  /** The hypotheses after more events, the application aside. */
  ghost predicate StillExact(env: Env, es: seq<Event>, truth: nat -> real, sn: Serial, offset: real) {
    && env.o.Valid() && Uninterrupted(es)
    && Exec(env, Boot(env, None), es).clamps == 0
    && Balanced(env.o.calibration, Stream(env, es, truth), sn, offset)
  }

  lemma ExactBefore(env: Env, init: seq<Event>, e: Event, es: seq<Event>, truth: nat -> real, sn: Serial, offset: real)
    requires es == init + [e] && StillExact(env, es, truth, sn, offset)
    ensures StillExact(env, init, truth, sn, offset)
  {
    BeforeLast(env, init, e, truth, sn, offset);
    UninterruptedBefore(init, e);
  }

  lemma StaysApplied(env: Env, init: seq<Event>, e: Event, es: seq<Event>, truth: nat -> real, sn: Serial, offset: real)
    requires es == init + [e] && SinceApplied(env, init, truth, sn, offset) && StillExact(env, es, truth, sn, offset)
    ensures SinceApplied(env, es, truth, sn, offset)
    ensures EnergyError(env.o, Log(env, None, es, sn), offset) == EnergyError(env.o, Log(env, None, init, sn), offset)
  {
    OneEventMore(env, init, e, truth, sn, offset);
    OneMoreKeepsError(env, init, e, truth, sn, offset);
  }

  lemma LastApart(first: seq<Event>, more: seq<Event>, es: seq<Event>)
    requires es == first + more && more != []
    ensures es == (first + more[..|more| - 1]) + [more[|more| - 1]]
  {
  }

  lemma {:induction false} ErrorStays(
      env: Env, first: seq<Event>, more: seq<Event>, es: seq<Event>, truth: nat -> real, sn: Serial, offset: real)
    requires es == first + more && SinceApplied(env, first, truth, sn, offset) && StillExact(env, es, truth, sn, offset)
    ensures SinceApplied(env, es, truth, sn, offset)
    ensures EnergyError(env.o, Log(env, None, es, sn), offset) == EnergyError(env.o, Log(env, None, first, sn), offset)
    decreases |more|
  {
    if more == [] {
      assert es == first;
    } else {
      var k := |more| - 1;
      var init := first + more[..k];
      LastApart(first, more, es);
      ExactBefore(env, init, more[k], es, truth, sn, offset);
      ErrorStays(env, first, more[..k], init, truth, sn, offset);
      StaysApplied(env, init, more[k], es, truth, sn, offset);
    }
  }

  lemma UncutNet(env: Env, es: seq<Event>, sn: Serial)
    requires env.o.Valid() && Exec(env, Boot(env, None), es).clamps == 0
    ensures NetOf(Exec(env, Boot(env, None), es).integrated, CalChargeWh, CalDischargeWh, sn)
         == NetWh(env.o, Log(env, None, es, sn), CalChargeWh, CalDischargeWh)
  {
    RunKept(env, None, es, sn);
  }

  /**
   * Calibrated energy is exact. With the charge balanced, a constant sensor offset within the ceiling and
   * no frame cut: from the first application on, the calibrated net energy a process integrates is that of
   * the true current, interval by interval, whatever frames, flushes and failed writes come in between.
   */
  lemma CalibratedEnergyIsExact(
      env: Env, first: seq<Event>, more: seq<Event>, truth: nat -> real, sn: Serial, offset: real)
    requires SinceApplied(env, first, truth, sn, offset) && StillExact(env, first + more, truth, sn, offset)
    ensures var a, b := Exec(env, Boot(env, None), first).integrated, Exec(env, Boot(env, None), first + more).integrated;
            NetOf(b, CalChargeWh, CalDischargeWh, sn) - NetOf(a, CalChargeWh, CalDischargeWh, sn)
            == TrueWh(env.o, Log(env, None, first + more, sn), offset) - TrueWh(env.o, Log(env, None, first, sn), offset)
  {
    ErrorStays(env, first, more, first + more, truth, sn, offset);
    UncutNet(env, first, sn);
    UncutNet(env, first + more, sn);
  }
}
