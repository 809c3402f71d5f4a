/** With an exact charge balance, the calibrated counters follow the true charge from the first application on. */
module TrueCharge {
  import opened Serials
  import opened LineFit
  import opened Calibration
  import opened CalibratorRuns
  import opened ExactRecovery
  import opened Verdicts
  import opened Accounting
  import opened Protocol
  import opened MachineShape
  import opened Conservation
  import opened Agreement
  import opened Books

  // ---- The offset in force is nothing, then exactly the sensor's ----

  /** The device's hold has been lifted at least once. */
  predicate HasApplied(o: Options, fs: seq<CalibratorRuns.Frame>, sn: Serial)
    requires o.Valid()
  {
    fs != [] &&
    (HasApplied(o, fs[..|fs| - 1], sn)
     || (fs[|fs| - 1].sn == sn && Run(o, fs).LiveOf(sn).hold == NoHold))
  }

  lemma {:induction false} AppliedIsTheOffset(o: Options, fs: seq<CalibratorRuns.Frame>, sn: Serial, offset: real)
    requires o.Valid() && Balanced(o, fs, sn, offset) && Abs(offset) <= o.maxOffsetAmperes
    ensures Run(o, fs).Device(sn).applied == if HasApplied(o, fs, sn) then offset else 0.0
  {
    if fs != [] {
      var init, f := fs[..|fs| - 1], fs[|fs| - 1];
      assert fs == init + [f];
      AppliedIsTheOffset(o, init, sn, offset);
      RunStep(o, init, f);
      if f.sn == sn {
        GateDecides(o, Run(o, init), sn, f.s);
        if Eligible(o, Run(o, fs), sn) {
          OffsetRecovered(o, fs, sn, offset);
        }
      } else {
        OtherFrame(o, Run(o, init), f.sn, f.s, true, sn);
      }
    }
  }

  // ---- The calibrator inside a running process ----

  /** The process is never cut off. */
  predicate Uninterrupted(es: seq<Event>) {
    forall i | 0 <= i < |es| :: !es[i].Die? && !es[i].PowerLoss?
  }

  /** A frame gets as far as the calibrator. */
  predicate Seen(env: Env, s: Machine, sn: Serial, d: RealtimeData) {
    Unlocked(s) && Integrates(env.o, Track(env.o, s.m, sn), sn, d)
  }

  /** The frame the calibrator makes of a delivery; `q` is the charge the pack then holds. */
  function FrameOf(s: Machine, sn: Serial, d: RealtimeData, now: real, q: real): CalibratorRuns.Frame
    requires d.currentA.Some?
  {
    CalibratorRuns.Frame(sn, SampleOf(s.m.rated, sn, d, d.currentA.value, now), q)
  }

  /** What of an event the calibrator sees. */
  function SeenOf(env: Env, s: Machine, e: Event, q: real): seq<CalibratorRuns.Frame> {
    if e.Frame? && Seen(env, s, e.sn, e.d) then [FrameOf(s, e.sn, e.d, e.now, q)] else []
  }

  /** The frames the calibrator sees; `truth` gives the charge the pack holds at each event. */
  function Stream(env: Env, es: seq<Event>, truth: nat -> real): seq<CalibratorRuns.Frame> {
    if es == [] then []
    else
      var before := Exec(env, Boot(env, None), es[..|es| - 1]);
      Stream(env, es[..|es| - 1], truth) + SeenOf(env, before, es[|es| - 1], truth(|es| - 1))
  }

  lemma SeenFrame(env: Env, s: Machine, sn: Serial, d: RealtimeData, now: real, q: real)
    requires Calibrates(env.o) && env.o.calibrationEnabled && Seen(env, s, sn, d)
    ensures OnFrame(env, s, sn, d, now).m.cal
         == Observe(env.o.calibration, s.m.cal, sn, FrameOf(s, sn, d, now, q).s)
  {
    var o, t, cur := env.o, Track(env.o, s.m, sn), d.currentA.value;
    TrackLeaves(o, s.m, sn);
    AccumulateRecords(o, t, Calibrated(o, t, sn, d, cur, now), sn, d, cur, OffsetFor(o, t, sn, d, cur, now), now);
  }

  lemma UnseenFrame(env: Env, s: Machine, sn: Serial, d: RealtimeData, now: real)
    requires Unlocked(s) && !Seen(env, s, sn, d)
    ensures OnFrame(env, s, sn, d, now).m.cal == s.m.cal
    ensures DeltaOf(env.o, s.m, sn, d, now) == NO_PENDING
  {
  }

  lemma StaysUp(env: Env, s: Machine, e: Event)
    requires s.up && !e.Die? && !e.PowerLoss? && Enabled(env, s, e)
    ensures Step(env, s, e).up && !e.Restart?
  {
  }

  lemma StepIsItsRun(env: Env, s: Machine, e: Event, q: real, fs: seq<CalibratorRuns.Frame>)
    requires Calibrates(env.o) && env.o.calibrationEnabled && s.up && !e.Restart? && Enabled(env, s, e)
    requires s.m.cal == Run(env.o.calibration, fs)
    ensures Step(env, s, e).m.cal == Run(env.o.calibration, fs + SeenOf(env, s, e, q))
  {
    assert fs + [] == fs;
    if e.Frame? {
      if Seen(env, s, e.sn, e.d) {
        SeenFrame(env, s, e.sn, e.d, e.now, q);
        RunStep(env.o.calibration, fs, FrameOf(s, e.sn, e.d, e.now, q));
      } else {
        UnseenFrame(env, s, e.sn, e.d, e.now);
      }
    } else {
      StepKeepsMemory(env, s, e);
    }
  }

  lemma NotEnabledNotSeen(env: Env, s: Machine, e: Event, q: real)
    requires !Enabled(env, s, e)
    ensures SeenOf(env, s, e, q) == []
  {
  }

  /** The calibrator of an uninterrupted process is a fresh one run over the frames it saw. */
  lemma {:induction false} CalibratorIsItsRun(env: Env, es: seq<Event>, truth: nat -> real)
    requires Calibrates(env.o) && env.o.calibrationEnabled && Uninterrupted(es)
    ensures var s := Exec(env, Boot(env, None), es);
            s.up && s.m.cal == Run(env.o.calibration, Stream(env, es, truth))
  {
    if es != [] {
      var init, e := es[..|es| - 1], es[|es| - 1];
      var before := Exec(env, Boot(env, None), init);
      CalibratorIsItsRun(env, init, truth);
      var fs := Stream(env, init, truth);
      if Enabled(env, before, e) {
        StaysUp(env, before, e);
        StepIsItsRun(env, before, e, truth(|es| - 1), fs);
      } else {
        NotEnabledNotSeen(env, before, e, truth(|es| - 1));
        assert fs + [] == fs;
      }
    }
  }

  // ---- One interval with the exact offset at both ends ----

  /** The calibrated net is the raw one, less this offset over the step. */
  predicate Corrected(o: Options, live: Live, s: Sample, p: Pending, offset: real)
    requires o.Valid()
  {
    p.calAh.Net() == p.ah.Net() - offset * StepHours(o, live, s)
  }

  /** The calibrated net is the charge gained plus the charge bled. */
  predicate ExactlyCounts(p: Pending, gained: real) {
    p.calAh.Net() == gained + p.balanceAh
  }

  lemma MeanOfSame(a: real, h: real)
    ensures MeanOver(a, a, h) == a * h
  {
  }

  lemma TakenAtOffset(o: Config, m: Shared, sn: Serial, offset: real, s: Sample)
    requires EqualGaps(o) && Baselined(m, sn) && EndsInterval(Tracked(m, sn)) && InForce(o, m, sn) == offset
    ensures Taken(o, m, sn, offset, s.nowSecs) == offset * StepHours(o.calibration, m.cal.LiveOf(sn), s)
  {
    SameHours(o, m.cal.LiveOf(sn), s);
    MeanOfSame(offset, IntervalHours(o, Tracked(m, sn), s.nowSecs));
  }

  lemma CorrectedBy(o: Options, live: Live, s: Sample, p: Pending, offset: real, taken: real)
    requires o.Valid() && NetLess(p, taken) && taken == offset * StepHours(o, live, s)
    ensures Corrected(o, live, s, p, offset)
  {
  }

  /** With the exact offset at both ends, a balanced frame counts the charge gained and bled, and no more. */
  lemma BalancedFrame(o: Options, live: Live, f: CalibratorRuns.Frame, before: real, offset: real, p: Pending)
    requires o.Valid() && live.lastTs.Some? && FrameBalances(o, live, f, before, offset)
    requires Follows(o, live, f.s, p) && Corrected(o, live, f.s, p, offset)
    ensures ExactlyCounts(p, f.q - before)
  {
  }

  lemma CorrectionIsTaken(env: Env, s: Machine, sn: Serial, d: RealtimeData, now: real, offset: real)
    requires env.o.Valid() && Seen(env, s, sn, d) && InForce(env.o, OnFrame(env, s, sn, d, now).m, sn) == offset
    ensures CorrectionOf(env, s, sn, d, now) == Taken(env.o, s.m, sn, offset, now)
  {
  }

  lemma CorrectedByTaken(o: Config, m: Shared, sn: Serial, offset: real, s: Sample, p: Pending)
    requires EqualGaps(o) && Baselined(m, sn) && EndsInterval(Tracked(m, sn)) && InForce(o, m, sn) == offset
    requires NetLess(p, Taken(o, m, sn, offset, s.nowSecs))
    ensures Corrected(o.calibration, m.cal.LiveOf(sn), s, p, offset)
  {
    TakenAtOffset(o, m, sn, offset, s);
    CorrectedBy(o.calibration, m.cal.LiveOf(sn), s, p, offset, Taken(o, m, sn, offset, s.nowSecs));
  }

  // ---- Whole runs ----

  /** Calibrated net charge less bleed, less the charge the pack truly holds. */
  function Discrepancy(amounts: map<Series, real>, sn: Serial, q: real): real {
    NetOf(amounts, CalChargeAh, CalDischargeAh, sn) - Read(amounts, Series(BalanceAh, sn)) - q
  }

  lemma {:induction false} AppliedWasSeen(o: Options, fs: seq<CalibratorRuns.Frame>, sn: Serial)
    requires o.Valid() && HasApplied(o, fs, sn)
    ensures Run(o, fs).LiveOf(sn).lastTs.Some?
  {
    var init, f := fs[..|fs| - 1], fs[|fs| - 1];
    assert fs == init + [f];
    RunStep(o, init, f);
    if f.sn == sn {
      OwnFrame(o, Run(o, init), sn, f.s, true);
    } else {
      AppliedWasSeen(o, init, sn);
      OtherFrame(o, Run(o, init), f.sn, f.s, true, sn);
    }
  }

  lemma FramedKeepsDiscrepancy(s: Machine, m': Shared, k: Serial, p: Pending, sn: Serial, q: real, q': real)
    requires NonNegative(p) && (if k == sn then ExactlyCounts(p, q' - q) else q' == q)
    ensures Discrepancy(Framed(s, m', k, p).integrated, sn, q') == Discrepancy(s.integrated, sn, q)
  {
    FramedFields(s, m', k, p);
    NetGrows(s.integrated, k, p, CalChargeAh, CalDischargeAh, sn);
    AddedReads(s.integrated, k, p, Series(BalanceAh, sn));
  }

  /** Facts of a process of which the calibrator has seen `fs`. */
  ghost predicate Watched(env: Env, s: Machine, fs: seq<CalibratorRuns.Frame>)
    requires env.o.Valid()
  {
    Calibrates(env.o) && EqualGaps(env.o) && s.up && s.m.cal == Run(env.o.calibration, fs) && AllBaselined(s.m) && AllRemember(env.o, s.m)
  }

  lemma InForceIsTheOffset(env: Env, s: Machine, fs: seq<CalibratorRuns.Frame>, sn: Serial, offset: real)
    requires env.o.Valid() && env.o.calibrationEnabled && s.m.cal == Run(env.o.calibration, fs)
    requires Balanced(env.o.calibration, fs, sn, offset) && Abs(offset) <= env.o.calibration.maxOffsetAmperes
    requires HasApplied(env.o.calibration, fs, sn)
    ensures InForce(env.o, s.m, sn) == offset && s.m.cal.LiveOf(sn).lastTs.Some?
  {
    AppliedIsTheOffset(env.o.calibration, fs, sn, offset);
    AppliedWasSeen(env.o.calibration, fs, sn);
  }

  lemma LastBalances(o: Options, fs: seq<CalibratorRuns.Frame>, f: CalibratorRuns.Frame, offset: real)
    requires o.Valid() && Balanced(o, fs + [f], f.sn, offset)
    ensures FrameBalances(o, Run(o, fs).LiveOf(f.sn), f, ChargeAfter(fs, f.sn), offset)
  {
    assert (fs + [f])[..|fs|] == fs;
  }

  lemma AppliedStays(o: Options, fs: seq<CalibratorRuns.Frame>, more: seq<CalibratorRuns.Frame>, sn: Serial)
    requires o.Valid() && HasApplied(o, fs, sn) && |more| <= 1
    ensures HasApplied(o, fs + more, sn)
  {
    assert fs + [] == fs;
    if more != [] {
      assert (fs + more)[..|fs|] == fs;
    }
  }

  lemma BalancedPrefix(o: Options, fs: seq<CalibratorRuns.Frame>, more: seq<CalibratorRuns.Frame>, sn: Serial, offset: real)
    requires o.Valid() && Balanced(o, fs + more, sn, offset) && |more| <= 1
    ensures Balanced(o, fs, sn, offset)
  {
    assert fs + [] == fs;
    if more != [] {
      assert (fs + more)[..|fs|] == fs;
    }
  }

  lemma ChargeOfOne(fs: seq<CalibratorRuns.Frame>, f: CalibratorRuns.Frame, sn: Serial)
    ensures ChargeAfter(fs + [f], sn) == if f.sn == sn then f.q else ChargeAfter(fs, sn)
  {
    assert (fs + [f])[..|fs|] == fs;
  }

  /** A frame of the device itself, the offset applied before it. */
  lemma OwnFrameKeepsDiscrepancy(
      env: Env, s: Machine, fs: seq<CalibratorRuns.Frame>, sn: Serial, d: RealtimeData, now: real, q: real, offset: real)
    requires env.o.Valid() && Watched(env, s, fs) && Seen(env, s, sn, d)
    requires Abs(offset) <= env.o.calibration.maxOffsetAmperes && HasApplied(env.o.calibration, fs, sn)
    requires Balanced(env.o.calibration, fs + [FrameOf(s, sn, d, now, q)], sn, offset)
    requires OnFrame(env, s, sn, d, now).clamps == s.clamps
    ensures Discrepancy(OnFrame(env, s, sn, d, now).integrated, sn, q)
         == Discrepancy(s.integrated, sn, ChargeAfter(fs, sn))
  {
    var o, f := env.o.calibration, FrameOf(s, sn, d, now, q);
    var before := ChargeAfter(fs, sn);
    BalancedPrefix(o, fs, [f], sn, offset);
    AppliedStays(o, fs, [f], sn);
    InForceIsTheOffset(env, s, fs, sn, offset);
    SeenFrame(env, s, sn, d, now, q);
    RunStep(o, fs, f);
    InForceIsTheOffset(env, OnFrame(env, s, sn, d, now), fs + [f], sn, offset);
    LastBalances(o, fs, f, offset);
    var live, p := s.m.cal.LiveOf(sn), DeltaOf(env.o, s.m, sn, d, now);
    assert Baselined(s.m, sn);
    assert Corrected(o, live, f.s, p, offset) by {
      FrameBooks(env, s, sn, d, now);
      CorrectionIsTaken(env, s, sn, d, now, offset);
      CorrectedByTaken(env.o, s.m, sn, offset, f.s, p);
    }
    assert Follows(o, live, f.s, p) by {
      TrackLeaves(env.o, s.m, sn);
      SettledFollows(env.o, Track(env.o, s.m, sn), sn, d, now);
    }
    BalancedFrame(o, live, f, before, offset, p);
    DeltaNonNegative(env.o, s.m, sn, d, now);
    FramedKeepsDiscrepancy(s, Realtime(env.o, s.m, sn, d, now), sn, p, sn, before, q);
  }

  /** Frames of other devices, and frames that are not integrated. */
  lemma ForeignFrameKeepsDiscrepancy(env: Env, s: Machine, k: Serial, d: RealtimeData, now: real, sn: Serial, q: real)
    requires env.o.Valid() && Unlocked(s) && (k == sn ==> !Seen(env, s, k, d))
    ensures Discrepancy(OnFrame(env, s, k, d, now).integrated, sn, q) == Discrepancy(s.integrated, sn, q)
  {
    DeltaNonNegative(env.o, s.m, k, d, now);
    if k == sn {
      UnseenFrame(env, s, k, d, now);
    }
    FramedKeepsDiscrepancy(s, Realtime(env.o, s.m, k, d, now), k, DeltaOf(env.o, s.m, k, d, now), sn, q, q);
  }

  lemma FrameKeepsDiscrepancy(
      env: Env, s: Machine, fs: seq<CalibratorRuns.Frame>, k: Serial, d: RealtimeData, now: real, q: real,
      sn: Serial, offset: real)
    requires env.o.Valid() && Watched(env, s, fs) && Unlocked(s)
    requires Abs(offset) <= env.o.calibration.maxOffsetAmperes && HasApplied(env.o.calibration, fs, sn)
    requires Balanced(env.o.calibration, fs + SeenOf(env, s, Event.Frame(k, d, now), q), sn, offset)
    requires OnFrame(env, s, k, d, now).clamps == s.clamps
    ensures Discrepancy(OnFrame(env, s, k, d, now).integrated, sn,
                        ChargeAfter(fs + SeenOf(env, s, Event.Frame(k, d, now), q), sn))
         == Discrepancy(s.integrated, sn, ChargeAfter(fs, sn))
  {
    if Seen(env, s, k, d) {
      ChargeOfOne(fs, FrameOf(s, k, d, now, q), sn);
      if k == sn {
        OwnFrameKeepsDiscrepancy(env, s, fs, sn, d, now, q, offset);
      } else {
        ForeignFrameKeepsDiscrepancy(env, s, k, d, now, sn, ChargeAfter(fs, sn));
      }
    } else {
      assert fs + [] == fs;
      ForeignFrameKeepsDiscrepancy(env, s, k, d, now, sn, ChargeAfter(fs, sn));
    }
  }

  lemma StepKeepsDiscrepancy(
      env: Env, s: Machine, fs: seq<CalibratorRuns.Frame>, e: Event, q: real, sn: Serial, offset: real)
    requires env.o.Valid() && Watched(env, s, fs) && Enabled(env, s, e) && !e.Restart?
    requires Abs(offset) <= env.o.calibration.maxOffsetAmperes && HasApplied(env.o.calibration, fs, sn)
    requires Balanced(env.o.calibration, fs + SeenOf(env, s, e, q), sn, offset)
    requires Step(env, s, e).clamps == s.clamps
    ensures Discrepancy(Step(env, s, e).integrated, sn, ChargeAfter(fs + SeenOf(env, s, e, q), sn))
         == Discrepancy(s.integrated, sn, ChargeAfter(fs, sn))
  {
    if e.Frame? {
      FrameKeepsDiscrepancy(env, s, fs, e.sn, e.d, e.now, q, sn, offset);
    } else {
      assert fs + [] == fs;
      StepKeepsMemory(env, s, e);
    }
  }

  lemma IsWatched(env: Env, es: seq<Event>, truth: nat -> real)
    requires Calibrates(env.o) && EqualGaps(env.o) && Uninterrupted(es)
    ensures Watched(env, Exec(env, Boot(env, None), es), Stream(env, es, truth))
  {
    CalibratorIsItsRun(env, es, truth);
    CalibratorIntegrates(env.o);
    RunBaselines(env, None, es);
    RunRemembers(env, None, es);
  }

  /** How far the calibrated counters are from the true charge after the events. */
  function DiscrepancyAfter(env: Env, es: seq<Event>, truth: nat -> real, sn: Serial): real
    requires env.o.Valid()
  {
    Discrepancy(Exec(env, Boot(env, None), es).integrated, sn, ChargeAfter(Stream(env, es, truth), sn))
  }

  /** One event more leaves the discrepancy alone, once the offset is in force. */
  lemma OneEventMore(env: Env, init: seq<Event>, e: Event, truth: nat -> real, sn: Serial, offset: real)
    requires Calibrates(env.o) && EqualGaps(env.o) && Uninterrupted(init + [e])
    requires Abs(offset) <= env.o.calibration.maxOffsetAmperes
    requires Balanced(env.o.calibration, Stream(env, init + [e], truth), sn, offset)
    requires Exec(env, Boot(env, None), init + [e]).clamps == Exec(env, Boot(env, None), init).clamps
    requires HasApplied(env.o.calibration, Stream(env, init, truth), sn)
    ensures HasApplied(env.o.calibration, Stream(env, init + [e], truth), sn)
    ensures DiscrepancyAfter(env, init + [e], truth, sn) == DiscrepancyAfter(env, init, truth, sn)
  {
    var before, fs, q := Exec(env, Boot(env, None), init), Stream(env, init, truth), truth(|init|);
    assert (init + [e])[..|init|] == init && (init + [e])[|init|] == e;
    UninterruptedBefore(init, e);
    AppliedStays(env.o.calibration, fs, SeenOf(env, before, e, q), sn);
    if Enabled(env, before, e) {
      IsWatched(env, init, truth);
      StaysUp(env, before, e);
      StepKeepsDiscrepancy(env, before, fs, e, q, sn, offset);
    } else {
      NotEnabledNotSeen(env, before, e, q);
      assert fs + [] == fs;
    }
  }

  /** Still balanced before the last event, and no more was cut. */
  lemma BeforeLast(env: Env, init: seq<Event>, e: Event, truth: nat -> real, sn: Serial, offset: real)
    requires env.o.Valid() && Balanced(env.o.calibration, Stream(env, init + [e], truth), sn, offset)
    requires Exec(env, Boot(env, None), init + [e]).clamps == 0
    ensures Balanced(env.o.calibration, Stream(env, init, truth), sn, offset)
    ensures Exec(env, Boot(env, None), init).clamps == 0
  {
    var before, fs, q := Exec(env, Boot(env, None), init), Stream(env, init, truth), truth(|init|);
    assert (init + [e])[..|init|] == init && (init + [e])[|init|] == e;
    BalancedPrefix(env.o.calibration, fs, SeenOf(env, before, e, q), sn, offset);
    if Enabled(env, before, e) {
      ClampsOnlyGrow(env, before, e);
    }
  }

  lemma {:induction false} DiscrepancyStays(
      env: Env, first: seq<Event>, more: seq<Event>, truth: nat -> real, sn: Serial, offset: real)
    requires Calibrates(env.o) && EqualGaps(env.o) && Uninterrupted(first + more)
    requires Abs(offset) <= env.o.calibration.maxOffsetAmperes
    requires Balanced(env.o.calibration, Stream(env, first + more, truth), sn, offset)
    requires Exec(env, Boot(env, None), first + more).clamps == 0
    requires HasApplied(env.o.calibration, Stream(env, first, truth), sn)
    ensures HasApplied(env.o.calibration, Stream(env, first + more, truth), sn)
    ensures DiscrepancyAfter(env, first + more, truth, sn) == DiscrepancyAfter(env, first, truth, sn)
    decreases |more|
  {
    if more == [] {
      assert first + more == first;
    } else {
      var init, e := more[..|more| - 1], more[|more| - 1];
      assert first + more == first + init + [e];
      BeforeLast(env, first + init, e, truth, sn, offset);
      UninterruptedBefore(first + init, e);
      DiscrepancyStays(env, first, init, truth, sn, offset);
      OneEventMore(env, first + init, e, truth, sn, offset);
    }
  }

  lemma UninterruptedBefore(init: seq<Event>, e: Event)
    requires Uninterrupted(init + [e])
    ensures Uninterrupted(init) && !e.Die? && !e.PowerLoss?
  {
    assert (init + [e])[|init|] == e;
    assert forall i | 0 <= i < |init| :: init[i] == (init + [e])[i];
  }

  /**
   * Calibrated counters are exact. Let the charge balance hold with a constant sensor offset within the
   * ceiling, and no ceiling cut a frame. From the first application on, the calibrated net charge a
   * process integrates is the charge the pack truly gained plus what was bled from it, whatever frames,
   * flushes and failed writes come in between.
   */
  lemma CalibratedCountersAreExact(
      env: Env, first: seq<Event>, more: seq<Event>, truth: nat -> real, sn: Serial, offset: real)
    requires Calibrates(env.o) && EqualGaps(env.o) && Uninterrupted(first + more)
    requires Abs(offset) <= env.o.calibration.maxOffsetAmperes
    requires Balanced(env.o.calibration, Stream(env, first + more, truth), sn, offset)
    requires Exec(env, Boot(env, None), first + more).clamps == 0
    requires HasApplied(env.o.calibration, Stream(env, first, truth), sn)
    ensures var a, b := Exec(env, Boot(env, None), first).integrated, Exec(env, Boot(env, None), first + more).integrated;
            var bleed := Series(BalanceAh, sn);
            NetOf(b, CalChargeAh, CalDischargeAh, sn) - NetOf(a, CalChargeAh, CalDischargeAh, sn)
            == ChargeAfter(Stream(env, first + more, truth), sn) - ChargeAfter(Stream(env, first, truth), sn)
               + Read(b, bleed) - Read(a, bleed)
  {
    DiscrepancyStays(env, first, more, truth, sn, offset);
  }

  // ---- What is exported ----

  /** No flush is under way, and the device has nothing queued. */
  predicate Quiet(s: Machine, sn: Serial) {
    s.phase.Idle? && Tracked(s.m, sn).pending == NO_PENDING
  }

  lemma {:induction false} NothingRestored(env: Env, es: seq<Event>)
    requires Uninterrupted(es)
    ensures Exec(env, Boot(env, None), es).up && Exec(env, Boot(env, None), es).base == map[]
  {
    if es != [] {
      var init, e := es[..|es| - 1], es[|es| - 1];
      var before := Exec(env, Boot(env, None), init);
      NothingRestored(env, init);
      if Enabled(env, before, e) {
        StaysUp(env, before, e);
        if !e.Frame? {
          StepKeepsMemory(env, before, e);
        }
      }
    }
  }

  lemma QuietExports(env: Env, es: seq<Event>, t: Series, eps: real)
    requires env.o.Valid() && Nudges(env.o.bump, eps) && eps >= 0.0 && Uninterrupted(es)
    requires Quiet(Exec(env, Boot(env, None), es), t.sn)
    ensures var s := Exec(env, Boot(env, None), es);
            Read(s.m.counters, t) == Read(s.integrated, t)
  {
    NothingRestored(env, es);
    ConservationOverRuns(env, None, es, eps, t);
  }

  /**
   * So are the exported counters, between any two moments with nothing queued or in flight: their
   * calibrated net charge rises by the charge the pack truly gained plus what was bled.
   */
  lemma ExportedCountersAreExact(
      env: Env, first: seq<Event>, more: seq<Event>, truth: nat -> real, sn: Serial, offset: real, eps: real)
    requires Calibrates(env.o) && EqualGaps(env.o) && Nudges(env.o.bump, eps) && eps >= 0.0 && Uninterrupted(first + more)
    requires Abs(offset) <= env.o.calibration.maxOffsetAmperes
    requires Balanced(env.o.calibration, Stream(env, first + more, truth), sn, offset)
    requires Exec(env, Boot(env, None), first + more).clamps == 0
    requires HasApplied(env.o.calibration, Stream(env, first, truth), sn)
    requires Quiet(Exec(env, Boot(env, None), first), sn) && Quiet(Exec(env, Boot(env, None), first + more), sn)
    ensures var a, b := Exec(env, Boot(env, None), first).m.counters, Exec(env, Boot(env, None), first + more).m.counters;
            var bleed := Series(BalanceAh, sn);
            NetOf(b, CalChargeAh, CalDischargeAh, sn) - NetOf(a, CalChargeAh, CalDischargeAh, sn)
            == ChargeAfter(Stream(env, first + more, truth), sn) - ChargeAfter(Stream(env, first, truth), sn)
               + Read(b, bleed) - Read(a, bleed)
  {
    CalibratedCountersAreExact(env, first, more, truth, sn, offset);
    assert forall i | 0 <= i < |first| :: first[i] == (first + more)[i];
    QuietReadsIntegrated(env, first, sn, eps);
    QuietReadsIntegrated(env, first + more, sn, eps);
  }

  lemma QuietReadsIntegrated(env: Env, es: seq<Event>, sn: Serial, eps: real)
    requires env.o.Valid() && Nudges(env.o.bump, eps) && eps >= 0.0 && Uninterrupted(es)
    requires Quiet(Exec(env, Boot(env, None), es), sn)
    ensures var s := Exec(env, Boot(env, None), es);
            && NetOf(s.m.counters, CalChargeAh, CalDischargeAh, sn) == NetOf(s.integrated, CalChargeAh, CalDischargeAh, sn)
            && Read(s.m.counters, Series(BalanceAh, sn)) == Read(s.integrated, Series(BalanceAh, sn))
  {
    QuietExports(env, es, Series(CalChargeAh, sn), eps);
    QuietExports(env, es, Series(CalDischargeAh, sn), eps);
    QuietExports(env, es, Series(BalanceAh, sn), eps);
  }
}
