/** The offset in force in the running service: within the hard clamp across restarts, moved by one kind of step only. */
module Offsets {
  import opened Serials
  import opened LineFit
  import opened Calibration
  import opened CalibratorRuns
  import opened Verdicts
  import opened Accounting
  import opened Protocol
  import opened MachineShape
  import opened Agreement
  import opened Books

  ghost predicate MemoryClamped(o: Options, c: Cal) {
    forall k :: WithinClamp(o, c.Device(k))
  }

  ghost predicate FileClamped(o: Options, f: Option<File>) {
    forall k :: WithinClamp(o, Learned(f, k))
  }

  ghost predicate PayloadClamped(o: Options, phase: Phase) {
    phase.Writing? || phase.Renamed? ==> FileClamped(o, Some(phase.payload))
  }

  /** No offset outside the clamp: not in memory, not in any content of the disk, not in a file being written. */
  ghost predicate Clamped(o: Options, s: Machine) {
    && MemoryClamped(o, s.m.cal)
    && PayloadClamped(o, s.phase)
    && (forall f | f in s.disk :: FileClamped(o, f))
  }

  lemma ObserveClamps(o: Options, c: Cal, sn: Serial, s: Sample)
    requires o.Valid() && MemoryClamped(o, c)
    ensures MemoryClamped(o, Observe(o, c, sn, s))
  {
    forall k ensures WithinClamp(o, Observe(o, c, sn, s).Device(k)) {
      assert WithinClamp(o, c.Device(k));
      if k == sn {
        OwnFrameWithinClamp(o, c, sn, s);
      } else {
        OtherFrame(o, c, sn, s, true, k);
      }
    }
  }

  /** What a frame does to the calibrator: nothing, or one observation of its own device. */
  lemma FrameObserves(env: Env, s: Machine, sn: Serial, d: RealtimeData, now: real)
    requires Calibrates(env.o)
    ensures var c := OnFrame(env, s, sn, d, now).m.cal;
            c == s.m.cal || exists sample :: c == Observe(env.o.calibration, s.m.cal, sn, sample)
  {
    var o, t := env.o, Track(env.o, s.m, sn);
    TrackLeaves(o, s.m, sn);
    if Integrates(o, t, sn, d) {
      var cur := d.currentA.value;
      var sample := SampleOf(t.rated, sn, d, cur, now);
      AccumulateRecords(o, t, Calibrated(o, t, sn, d, cur, now), sn, d, cur, OffsetFor(o, t, sn, d, cur, now), now);
      assert o.observe(t.cal, sn, sample) == Observe(o.calibration, t.cal, sn, sample);
    }
  }

  lemma FrameClamps(env: Env, s: Machine, sn: Serial, d: RealtimeData, now: real)
    requires Calibrates(env.o) && Clamped(env.o.calibration, s)
    ensures Clamped(env.o.calibration, OnFrame(env, s, sn, d, now))
  {
    var s' := OnFrame(env, s, sn, d, now);
    FramedFields(s, Realtime(env.o, s.m, sn, d, now), sn, DeltaOf(env.o, s.m, sn, d, now));
    FrameObserves(env, s, sn, d, now);
    if s'.m.cal != s.m.cal {
      var sample :| s'.m.cal == Observe(env.o.calibration, s.m.cal, sn, sample);
      ObserveClamps(env.o.calibration, s.m.cal, sn, sample);
    }
  }

  lemma RestoredClamped(o: Config, f: Option<File>, now: real)
    requires o.Valid() && FileClamped(o.calibration, f)
    ensures MemoryClamped(o.calibration, Restored(o, f, now).cal)
  {
    var c := Restored(o, f, now).cal;
    forall k ensures WithinClamp(o.calibration, c.Device(k)) {
      assert WithinClamp(o.calibration, Learned(f, k));
      assert c.Device(k) == Learned(f, k) || c.Device(k) == NEW_DEVICE;
    }
  }

  lemma PayloadIsClamped(o: Config, m: Shared)
    requires MemoryClamped(o.calibration, m.cal)
    ensures FileClamped(o.calibration, Some(Payload(o, m)))
  {
    forall k ensures WithinClamp(o.calibration, Learned(Some(Payload(o, m)), k)) {
      assert WithinClamp(o.calibration, m.cal.Device(k));
    }
  }

  lemma BeginClamps(env: Env, s: Machine, force: bool, serializes: bool)
    requires Clamped(env.o.calibration, s)
    ensures Clamped(env.o.calibration, OnBegin(env, s, force, serializes))
  {
    PayloadIsClamped(env.o, s.m);
  }

  lemma OtherStepClamps(env: Env, s: Machine, e: Event)
    requires Clamped(env.o.calibration, s) && Enabled(env, s, e) && !e.Frame? && !e.Restart? && !e.Begin?
    requires s.visible in s.disk
    ensures Clamped(env.o.calibration, Step(env, s, e))
  {
    StepKeepsMemory(env, s, e);
  }

  lemma StepClamps(env: Env, s: Machine, e: Event)
    requires Calibrates(env.o) && Clamped(env.o.calibration, s) && s.visible in s.disk && Enabled(env, s, e)
    ensures Clamped(env.o.calibration, Step(env, s, e))
  {
    if e.Frame? {
      FrameClamps(env, s, e.sn, e.d, e.now);
    } else if e.Restart? {
      RestoredClamped(env.o, s.visible, s.clock);
    } else if e.Begin? {
      BeginClamps(env, s, e.force, e.serializes);
    } else {
      OtherStepClamps(env, s, e);
    }
  }

  /**
   * In every run from a file that keeps to the clamp, or from none, no offset ever leaves it: in memory,
   * in a file being written or in anything the disk may hold, deaths, power losses and restarts included.
   */
  lemma {:induction false} OffsetsStayClamped(env: Env, file: Option<File>, es: seq<Event>, eps: real)
    requires Calibrates(env.o) && FileClamped(env.o.calibration, file)
    requires Nudges(env.o.bump, eps) && eps >= 0.0 && FileOk(env.o, file)
    ensures Clamped(env.o.calibration, Exec(env, Boot(env, file), es))
  {
    if es == [] {
      RestoredClamped(env.o, file, 0.0);
    } else {
      OffsetsStayClamped(env, file, es[..|es| - 1], eps);
      RunKeepsShape(env, file, es[..|es| - 1], eps);
      var before := Exec(env, Boot(env, file), es[..|es| - 1]);
      if Enabled(env, before, es[|es| - 1]) {
        StepClamps(env, before, es[|es| - 1]);
      }
    }
  }

  /**
   * In whatever state: a step other than a restart moves the offset in force for a device only if it is
   * a frame of that device which leaves the hold lifted, every condition met; then the offset is the
   * clamped slope.
   */
  lemma OffsetMovesOnOwnFrame(env: Env, s: Machine, e: Event, sn: Serial)
    requires Calibrates(env.o) && Enabled(env, s, e) && !e.Restart?
    requires InForce(env.o, Step(env, s, e).m, sn) != InForce(env.o, s.m, sn)
    ensures e.Frame? && e.sn == sn
    ensures var c := Step(env, s, e).m.cal;
            && c.LiveOf(sn).hold == NoHold && Eligible(env.o.calibration, c, sn)
            && InForce(env.o, Step(env, s, e).m, sn) == ClampedSlope(env.o.calibration, c.Device(sn))
  {
    if e.Frame? {
      FrameObserves(env, s, e.sn, e.d, e.now);
      var sample :| Step(env, s, e).m.cal == Observe(env.o.calibration, s.m.cal, e.sn, sample);
      if e.sn == sn {
        GateDecides(env.o.calibration, s.m.cal, sn, sample);
      } else {
        OtherFrame(env.o.calibration, s.m.cal, e.sn, sample, true, sn);
      }
    } else {
      StepKeepsMemory(env, s, e);
    }
  }

  /** A restart takes each offset as the file has it, clamped or not. */
  lemma RestartTakesStoredOffset(o: Config, f: File, now: real, sn: Serial)
    requires sn in f.calibration.devices && sn in RestoredSerials(o, f.rows)
    ensures Restored(o, Some(f), now).cal.Device(sn).applied == f.calibration.devices[sn].applied
  {
  }
}
