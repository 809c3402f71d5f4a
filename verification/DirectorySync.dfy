/** What crash safety stands on: a directory fsync, and restarts that find the disk settled. */
module DirectorySync {
  import opened Serials
  import opened LineFit
  import opened Calibration
  import opened Accounting
  import opened CounterFacts
  import opened Protocol
  import opened MachineShape
  import opened CrashSafety

  // ---- Without a directory fsync a run serves a value the disk may not hold ----

  const PROBE := RealtimeData(None, Some(1.0), None, None)

  function ProbePair(sn: Serial): seq<Event> {
    [Frame(sn, PROBE, 0.0)] + [Frame(sn, PROBE, 1.0)]
  }

  function ProbeRun(sn: Serial): seq<Event> {
    ProbePair(sn) + [Begin(true, true)] + [Rename] + [SyncDirectory(Skipped)]
    + [Resume] + [RaiseOne(Series(ChargeAh, sn))] + [Scrape(Series(ChargeAh, sn))]
  }

  lemma ExecMore(env: Env, s: Machine, es: seq<Event>, e: Event)
    requires env.o.Valid() && Enabled(env, Exec(env, s, es), e)
    ensures Exec(env, s, es + [e]) == Step(env, Exec(env, s, es), e)
  {
    assert (es + [e])[..|es|] == es;
  }

  /** A first probe frame sets the baseline. */
  lemma FirstProbe(o: Config, m: Shared, sn: Serial)
    requires o.Valid() && m.devices == map[]
    ensures var m1 := Realtime(o, m, sn, PROBE, 0.0);
            && sn in m1.devices && m1.counters == m.counters && m1.devices[sn].pending.ah.charge >= 0.0
            && m1.devices[sn].lastTs == Some(0.0) && m1.devices[sn].lastCurrent == Some(1.0)
  {
    assert Track(o, m, sn).devices == map[sn := NEW_SERIES];
    ProbeBaseline(o, Track(o, m, sn), sn);
  }

  /** A second one leaves charge pending. */
  lemma SecondProbe(o: Config, m: Shared, sn: Serial)
    requires o.Valid() && o.maxGapSecs > 0.0 && sn in m.devices && m.devices[sn].pending.ah.charge >= 0.0
    requires m.devices[sn].lastTs == Some(0.0) && m.devices[sn].lastCurrent == Some(1.0)
    ensures var m' := Realtime(o, m, sn, PROBE, 1.0);
            sn in m'.devices && m'.devices[sn].pending.ah.charge > 0.0 && m'.counters == m.counters
  {
    FrameEffect(o, m, sn, PROBE, 1.0);
    ProbeDelta(o, m, sn, OffsetFor(o, m, sn, PROBE, 1.0, 1.0));
  }

  lemma ProbeFrames(o: Config, m: Shared, sn: Serial)
    requires o.Valid() && o.maxGapSecs > 0.0 && m.devices == map[]
    ensures var m2 := Realtime(o, Realtime(o, m, sn, PROBE, 0.0), sn, PROBE, 1.0);
            sn in m2.devices && m2.devices[sn].pending.ah.charge > 0.0 && m2.counters == m.counters
  {
    FirstProbe(o, m, sn);
    SecondProbe(o, Realtime(o, m, sn, PROBE, 0.0), sn);
  }

  lemma ProbeBaseline(o: Config, m: Shared, sn: Serial)
    requires o.Valid() && sn in m.devices && m.devices[sn] == NEW_SERIES
    ensures var m1 := Accumulate(o, m, sn, PROBE, 0.0);
            && sn in m1.devices && m1.counters == m.counters && m1.devices[sn].pending.ah.charge >= 0.0
            && m1.devices[sn].lastTs == Some(0.0) && m1.devices[sn].lastCurrent == Some(1.0)
  {
    var offset := OffsetFor(o, m, sn, PROBE, 1.0, 0.0);
    AccumulateRecords(o, m, Calibrated(o, m, sn, PROBE, 1.0, 0.0), sn, PROBE, 1.0, offset, 0.0);
    DeltaAtNonNegative(o, m, sn, PROBE, 1.0, offset, 0.0);
    assert Part(DeltaAt(o, m, sn, PROBE, 1.0, offset, 0.0), ChargeAh) >= 0.0;
  }

  lemma ProbeDelta(o: Config, m: Shared, sn: Serial, offset: real)
    requires o.Valid() && o.maxGapSecs > 0.0
    requires Tracked(m, sn).lastTs == Some(0.0) && Tracked(m, sn).lastCurrent == Some(1.0)
    ensures DeltaAt(o, m, sn, PROBE, 1.0, offset, 1.0).ah.charge > 0.0
  {
    assert TrapezoidHours(1.0, 1.0, 1.0, o.maxGapSecs).charge > 0.0;
  }

  lemma ExecTwoMore(env: Env, s: Machine, es: seq<Event>, e: Event, e': Event)
    requires env.o.Valid() && Enabled(env, Exec(env, s, es), e)
    requires Enabled(env, Step(env, Exec(env, s, es), e), e')
    ensures Exec(env, s, es + [e] + [e']) == Step(env, Step(env, Exec(env, s, es), e), e')
  {
    ExecMore(env, s, es, e);
    ExecMore(env, s, es + [e], e');
  }

  /** Charge is pending, nothing is exported, and the old content is still what the disk may hold. */
  ghost predicate Charged(s: Machine, sn: Serial) {
    && s.up && s.phase.Idle? && !s.m.writing && None in s.disk
    && sn in s.m.devices && s.m.devices[sn].pending.ah.charge > 0.0
    && Read(s.m.counters, Series(ChargeAh, sn)) == 0.0
  }

  lemma ProbeCharges(env: Env, sn: Serial)
    requires env.o.Valid() && env.o.maxGapSecs > 0.0
    ensures Charged(Exec(env, Boot(env, None), ProbePair(sn)), sn)
  {
    var s := Boot(env, None);
    assert Exec(env, s, []) == s;
    assert [] + [Frame(sn, PROBE, 0.0)] == [Frame(sn, PROBE, 0.0)];
    var s1 := OnFrame(env, s, sn, PROBE, 0.0);
    var s2 := OnFrame(env, s1, sn, PROBE, 1.0);
    FramedFields(s, Realtime(env.o, s.m, sn, PROBE, 0.0), sn, DeltaOf(env.o, s.m, sn, PROBE, 0.0));
    FramedFields(s1, Realtime(env.o, s1.m, sn, PROBE, 1.0), sn, DeltaOf(env.o, s1.m, sn, PROBE, 1.0));
    ExecTwoMore(env, s, [], Frame(sn, PROBE, 0.0), Frame(sn, PROBE, 1.0));
    ProbeFrames(env.o, s.m, sn);
    FrameEffect(env.o, s.m, sn, PROBE, 0.0);
    FrameEffect(env.o, s1.m, sn, PROBE, 1.0);
  }

  /** A flush whose directory fsync is skipped leaves the deltas ready to apply, the old content still possible. */
  ghost predicate Applies(s: Machine, t: Series) {
    && s.up && s.phase.Applying? && None in s.disk
    && t in s.phase.todo && s.phase.todo[t] > 0.0 && Read(s.m.counters, t) == 0.0
  }

  lemma SkippedFlushApplies(env: Env, es: seq<Event>, sn: Serial)
    requires env.o.Valid() && !env.path.SyncsDirectory()
    requires Charged(Exec(env, Boot(env, None), es), sn)
    ensures Applies(Exec(env, Boot(env, None), es + [Begin(true, true)] + [Rename] + [SyncDirectory(Skipped)] + [Resume]),
                    Series(ChargeAh, sn))
  {
    var boot, t := Boot(env, None), Series(ChargeAh, sn);
    var s := Exec(env, boot, es);
    ExecTwoMore(env, boot, es, Begin(true, true), Rename);
    var es2 := es + [Begin(true, true)] + [Rename];
    ExecTwoMore(env, boot, es2, SyncDirectory(Skipped), Resume);
    RaisedSeries(Snapshot(s.m), t);
  }

  lemma ProbeServes(env: Env, sn: Serial)
    requires env.o.Valid() && env.o.maxGapSecs > 0.0 && !env.path.SyncsDirectory()
    ensures !ServedIsDurable(Exec(env, Boot(env, None), ProbeRun(sn)))
  {
    var boot, t := Boot(env, None), Series(ChargeAh, sn);
    ProbeCharges(env, sn);
    SkippedFlushApplies(env, ProbePair(sn), sn);
    var es := ProbePair(sn) + [Begin(true, true)] + [Rename] + [SyncDirectory(Skipped)] + [Resume];
    var s := Exec(env, boot, es);
    ExecTwoMore(env, boot, es, RaiseOne(t), Scrape(t));
    var s' := Exec(env, boot, ProbeRun(sn));
    assert (t, s.phase.todo[t]) in s'.served && None in s'.disk;
  }

  // ---- Nor do fsyncs help a process restarted before the disk has settled ----

  /** The process dies between rename and directory fsync, another serves what it reads, the power fails. */
  function UnsettledRun(sn: Serial): seq<Event> {
    ProbePair(sn) + [Begin(true, true)] + [Rename] + [Die] + [Restart] + [Scrape(Series(ChargeAh, sn))] + [PowerLoss(None)]
  }

  /** A dead process has left two contents on the disk, and more charge in the visible one. */
  ghost predicate Unsettled(s: Machine, t: Series) {
    !s.up && None in s.disk && FileTotal(s.visible, t) > 0.0
  }

  lemma DiesUnsettled(env: Env, sn: Serial, eps: real)
    requires env.o.Valid() && env.o.maxGapSecs > 0.0 && Nudges(env.o.bump, eps) && eps >= 0.0
    ensures Unsettled(Exec(env, Boot(env, None), ProbePair(sn) + [Begin(true, true)] + [Rename] + [Die]), Series(ChargeAh, sn))
  {
    var boot, t, es := Boot(env, None), Series(ChargeAh, sn), ProbePair(sn);
    ProbeCharges(env, sn);
    var s := Exec(env, boot, es);
    PayloadTotal(env.o, s.m, t);
    NudgeUp(env.o.bump, eps, s.m.devices[sn].pending.ah.charge);
    ExecTwoMore(env, boot, es, Begin(true, true), Rename);
    ExecMore(env, boot, es + [Begin(true, true)] + [Rename], Die);
  }

  lemma RestartServes(env: Env, es: seq<Event>, t: Series, eps: real)
    requires env.o.Valid() && !env.settledRestarts && Nudges(env.o.bump, eps) && eps >= 0.0
    requires Unsettled(Exec(env, Boot(env, None), es), t)
    ensures var s := Exec(env, Boot(env, None), es + [Restart] + [Scrape(t)]);
            None in s.disk && exists v :: v > 0.0 && (t, v) in s.served
  {
    var s := Exec(env, Boot(env, None), es);
    RunKeepsShape(env, None, es, eps);
    RestoredOk(env.o, s.visible, s.clock);
    ExecTwoMore(env, Boot(env, None), es, Restart, Scrape(t));
    assert (t, FileTotal(s.visible, t)) in Exec(env, Boot(env, None), es + [Restart] + [Scrape(t)]).served;
  }

  /** After that run the disk holds nothing of what was served, although every durable write syncs its directory. */
  lemma UnsettledRestartServes(env: Env, sn: Serial, eps: real)
    requires env.o.Valid() && env.o.maxGapSecs > 0.0 && Nudges(env.o.bump, eps) && eps >= 0.0 && !env.settledRestarts
    ensures !ServedIsDurable(Exec(env, Boot(env, None), UnsettledRun(sn)))
    ensures Exec(env, Boot(env, None), UnsettledRun(sn)).disk == {None}
  {
    var boot, t := Boot(env, None), Series(ChargeAh, sn);
    var es := ProbePair(sn) + [Begin(true, true)] + [Rename] + [Die];
    DiesUnsettled(env, sn, eps);
    RestartServes(env, es, t, eps);
    ExecMore(env, boot, es + [Restart] + [Scrape(t)], PowerLoss(None));
    var v :| v > 0.0 && (t, v) in Exec(env, boot, es + [Restart] + [Scrape(t)]).served;
    assert (t, v) in Exec(env, boot, UnsettledRun(sn)).served;
  }

  // ---- Exactly then ----

  lemma {:induction false} AlwaysSettled(env: Env, s: Machine, es: seq<Event>)
    requires env.settledRestarts
    ensures RestartsSettled(env, s, es)
  {
    if es != [] {
      AlwaysSettled(env, s, es[..|es| - 1]);
    }
  }

  /**
   * Exactly when crash safety holds on every run from an empty disk: if and only if every durable write
   * ends with a directory fsync and no process is restarted before the disk has settled.
   */
  lemma CrashSafeExactly(env: Env, eps: real)
    requires env.o.Valid() && env.o.maxGapSecs > 0.0 && Nudges(env.o.bump, eps) && eps >= 0.0
    ensures env.path.SyncsDirectory() && env.settledRestarts
       <==> forall es :: ServedIsDurable(Exec(env, Boot(env, None), es))
  {
    if !env.path.SyncsDirectory() {
      ProbeServes(env, "");
    } else if !env.settledRestarts {
      UnsettledRestartServes(env, "", eps);
    } else {
      forall es ensures ServedIsDurable(Exec(env, Boot(env, None), es)) {
        AlwaysSettled(env, Boot(env, None), es);
        CrashSafeMonotonicity(env, None, es, eps);
      }
    }
  }
}
