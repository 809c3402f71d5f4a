/** No served counter is ever above what the disk may hold, and a restart never lowers one. */
module CrashSafety {
  import opened Serials
  import opened LineFit
  import opened Calibration
  import opened Accounting
  import opened CounterFacts
  import opened Protocol
  import opened MachineShape

  // ---- The write-ahead invariant ----

  /** What the write that has returned, or is being applied, is still to add to a counter. */
  function Rising(phase: Phase, t: Series): real {
    match phase
    case Returned(ok, snapshot) => if ok then PartOf(snapshot, t) else 0.0
    case Applying(todo) => Read(todo, t)
    case _ => 0.0
  }

  ghost predicate CoversCounters(f: Option<File>, m: Shared, phase: Phase) {
    forall t :: Read(m.counters, t) + Rising(phase, t) <= FileTotal(f, t)
  }

  ghost predicate CoversSnapshot(f: File, m: Shared, snapshot: map<Serial, Pending>) {
    forall t :: Read(m.counters, t) + PartOf(snapshot, t) <= FileTotal(Some(f), t)
  }

  ghost predicate PayloadAhead(m: Shared, phase: Phase) {
    match phase
    case Writing(f, snapshot) => CoversSnapshot(f, m, snapshot)
    case Renamed(f, snapshot) => CoversSnapshot(f, m, snapshot)
    case _ => true
  }

  /** No value ever served is above what any content the disk may hold gives. */
  ghost predicate ServedIsDurable(s: Machine) {
    forall f, p | f in s.disk && p in s.served :: p.1 <= FileTotal(f, p.0)
  }

  ghost predicate Ahead(s: Machine) {
    && ServedIsDurable(s)
    && (s.up ==>
          && (forall p | p in s.served :: p.1 <= Read(s.m.counters, p.0))
          && (forall f | f in s.disk :: CoversCounters(f, s.m, s.phase))
          && PayloadAhead(s.m, s.phase))
  }

  lemma PayloadIsAhead(o: Config, m: Shared, eps: real)
    requires SharedOk(o, m) && Nudges(o.bump, eps) && eps >= 0.0
    ensures CoversSnapshot(Payload(o, m), m, Snapshot(m))
  {
    var f := Some(Payload(o, m));
    forall t ensures Read(m.counters, t) + PartOf(Snapshot(m), t) <= FileTotal(f, t) {
      PayloadTotal(o, m, t);
      ReadNonNegative(o, m, t);
      if t.sn in m.devices {
        assert Part(m.devices[t.sn].pending, t.counter) >= 0.0;
        NudgeUp(o.bump, eps, Read(m.counters, t) + Part(m.devices[t.sn].pending, t.counter));
      }
    }
  }

  // ---- Each step keeps it ----

  ghost predicate Inv(env: Env, s: Machine) {
    Shape(env, s) && Ahead(s)
  }

  /** Steps that leave counters, phase and disk alone. */
  lemma QuietKeepsAhead(s: Machine, s': Machine)
    requires Ahead(s) && s.up
    requires s'.up && s'.phase == s.phase && s'.disk == s.disk && s'.served == s.served && s'.m.counters == s.m.counters
    ensures Ahead(s')
  {
    forall f | f in s'.disk ensures CoversCounters(f, s'.m, s'.phase) {
      assert CoversCounters(f, s.m, s.phase);
    }
  }

  lemma FrameKeepsAhead(env: Env, s: Machine, sn: Serial, d: RealtimeData, now: real)
    requires env.o.Valid() && Ahead(s) && Unlocked(s)
    ensures Ahead(OnFrame(env, s, sn, d, now))
  {
    FrameEffect(env.o, s.m, sn, d, now);
    FramedFields(s, Realtime(env.o, s.m, sn, d, now), sn, DeltaOf(env.o, s.m, sn, d, now));
    QuietKeepsAhead(s, OnFrame(env, s, sn, d, now));
  }

  lemma BegunKeepsAhead(s: Machine, payload: File, forced: bool)
    requires Ahead(s) && Unlocked(s) && s.phase.Idle? && CoversSnapshot(payload, s.m, Snapshot(s.m))
    ensures Ahead(Begun(s, payload, forced))
  {
    var s' := Begun(s, payload, forced);
    assert CoversSnapshot(payload, s'.m, Snapshot(s.m));
    forall f | f in s'.disk ensures CoversCounters(f, s'.m, s'.phase) {
      assert CoversCounters(f, s.m, s.phase);
    }
  }

  lemma BeginKeepsAhead(env: Env, s: Machine, force: bool, serializes: bool, eps: real)
    requires env.o.Valid() && Inv(env, s) && Unlocked(s) && Nudges(env.o.bump, eps) && eps >= 0.0
    ensures Ahead(OnBegin(env, s, force, serializes))
  {
    if Writes(env.o, s.m, force, s.clock) && serializes {
      PayloadIsAhead(env.o, s.m, eps);
      BegunKeepsAhead(s, Payload(env.o, s.m), force);
    } else {
      QuietKeepsAhead(s, OnBegin(env, s, force, serializes));
    }
  }

  lemma WriteFailsKeepsAhead(env: Env, s: Machine)
    requires Inv(env, s) && s.up && s.phase.Writing?
    ensures Ahead(s.(phase := Returned(false, s.phase.snapshot)))
  {
    var s' := s.(phase := Returned(false, s.phase.snapshot));
    forall f | f in s'.disk ensures CoversCounters(f, s'.m, s'.phase) {
      assert CoversCounters(f, s.m, s.phase);
    }
  }

  /** The new content is ahead of the counters, so of everything served. */
  lemma PayloadCovers(s: Machine, payload: File, snapshot: map<Serial, Pending>)
    requires s.up && (forall p | p in s.served :: p.1 <= Read(s.m.counters, p.0)) && CoversSnapshot(payload, s.m, snapshot)
    ensures forall p | p in s.served :: p.1 <= FileTotal(Some(payload), p.0)
    ensures forall t :: Read(s.m.counters, t) <= FileTotal(Some(payload), t)
  {
    forall t ensures Read(s.m.counters, t) <= FileTotal(Some(payload), t) {
      assert PartOf(snapshot, t) >= 0.0;
    }
  }

  lemma RenameKeepsAhead(env: Env, s: Machine)
    requires Inv(env, s) && s.up && s.phase.Writing?
    ensures Ahead(OnRename(s))
  {
    var s' := OnRename(s);
    PayloadCovers(s, s.phase.payload, s.phase.snapshot);
    forall f | f in s'.disk ensures CoversCounters(f, s'.m, s'.phase) {
      if f in s.disk {
        assert CoversCounters(f, s.m, s.phase);
      }
    }
  }

  lemma SyncKeepsAhead(env: Env, s: Machine, outcome: DirSync)
    requires Inv(env, s) && s.up && s.phase.Renamed? && !outcome.Skipped?
    ensures Ahead(OnSync(s, outcome))
  {
    var s' := OnSync(s, outcome);
    PayloadCovers(s, s.phase.payload, s.phase.snapshot);
    forall f | f in s'.disk ensures CoversCounters(f, s'.m, s'.phase) {
      if outcome.Failed? {
        assert CoversCounters(f, s.m, s.phase);
      }
    }
  }

  lemma ResumeOkKeepsAhead(env: Env, s: Machine)
    requires Inv(env, s) && s.up && s.phase.Returned? && s.phase.ok
    ensures Ahead(OnResume(s))
  {
    var s' := OnResume(s);
    forall t ensures Rising(s'.phase, t) == Rising(s.phase, t) {
      TodoReads(s.phase.snapshot, t);
    }
    forall f | f in s'.disk ensures CoversCounters(f, s'.m, s'.phase) {
      assert CoversCounters(f, s.m, s.phase);
    }
  }

  lemma ResumeFailedKeepsAhead(env: Env, s: Machine)
    requires Inv(env, s) && s.up && s.phase.Returned? && !s.phase.ok
    ensures Ahead(OnResume(s))
  {
    var s' := OnResume(s);
    forall f | f in s'.disk ensures CoversCounters(f, s'.m, s'.phase) {
      assert CoversCounters(f, s.m, s.phase);
    }
  }

  lemma RaiseKeepsAhead(env: Env, s: Machine, t: Series)
    requires Inv(env, s) && s.up && s.phase.Applying? && t in s.phase.todo
    ensures Ahead(s.(m := s.m.(counters := Raise(s.m.counters, t, s.phase.todo[t])), phase := Applying(s.phase.todo - {t})))
  {
    var s' := s.(m := s.m.(counters := Raise(s.m.counters, t, s.phase.todo[t])), phase := Applying(s.phase.todo - {t}));
    forall u
      ensures Read(s'.m.counters, u) + Rising(s'.phase, u) == Read(s.m.counters, u) + Rising(s.phase, u)
      ensures Read(s'.m.counters, u) >= Read(s.m.counters, u)
    {
      RaiseReads(s.m.counters, t, s.phase.todo[t], u);
    }
    forall f | f in s'.disk ensures CoversCounters(f, s'.m, s'.phase) {
      assert CoversCounters(f, s.m, s.phase);
    }
  }

  lemma ReleaseKeepsAhead(env: Env, s: Machine)
    requires Inv(env, s) && s.up && s.phase.Applying? && s.phase.todo == map[]
    ensures Ahead(s.(m := s.m.(freshAt := Some(s.clock), writing := false), phase := Idle))
  {
    var s' := s.(m := s.m.(freshAt := Some(s.clock), writing := false), phase := Idle);
    forall f | f in s'.disk ensures CoversCounters(f, s'.m, s'.phase) {
      assert CoversCounters(f, s.m, s.phase);
      assert forall t :: Rising(s.phase, t) == 0.0;
    }
  }

  lemma ScrapeKeepsAhead(env: Env, s: Machine, t: Series)
    requires Inv(env, s) && s.up
    ensures Ahead(s.(served := s.served + {(t, Read(s.m.counters, t))}))
  {
    var s' := s.(served := s.served + {(t, Read(s.m.counters, t))});
    forall f, p | f in s'.disk && p in s'.served ensures p.1 <= FileTotal(f, p.0) {
      assert CoversCounters(f, s.m, s.phase);
      RisingNonNegative(env, s, t);
    }
  }

  lemma RisingNonNegative(env: Env, s: Machine, t: Series)
    requires Inv(env, s) && s.up
    ensures Rising(s.phase, t) >= 0.0
  {
  }

  /** A process restarted on a settled disk starts where everything served is. */
  lemma RestartKeepsAhead(env: Env, s: Machine)
    requires env.o.Valid() && Inv(env, s) && Settled(s)
    ensures Ahead(OnRestart(env, s))
  {
    var s' := OnRestart(env, s);
    RestoredOk(env.o, s.visible, s.clock);
    forall p | p in s'.served ensures p.1 <= Read(s'.m.counters, p.0) {
      assert s.visible in s.disk;
    }
  }

  /** Fewer contents are left to a power loss; the process goes on or not. */
  lemma DiskShrinks(s: Machine, s': Machine)
    requires Ahead(s) && s'.disk <= s.disk && s'.served == s.served
    requires s'.up ==> s.up && s'.m == s.m && s'.phase == s.phase
    ensures Ahead(s')
  {
    forall f | f in s'.disk && s'.up ensures CoversCounters(f, s'.m, s'.phase) {
      assert CoversCounters(f, s.m, s.phase);
    }
  }

  // ---- Runs ----

  lemma FlushKeepsAhead(env: Env, s: Machine, e: Event)
    requires Inv(env, s) && Enabled(env, s, e) && (e.SyncDirectory? ==> !e.outcome.Skipped?)
    requires e.WriteFails? || e.Rename? || e.SyncDirectory? || e.Resume? || e.RaiseOne? || e.Release?
    ensures Ahead(Step(env, s, e))
  {
    match e
    case WriteFails => WriteFailsKeepsAhead(env, s);
    case Rename => RenameKeepsAhead(env, s);
    case SyncDirectory(outcome) => SyncKeepsAhead(env, s, outcome);
    case Resume =>
      if s.phase.ok {
        ResumeOkKeepsAhead(env, s);
      } else {
        ResumeFailedKeepsAhead(env, s);
      }
    case RaiseOne(t) => RaiseKeepsAhead(env, s, t);
    case Release => ReleaseKeepsAhead(env, s);
  }

  lemma OutsideKeepsAhead(env: Env, s: Machine, e: Event)
    requires Inv(env, s) && Enabled(env, s, e) && (e.Tick? || e.Settle? || e.Die? || e.PowerLoss?)
    ensures Ahead(Step(env, s, e))
  {
    DiskShrinks(s, Step(env, s, e));
  }

  lemma SlotKeepsAhead(env: Env, s: Machine, e: Event)
    requires Ahead(s) && Enabled(env, s, e) && (e.ConfigFrame? || e.Reserve?)
    ensures Ahead(Step(env, s, e))
  {
    QuietKeepsAhead(s, Step(env, s, e));
  }

  lemma StepKeepsInv(env: Env, s: Machine, e: Event, eps: real)
    requires env.o.Valid() && Nudges(env.o.bump, eps) && eps >= 0.0 && Inv(env, s) && Enabled(env, s, e)
    requires (e.SyncDirectory? ==> !e.outcome.Skipped?) && (e.Restart? ==> Settled(s))
    ensures Inv(env, Step(env, s, e))
  {
    StepKeepsShape(env, s, e, eps);
    if e.Frame? {
      FrameKeepsAhead(env, s, e.sn, e.d, e.now);
    } else if e.ConfigFrame? || e.Reserve? {
      SlotKeepsAhead(env, s, e);
    } else if e.Begin? {
      BeginKeepsAhead(env, s, e.force, e.serializes, eps);
    } else if e.Scrape? {
      ScrapeKeepsAhead(env, s, e.scraped);
    } else if e.Tick? || e.Settle? || e.Die? || e.PowerLoss? {
      OutsideKeepsAhead(env, s, e);
    } else if e.Restart? {
      RestartKeepsAhead(env, s);
    } else {
      FlushKeepsAhead(env, s, e);
    }
  }

  lemma BootInv(env: Env, file: Option<File>)
    requires env.o.Valid() && FileOk(env.o, file)
    ensures Inv(env, Boot(env, file))
  {
    RestoredOk(env.o, file, 0.0);
    var s := Boot(env, file);
    forall f | f in s.disk ensures CoversCounters(f, s.m, s.phase) {
      assert f == file;
    }
  }

  /** Every restart of the run finds the disk settled. */
  predicate RestartsSettled(env: Env, s: Machine, es: seq<Event>) {
    es != [] ==>
      var before, e := Exec(env, s, es[..|es| - 1]), es[|es| - 1];
      RestartsSettled(env, s, es[..|es| - 1]) && (e.Restart? && Enabled(env, before, e) ==> Settled(before))
  }

  lemma {:induction false} RunKeepsInv(env: Env, file: Option<File>, es: seq<Event>, eps: real)
    requires env.o.Valid() && env.path.SyncsDirectory() && Nudges(env.o.bump, eps) && eps >= 0.0
    requires FileOk(env.o, file) && RestartsSettled(env, Boot(env, file), es)
    ensures Inv(env, Exec(env, Boot(env, file), es))
  {
    if es == [] {
      BootInv(env, file);
    } else {
      RunKeepsInv(env, file, es[..|es| - 1], eps);
      var before := Exec(env, Boot(env, file), es[..|es| - 1]);
      if Enabled(env, before, es[|es| - 1]) {
        StepKeepsInv(env, before, es[|es| - 1], eps);
      }
    }
  }

  /**
   * Crash-safe monotonicity, for runs in which every restart finds the disk settled. However frames,
   * flushes, write failures, scrapes between single increments, deaths of the process, power losses and
   * restarts interleave, every content a power loss may leave gives at least every value ever served,
   * and a process restarted on any of them starts at least there, and at least where the last one stood.
   */
  lemma CrashSafeMonotonicity(env: Env, file: Option<File>, es: seq<Event>, eps: real)
    requires env.o.Valid() && env.path.SyncsDirectory() && Nudges(env.o.bump, eps) && eps >= 0.0
    requires FileOk(env.o, file) && RestartsSettled(env, Boot(env, file), es)
    ensures var s := Exec(env, Boot(env, file), es);
            && ServedIsDurable(s)
            && (forall f, p, now | f in s.disk && p in s.served ::
                  p.1 <= Read(Restored(env.o, f, now).counters, p.0))
            && (s.up ==> forall f, t, now | f in s.disk ::
                  Read(s.m.counters, t) <= Read(Restored(env.o, f, now).counters, t))
  {
    RunKeepsInv(env, file, es, eps);
    var s := Exec(env, Boot(env, file), es);
    forall f, now: real | f in s.disk ensures forall t :: Read(Restored(env.o, f, now).counters, t) == FileTotal(f, t) {
      RestoredOk(env.o, f, now);
    }
    if s.up {
      forall f, t | f in s.disk ensures Read(s.m.counters, t) <= FileTotal(f, t) {
        assert CoversCounters(f, s.m, s.phase);
        RisingNonNegative(env, s, t);
      }
    }
  }

  // ---- Deaths of the process alone ----

  /** The machine, were the disk to hold nothing but what is visible. */
  function Seen(s: Machine): Machine {
    s.(disk := {s.visible})
  }

  lemma SeenCommutes(env: Env, s: Machine, e: Event)
    requires Enabled(env, s, e) && !e.Rename? && !e.SyncDirectory? && !e.PowerLoss?
    ensures Enabled(env, Seen(s), e) && Seen(Step(env, s, e)) == Step(env, Seen(s), e)
  {
  }

  lemma SeenWriteKeepsAhead(env: Env, s: Machine)
    requires Inv(env, Seen(s)) && s.up
    ensures s.phase.Writing? ==> Ahead(Seen(OnRename(s)))
    ensures s.phase.Renamed? ==> forall outcome :: Ahead(Seen(OnSync(s, outcome)))
  {
    if s.phase.Writing? {
      RenameKeepsAhead(env, Seen(s));
      DiskShrinks(OnRename(Seen(s)), Seen(OnRename(s)));
    } else if s.phase.Renamed? {
      SyncKeepsAhead(env, Seen(s), Failed);
      SyncKeepsAhead(env, Seen(s), Synced);
    }
  }

  lemma SeenStepKeepsAhead(env: Env, s: Machine, e: Event, eps: real)
    requires env.o.Valid() && Nudges(env.o.bump, eps) && eps >= 0.0
    requires Inv(env, Seen(s)) && Enabled(env, s, e) && !e.PowerLoss?
    ensures Ahead(Seen(Step(env, s, e)))
  {
    if e.Rename? || e.SyncDirectory? {
      SeenWriteKeepsAhead(env, s);
    } else {
      SeenCommutes(env, s, e);
      StepKeepsInv(env, Seen(s), e, eps);
    }
  }

  predicate NoPowerLoss(es: seq<Event>) {
    forall i | 0 <= i < |es| :: !es[i].PowerLoss?
  }

  /**
   * While the power holds, deaths and restarts of the process never lower a counter, with or without
   * a directory fsync: what is visible gives at least every value ever served.
   */
  lemma {:induction false} DeathAloneIsSafe(env: Env, file: Option<File>, es: seq<Event>, eps: real)
    requires env.o.Valid() && Nudges(env.o.bump, eps) && eps >= 0.0 && FileOk(env.o, file) && NoPowerLoss(es)
    ensures var s := Exec(env, Boot(env, file), es);
            Ahead(Seen(s)) && forall p | p in s.served :: p.1 <= FileTotal(s.visible, p.0)
  {
    if es == [] {
      BootInv(env, file);
    } else {
      DeathAloneIsSafe(env, file, es[..|es| - 1], eps);
      var before := Exec(env, Boot(env, file), es[..|es| - 1]);
      if Enabled(env, before, es[|es| - 1]) {
        RunKeepsShape(env, file, es[..|es| - 1], eps);
        SeenStepKeepsAhead(env, before, es[|es| - 1], eps);
      }
    }
  }
}
