/** No delta is lost or counted twice, and the nudges of the file do not compound. */
module Conservation {
  import opened Serials
  import opened LineFit
  import opened Calibration
  import opened Accounting
  import opened CounterFacts
  import opened Protocol
  import opened MachineShape
  import opened CrashSafety

  /** Deltas of a series that no flush has taken yet. */
  function Queued(m: Shared, t: Series): real {
    Part(Tracked(m, t.sn).pending, t.counter)
  }

  /** Deltas of a series that a flush has taken and not yet exported or put back. */
  function InFlight(phase: Phase, t: Series): real {
    match phase
    case Idle => 0.0
    case Writing(_, snapshot) => PartOf(snapshot, t)
    case Renamed(_, snapshot) => PartOf(snapshot, t)
    case Returned(_, snapshot) => PartOf(snapshot, t)
    case Applying(todo) => Read(todo, t)
  }

  /** Everything this process started with or integrated is exported, queued or in flight, once. */
  ghost predicate Accounted(s: Machine) {
    forall t :: Read(s.m.counters, t) + Queued(s.m, t) + InFlight(s.phase, t) == Read(s.base, t) + Read(s.integrated, t)
  }

  /** As much as `n` nudges of a file can add. */
  function Nudged(n: nat, eps: real): real {
    if n == 0 then 0.0 else Nudged(n - 1, eps) + eps
  }

  ghost predicate Within(f: Option<File>, lifetime: map<Series, real>, slack: real) {
    forall t :: FileTotal(f, t) <= Read(lifetime, t) + slack
  }

  ghost predicate PayloadWithin(phase: Phase, lifetime: map<Series, real>, slack: real) {
    match phase
    case Writing(f, _) => Within(Some(f), lifetime, slack)
    case Renamed(f, _) => Within(Some(f), lifetime, slack)
    case _ => true
  }

  /** A process is ahead of all deltas ever integrated by a nudge per restart, a file by one more. */
  ghost predicate Bounded(s: Machine, eps: real) {
    && (forall f | f in s.disk :: Within(f, s.lifetime, Nudged(s.restarts + 1, eps)))
    && (s.up ==>
          && (forall t :: Read(s.base, t) + Read(s.integrated, t) <= Read(s.lifetime, t) + Nudged(s.restarts, eps))
          && PayloadWithin(s.phase, s.lifetime, Nudged(s.restarts + 1, eps)))
  }

  ghost predicate Conserved(s: Machine, eps: real) {
    (s.up ==> Accounted(s)) && Bounded(s, eps)
  }

  // ---- Frames and slots ----

  lemma OtherSlotsKept(o: Config, m: Shared, m': Shared, sn: Serial, other: Serial)
    requires SlotsTouched(o, m.devices, m'.devices, sn) && other != sn
    ensures Tracked(m', other) == Tracked(m, other)
  {
  }

  /** What a slot's queue gains when a frame adds `delta`. */
  lemma QueuedGrows(o: Config, m: Shared, m': Shared, sn: Serial, delta: Pending, t: Series)
    requires SlotsTouched(o, m.devices, m'.devices, sn)
    requires Tracked(m', sn).pending == Tracked(m, sn).pending.Plus(delta)
    ensures Queued(m', t) == Queued(m, t) + if t.sn == sn then Part(delta, t.counter) else 0.0
  {
    if t.sn == sn {
      PlusParts(Tracked(m, sn).pending, delta, t.counter);
    } else {
      OtherSlotsKept(o, m, m', sn, t.sn);
    }
  }

  lemma AddedReads(counters: map<Series, real>, sn: Serial, delta: Pending, t: Series)
    requires NonNegative(delta)
    ensures Read(Applied(counters, map[sn := delta]), t)
         == Read(counters, t) + if t.sn == sn then Part(delta, t.counter) else 0.0
  {
    AppliedReads(counters, map[sn := delta], t);
    assert Part(delta, t.counter) >= 0.0;
  }

  lemma WithinGrows(f: Option<File>, lifetime: map<Series, real>, lifetime': map<Series, real>, slack: real)
    requires Within(f, lifetime, slack) && (forall t :: Read(lifetime, t) <= Read(lifetime', t))
    ensures Within(f, lifetime', slack)
  {
    forall t ensures FileTotal(f, t) <= Read(lifetime', t) + slack {
      assert FileTotal(f, t) <= Read(lifetime, t) + slack;
    }
  }

  lemma FramedAccounted(env: Env, s: Machine, s': Machine, sn: Serial, delta: Pending)
    requires Accounted(s) && NonNegative(delta)
    requires SlotsTouched(env.o, s.m.devices, s'.m.devices, sn)
    requires Tracked(s'.m, sn).pending == Tracked(s.m, sn).pending.Plus(delta)
    requires s'.m.counters == s.m.counters && s'.phase == s.phase && s'.base == s.base
    requires s'.integrated == Applied(s.integrated, map[sn := delta])
    ensures Accounted(s')
  {
    forall t
      ensures Read(s'.m.counters, t) + Queued(s'.m, t) + InFlight(s'.phase, t) == Read(s'.base, t) + Read(s'.integrated, t)
    {
      QueuedGrows(env.o, s.m, s'.m, sn, delta, t);
      AddedReads(s.integrated, sn, delta, t);
    }
  }

  /** The lifetime total rises with the process's own. */
  lemma FramedRises(s: Machine, m': Shared, sn: Serial, delta: Pending, t: Series)
    requires NonNegative(delta)
    ensures var s' := Framed(s, m', sn, delta);
            && Read(s'.lifetime, t) >= Read(s.lifetime, t)
            && Read(s'.lifetime, t) - Read(s.lifetime, t) == Read(s'.integrated, t) - Read(s.integrated, t)
  {
    FramedFields(s, m', sn, delta);
    AddedReads(s.integrated, sn, delta, t);
    AddedReads(s.lifetime, sn, delta, t);
    assert Part(delta, t.counter) >= 0.0;
  }

  lemma FramedBounded(s: Machine, m': Shared, sn: Serial, delta: Pending, eps: real)
    requires Bounded(s, eps) && s.up && NonNegative(delta)
    ensures Bounded(Framed(s, m', sn, delta), eps)
  {
    var s' := Framed(s, m', sn, delta);
    FramedFields(s, m', sn, delta);
    forall t
      ensures Read(s.lifetime, t) <= Read(s'.lifetime, t)
      ensures Read(s'.base, t) + Read(s'.integrated, t) <= Read(s'.lifetime, t) + Nudged(s.restarts, eps)
    {
      FramedRises(s, m', sn, delta, t);
    }
    var slack := Nudged(s.restarts + 1, eps);
    forall f | f in s'.disk ensures Within(f, s'.lifetime, slack) {
      WithinGrows(f, s.lifetime, s'.lifetime, slack);
    }
    if s.phase.Writing? || s.phase.Renamed? {
      WithinGrows(Some(s.phase.payload), s.lifetime, s'.lifetime, slack);
    }
  }

  lemma FrameConserves(env: Env, s: Machine, sn: Serial, d: RealtimeData, now: real, eps: real)
    requires env.o.Valid() && Conserved(s, eps) && Unlocked(s)
    ensures Conserved(OnFrame(env, s, sn, d, now), eps)
  {
    FrameEffect(env.o, s.m, sn, d, now);
    DeltaNonNegative(env.o, s.m, sn, d, now);
    var m', delta := Realtime(env.o, s.m, sn, d, now), DeltaOf(env.o, s.m, sn, d, now);
    FramedFields(s, m', sn, delta);
    FramedAccounted(env, s, Framed(s, m', sn, delta), sn, delta);
    FramedBounded(s, m', sn, delta, eps);
  }

  /** Steps that move nothing but between counters, queues and flight, and leave the disk no higher. */
  lemma HoldingConserves(s: Machine, s': Machine, eps: real)
    requires Conserved(s, eps) && s.up && s'.up
    requires s'.base == s.base && s'.integrated == s.integrated && s'.lifetime == s.lifetime && s'.restarts == s.restarts
    requires forall t :: Read(s'.m.counters, t) + Queued(s'.m, t) + InFlight(s'.phase, t)
                      == Read(s.m.counters, t) + Queued(s.m, t) + InFlight(s.phase, t)
    requires forall f | f in s'.disk :: Within(f, s.lifetime, Nudged(s.restarts + 1, eps))
    requires PayloadWithin(s'.phase, s.lifetime, Nudged(s.restarts + 1, eps))
    ensures Conserved(s', eps)
  {
  }

  /** Steps under the lock that change neither counters nor any queue. */
  lemma QuietConserves(s: Machine, m': Shared, eps: real)
    requires Conserved(s, eps) && s.up && m'.counters == s.m.counters
    requires forall sn :: Tracked(m', sn).pending == Tracked(s.m, sn).pending
    ensures Conserved(s.(m := m'), eps)
  {
    forall t ensures Queued(m', t) == Queued(s.m, t) {
    }
    HoldingConserves(s, s.(m := m'), eps);
  }

  lemma SlotConserves(env: Env, s: Machine, e: Event, eps: real)
    requires Conserved(s, eps) && Enabled(env, s, e) && (e.ConfigFrame? || e.Reserve?)
    ensures Conserved(Step(env, s, e), eps)
  {
    if e.ConfigFrame? {
      QuietConserves(s, Configure(env.o, s.m, e.cfgSn, e.ratedAh), eps);
    } else {
      QuietConserves(s, Admit(env.o, s.m, e.newSn), eps);
    }
  }

  // ---- The flush ----

  lemma TakenIsInFlight(o: Config, m: Shared, t: Series)
    requires SharedOk(o, m)
    ensures PartOf(Snapshot(m), t) == Queued(m, t)
    ensures Queued(m.(devices := Emptied(m.devices), writing := true), t) == 0.0
  {
    if t.sn in m.devices {
      assert Part(m.devices[t.sn].pending, t.counter) >= 0.0;
    }
  }

  lemma PayloadBounded(env: Env, s: Machine, eps: real)
    requires Shape(env, s) && Conserved(s, eps) && Unlocked(s) && s.phase.Idle?
    requires Nudges(env.o.bump, eps) && eps >= 0.0
    ensures Within(Some(Payload(env.o, s.m)), s.lifetime, Nudged(s.restarts + 1, eps))
  {
    forall t ensures FileTotal(Some(Payload(env.o, s.m)), t) <= Read(s.lifetime, t) + Nudged(s.restarts + 1, eps) {
      PayloadTotal(env.o, s.m, t);
      ReadNonNegative(env.o, s.m, t);
      assert Read(s.m.counters, t) + Queued(s.m, t) <= Read(s.lifetime, t) + Nudged(s.restarts, eps);
      if t.sn in s.m.devices {
        assert Part(s.m.devices[t.sn].pending, t.counter) >= 0.0;
        NudgeUp(env.o.bump, eps, Read(s.m.counters, t) + Queued(s.m, t));
      }
    }
  }

  lemma BeginConserves(env: Env, s: Machine, force: bool, serializes: bool, eps: real)
    requires Shape(env, s) && Conserved(s, eps) && Unlocked(s) && Nudges(env.o.bump, eps) && eps >= 0.0
    ensures Conserved(OnBegin(env, s, force, serializes), eps)
  {
    var s' := OnBegin(env, s, force, serializes);
    if Writes(env.o, s.m, force, s.clock) && serializes {
      PayloadBounded(env, s, eps);
      forall t ensures Queued(s'.m, t) + InFlight(s'.phase, t) == Queued(s.m, t) + InFlight(s.phase, t) {
        TakenIsInFlight(env.o, s.m, t);
      }
    } else {
      QuietConserves(s, s'.m, eps);
    }
  }

  lemma RequeueReturns(m: Shared, m': Shared, snapshot: map<Serial, Pending>, t: Series)
    requires SnapshotOk(m, snapshot) && m'.devices == Requeued(m.devices, snapshot)
    ensures Queued(m', t) == Queued(m, t) + PartOf(snapshot, t)
  {
    if t.sn in snapshot {
      assert Part(snapshot[t.sn], t.counter) >= 0.0;
      PlusParts(m.devices[t.sn].pending, snapshot[t.sn], t.counter);
    }
  }

  lemma ResumeConserves(env: Env, s: Machine, eps: real)
    requires Shape(env, s) && Conserved(s, eps) && s.up && s.phase.Returned?
    ensures Conserved(OnResume(s), eps)
  {
    var s' := OnResume(s);
    forall t ensures Queued(s'.m, t) + InFlight(s'.phase, t) == Queued(s.m, t) + InFlight(s.phase, t) {
      if s.phase.ok {
        TodoReads(s.phase.snapshot, t);
      } else {
        RequeueReturns(s.m, s'.m, s.phase.snapshot, t);
      }
    }
  }

  lemma RaiseConserves(env: Env, s: Machine, t: Series, eps: real)
    requires Shape(env, s) && Conserved(s, eps) && s.up && s.phase.Applying? && t in s.phase.todo
    ensures Conserved(s.(m := s.m.(counters := Raise(s.m.counters, t, s.phase.todo[t])), phase := Applying(s.phase.todo - {t})), eps)
  {
    var s' := s.(m := s.m.(counters := Raise(s.m.counters, t, s.phase.todo[t])), phase := Applying(s.phase.todo - {t}));
    forall u ensures Read(s'.m.counters, u) + InFlight(s'.phase, u) == Read(s.m.counters, u) + InFlight(s.phase, u) {
      RaiseReads(s.m.counters, t, s.phase.todo[t], u);
    }
    forall u ensures Queued(s'.m, u) == Queued(s.m, u) {
    }
    HoldingConserves(s, s', eps);
  }

  lemma ReleaseConserves(s: Machine, eps: real)
    requires Conserved(s, eps) && s.up && s.phase.Applying? && s.phase.todo == map[]
    ensures Conserved(s.(m := s.m.(freshAt := Some(s.clock), writing := false), phase := Idle), eps)
  {
    var s' := s.(m := s.m.(freshAt := Some(s.clock), writing := false), phase := Idle);
    forall t ensures Queued(s'.m, t) + InFlight(s'.phase, t) == Queued(s.m, t) + InFlight(s.phase, t) {
    }
    HoldingConserves(s, s', eps);
  }

  // ---- The disk ----

  lemma RestartConserves(env: Env, s: Machine, eps: real)
    requires env.o.Valid() && Shape(env, s) && Conserved(s, eps) && eps >= 0.0
    ensures Conserved(OnRestart(env, s), eps)
  {
    var s' := OnRestart(env, s);
    RestoredOk(env.o, s.visible, s.clock);
    forall t
      ensures Read(s'.m.counters, t) + Queued(s'.m, t) + InFlight(s'.phase, t) == Read(s'.base, t) + Read(s'.integrated, t)
      ensures Read(s'.base, t) + Read(s'.integrated, t) <= Read(s'.lifetime, t) + Nudged(s'.restarts, eps)
    {
      assert Tracked(s'.m, t.sn).pending == NO_PENDING;
      assert Within(s.visible, s.lifetime, Nudged(s.restarts + 1, eps));
    }
    forall g | g in s'.disk ensures Within(g, s'.lifetime, Nudged(s'.restarts + 1, eps)) {
      assert Within(g, s.lifetime, Nudged(s.restarts + 1, eps));
    }
  }

  /** The stages of a write move the snapshot nowhere. */
  lemma WriteConserves(s: Machine, s': Machine, eps: real)
    requires Conserved(s, eps) && s.up && (s.phase.Writing? || s.phase.Renamed?)
    requires s' == s.(visible := s'.visible, disk := s'.disk, phase := s'.phase)
    requires s'.phase == Returned(s'.phase.Returned? && s'.phase.ok, s.phase.snapshot)
          || s'.phase == Renamed(s.phase.payload, s.phase.snapshot)
    requires s'.disk <= s.disk + {Some(s.phase.payload)}
    ensures Conserved(s', eps)
  {
    forall t ensures InFlight(s'.phase, t) == InFlight(s.phase, t) {
    }
    HoldingConserves(s, s', eps);
  }

  lemma OutsideConserves(env: Env, s: Machine, e: Event, eps: real)
    requires Shape(env, s) && Conserved(s, eps) && Enabled(env, s, e)
    requires e.Scrape? || e.Tick? || e.Settle? || e.Die? || e.PowerLoss?
    ensures Conserved(Step(env, s, e), eps)
  {
    var s' := Step(env, s, e);
    assert s' == s.(up := s'.up, served := s'.served, clock := s'.clock, visible := s'.visible, disk := s'.disk);
    assert s'.disk <= s.disk;
  }

  // ---- Runs ----

  lemma FlushConserves(env: Env, s: Machine, e: Event, eps: real)
    requires Shape(env, s) && Conserved(s, eps) && Enabled(env, s, e)
    requires e.WriteFails? || e.Rename? || e.SyncDirectory? || e.Resume? || e.RaiseOne? || e.Release?
    ensures Conserved(Step(env, s, e), eps)
  {
    if e.Resume? {
      ResumeConserves(env, s, eps);
    } else if e.RaiseOne? {
      RaiseConserves(env, s, e.series, eps);
    } else if e.Release? {
      ReleaseConserves(s, eps);
    } else {
      WriteConserves(s, Step(env, s, e), eps);
    }
  }

  lemma StepConserves(env: Env, s: Machine, e: Event, eps: real)
    requires env.o.Valid() && Nudges(env.o.bump, eps) && eps >= 0.0
    requires Shape(env, s) && Conserved(s, eps) && Enabled(env, s, e)
    ensures Conserved(Step(env, s, e), eps)
  {
    if e.Frame? {
      FrameConserves(env, s, e.sn, e.d, e.now, eps);
    } else if e.ConfigFrame? || e.Reserve? {
      SlotConserves(env, s, e, eps);
    } else if e.Begin? {
      BeginConserves(env, s, e.force, e.serializes, eps);
    } else if e.Restart? {
      RestartConserves(env, s, eps);
    } else if e.Scrape? || e.Tick? || e.Settle? || e.Die? || e.PowerLoss? {
      OutsideConserves(env, s, e, eps);
    } else {
      FlushConserves(env, s, e, eps);
    }
  }

  lemma BootAccounted(env: Env, file: Option<File>)
    requires env.o.Valid() && FileOk(env.o, file)
    ensures Accounted(Boot(env, file))
  {
    var s := Boot(env, file);
    forall t ensures Queued(s.m, t) == 0.0 {
      assert Tracked(s.m, t.sn).pending == NO_PENDING;
    }
  }

  /** The first file's totals are the first lifetime totals. */
  lemma FirstTotals(file: Option<File>, o: Config, t: Series)
    requires FileOk(o, file)
    ensures Read(TotalsIn(file), t) == FileTotal(file, t)
  {
    assert FileTotal(file, t) >= 0.0;
    if file.Some? {
      RestoredReads(file.value.rows, file.value.rows.Keys, t);
    }
  }

  lemma BootConserves(env: Env, file: Option<File>, eps: real)
    requires env.o.Valid() && FileOk(env.o, file) && eps >= 0.0
    ensures Conserved(Boot(env, file), eps)
  {
    var s := Boot(env, file);
    BootAccounted(env, file);
    RestoredOk(env.o, file, 0.0);
    assert Nudged(1, eps) == eps;
    forall t ensures Read(s.lifetime, t) == FileTotal(file, t) {
      FirstTotals(file, env.o, t);
    }
  }

  lemma {:induction false} RunConserves(env: Env, file: Option<File>, es: seq<Event>, eps: real)
    requires env.o.Valid() && Nudges(env.o.bump, eps) && eps >= 0.0 && FileOk(env.o, file)
    ensures Conserved(Exec(env, Boot(env, file), es), eps)
  {
    if es == [] {
      BootConserves(env, file, eps);
    } else {
      RunConserves(env, file, es[..|es| - 1], eps);
      var before := Exec(env, Boot(env, file), es[..|es| - 1]);
      if Enabled(env, before, es[|es| - 1]) {
        RunKeepsShape(env, file, es[..|es| - 1], eps);
        StepConserves(env, before, es[|es| - 1], eps);
      }
    }
  }

  /**
   * At every step of every run: what is exported, queued and in flight is exactly what the process
   * restored plus what it integrated; and after r restarts no counter is more than r nudges above the
   * first file plus all deltas ever integrated, however many files were written in between.
   */
  lemma ConservationOverRuns(env: Env, file: Option<File>, es: seq<Event>, eps: real, t: Series)
    requires env.o.Valid() && Nudges(env.o.bump, eps) && eps >= 0.0 && FileOk(env.o, file)
    ensures var s := Exec(env, Boot(env, file), es);
            && (s.up ==>
                  Read(s.m.counters, t) + Queued(s.m, t) + InFlight(s.phase, t) == Read(s.base, t) + Read(s.integrated, t))
            && (s.up ==> Read(s.m.counters, t) <= Read(s.lifetime, t) + Nudged(s.restarts, eps))
            && (forall f | f in s.disk :: FileTotal(f, t) <= Read(s.lifetime, t) + Nudged(s.restarts + 1, eps))
  {
    RunConserves(env, file, es, eps);
    RunKeepsShape(env, file, es, eps);
    ConservedReads(env, Exec(env, Boot(env, file), es), eps, t);
  }

  lemma ConservedReads(env: Env, s: Machine, eps: real, t: Series)
    requires Shape(env, s) && Conserved(s, eps)
    ensures s.up ==>
              && Read(s.m.counters, t) + Queued(s.m, t) + InFlight(s.phase, t) == Read(s.base, t) + Read(s.integrated, t)
              && Read(s.m.counters, t) <= Read(s.lifetime, t) + Nudged(s.restarts, eps)
    ensures forall f | f in s.disk :: FileTotal(f, t) <= Read(s.lifetime, t) + Nudged(s.restarts + 1, eps)
  {
    if s.up {
      QueuesNonNegative(env, s, t);
    }
  }

  lemma QueuesNonNegative(env: Env, s: Machine, t: Series)
    requires Shape(env, s) && s.up
    ensures Queued(s.m, t) >= 0.0 && InFlight(s.phase, t) >= 0.0
  {
    assert NonNegative(NO_PENDING);
    assert NonNegative(Tracked(s.m, t.sn).pending);
  }
}
