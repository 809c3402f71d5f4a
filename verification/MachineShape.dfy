/** What every state of the machine keeps, whatever the disk does: amounts are not negative, slots exist. */
module MachineShape {
  import opened Serials
  import opened LineFit
  import opened Calibration
  import opened Accounting
  import opened CounterFacts
  import opened Protocol

  // ---- What every state keeps ----

  ghost predicate NonNegative(p: Pending) {
    forall c :: Part(p, c) >= 0.0
  }

  /** No more serials than the cap allows. */
  predicate Fits(o: Config, count: nat) {
    o.maxDevices == 0 || count <= o.maxDevices
  }

  ghost predicate FileOk(o: Config, f: Option<File>) {
    f.Some? ==>
      && Fits(o, |f.value.rows|)
      && (forall t :: FileTotal(f, t) >= 0.0)
  }

  ghost predicate SnapshotOk(m: Shared, snapshot: map<Serial, Pending>) {
    snapshot.Keys <= m.devices.Keys && forall sn | sn in snapshot :: NonNegative(snapshot[sn])
  }

  ghost predicate SharedOk(o: Config, m: Shared) {
    && Fits(o, |m.devices|)
    && (forall sn | sn in m.devices :: NonNegative(m.devices[sn].pending))
    && (forall t | t in m.counters :: t.sn in m.devices && m.counters[t] >= 0.0)
  }

  ghost predicate PhaseOk(o: Config, m: Shared, phase: Phase) {
    match phase
    case Idle => true
    case Writing(f, snapshot) => FileOk(o, Some(f)) && SnapshotOk(m, snapshot)
    case Renamed(f, snapshot) => FileOk(o, Some(f)) && SnapshotOk(m, snapshot)
    case Returned(_, snapshot) => SnapshotOk(m, snapshot)
    case Applying(todo) => forall t | t in todo :: t.sn in m.devices && todo[t] > 0.0
  }

  ghost predicate Shape(env: Env, s: Machine) {
    && s.visible in s.disk
    && (forall f | f in s.disk :: FileOk(env.o, f))
    && (s.up && s.phase.Renamed? ==> s.visible == Some(s.phase.payload))
    && (s.up ==> SharedOk(env.o, s.m) && PhaseOk(env.o, s.m, s.phase) && (s.m.writing <==> s.phase != Idle))
  }

  // ---- A frame only adds ----

  lemma CeilingsNonNegative(o: Config, p: Pending)
    requires o.Valid() && NonNegative(p)
    ensures NonNegative(Ceilings(o, p))
  {
    forall c ensures Part(Ceilings(o, p), c) >= 0.0 {
      assert Part(p, c) >= 0.0;
    }
  }

  lemma RawDeltasNonNegative(o: Config, e: LastSeries, d: RealtimeData, cur: real, offset: real, now: real)
    requires o.Valid() && e.lastTs.Some? && e.lastCurrent.Some?
    ensures NonNegative(RawDeltas(o, e, d, cur, offset, now))
  {
  }

  lemma DeltaAtNonNegative(o: Config, m: Shared, sn: Serial, d: RealtimeData, cur: real, offset: real, now: real)
    requires o.Valid()
    ensures NonNegative(DeltaAt(o, m, sn, d, cur, offset, now))
  {
    var e := Tracked(m, sn);
    if e.lastTs.Some? && e.lastCurrent.Some? {
      RawDeltasNonNegative(o, e, d, cur, offset, now);
      CeilingsNonNegative(o, RawDeltas(o, e, d, cur, offset, now));
    } else {
      CeilingsNonNegative(o, NO_PENDING);
    }
  }

  lemma DeltaNonNegative(o: Config, m: Shared, sn: Serial, d: RealtimeData, now: real)
    requires o.Valid()
    ensures NonNegative(DeltaOf(o, m, sn, d, now))
  {
    var t := Track(o, m, sn);
    if Integrates(o, t, sn, d) {
      DeltaAtNonNegative(o, t, sn, d, d.currentA.value, OffsetFor(o, t, sn, d, d.currentA.value, now), now);
    }
  }

  /** One slot may be new, if there was room, or changed; the others are as they were. */
  ghost predicate SlotsTouched(o: Config, ds: map<Serial, LastSeries>, ds': map<Serial, LastSeries>, sn: Serial) {
    && ds.Keys <= ds'.Keys <= ds.Keys + {sn}
    && (ds'.Keys != ds.Keys ==> o.HasRoom(|ds|))
    && (forall k | k in ds && k != sn :: ds'[k] == ds[k])
  }

  /** `m'` differs from `m` by one device's slot, the calibrator and the clamp count. */
  ghost predicate Touches(o: Config, m: Shared, m': Shared, sn: Serial, delta: Pending) {
    && m' == m.(devices := m'.devices, cal := m'.cal, rejected := m'.rejected)
    && SlotsTouched(o, m.devices, m'.devices, sn)
    && Tracked(m', sn).pending == Tracked(m, sn).pending.Plus(delta)
    && (sn !in m'.devices ==> delta == NO_PENDING)
  }

  /** What an accumulated frame leaves in its slot, and that it leaves the other slots. */
  lemma AccumulateRecords(o: Config, m: Shared, cal: Cal, sn: Serial, d: RealtimeData, cur: real, offset: real, now: real)
    ensures var m', delta := AccumulateAt(o, m.(cal := cal), sn, d, cur, offset, now), DeltaAt(o, m, sn, d, cur, offset, now);
            && m'.cal == cal && sn in m'.devices && m'.counters == m.counters
            && m'.devices[sn] == LastSeries(Some(now), Some(cur), d.packV, d.balanceCurrentA, Some(offset),
                                            Tracked(m, sn).pending.Plus(delta))
            && (forall k | k != sn :: Tracked(m', k) == Tracked(m, k))
  {
    assert Tracked(m.(cal := cal), sn) == Tracked(m, sn);
  }

  lemma AccumulateTouches(o: Config, m: Shared, cal: Cal, sn: Serial, d: RealtimeData, cur: real, offset: real, now: real)
    requires sn in m.devices || o.HasRoom(|m.devices|)
    ensures Touches(o, m, AccumulateAt(o, m.(cal := cal), sn, d, cur, offset, now), sn, DeltaAt(o, m, sn, d, cur, offset, now))
  {
    assert Tracked(m.(cal := cal), sn) == Tracked(m, sn);
  }

  lemma AccumulateEffect(o: Config, m: Shared, sn: Serial, d: RealtimeData, now: real)
    ensures Touches(o, m, Accumulate(o, m, sn, d, now), sn, SettledDelta(o, m, sn, d, now))
  {
    if Integrates(o, m, sn, d) {
      var cur := d.currentA.value;
      AccumulateTouches(o, m, Calibrated(o, m, sn, d, cur, now), sn, d, cur, OffsetFor(o, m, sn, d, cur, now), now);
    } else {
      NoFrameTouches(o, m, sn);
    }
  }

  lemma NoFrameTouches(o: Config, m: Shared, sn: Serial)
    ensures Touches(o, m, m, sn, NO_PENDING)
  {
    NothingPlus(Tracked(m, sn).pending);
  }

  lemma TouchesAfterTrack(o: Config, m: Shared, m': Shared, sn: Serial, delta: Pending)
    requires Touches(o, Track(o, m, sn), m', sn, delta)
    ensures Touches(o, m, m', sn, delta)
  {
    var t := Track(o, m, sn);
    assert t.devices == m.devices || (t.devices == m.devices[sn := NEW_SERIES] && o.HasRoom(|m.devices|));
  }

  /** A frame adds its delta to its own device's slot, and leaves counters and flags alone. */
  lemma FrameEffect(o: Config, m: Shared, sn: Serial, d: RealtimeData, now: real)
    ensures Touches(o, m, Realtime(o, m, sn, d, now), sn, DeltaOf(o, m, sn, d, now))
  {
    var t := Track(o, m, sn);
    AccumulateEffect(o, t, sn, d, now);
    TouchesAfterTrack(o, m, Accumulate(o, t, sn, d, now), sn, DeltaOf(o, m, sn, d, now));
  }

  lemma GrowthFits(o: Config, devices: set<Serial>, devices': set<Serial>, sn: Serial)
    requires Fits(o, |devices|) && devices <= devices' <= devices + {sn}
    requires devices' != devices ==> o.HasRoom(|devices|)
    ensures Fits(o, |devices'|)
  {
    if devices' != devices {
      assert devices' == devices + {sn} && sn !in devices;
    }
  }

  lemma PlusParts(p: Pending, q: Pending, c: Counter)
    ensures Part(p.Plus(q), c) == Part(p, c) + Part(q, c)
  {
  }

  lemma PlusNonNegative(p: Pending, q: Pending)
    requires NonNegative(p) && NonNegative(q)
    ensures NonNegative(p.Plus(q))
  {
    forall c ensures Part(p.Plus(q), c) >= 0.0 {
      PlusParts(p, q, c);
    }
  }

  // ---- The file about to be written ----

  lemma EntryTotal(o: Config, counters: map<Series, real>, sn: Serial, p: Pending, c: Counter)
    ensures Total(EntryFor(o, counters, sn, p), c) == o.bump(Read(counters, Series(c, sn)) + Part(p, c))
  {
  }

  lemma RowTotal(f: File, e: CoulombEntry, t: Series)
    requires t.sn in f.rows && f.rows[t.sn] == e
    ensures FileTotal(Some(f), t) == Total(e, t.counter)
  {
  }

  lemma PayloadTotal(o: Config, m: Shared, t: Series)
    ensures FileTotal(Some(Payload(o, m)), t)
         == if t.sn in m.devices then o.bump(Read(m.counters, t) + Part(m.devices[t.sn].pending, t.counter)) else 0.0
  {
    if t.sn in m.devices {
      var e := EntryFor(o, m.counters, t.sn, m.devices[t.sn].pending);
      assert FileTotal(Some(Payload(o, m)), t) == Total(e, t.counter) by {
        RowTotal(Payload(o, m), e, t);
      }
      EntryTotal(o, m.counters, t.sn, m.devices[t.sn].pending, t.counter);
    }
  }

  lemma NudgeUp(bump: real -> real, eps: real, v: real)
    requires Nudges(bump, eps) && v >= 0.0 && eps >= 0.0
    ensures v <= bump(v) <= v + eps
  {
  }

  lemma ReadNonNegative(o: Config, m: Shared, t: Series)
    requires SharedOk(o, m)
    ensures Read(m.counters, t) >= 0.0 && (t.sn !in m.devices ==> Read(m.counters, t) == 0.0)
  {
  }

  lemma PayloadOk(o: Config, m: Shared, eps: real)
    requires SharedOk(o, m) && Nudges(o.bump, eps) && eps >= 0.0
    ensures FileOk(o, Some(Payload(o, m))) && SnapshotOk(m, Snapshot(m))
  {
    var f := Some(Payload(o, m));
    assert Payload(o, m).rows.Keys == m.devices.Keys;
    forall t ensures FileTotal(f, t) >= 0.0 {
      PayloadTotal(o, m, t);
      ReadNonNegative(o, m, t);
      if t.sn in m.devices {
        assert Part(m.devices[t.sn].pending, t.counter) >= 0.0;
        NudgeUp(o.bump, eps, Read(m.counters, t) + Part(m.devices[t.sn].pending, t.counter));
      }
    }
  }

  lemma TodoReads(snapshot: map<Serial, Pending>, t: Series)
    ensures Read(Todo(snapshot), t) == PartOf(snapshot, t)
    ensures t in Todo(snapshot) ==> t.sn in snapshot && Todo(snapshot)[t] > 0.0
  {
    RaisedSeries(snapshot, t);
  }

  lemma EmptiedOk(o: Config, m: Shared)
    requires SharedOk(o, m)
    ensures SharedOk(o, m.(devices := Emptied(m.devices), writing := true))
    ensures Emptied(m.devices).Keys == m.devices.Keys
  {
    assert Emptied(m.devices).Keys == m.devices.Keys;
    assert NonNegative(NO_PENDING);
  }

  lemma RequeuedOk(o: Config, m: Shared, snapshot: map<Serial, Pending>)
    requires SharedOk(o, m) && SnapshotOk(m, snapshot)
    ensures Requeued(m.devices, snapshot).Keys == m.devices.Keys
    ensures forall sn | sn in m.devices :: NonNegative(Requeued(m.devices, snapshot)[sn].pending)
  {
    assert Requeued(m.devices, snapshot).Keys == m.devices.Keys;
    forall sn | sn in m.devices ensures NonNegative(Requeued(m.devices, snapshot)[sn].pending) {
      if sn in snapshot {
        PlusNonNegative(m.devices[sn].pending, snapshot[sn]);
      }
    }
  }

  lemma RestoredOk(o: Config, f: Option<File>, now: real)
    requires o.Valid() && FileOk(o, f)
    ensures SharedOk(o, Restored(o, f, now)) && !Restored(o, f, now).writing
    ensures forall t :: Read(Restored(o, f, now).counters, t) == FileTotal(f, t)
    ensures f.Some? ==> Restored(o, f, now).devices.Keys == f.value.rows.Keys
  {
    if f.Some? {
      var rows := f.value.rows;
      assert RestoredSerials(o, rows) == rows.Keys;
      assert NonNegative(NO_PENDING);
      assert Slots(rows.Keys).Keys == rows.Keys;
      forall t ensures Read(Restored(o, f, now).counters, t) == FileTotal(f, t) {
        RestoredReads(rows, rows.Keys, t);
        assert FileTotal(f, t) >= 0.0;
      }
      forall t | t in Restored(o, f, now).counters ensures t.sn in rows.Keys && Restored(o, f, now).counters[t] >= 0.0 {
        RestoredReads(rows, rows.Keys, t);
      }
    }
  }

  // ---- Each step keeps it ----

  lemma TouchedPending(o: Config, m: Shared, m': Shared, sn: Serial, delta: Pending)
    requires SharedOk(o, m) && Touches(o, m, m', sn, delta) && NonNegative(delta)
    ensures sn in m'.devices ==> NonNegative(m'.devices[sn].pending)
  {
    assert NonNegative(NO_PENDING);
    assert NonNegative(Tracked(m, sn).pending);
    PlusNonNegative(Tracked(m, sn).pending, delta);
  }

  lemma GrowthKeepsShared(o: Config, m: Shared, m': Shared, sn: Serial)
    requires SharedOk(o, m) && m'.counters == m.counters && SlotsTouched(o, m.devices, m'.devices, sn)
    requires sn in m'.devices ==> NonNegative(m'.devices[sn].pending)
    ensures SharedOk(o, m')
  {
    GrowthFits(o, m.devices.Keys, m'.devices.Keys, sn);
    assert forall k | k in m'.devices :: NonNegative(m'.devices[k].pending);
  }

  /** Steps under the lock that only add slots, or deltas to slots. */
  lemma GrowthKeepsShape(env: Env, s: Machine, s': Machine, sn: Serial)
    requires Shape(env, s) && Unlocked(s)
    requires s'.up && s'.phase == s.phase && s'.disk == s.disk && s'.visible == s.visible
    requires s'.m.counters == s.m.counters && s'.m.writing == s.m.writing
    requires SlotsTouched(env.o, s.m.devices, s'.m.devices, sn)
    requires sn in s'.m.devices ==> NonNegative(s'.m.devices[sn].pending)
    ensures Shape(env, s')
  {
    GrowthKeepsShared(env.o, s.m, s'.m, sn);
  }

  lemma FramedFields(s: Machine, m': Shared, sn: Serial, delta: Pending)
    ensures var s' := Framed(s, m', sn, delta);
            && s' == s.(m := m', integrated := s'.integrated, lifetime := s'.lifetime, clamps := s'.clamps)
            && s'.integrated == Applied(s.integrated, map[sn := delta])
            && s'.lifetime == Applied(s.lifetime, map[sn := delta])
  {
  }

  lemma FrameKeepsShape(env: Env, s: Machine, sn: Serial, d: RealtimeData, now: real)
    requires env.o.Valid() && Shape(env, s) && Unlocked(s)
    ensures Shape(env, OnFrame(env, s, sn, d, now))
  {
    var m', delta := Realtime(env.o, s.m, sn, d, now), DeltaOf(env.o, s.m, sn, d, now);
    FrameEffect(env.o, s.m, sn, d, now);
    DeltaNonNegative(env.o, s.m, sn, d, now);
    TouchedPending(env.o, s.m, m', sn, delta);
    FramedFields(s, m', sn, delta);
    GrowthKeepsShape(env, s, Framed(s, m', sn, delta), sn);
  }

  lemma TrackKeepsShape(env: Env, s: Machine, m': Shared, sn: Serial)
    requires env.o.Valid() && Shape(env, s) && Unlocked(s)
    requires m' == Track(env.o, s.m.(rated := m'.rated), sn) || m' == s.m
    ensures Shape(env, s.(m := m'))
  {
    if m' != s.m {
      GrowthKeepsShape(env, s, s.(m := m'), sn);
    }
  }

  lemma BegunKeepsShape(env: Env, s: Machine, payload: File, forced: bool)
    requires Shape(env, s) && Unlocked(s) && FileOk(env.o, Some(payload)) && SnapshotOk(s.m, Snapshot(s.m))
    ensures Shape(env, Begun(s, payload, forced))
  {
    EmptiedOk(env.o, s.m);
  }

  lemma BeginKeepsShape(env: Env, s: Machine, force: bool, serializes: bool, eps: real)
    requires env.o.Valid() && Shape(env, s) && Unlocked(s) && Nudges(env.o.bump, eps) && eps >= 0.0
    ensures Shape(env, OnBegin(env, s, force, serializes))
  {
    if Writes(env.o, s.m, force, s.clock) && serializes {
      PayloadOk(env.o, s.m, eps);
      BegunKeepsShape(env, s, Payload(env.o, s.m), force);
    }
  }

  lemma ResumeKeepsShape(env: Env, s: Machine)
    requires Shape(env, s) && s.up && s.phase.Returned?
    ensures Shape(env, OnResume(s))
  {
    if s.phase.ok {
      forall t | t in Todo(s.phase.snapshot) ensures t.sn in s.m.devices && Todo(s.phase.snapshot)[t] > 0.0 {
        TodoReads(s.phase.snapshot, t);
      }
    } else {
      RequeuedOk(env.o, s.m, s.phase.snapshot);
    }
  }

  lemma RestartKeepsShape(env: Env, s: Machine)
    requires env.o.Valid() && Shape(env, s)
    ensures Shape(env, OnRestart(env, s))
  {
    RestoredOk(env.o, s.visible, s.clock);
  }

  lemma WriteKeepsShape(env: Env, s: Machine)
    requires Shape(env, s) && s.up
    ensures s.phase.Writing? ==> Shape(env, OnRename(s)) && Shape(env, s.(phase := Returned(false, s.phase.snapshot)))
    ensures s.phase.Renamed? ==> forall outcome :: Shape(env, OnSync(s, outcome))
  {
  }

  /** Steps of the increments and of the world outside. */
  lemma OtherStepKeepsShape(env: Env, s: Machine, e: Event)
    requires Shape(env, s) && Enabled(env, s, e)
    requires e.RaiseOne? || e.Release? || e.Scrape? || e.Tick? || e.Settle? || e.Die? || e.PowerLoss?
    ensures Shape(env, Step(env, s, e))
  {
  }

  lemma StepKeepsShape(env: Env, s: Machine, e: Event, eps: real)
    requires env.o.Valid() && Nudges(env.o.bump, eps) && eps >= 0.0
    requires Shape(env, s) && Enabled(env, s, e)
    ensures Shape(env, Step(env, s, e))
  {
    if e.Frame? {
      FrameKeepsShape(env, s, e.sn, e.d, e.now);
    } else if e.ConfigFrame? {
      TrackKeepsShape(env, s, Configure(env.o, s.m, e.cfgSn, e.ratedAh), e.cfgSn);
    } else if e.Reserve? {
      TrackKeepsShape(env, s, Admit(env.o, s.m, e.newSn), e.newSn);
    } else if e.Begin? {
      BeginKeepsShape(env, s, e.force, e.serializes, eps);
    } else if e.Resume? {
      ResumeKeepsShape(env, s);
    } else if e.Restart? {
      RestartKeepsShape(env, s);
    } else if e.WriteFails? || e.Rename? || e.SyncDirectory? {
      WriteKeepsShape(env, s);
    } else {
      OtherStepKeepsShape(env, s, e);
    }
  }

  lemma {:induction false} RunKeepsShape(env: Env, file: Option<File>, es: seq<Event>, eps: real)
    requires env.o.Valid() && Nudges(env.o.bump, eps) && eps >= 0.0 && FileOk(env.o, file)
    ensures Shape(env, Exec(env, Boot(env, file), es))
  {
    if es == [] {
      RestoredOk(env.o, file, 0.0);
    } else {
      RunKeepsShape(env, file, es[..|es| - 1], eps);
      var before := Exec(env, Boot(env, file), es[..|es| - 1]);
      if Enabled(env, before, es[|es| - 1]) {
        StepKeepsShape(env, before, es[|es| - 1], eps);
      }
    }
  }

  // ---- What only frames and restarts change ----

  /** A slot's readings, whatever is queued in it. */
  predicate SameHistory(e: LastSeries, e': LastSeries) {
    e'.(pending := e.pending) == e
  }

  /** The calibrator, every slot's readings and all that was integrated are as before; slots may come. */
  ghost predicate SameMemory(s: Machine, s': Machine) {
    && s'.m.cal == s.m.cal
    && s'.base == s.base && s'.integrated == s.integrated && s'.clamps == s.clamps
    && s.m.devices.Keys <= s'.m.devices.Keys
    && (forall k :: SameHistory(Tracked(s.m, k), Tracked(s'.m, k)))
  }

  lemma SlotKeepsMemory(env: Env, s: Machine, e: Event)
    requires Enabled(env, s, e) && (e.ConfigFrame? || e.Reserve?)
    ensures SameMemory(s, Step(env, s, e))
  {
  }

  lemma EmptiedKeepsHistory(m: Shared, m': Shared, k: Serial)
    requires m'.devices == m.devices || m'.devices == Emptied(m.devices)
    ensures m'.devices.Keys == m.devices.Keys && SameHistory(Tracked(m, k), Tracked(m', k))
  {
  }

  lemma EmptyingKeepsMemory(s: Machine, s': Machine)
    requires s'.m.cal == s.m.cal && s'.base == s.base && s'.integrated == s.integrated && s'.clamps == s.clamps
    requires s'.m.devices == s.m.devices || s'.m.devices == Emptied(s.m.devices)
    ensures SameMemory(s, s')
  {
    EmptiedKeepsHistory(s.m, s'.m, "");
    forall k ensures SameHistory(Tracked(s.m, k), Tracked(s'.m, k)) {
      EmptiedKeepsHistory(s.m, s'.m, k);
    }
  }

  lemma BeginKeepsMemory(env: Env, s: Machine, force: bool, serializes: bool)
    ensures SameMemory(s, OnBegin(env, s, force, serializes))
  {
    if Writes(env.o, s.m, force, s.clock) && serializes {
      EmptyingKeepsMemory(s, Begun(s, Payload(env.o, s.m), force));
    } else {
      EmptyingKeepsMemory(s, s.(m := BeginFlush(env.o, s.m, force, s.clock, serializes)));
    }
  }

  lemma ResumeKeepsMemory(s: Machine)
    requires s.phase.Returned?
    ensures SameMemory(s, OnResume(s))
  {
    var m' := OnResume(s).m;
    assert m'.devices == s.m.devices || m'.devices == Requeued(s.m.devices, s.phase.snapshot);
  }

  lemma OtherKeepsMemory(env: Env, s: Machine, e: Event)
    requires Enabled(env, s, e)
    requires !e.Frame? && !e.Restart? && !e.ConfigFrame? && !e.Reserve? && !e.Begin? && !e.Resume?
    ensures SameMemory(s, Step(env, s, e))
  {
  }

  lemma StepKeepsMemory(env: Env, s: Machine, e: Event)
    requires Enabled(env, s, e) && !e.Frame? && !e.Restart?
    ensures SameMemory(s, Step(env, s, e))
  {
    if e.ConfigFrame? || e.Reserve? {
      SlotKeepsMemory(env, s, e);
    } else if e.Begin? {
      BeginKeepsMemory(env, s, e.force, e.serializes);
    } else if e.Resume? {
      ResumeKeepsMemory(s);
    } else {
      OtherKeepsMemory(env, s, e);
    }
  }

  lemma FreshSlots(o: Config, f: Option<File>, now: real)
    ensures forall k :: Tracked(Restored(o, f, now), k) == NEW_SERIES
  {
  }

  lemma TrackLeaves(o: Config, m: Shared, sn: Serial)
    ensures var t := Track(o, m, sn);
            && t.cal == m.cal && t.rated == m.rated && t.rejected == m.rejected
            && forall k :: Tracked(t, k) == Tracked(m, k)
  {
  }

  lemma ClampsOnlyGrow(env: Env, s: Machine, e: Event)
    requires Enabled(env, s, e)
    ensures Step(env, s, e).clamps >= s.clamps
  {
    if !e.Frame? && !e.Restart? {
      StepKeepsMemory(env, s, e);
    }
  }
}
