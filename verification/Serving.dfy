/** From posts to counters: what the service exports is what the machine integrates from the accepted entries. */
module Serving {
  import opened Serials
  import opened LineFit
  import opened Calibration
  import opened Accounting
  import opened CounterFacts
  import opened Protocol
  import opened MachineShape
  import opened Conservation
  import opened FlushRefinement
  import opened Due
  import opened Ledger
  import opened Ingest
  import opened IngestFacts
  import CalibratorRuns
  import PairHistory
  import TrueCharge

  // ---- Posts as events ----

  /** A machine with the service's configuration; where its file lies does not matter here. */
  function EnvOf(setup: Setup): Env {
    Env(setup.o, StatePath(true, true), true)
  }

  /** What an entry is to the machine: its frame, or nothing when it is dropped. */
  function EntryEvents(limits: Limits, sn: Serial, e: Entry): seq<Event> {
    match Judge(limits, e)
    case Dropped(_) => []
    case Accepted(RealtimeReading(d)) => [Frame(sn, d, e.now)]
    case Accepted(ConfigReading(ratedAh)) => [ConfigFrame(sn, ratedAh)]
  }

  function EntriesEvents(limits: Limits, sn: Serial, es: seq<Entry>): seq<Event> {
    if es == [] then []
    else EntriesEvents(limits, sn, es[..|es| - 1]) + EntryEvents(limits, sn, es[|es| - 1])
  }

  /** The serial is accepted, and known or there is room for it. */
  predicate LetIntoMachine(setup: Setup, s: Machine, sn: Serial) {
    AcceptsSerial(setup, sn) && (setup.o.maxDevices == 0 || sn in s.m.devices || setup.o.HasRoom(|s.m.devices|))
  }

  /** The frames of all posts that are let in, in order, each post after the slot of its serial. */
  function EventsOf(setup: Setup, posts: seq<Post>): seq<Event> {
    if posts == [] then []
    else
      var init, p := EventsOf(setup, posts[..|posts| - 1]), posts[|posts| - 1];
      if LetIntoMachine(setup, Exec(EnvOf(setup), Boot(EnvOf(setup), None), init), p.sn) then
        init + [Reserve(p.sn)] + EntriesEvents(setup.limits, p.sn, p.entries)
      else init
  }

  // ---- Two states alike but for what is queued and exported ----

  ghost predicate Alike(m: Shared, n: Shared) {
    && n.cal == m.cal && n.rated == m.rated && n.rejected == m.rejected && n.devices.Keys == m.devices.Keys
    && forall k :: SameHistory(Tracked(m, k), Tracked(n, k))
  }

  lemma AlikeCount(m: Shared, n: Shared)
    requires Alike(m, n)
    ensures |n.devices| == |m.devices|
  {
    assert |n.devices.Keys| == |m.devices.Keys|;
  }

  lemma AddSlotAlike(m: Shared, n: Shared, sn: Serial)
    requires Alike(m, n) && sn !in m.devices
    ensures Alike(m.(devices := m.devices[sn := NEW_SERIES]), n.(devices := n.devices[sn := NEW_SERIES]))
  {
    var m', n' := m.(devices := m.devices[sn := NEW_SERIES]), n.(devices := n.devices[sn := NEW_SERIES]);
    forall k ensures SameHistory(Tracked(m', k), Tracked(n', k)) {
      assert SameHistory(Tracked(m, k), Tracked(n, k));
    }
  }

  lemma TrackAlike(o: Config, m: Shared, n: Shared, sn: Serial)
    requires Alike(m, n)
    ensures Alike(Track(o, m, sn), Track(o, n, sn)) && Alike(Admit(o, m, sn), Admit(o, n, sn))
  {
    AlikeCount(m, n);
    if sn !in m.devices {
      AddSlotAlike(m, n, sn);
    }
  }

  lemma RatedAlike(m: Shared, n: Shared, rated: map<Serial, real>)
    requires Alike(m, n)
    ensures Alike(m.(rated := rated), n.(rated := rated))
  {
    forall k ensures SameHistory(Tracked(m.(rated := rated), k), Tracked(n.(rated := rated), k)) {
      assert SameHistory(Tracked(m, k), Tracked(n, k));
    }
  }

  lemma ConfiguredAlike(o: Config, m: Shared, n: Shared, sn: Serial, ratedAh: Option<real>)
    requires Alike(m, n)
    ensures Alike(Configure(o, m, sn, ratedAh), Configure(o, n, sn, ratedAh))
  {
    if ratedAh.Some? {
      RatedAlike(m, n, m.rated[sn := ratedAh.value]);
      TrackAlike(o, m.(rated := m.rated[sn := ratedAh.value]), n.(rated := n.rated[sn := ratedAh.value]), sn);
    } else {
      TrackAlike(o, m, n, sn);
    }
  }

  lemma DeltaAlike(o: Config, e: LastSeries, e': LastSeries, d: RealtimeData, cur: real, offset: real, now: real)
    requires SameHistory(e, e')
    ensures IntervalDeltas(o, e', d, cur, offset, now) == IntervalDeltas(o, e, d, cur, offset, now)
  {
  }

  lemma AccumulateAtAlike(o: Config, m: Shared, n: Shared, cal: Cal, sn: Serial, d: RealtimeData, cur: real, offset: real, now: real)
    requires Alike(m, n)
    ensures Alike(AccumulateAt(o, m.(cal := cal), sn, d, cur, offset, now), AccumulateAt(o, n.(cal := cal), sn, d, cur, offset, now))
    ensures DeltaAt(o, n, sn, d, cur, offset, now) == DeltaAt(o, m, sn, d, cur, offset, now)
  {
    assert SameHistory(Tracked(m, sn), Tracked(n, sn));
    DeltaAlike(o, Tracked(m, sn), Tracked(n, sn), d, cur, offset, now);
    AccumulateRecords(o, m, cal, sn, d, cur, offset, now);
    AccumulateRecords(o, n, cal, sn, d, cur, offset, now);
    var m', n' := AccumulateAt(o, m.(cal := cal), sn, d, cur, offset, now), AccumulateAt(o, n.(cal := cal), sn, d, cur, offset, now);
    forall k ensures SameHistory(Tracked(m', k), Tracked(n', k)) {
      assert SameHistory(Tracked(m, k), Tracked(n, k));
    }
  }

  /** Alike states integrate the same deltas and stay alike. */
  lemma FrameAlike(o: Config, m: Shared, n: Shared, sn: Serial, d: RealtimeData, now: real)
    requires Alike(m, n)
    ensures Alike(Realtime(o, m, sn, d, now), Realtime(o, n, sn, d, now))
    ensures DeltaOf(o, n, sn, d, now) == DeltaOf(o, m, sn, d, now)
    ensures Integrates(o, Track(o, n, sn), sn, d) <==> Integrates(o, Track(o, m, sn), sn, d)
  {
    var t, u := Track(o, m, sn), Track(o, n, sn);
    TrackAlike(o, m, n, sn);
    AlikeCount(t, u);
    if Integrates(o, t, sn, d) {
      var cur := d.currentA.value;
      AccumulateAtAlike(o, t, u, Calibrated(o, t, sn, d, cur, now), sn, d, cur, OffsetFor(o, t, sn, d, cur, now), now);
    }
  }

  // ---- A flush keeps the sum ----

  /** A flush leaves slots and counters as they were, or everything queued exported. */
  lemma FlushAllOrNothing(o: Config, m: Shared, persisted: bool, force: bool, io: FlushIo)
    requires !m.writing
    ensures var m' := Flushed(o, m, persisted, force, io);
            && !m'.writing
            && ((m'.devices == m.devices && m'.counters == m.counters)
                || (m'.devices == Emptied(m.devices) && m'.counters == Applied(m.counters, Snapshot(m))))
  {
    TakeThenRequeue(m.devices);
  }

  lemma FlushLeaves(o: Config, m: Shared, persisted: bool, force: bool, io: FlushIo)
    requires !m.writing
    ensures var m' := Flushed(o, m, persisted, force, io);
            && m'.cal == m.cal && m'.rated == m.rated && m'.rejected == m.rejected && m'.devices.Keys == m.devices.Keys
  {
    FlushAllOrNothing(o, m, persisted, force, io);
    assert Emptied(m.devices).Keys == m.devices.Keys;
  }

  lemma FlushAlike(o: Config, m: Shared, n: Shared, persisted: bool, force: bool, io: FlushIo)
    requires Alike(m, n) && !m.writing
    ensures Alike(Flushed(o, m, persisted, force, io), n)
  {
    var m' := Flushed(o, m, persisted, force, io);
    FlushLeaves(o, m, persisted, force, io);
    forall k ensures SameHistory(Tracked(m', k), Tracked(n, k)) {
      FlushKeepsHistory(o, m, persisted, force, io, k);
      assert SameHistory(Tracked(m, k), Tracked(n, k));
    }
  }

  lemma AppliedOk(o: Config, m: Shared)
    requires SharedOk(o, m)
    ensures SharedOk(o, m.(devices := Emptied(m.devices), counters := Applied(m.counters, Snapshot(m))))
  {
    EmptiedOk(o, m);
    var counters := Applied(m.counters, Snapshot(m));
    forall t | t in counters ensures t.sn in m.devices && counters[t] >= 0.0 {
      AppliedReads(m.counters, Snapshot(m), t);
      ReadNonNegative(o, m, t);
    }
  }

  lemma FlushOk(o: Config, m: Shared, persisted: bool, force: bool, io: FlushIo)
    requires SharedOk(o, m) && !m.writing
    ensures SharedOk(o, Flushed(o, m, persisted, force, io)) && !Flushed(o, m, persisted, force, io).writing
  {
    FlushAllOrNothing(o, m, persisted, force, io);
    AppliedOk(o, m);
    SameTablesOk(o, m, Flushed(o, m, persisted, force, io));
    SameTablesOk(o, m.(devices := Emptied(m.devices), counters := Applied(m.counters, Snapshot(m))),
                 Flushed(o, m, persisted, force, io));
  }

  lemma SameTablesOk(o: Config, m: Shared, m': Shared)
    ensures m'.devices == m.devices && m'.counters == m.counters && SharedOk(o, m) ==> SharedOk(o, m')
  {
  }

  /** A flush moves amounts from the queue to the counters, all of a series or none of it. */
  lemma FlushKeepsSum(o: Config, m: Shared, persisted: bool, force: bool, io: FlushIo, t: Series)
    requires o.Valid() && SharedOk(o, m) && !m.writing
    ensures var m' := Flushed(o, m, persisted, force, io);
            && Read(m'.counters, t) + Queued(m', t) == Read(m.counters, t) + Queued(m, t)
            && (!persisted ==> Queued(m', t) == 0.0)
  {
    if persisted {
      FlushOutcome(o, m, force, io, t);
    } else {
      UnpersistedExports(o, m, force, io, t);
    }
  }

  // ---- The service mirrors the machine ----

  /** Exported plus queued is what was integrated. */
  ghost predicate AddsUp(m: Shared, integrated: map<Series, real>) {
    forall t :: Read(m.counters, t) + Queued(m, t) == Read(integrated, t)
  }

  /** The amounts add up to the machine's; everything else but the stamps is its memory. */
  ghost predicate Mirrors(o: Config, m: Shared, s: Machine) {
    Unlocked(s) && Alike(m, s.m) && SharedOk(o, m) && !m.writing && AddsUp(m, s.integrated)
  }

  lemma SlotAddsUp(m: Shared, m': Shared, integrated: map<Series, real>, sn: Serial)
    requires AddsUp(m, integrated) && m'.counters == m.counters
    requires m'.devices == m.devices || (sn !in m.devices && m'.devices == m.devices[sn := NEW_SERIES])
    ensures AddsUp(m', integrated)
  {
    forall t ensures Read(m'.counters, t) + Queued(m', t) == Read(integrated, t) {
      assert Tracked(m', t.sn).pending == Tracked(m, t.sn).pending;
      assert Queued(m', t) == Queued(m, t);
    }
  }

  lemma SlotMirrors(o: Config, m: Shared, m': Shared, s: Machine, n: Shared, sn: Serial)
    requires o.Valid() && Mirrors(o, m, s) && Alike(m', n)
    requires m'.counters == m.counters && !m'.writing
    requires m'.devices == m.devices || (sn !in m.devices && o.HasRoom(|m.devices|) && m'.devices == m.devices[sn := NEW_SERIES])
    ensures Mirrors(o, m', s.(m := n))
  {
    assert NonNegative(NO_PENDING);
    SlotAddsUp(m, m', s.integrated, sn);
    if m'.devices == m.devices {
      SameTablesOk(o, m, m');
    } else {
      GrowthKeepsShared(o, m, m', sn);
    }
  }

  lemma ReserveMirrors(setup: Setup, m: Shared, s: Machine, sn: Serial)
    requires setup.o.Valid() && Mirrors(setup.o, m, s)
    ensures Mirrors(setup.o, Admit(setup.o, m, sn), Step(EnvOf(setup), s, Reserve(sn)))
  {
    TrackAlike(setup.o, m, s.m, sn);
    SlotMirrors(setup.o, m, Admit(setup.o, m, sn), s, Admit(setup.o, s.m, sn), sn);
  }

  lemma ConfigMirrors(setup: Setup, m: Shared, s: Machine, sn: Serial, ratedAh: Option<real>)
    requires setup.o.Valid() && Mirrors(setup.o, m, s)
    ensures Mirrors(setup.o, Configure(setup.o, m, sn, ratedAh), Step(EnvOf(setup), s, ConfigFrame(sn, ratedAh)))
  {
    ConfiguredAlike(setup.o, m, s.m, sn, ratedAh);
    SlotMirrors(setup.o, m, Configure(setup.o, m, sn, ratedAh), s, Configure(setup.o, s.m, sn, ratedAh), sn);
  }

  lemma FrameKeepsShared(o: Config, m: Shared, sn: Serial, d: RealtimeData, now: real)
    requires o.Valid() && SharedOk(o, m)
    ensures SharedOk(o, Realtime(o, m, sn, d, now)) && Realtime(o, m, sn, d, now).writing == m.writing
  {
    FrameEffect(o, m, sn, d, now);
    DeltaNonNegative(o, m, sn, d, now);
    TouchedPending(o, m, Realtime(o, m, sn, d, now), sn, DeltaOf(o, m, sn, d, now));
    GrowthKeepsShared(o, m, Realtime(o, m, sn, d, now), sn);
  }

  lemma FrameAddsUp(o: Config, m: Shared, m': Shared, integrated: map<Series, real>, sn: Serial, delta: Pending)
    requires AddsUp(m, integrated) && NonNegative(delta) && m'.counters == m.counters
    requires SlotsTouched(o, m.devices, m'.devices, sn)
    requires Tracked(m', sn).pending == Tracked(m, sn).pending.Plus(delta)
    ensures AddsUp(m', Applied(integrated, map[sn := delta]))
  {
    forall t ensures Read(m'.counters, t) + Queued(m', t) == Read(Applied(integrated, map[sn := delta]), t) {
      QueuedGrows(o, m, m', sn, delta, t);
      AddedReads(integrated, sn, delta, t);
      assert Read(m.counters, t) + Queued(m, t) == Read(integrated, t);
    }
  }

  lemma FrameMirrors(setup: Setup, m: Shared, s: Machine, sn: Serial, d: RealtimeData, now: real)
    requires setup.o.Valid() && Mirrors(setup.o, m, s)
    ensures Mirrors(setup.o, Realtime(setup.o, m, sn, d, now), OnFrame(EnvOf(setup), s, sn, d, now))
  {
    var o, delta := setup.o, DeltaOf(setup.o, m, sn, d, now);
    FrameAlike(o, m, s.m, sn, d, now);
    FrameKeepsShared(o, m, sn, d, now);
    FramedFields(s, Realtime(o, s.m, sn, d, now), sn, delta);
    assert AddsUp(Realtime(o, m, sn, d, now), Applied(s.integrated, map[sn := delta])) by {
      FrameEffect(o, m, sn, d, now);
      DeltaNonNegative(o, m, sn, d, now);
      FrameAddsUp(o, m, Realtime(o, m, sn, d, now), s.integrated, sn, delta);
    }
  }

  lemma FlushMirrors(o: Config, m: Shared, s: Machine, persisted: bool, force: bool, io: FlushIo)
    requires o.Valid() && Mirrors(o, m, s)
    ensures Mirrors(o, Flushed(o, m, persisted, force, io), s)
  {
    var m' := Flushed(o, m, persisted, force, io);
    FlushAlike(o, m, s.m, persisted, force, io);
    FlushOk(o, m, persisted, force, io);
    forall t ensures Read(m'.counters, t) + Queued(m', t) == Read(s.integrated, t) {
      assert Read(m.counters, t) + Queued(m, t) == Read(s.integrated, t);
      FlushKeepsSum(o, m, persisted, force, io, t);
    }
  }

  lemma OneEvent(env: Env, s: Machine, e: Event)
    requires Enabled(env, s, e)
    ensures Exec(env, s, [e]) == Step(env, s, e)
  {
    assert [e][..0] == [] && Exec(env, s, []) == s;
  }

  lemma EntryMirrors(setup: Setup, v: Service, s: Machine, sn: Serial, e: Entry)
    requires setup.o.Valid() && Mirrors(setup.o, v.shared, s)
    ensures Mirrors(setup.o, Handled(setup, v, sn, e).shared, Exec(EnvOf(setup), s, EntryEvents(setup.limits, sn, e)))
  {
    var env, verdict := EnvOf(setup), Judge(setup.limits, e);
    if verdict.Accepted? && verdict.reading.RealtimeReading? {
      var d := verdict.reading.d;
      OneEvent(env, s, Frame(sn, d, e.now));
      FrameMirrors(setup, v.shared, s, sn, d, e.now);
      FlushMirrors(setup.o, Realtime(setup.o, v.shared, sn, d, e.now), OnFrame(env, s, sn, d, e.now), setup.persisted, false, e.io);
    } else if verdict.Accepted? {
      OneEvent(env, s, ConfigFrame(sn, verdict.reading.ratedAh));
      ConfigMirrors(setup, v.shared, s, sn, verdict.reading.ratedAh);
    }
  }

  lemma {:induction false} EntriesMirror(setup: Setup, v: Service, s: Machine, sn: Serial, es: seq<Entry>)
    requires setup.o.Valid() && Mirrors(setup.o, v.shared, s)
    ensures Mirrors(setup.o, HandledAll(setup, v, sn, es).shared, Exec(EnvOf(setup), s, EntriesEvents(setup.limits, sn, es)))
  {
    if es != [] {
      var init, e := es[..|es| - 1], es[|es| - 1];
      EntriesMirror(setup, v, s, sn, init);
      ExecAppend(EnvOf(setup), s, EntriesEvents(setup.limits, sn, init), EntryEvents(setup.limits, sn, e));
      EntryMirrors(setup, HandledAll(setup, v, sn, init), Exec(EnvOf(setup), s, EntriesEvents(setup.limits, sn, init)), sn, e);
    }
  }

  lemma PostMirrors(setup: Setup, v: Service, before: seq<Event>, p: Post)
    requires setup.o.Valid() && Mirrors(setup.o, v.shared, Exec(EnvOf(setup), Boot(EnvOf(setup), None), before))
    ensures var env := EnvOf(setup);
            var s := Exec(env, Boot(env, None), before);
            Mirrors(setup.o, Served(setup, v, p).shared,
                    if LetIntoMachine(setup, s, p.sn) then
                      Exec(env, Boot(env, None), before + [Reserve(p.sn)] + EntriesEvents(setup.limits, p.sn, p.entries))
                    else s)
  {
    var env, boot := EnvOf(setup), Boot(EnvOf(setup), None);
    var s := Exec(env, boot, before);
    AlikeCount(v.shared, s.m);
    assert LetIntoMachine(setup, s, p.sn) <==> AcceptsSerial(setup, p.sn) && Admitted(setup.o, v.shared, p.sn);
    if LetIntoMachine(setup, s, p.sn) {
      ExecAppend(env, boot, before + [Reserve(p.sn)], EntriesEvents(setup.limits, p.sn, p.entries));
      ExecAppend(env, boot, before, [Reserve(p.sn)]);
      OneEvent(env, s, Reserve(p.sn));
      ReserveMirrors(setup, v.shared, s, p.sn);
      EntriesMirror(setup, v.(shared := Admit(setup.o, v.shared, p.sn)), Step(env, s, Reserve(p.sn)), p.sn, p.entries);
    }
  }

  lemma {:induction false} ServedMirrors(setup: Setup, posts: seq<Post>)
    requires setup.o.Valid()
    ensures Mirrors(setup.o, ServedAll(setup, posts).shared, Exec(EnvOf(setup), Boot(EnvOf(setup), None), EventsOf(setup, posts)))
  {
    if posts != [] {
      ServedMirrors(setup, posts[..|posts| - 1]);
      PostMirrors(setup, ServedAll(setup, posts[..|posts| - 1]), EventsOf(setup, posts[..|posts| - 1]), posts[|posts| - 1]);
    }
  }

  /**
   * From posts to counters. Whatever was posted, garbage and refused posts included, and however the
   * flushes went: the calibrator is that of the machine fed with the accepted frames in order, and each
   * counter with what is queued for it is the sum over the intervals between its device's frames.
   */
  lemma ServedCountersAreSums(setup: Setup, posts: seq<Post>, t: Series)
    requires setup.o.Valid()
    ensures var m, env, es := ServedAll(setup, posts).shared, EnvOf(setup), EventsOf(setup, posts);
            && m.cal == Exec(env, Boot(env, None), es).m.cal
            && Read(m.counters, t) + Queued(m, t) == Sum(setup.o, Log(env, None, es, t.sn), t.counter, true)
  {
    ServedMirrors(setup, posts);
    CountersAreSums(EnvOf(setup), None, EventsOf(setup, posts), t.sn, t.counter);
  }

  // ---- The flush that ends a frame ----

  /** Without a state file nothing is left queued. */
  ghost predicate NothingQueued(m: Shared) {
    forall t :: Queued(m, t) == 0.0
  }

  lemma SlotQueuesNothing(m: Shared, m': Shared, sn: Serial)
    requires NothingQueued(m)
    requires m'.devices == m.devices || (sn !in m.devices && m'.devices == m.devices[sn := NEW_SERIES])
    ensures NothingQueued(m')
  {
    forall t ensures Queued(m', t) == 0.0 {
      assert Queued(m, t) == 0.0 && Tracked(m', t.sn).pending == Tracked(m, t.sn).pending;
    }
  }

  lemma FrameQueuesNothing(setup: Setup, m: Shared, sn: Serial, d: RealtimeData, e: Entry)
    requires setup.o.Valid() && !setup.persisted && SharedOk(setup.o, m) && !m.writing && NothingQueued(m)
    ensures NothingQueued(Taken(setup, m, sn, RealtimeReading(d), e))
  {
    if Integrates(setup.o, Track(setup.o, m, sn), sn, d) {
      var after := Realtime(setup.o, m, sn, d, e.now);
      FrameKeepsShared(setup.o, m, sn, d, e.now);
      forall t ensures Queued(Flushed(setup.o, after, false, false, e.io), t) == 0.0 {
        FlushKeepsSum(setup.o, after, false, false, e.io, t);
      }
    } else {
      SlotQueuesNothing(m, Track(setup.o, m, sn), sn);
    }
  }

  lemma ConfigQueuesNothing(o: Config, m: Shared, sn: Serial, ratedAh: Option<real>)
    requires NothingQueued(m)
    ensures NothingQueued(Configure(o, m, sn, ratedAh))
  {
    SlotQueuesNothing(m, Configure(o, m, sn, ratedAh), sn);
  }

  lemma EntryQueuesNothing(setup: Setup, v: Service, sn: Serial, e: Entry)
    requires setup.o.Valid() && !setup.persisted && SharedOk(setup.o, v.shared) && !v.shared.writing && NothingQueued(v.shared)
    ensures NothingQueued(Handled(setup, v, sn, e).shared)
  {
    var verdict := Judge(setup.limits, e);
    if verdict.Accepted? && verdict.reading.RealtimeReading? {
      FrameQueuesNothing(setup, v.shared, sn, verdict.reading.d, e);
    } else if verdict.Accepted? {
      ConfigQueuesNothing(setup.o, v.shared, sn, verdict.reading.ratedAh);
    }
  }

  lemma {:induction false} EntriesQueueNothing(setup: Setup, v: Service, s: Machine, sn: Serial, es: seq<Entry>)
    requires setup.o.Valid() && !setup.persisted && Mirrors(setup.o, v.shared, s) && NothingQueued(v.shared)
    ensures NothingQueued(HandledAll(setup, v, sn, es).shared)
  {
    if es != [] {
      EntriesQueueNothing(setup, v, s, sn, es[..|es| - 1]);
      EntriesMirror(setup, v, s, sn, es[..|es| - 1]);
      EntryQueuesNothing(setup, HandledAll(setup, v, sn, es[..|es| - 1]), sn, es[|es| - 1]);
    }
  }

  lemma {:induction false} ServedQueuesNothing(setup: Setup, posts: seq<Post>)
    requires setup.o.Valid() && !setup.persisted
    ensures NothingQueued(ServedAll(setup, posts).shared)
  {
    if posts != [] {
      var init, p := posts[..|posts| - 1], posts[|posts| - 1];
      var v := ServedAll(setup, init);
      ServedQueuesNothing(setup, init);
      AdmittedMirrors(setup, init, p.sn);
      SlotQueuesNothing(v.shared, Admit(setup.o, v.shared, p.sn), p.sn);
      EntriesQueueNothing(setup, v.(shared := Admit(setup.o, v.shared, p.sn)), AdmittedMachine(setup, init, p.sn), p.sn, p.entries);
    }
  }

  /** The machine after the posts, and a slot for the serial. */
  function AdmittedMachine(setup: Setup, posts: seq<Post>, sn: Serial): Machine {
    var s := Exec(EnvOf(setup), Boot(EnvOf(setup), None), EventsOf(setup, posts));
    s.(m := Admit(setup.o, s.m, sn))
  }

  lemma AdmittedMirrors(setup: Setup, posts: seq<Post>, sn: Serial)
    requires setup.o.Valid()
    ensures Mirrors(setup.o, Admit(setup.o, ServedAll(setup, posts).shared, sn), AdmittedMachine(setup, posts, sn))
  {
    ServedMirrors(setup, posts);
    ReserveMirrors(setup, ServedAll(setup, posts).shared,
                   Exec(EnvOf(setup), Boot(EnvOf(setup), None), EventsOf(setup, posts)), sn);
  }

  /** So without a state file the counters themselves are the sums over the accepted frames, after any posts. */
  lemma UnpersistedCountersAreSums(setup: Setup, posts: seq<Post>, t: Series)
    requires setup.o.Valid() && !setup.persisted
    ensures Read(ServedAll(setup, posts).shared.counters, t)
         == Sum(setup.o, Log(EnvOf(setup), None, EventsOf(setup, posts), t.sn), t.counter, true)
  {
    ServedCountersAreSums(setup, posts, t);
    ServedQueuesNothing(setup, posts);
    assert Queued(ServedAll(setup, posts).shared, t) == 0.0;
  }

  lemma EntryIsFlushed(setup: Setup, v: Service, sn: Serial, e: Entry, d: RealtimeData, t: Series)
    requires setup.o.Valid() && setup.persisted && SharedOk(setup.o, v.shared) && !v.shared.writing
    requires Judge(setup.limits, e) == Accepted(RealtimeReading(d))
    requires d.currentA.Some? && (sn in v.shared.devices || setup.o.HasRoom(|v.shared.devices|))
    ensures var m, w := v.shared, Handled(setup, v, sn, e).shared;
            if IntervalOver(m.lastPersistAt, e.io.begunAt, setup.o.minInterval) && e.io.serializes && e.io.written then
              Queued(w, t) == 0.0
            else Read(w.counters, t) == Read(m.counters, t)
  {
    var o, after := setup.o, Realtime(setup.o, v.shared, sn, d, e.now);
    FrameKeepsShared(o, v.shared, sn, d, e.now);
    FrameEffect(o, v.shared, sn, d, e.now);
    FlushOutcome(o, after, false, e.io, t);
  }

  /**
   * With a state file the flush that ends each integrated frame is unforced and takes everything: inside
   * any post, after any posts, it exports all that is queued when no attempt was made yet or the last is
   * a full interval ago and its stages succeed, and otherwise leaves the counters as they were.
   */
  lemma FrameIsFlushed(setup: Setup, posts: seq<Post>, p: Post, e: Entry, d: RealtimeData, t: Series)
    requires setup.o.Valid() && setup.persisted && Judge(setup.limits, e) == Accepted(RealtimeReading(d))
    requires var m := Inside(setup, posts, p);
             d.currentA.Some? && (p.sn in m.devices || setup.o.HasRoom(|m.devices|))
    ensures var m, w := Inside(setup, posts, p), Inside(setup, posts, Post(p.sn, p.entries + [e]));
            if IntervalOver(m.lastPersistAt, e.io.begunAt, setup.o.minInterval) && e.io.serializes && e.io.written then
              Queued(w, t) == 0.0
            else Read(w.counters, t) == Read(m.counters, t)
  {
    var v := ServedAll(setup, posts);
    var admitted := v.(shared := Admit(setup.o, v.shared, p.sn));
    AdmittedMirrors(setup, posts, p.sn);
    EntriesMirror(setup, admitted, AdmittedMachine(setup, posts, p.sn), p.sn, p.entries);
    HandledOneMore(setup, admitted, p.sn, p.entries, e);
    EntryIsFlushed(setup, HandledAll(setup, admitted, p.sn, p.entries), p.sn, e, d, t);
  }

  // ---- The calibrator of what was posted ----

  /** No interruption, and frames of serials the service accepts only. */
  predicate Smooth(es: seq<Event>) {
    forall i | 0 <= i < |es| :: !es[i].Die? && !es[i].PowerLoss? && (es[i].Frame? ==> Plausible(es[i].sn))
  }

  lemma {:induction false} EntriesAreSmooth(limits: Limits, sn: Serial, es: seq<Entry>)
    requires Plausible(sn)
    ensures Smooth(EntriesEvents(limits, sn, es))
  {
    if es != [] {
      EntriesAreSmooth(limits, sn, es[..|es| - 1]);
    }
  }

  lemma {:induction false} PostsAreSmooth(setup: Setup, posts: seq<Post>)
    ensures Smooth(EventsOf(setup, posts))
  {
    if posts != [] {
      var p := posts[|posts| - 1];
      PostsAreSmooth(setup, posts[..|posts| - 1]);
      if AcceptsSerial(setup, p.sn) {
        EntriesAreSmooth(setup.limits, p.sn, p.entries);
      }
    }
  }

  lemma {:induction false} SmoothStream(env: Env, es: seq<Event>, truth: nat -> real)
    requires Smooth(es)
    ensures PairHistory.AllPlausible(TrueCharge.Stream(env, es, truth))
  {
    if es != [] {
      SmoothStream(env, es[..|es| - 1], truth);
    }
  }

  /**
   * With calibration on, the calibrator after any posts is a fresh one run over the accepted frames that
   * carry a current, all of serials the service accepts: so the theorems about the estimator's runs hold
   * of whatever is posted. `truth` only annotates the frames with the charge the packs hold.
   */
  lemma ServedCalibratorIsItsRun(setup: Setup, posts: seq<Post>, truth: nat -> real)
    requires Calibrates(setup.o) && setup.o.calibrationEnabled
    ensures var fs := TrueCharge.Stream(EnvOf(setup), EventsOf(setup, posts), truth);
            && PairHistory.AllPlausible(fs)
            && ServedAll(setup, posts).shared.cal == CalibratorRuns.Run(setup.o.calibration, fs)
  {
    ServedMirrors(setup, posts);
    PostsAreSmooth(setup, posts);
    SmoothStream(EnvOf(setup), EventsOf(setup, posts), truth);
    TrueCharge.CalibratorIsItsRun(EnvOf(setup), EventsOf(setup, posts), truth);
  }
}
