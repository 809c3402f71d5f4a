/** The flush of the metrics object is what the machine's small steps do when nothing comes in between. */
module FlushRefinement {
  import opened Serials
  import opened LineFit
  import opened Calibration
  import opened Accounting
  import opened CounterFacts
  import opened Protocol
  import opened MachineShape
  import opened CrashSafety
  import opened Conservation
  import opened DirectorySync

  /** One increment per series, in the order given. */
  function Raises(order: seq<Series>): seq<Event> {
    if order == [] then [] else Raises(order[..|order| - 1]) + [RaiseOne(order[|order| - 1])]
  }

  predicate Distinct(order: seq<Series>) {
    forall i, j | 0 <= i < j < |order| :: order[i] != order[j]
  }

  /** The order names every series still to rise, once. */
  ghost predicate Lists(order: seq<Series>, todo: map<Series, real>) {
    Distinct(order) && forall t :: t in order <==> t in todo
  }

  /** How far the counters are once these series have risen. */
  ghost predicate HaveRisen(s: Machine, s': Machine, order: seq<Series>)
    requires s.phase.Applying?
  {
    && s' == s.(m := s.m.(counters := s'.m.counters), phase := s'.phase)
    && s'.phase.Applying?
    && (forall t :: t in s'.phase.todo <==> t in s.phase.todo && t !in order)
    && (forall t | t in s'.phase.todo :: s'.phase.todo[t] == s.phase.todo[t])
    && (forall t :: Read(s'.m.counters, t) == Read(s.m.counters, t) + if t in order then Read(s.phase.todo, t) else 0.0)
    && (forall t :: t in s'.m.counters <==> t in s.m.counters || t in order)
  }

  lemma OneMoreRises(env: Env, s: Machine, s': Machine, order: seq<Series>, t: Series)
    requires env.o.Valid() && s.up && s.phase.Applying? && HaveRisen(s, s', order)
    requires t in s.phase.todo && t !in order && s.phase.todo[t] > 0.0
    ensures Enabled(env, s', RaiseOne(t)) && HaveRisen(s, Step(env, s', RaiseOne(t)), order + [t])
  {
    var s2 := Step(env, s', RaiseOne(t));
    forall u
      ensures Read(s2.m.counters, u) == Read(s.m.counters, u) + if u in order + [t] then Read(s.phase.todo, u) else 0.0
      ensures u in s2.m.counters <==> u in s.m.counters || u in order + [t]
    {
      RaiseReads(s'.m.counters, t, s'.phase.todo[t], u);
    }
  }

  lemma {:induction false} SomeRise(env: Env, s: Machine, order: seq<Series>)
    requires env.o.Valid() && s.up && s.phase.Applying? && Distinct(order)
    requires forall t | t in order :: t in s.phase.todo && s.phase.todo[t] > 0.0
    ensures HaveRisen(s, Exec(env, s, Raises(order)), order)
  {
    if order != [] {
      var init, t := order[..|order| - 1], order[|order| - 1];
      assert order == init + [t];
      SomeRise(env, s, init);
      OneMoreRises(env, s, Exec(env, s, Raises(init)), init, t);
      ExecMore(env, s, Raises(init), RaiseOne(t));
    }
  }

  /** In whatever order the counters rise, the snapshot is applied. */
  lemma AnyOrderApplies(env: Env, s: Machine, snapshot: map<Serial, Pending>, order: seq<Series>)
    requires env.o.Valid() && s.up && s.phase == Applying(Todo(snapshot)) && Lists(order, s.phase.todo)
    ensures var s' := Exec(env, s, Raises(order));
            s' == s.(m := s.m.(counters := Applied(s.m.counters, snapshot)), phase := Applying(map[]))
  {
    forall t | t in order ensures t in s.phase.todo && s.phase.todo[t] > 0.0 {
      TodoReads(snapshot, t);
    }
    SomeRise(env, s, order);
    var s' := Exec(env, s, Raises(order));
    forall t ensures Read(s'.m.counters, t) == Read(Applied(s.m.counters, snapshot), t)
             ensures t in s'.m.counters <==> t in Applied(s.m.counters, snapshot) {
      TodoReads(snapshot, t);
      RaisedSeries(snapshot, t);
      AppliedReads(s.m.counters, snapshot, t);
    }
    SameCounters(s'.m.counters, Applied(s.m.counters, snapshot));
    assert s'.phase.todo == map[];
  }

  /** Which outcome of the directory fsync counts as a successful write. */
  function Success(env: Env): DirSync {
    if env.path.SyncsDirectory() then Synced else Skipped
  }

  lemma ExecAppend(env: Env, s: Machine, es: seq<Event>, more: seq<Event>)
    requires env.o.Valid()
    ensures Exec(env, s, es + more) == Exec(env, Exec(env, s, es), more)
    decreases |more|
  {
    if more == [] {
      assert es + more == es;
    } else {
      var init := more[..|more| - 1];
      assert (es + more)[..|es + more| - 1] == es + init;
      ExecAppend(env, s, es, init);
    }
  }

  /** A write that succeeds, up to the moment the counters start to rise. */
  lemma WriteSucceeds(env: Env, s: Machine, force: bool)
    requires env.o.Valid() && Unlocked(s) && s.phase.Idle? && Writes(env.o, s.m, force, s.clock)
    ensures var s' := Exec(env, s, [Begin(force, true)] + [Rename] + [SyncDirectory(Success(env))] + [Resume]);
            && s'.up && s'.phase == Applying(Todo(Snapshot(s.m))) && s'.clock == s.clock
            && s'.m == BeginFlush(env.o, s.m, force, s.clock, true).(lastPersistAt := Some(s.clock))
  {
    assert [] + [Begin(force, true)] == [Begin(force, true)];
    ExecTwoMore(env, s, [], Begin(force, true), Rename);
    ExecTwoMore(env, s, [Begin(force, true)] + [Rename], SyncDirectory(Success(env)), Resume);
  }

  /**
   * A flush that succeeds with nothing in between leaves exactly the state the object's own flush
   * leaves, in whatever order the counters rise.
   */
  lemma SuccessfulFlushRefines(env: Env, s: Machine, force: bool, order: seq<Series>)
    requires env.o.Valid() && Unlocked(s) && s.phase.Idle? && Writes(env.o, s.m, force, s.clock)
    requires Lists(order, Todo(Snapshot(s.m)))
    ensures var begin := [Begin(force, true)] + [Rename] + [SyncDirectory(Success(env))] + [Resume];
            var s' := Exec(env, s, begin + Raises(order) + [Release]);
            && s'.up && s'.phase.Idle?
            && s'.m == Flushed(env.o, s.m, true, force, FlushIo(s.clock, true, true, s.clock))
  {
    var begin := [Begin(force, true)] + [Rename] + [SyncDirectory(Success(env))] + [Resume];
    WriteSucceeds(env, s, force);
    var rising := Exec(env, s, begin);
    AnyOrderApplies(env, rising, Snapshot(s.m), order);
    ExecAppend(env, s, begin, Raises(order));
    ExecMore(env, s, begin + Raises(order), Release);
  }

  /** A flush that fails, before the rename or at the directory fsync, leaves the object's failed flush. */
  lemma FailedFlushRefines(env: Env, s: Machine, force: bool)
    requires env.o.Valid() && Unlocked(s) && s.phase.Idle? && Writes(env.o, s.m, force, s.clock)
    ensures var s' := Exec(env, s, [Begin(force, true)] + [WriteFails] + [Resume]);
            s'.phase.Idle? && s'.m == Flushed(env.o, s.m, true, force, FlushIo(s.clock, true, false, s.clock))
    ensures env.path.SyncsDirectory() ==>
              var s' := Exec(env, s, [Begin(force, true)] + [Rename] + [SyncDirectory(Failed)] + [Resume]);
              s'.phase.Idle? && s'.m == Flushed(env.o, s.m, true, force, FlushIo(s.clock, true, false, s.clock))
  {
    assert [] + [Begin(force, true)] == [Begin(force, true)];
    ExecTwoMore(env, s, [], Begin(force, true), WriteFails);
    ExecMore(env, s, [Begin(force, true)] + [WriteFails], Resume);
    if env.path.SyncsDirectory() {
      ExecTwoMore(env, s, [], Begin(force, true), Rename);
      ExecTwoMore(env, s, [Begin(force, true)] + [Rename], SyncDirectory(Failed), Resume);
    }
  }

  // ---- A graceful stop ----

  /** The events of a successful forced flush. */
  function ForcedFlush(env: Env, order: seq<Series>): seq<Event> {
    [Begin(true, true)] + [Rename] + [SyncDirectory(Success(env))] + [Resume] + Raises(order) + [Release]
  }

  lemma {:induction false} RaisesRestartNothing(order: seq<Series>)
    ensures forall i | 0 <= i < |Raises(order)| :: !Raises(order)[i].Restart?
  {
    if order != [] {
      RaisesRestartNothing(order[..|order| - 1]);
    }
  }

  lemma {:induction false} StillSettled(env: Env, s: Machine, es: seq<Event>, more: seq<Event>)
    requires RestartsSettled(env, s, es) && forall i | 0 <= i < |more| :: !more[i].Restart?
    ensures RestartsSettled(env, s, es + more)
    decreases |more|
  {
    if more == [] {
      assert es + more == es;
    } else {
      StillSettled(env, s, es, more[..|more| - 1]);
      assert (es + more)[..|es + more| - 1] == es + more[..|more| - 1];
    }
  }

  /** A successful forced flush exports everything its process holds. */
  lemma FlushExportsAll(env: Env, file: Option<File>, es: seq<Event>, eps: real, order: seq<Series>, t: Series)
    requires env.o.Valid() && Nudges(env.o.bump, eps) && eps >= 0.0 && FileOk(env.o, file)
    requires var s := Exec(env, Boot(env, file), es);
             Unlocked(s) && s.phase.Idle? && Lists(order, Todo(Snapshot(s.m)))
    ensures var s, s' := Exec(env, Boot(env, file), es), Exec(env, Boot(env, file), es + ForcedFlush(env, order));
            s'.up && Read(s'.m.counters, t) == Read(s.base, t) + Read(s.integrated, t)
  {
    var s := Exec(env, Boot(env, file), es);
    RunKeepsShape(env, file, es, eps);
    RunConserves(env, file, es, eps);
    SuccessfulFlushRefines(env, s, true, order);
    ExecAppend(env, Boot(env, file), es, ForcedFlush(env, order));
    TakenIsInFlight(env.o, s.m, t);
    AppliedReads(s.m.counters, Snapshot(s.m), t);
  }

  /**
   * A process that flushes successfully before it stops loses nothing: whatever the disk then holds, a
   * restart on it begins at or above all the process started with and all it integrated.
   */
  lemma StopLosesNothing(
      env: Env, file: Option<File>, es: seq<Event>, eps: real, order: seq<Series>, f: Option<File>, now: real, t: Series)
    requires env.o.Valid() && env.path.SyncsDirectory() && Nudges(env.o.bump, eps) && eps >= 0.0 && FileOk(env.o, file)
    requires RestartsSettled(env, Boot(env, file), es)
    requires var s := Exec(env, Boot(env, file), es);
             Unlocked(s) && s.phase.Idle? && Lists(order, Todo(Snapshot(s.m)))
    requires f in Exec(env, Boot(env, file), es + ForcedFlush(env, order)).disk
    ensures var s := Exec(env, Boot(env, file), es);
            Read(s.base, t) + Read(s.integrated, t) <= Read(Restored(env.o, f, now).counters, t)
  {
    RaisesRestartNothing(order);
    StillSettled(env, Boot(env, file), es, ForcedFlush(env, order));
    FlushExportsAll(env, file, es, eps, order, t);
    CrashSafeMonotonicity(env, file, es + ForcedFlush(env, order), eps);
  }
}
