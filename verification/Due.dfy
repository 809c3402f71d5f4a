/** When a flush is due it writes, and what it writes is exported. */
module Due {
  import opened Serials
  import opened LineFit
  import opened Calibration
  import opened Accounting
  import opened CounterFacts
  import opened Protocol
  import opened MachineShape
  import opened Conservation
  import opened Throttle
  import opened FlushRefinement

  // ---- Attempts ----

  /** When this process last learned the outcome of a write, good or bad. */
  function LastAttempt(env: Env, file: Option<File>, es: seq<Event>): Option<real> {
    if es == [] then None
    else
      var s, e := Exec(env, Boot(env, file), es[..|es| - 1]), es[|es| - 1];
      if !Enabled(env, s, e) then LastAttempt(env, file, es[..|es| - 1])
      else if e.Resume? then Some(s.clock)
      else if e.Restart? then None
      else LastAttempt(env, file, es[..|es| - 1])
  }

  lemma StampMoves(env: Env, s: Machine, e: Event)
    requires Enabled(env, s, e)
    ensures Step(env, s, e).m.lastPersistAt
         == if e.Resume? then Some(s.clock) else if e.Restart? then None else s.m.lastPersistAt
  {
    if e.Resume? || e.Restart? {
      // stamped, or forgotten
    } else if e.Frame? {
      FrameLeavesFlushAlone(env, s, e.sn, e.d, e.now);
    } else if e.Begin? || e.ConfigFrame? || e.Reserve? {
      // the first phase stamps nothing, and slots have no stamps
    } else {
      // everything else stays outside the accounting
    }
  }

  /** The stamp of the last attempt is what it says. */
  lemma {:induction false} AttemptsAreStamped(env: Env, file: Option<File>, es: seq<Event>)
    ensures Exec(env, Boot(env, file), es).m.lastPersistAt == LastAttempt(env, file, es)
  {
    if es != [] {
      AttemptsAreStamped(env, file, es[..|es| - 1]);
      var s, e := Exec(env, Boot(env, file), es[..|es| - 1]), es[|es| - 1];
      if Enabled(env, s, e) {
        StampMoves(env, s, e);
      }
    }
  }

  // ---- Due ----

  /** Some delta of some counter waits. */
  ghost predicate Waiting(m: Shared) {
    exists t :: Queued(m, t) != 0.0
  }

  /** No earlier attempt, or a full interval since. */
  predicate IntervalOver(last: Option<real>, now: real, interval: real) {
    last.None? || now >= last.value + interval
  }

  lemma NothingInAnyPart(p: Pending)
    requires forall c :: Part(p, c) == 0.0
    ensures p == NO_PENDING
  {
    assert Part(p, ChargeAh) == Part(p, DischargeAh) == Part(p, ChargeWh) == Part(p, DischargeWh) == 0.0;
    assert Part(p, CalChargeAh) == Part(p, CalDischargeAh) == Part(p, CalChargeWh) == Part(p, CalDischargeWh) == 0.0;
    assert Part(p, BalanceAh) == 0.0;
  }

  lemma WaitingIsPending(m: Shared)
    ensures Waiting(m) <==> AnyPending(m)
  {
    if AnyPending(m) {
      var sn :| sn in m.devices && m.devices[sn].pending != NO_PENDING;
      if forall c :: Part(m.devices[sn].pending, c) == 0.0 {
        NothingInAnyPart(m.devices[sn].pending);
      }
      var c :| Part(m.devices[sn].pending, c) != 0.0;
      assert Queued(m, Series(c, sn)) != 0.0;
    }
    if Waiting(m) {
      var t :| Queued(m, t) != 0.0;
      assert t.sn in m.devices && m.devices[t.sn].pending != NO_PENDING;
    }
  }

  /** The decision of a flush that finds none under way. */
  lemma DecidesToWrite(o: Config, m: Shared, force: bool, now: real)
    requires !m.writing
    ensures Writes(o, m, force, now) <==> force || (Waiting(m) && IntervalOver(m.lastPersistAt, now, o.minInterval))
  {
    WaitingIsPending(m);
  }

  /**
   * In every run, with no flush under way and the state serializing: a flush starts a write if and only
   * if it is forced, or a delta waits and this process has made no attempt yet or its last one is a full
   * interval ago.
   */
  lemma BeginWritesExactly(env: Env, file: Option<File>, es: seq<Event>, force: bool, eps: real)
    requires env.o.Valid() && Nudges(env.o.bump, eps) && eps >= 0.0 && FileOk(env.o, file)
    requires var s := Exec(env, Boot(env, file), es); Unlocked(s) && s.phase.Idle?
    ensures var s := Exec(env, Boot(env, file), es);
            Step(env, s, Begin(force, true)).phase.Writing?
            <==> force || (Waiting(s.m) && IntervalOver(LastAttempt(env, file, es), s.clock, env.o.minInterval))
  {
    var s := Exec(env, Boot(env, file), es);
    RunKeepsShape(env, file, es, eps);
    AttemptsAreStamped(env, file, es);
    DecidesToWrite(env.o, s.m, force, s.clock);
  }

  // ---- What is due is exported ----

  /** The events of a flush whose every stage succeeds. */
  function WholeFlush(env: Env, force: bool, order: seq<Series>): seq<Event> {
    [Begin(force, true)] + [Rename] + [SyncDirectory(Success(env))] + [Resume] + Raises(order) + [Release]
  }

  /** The series with something waiting, each once. */
  ghost predicate ListsWaiting(order: seq<Series>, m: Shared) {
    Distinct(order) && forall t :: t in order <==> Queued(m, t) > 0.0
  }

  lemma WaitingIsTodo(o: Config, m: Shared, order: seq<Series>)
    requires SharedOk(o, m) && ListsWaiting(order, m)
    ensures Lists(order, Todo(Snapshot(m)))
  {
    forall t ensures t in Todo(Snapshot(m)) <==> Queued(m, t) > 0.0 {
      TakenIsInFlight(o, m, t);
      TodoReads(Snapshot(m), t);
      RaisedSeries(Snapshot(m), t);
    }
  }

  /** A successful flush of the object adds what waits to the counters. */
  lemma WrittenIsExported(o: Config, m: Shared, force: bool, io: FlushIo, t: Series)
    requires SharedOk(o, m) && Writes(o, m, force, io.begunAt) && io.serializes && io.written
    ensures var m' := Flushed(o, m, true, force, io);
            Read(m'.counters, t) == Read(m.counters, t) + Queued(m, t) && Queued(m', t) == 0.0
  {
    TakenIsInFlight(o, m, t);
    AppliedReads(m.counters, Snapshot(m), t);
  }

  /**
   * So what is due is exported: in every run, a due flush whose stages succeed raises each counter by
   * exactly what waited for it, in whatever order the counters rise, and leaves nothing waiting.
   */
  lemma DueFlushExports(env: Env, file: Option<File>, es: seq<Event>, force: bool, eps: real, order: seq<Series>, t: Series)
    requires env.o.Valid() && Nudges(env.o.bump, eps) && eps >= 0.0 && FileOk(env.o, file)
    requires var s := Exec(env, Boot(env, file), es);
             && Unlocked(s) && s.phase.Idle? && ListsWaiting(order, s.m)
             && (force || (Waiting(s.m) && IntervalOver(LastAttempt(env, file, es), s.clock, env.o.minInterval)))
    ensures var s, s' := Exec(env, Boot(env, file), es), Exec(env, Boot(env, file), es + WholeFlush(env, force, order));
            && s'.up && s'.phase.Idle?
            && Read(s'.m.counters, t) == Read(s.m.counters, t) + Queued(s.m, t)
            && Queued(s'.m, t) == 0.0
  {
    var s := Exec(env, Boot(env, file), es);
    RunKeepsShape(env, file, es, eps);
    AttemptsAreStamped(env, file, es);
    DecidesToWrite(env.o, s.m, force, s.clock);
    WaitingIsTodo(env.o, s.m, order);
    SuccessfulFlushRefines(env, s, force, order);
    ExecAppend(env, Boot(env, file), es, WholeFlush(env, force, order));
    WrittenIsExported(env.o, s.m, force, FlushIo(s.clock, true, true, s.clock), t);
  }

  // ---- The object's flush ----

  /** What a flush of the object leaves of a series: exported, or untouched. */
  lemma FlushOutcome(o: Config, m: Shared, force: bool, io: FlushIo, t: Series)
    requires o.Valid() && SharedOk(o, m) && !m.writing
    ensures var m' := Flushed(o, m, true, force, io);
            var due := force || (Waiting(m) && IntervalOver(m.lastPersistAt, io.begunAt, o.minInterval));
            var exported := due && io.serializes && io.written;
            && Read(m'.counters, t) == Read(m.counters, t) + (if exported then Queued(m, t) else 0.0)
            && Queued(m', t) == (if exported then 0.0 else Queued(m, t))
            && m'.lastPersistAt == (if due && io.serializes then Some(io.endedAt) else m.lastPersistAt)
            && !m'.writing
  {
    DecidesToWrite(o, m, force, io.begunAt);
    if Writes(o, m, force, io.begunAt) && io.serializes {
      if io.written {
        WrittenIsExported(o, m, force, io, t);
      } else {
        TakeThenRequeue(m.devices);
      }
    }
  }

  /** Without a state file everything waiting is exported at once. */
  lemma UnpersistedExports(o: Config, m: Shared, force: bool, io: FlushIo, t: Series)
    requires SharedOk(o, m)
    ensures var m' := Flushed(o, m, false, force, io);
            Read(m'.counters, t) == Read(m.counters, t) + Queued(m, t) && Queued(m', t) == 0.0
  {
    TakenIsInFlight(o, m, t);
    AppliedReads(m.counters, Snapshot(m), t);
  }

  // ---- A fresh start ----

  /** A restart claims freshness when every counter reads what the visible file has. */
  lemma RestartIsFresh(env: Env, s: Machine, t: Series)
    requires env.o.Valid() && Shape(env, s) && Enabled(env, s, Restart)
    ensures var s' := Step(env, s, Restart);
            s'.m.freshAt == Some(s.clock) && Read(s'.m.counters, t) == FileTotal(s.visible, t) && Queued(s'.m, t) == 0.0
  {
    RestoredOk(env.o, s.visible, s.clock);
    assert Tracked(OnRestart(env, s).m, t.sn).pending == NO_PENDING;
  }
}
