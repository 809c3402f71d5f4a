/** How often the state file is written, and when its freshness may be claimed. */
module Throttle {
  import opened Serials
  import opened LineFit
  import opened Calibration
  import opened Accounting
  import opened Protocol
  import opened MachineShape
  import opened CrashSafety
  import opened Conservation

  // ---- Spacing ----

  /** An unforced write starts a full interval after every write before it, failed ones included. */
  ghost predicate Spaced(interval: real, starts: seq<WriteStart>) {
    forall i, j | 0 <= i < j < |starts| ::
      starts[i].at <= starts[j].at && (!starts[j].forced ==> starts[i].at + interval <= starts[j].at)
  }

  ghost predicate NoLaterThan(starts: seq<WriteStart>, at: real) {
    forall i | 0 <= i < |starts| :: starts[i].at <= at
  }

  /** The attempts made so far are behind the clock, and behind the stamp once none is under way. */
  ghost predicate Paced(env: Env, s: Machine) {
    && Spaced(env.o.minInterval, s.starts)
    && NoLaterThan(s.starts, s.clock)
    && (s.up && !s.m.writing && s.starts != [] ==>
          s.m.lastPersistAt.Some? && NoLaterThan(s.starts, s.m.lastPersistAt.value))
  }

  lemma StartKeepsSpacing(interval: real, starts: seq<WriteStart>, start: WriteStart)
    requires Spaced(interval, starts) && NoLaterThan(starts, start.at)
    requires starts != [] && !start.forced ==> NoLaterThan(starts, start.at - interval)
    ensures Spaced(interval, starts + [start]) && NoLaterThan(starts + [start], start.at)
  {
  }

  lemma EarlierIsNoLater(starts: seq<WriteStart>, at: real, later: real)
    requires NoLaterThan(starts, at) && at <= later
    ensures NoLaterThan(starts, later)
  {
  }

  /** The one step that starts a write: it happens when none is under way, and not too soon. */
  lemma BeginKeepsPace(env: Env, s: Machine, force: bool, serializes: bool)
    requires env.o.Valid() && Paced(env, s) && Unlocked(s)
    ensures Paced(env, OnBegin(env, s, force, serializes))
  {
    if Writes(env.o, s.m, force, s.clock) && serializes {
      if !force && s.starts != [] {
        EarlierIsNoLater(s.starts, s.m.lastPersistAt.value, s.clock - env.o.minInterval);
      }
      StartKeepsSpacing(env.o.minInterval, s.starts, WriteStart(s.clock, force));
    }
  }

  lemma QuietKeepsPace(env: Env, s: Machine, s': Machine)
    requires Paced(env, s) && s'.starts == s.starts && s.clock <= s'.clock
    requires s'.up ==> s.up && s'.m.writing == s.m.writing && s'.m.lastPersistAt == s.m.lastPersistAt
    ensures Paced(env, s')
  {
    EarlierIsNoLater(s.starts, s.clock, s'.clock);
  }

  /** A frame leaves the flush's own fields alone. */
  lemma FrameLeavesFlushAlone(env: Env, s: Machine, sn: Serial, d: RealtimeData, now: real)
    ensures var s' := OnFrame(env, s, sn, d, now);
            && s'.up == s.up && s'.phase == s.phase && s'.clock == s.clock && s'.starts == s.starts
            && s'.m.writing == s.m.writing && s'.m.lastPersistAt == s.m.lastPersistAt && s'.m.freshAt == s.m.freshAt
  {
    FrameEffect(env.o, s.m, sn, d, now);
    FramedFields(s, Realtime(env.o, s.m, sn, d, now), sn, DeltaOf(env.o, s.m, sn, d, now));
  }

  /** An attempt that is over was stamped when it returned. */
  ghost predicate Stamped(s: Machine) {
    s.up && s.phase.Applying? ==> s.m.lastPersistAt.Some? && NoLaterThan(s.starts, s.m.lastPersistAt.value)
  }

  lemma ResumeKeepsPace(env: Env, s: Machine)
    requires Shape(env, s) && Paced(env, s) && s.up && s.phase.Returned?
    ensures Paced(env, OnResume(s)) && Stamped(OnResume(s))
  {
  }

  lemma ApplyKeepsPace(env: Env, s: Machine, e: Event)
    requires Paced(env, s) && Stamped(s) && Enabled(env, s, e) && (e.RaiseOne? || e.Release?)
    ensures Paced(env, Step(env, s, e)) && Stamped(Step(env, s, e))
  {
  }

  lemma OtherKeepsPace(env: Env, s: Machine, e: Event)
    requires Paced(env, s) && Stamped(s) && Enabled(env, s, e)
    requires !e.Frame? && !e.Begin? && !e.Resume? && !e.RaiseOne? && !e.Release? && !e.Restart?
    ensures Paced(env, Step(env, s, e)) && Stamped(Step(env, s, e))
  {
    QuietKeepsPace(env, s, Step(env, s, e));
  }

  lemma StepKeepsPace(env: Env, s: Machine, e: Event)
    requires env.o.Valid() && Shape(env, s) && Paced(env, s) && Stamped(s) && Enabled(env, s, e)
    ensures Paced(env, Step(env, s, e)) && Stamped(Step(env, s, e))
  {
    if e.Frame? {
      FrameLeavesFlushAlone(env, s, e.sn, e.d, e.now);
      QuietKeepsPace(env, s, OnFrame(env, s, e.sn, e.d, e.now));
    } else if e.Begin? {
      BeginKeepsPace(env, s, e.force, e.serializes);
    } else if e.Resume? {
      ResumeKeepsPace(env, s);
    } else if e.RaiseOne? || e.Release? {
      ApplyKeepsPace(env, s, e);
    } else if !e.Restart? {
      OtherKeepsPace(env, s, e);
    }
  }

  lemma {:induction false} RunKeepsPace(env: Env, file: Option<File>, es: seq<Event>, eps: real)
    requires env.o.Valid() && Nudges(env.o.bump, eps) && eps >= 0.0 && FileOk(env.o, file)
    ensures Paced(env, Exec(env, Boot(env, file), es)) && Stamped(Exec(env, Boot(env, file), es))
  {
    if es != [] {
      RunKeepsPace(env, file, es[..|es| - 1], eps);
      var before := Exec(env, Boot(env, file), es[..|es| - 1]);
      if Enabled(env, before, es[|es| - 1]) {
        RunKeepsShape(env, file, es[..|es| - 1], eps);
        StepKeepsPace(env, before, es[|es| - 1]);
      }
    }
  }

  // ---- How many writes a window holds ----

  function UnforcedIn(starts: seq<WriteStart>, from: real, to: real): nat {
    if starts == [] then 0
    else
      var w := starts[|starts| - 1];
      UnforcedIn(starts[..|starts| - 1], from, to) + if !w.forced && from <= w.at <= to then 1 else 0
  }

  /** As long as `n` intervals in a row. */
  function Lasting(n: nat, interval: real): real {
    if n == 0 then 0.0 else Lasting(n - 1, interval) + interval
  }

  /** The n-th unforced write of a window is n - 1 intervals after its beginning, and some write is that late. */
  lemma {:induction false} WindowFills(interval: real, starts: seq<WriteStart>, from: real, to: real)
    requires interval > 0.0 && Spaced(interval, starts)
    ensures var n := UnforcedIn(starts, from, to);
            n > 0 ==> exists i :: 0 <= i < |starts| && starts[i].at <= to && from + Lasting(n - 1, interval) <= starts[i].at
  {
    if starts != [] {
      var init, w := starts[..|starts| - 1], starts[|starts| - 1];
      WindowFills(interval, init, from, to);
      var m, n := UnforcedIn(init, from, to), UnforcedIn(starts, from, to);
      if m > 0 {
        var i :| 0 <= i < |init| && init[i].at <= to && from + Lasting(m - 1, interval) <= init[i].at;
        assert starts[i] == init[i];
        if n == m + 1 {
          assert starts[i].at + interval <= w.at;
        }
      } else if n > 0 {
        assert starts[|starts| - 1].at == w.at;
      }
    }
  }

  /**
   * Within one process: any unforced write starts at least the interval after every write before it,
   * and a window of length L holds at most L / interval + 1 of them.
   */
  lemma WritesAreThrottled(env: Env, file: Option<File>, es: seq<Event>, eps: real, from: real, to: real)
    requires env.o.Valid() && Nudges(env.o.bump, eps) && eps >= 0.0 && FileOk(env.o, file)
    ensures var s := Exec(env, Boot(env, file), es);
            && Spaced(env.o.minInterval, s.starts)
            && (var n := UnforcedIn(s.starts, from, to); n > 0 ==> Lasting(n - 1, env.o.minInterval) <= to - from)
  {
    RunKeepsPace(env, file, es, eps);
    var s := Exec(env, Boot(env, file), es);
    WindowFills(env.o.minInterval, s.starts, from, to);
  }

  /** A flush starts a write only while none is under way: one that finds one changes nothing at all. */
  lemma OneWriteAtATime(env: Env, file: Option<File>, es: seq<Event>, eps: real, force: bool, serializes: bool)
    requires env.o.Valid() && Nudges(env.o.bump, eps) && eps >= 0.0 && FileOk(env.o, file)
    requires Unlocked(Exec(env, Boot(env, file), es))
    ensures var s := Exec(env, Boot(env, file), es);
            !s.phase.Idle? ==> OnBegin(env, s, force, serializes) == s
  {
    RunKeepsShape(env, file, es, eps);
  }

  // ---- Honest freshness ----

  /** The steps that stamp: a flush that finds nothing to write, and the end of one that wrote. */
  predicate Stamps(s: Machine, e: Event) {
    e.Release? || (e.Begin? && Idles(s.m, e.force))
  }

  /**
   * Wherever a run claims freshness, every content a power loss may leave covers the counters, and
   * nothing is on its way to them; a flush that finds nothing to write moreover stamps only when every
   * delta the process ever integrated is exported.
   */
  lemma FreshnessIsHonest(env: Env, file: Option<File>, es: seq<Event>, e: Event, eps: real, f: Option<File>, t: Series)
    requires env.o.Valid() && env.path.SyncsDirectory() && Nudges(env.o.bump, eps) && eps >= 0.0 && FileOk(env.o, file)
    requires RestartsSettled(env, Boot(env, file), es)
    requires var s := Exec(env, Boot(env, file), es);
             Enabled(env, s, e) && Stamps(s, e) && f in s.disk
    ensures var s := Exec(env, Boot(env, file), es);
            && Step(env, s, e).m.freshAt == Some(s.clock)
            && Read(s.m.counters, t) + Queued(s.m, t) == Read(s.base, t) + Read(s.integrated, t)
            && Read(s.m.counters, t) <= FileTotal(f, t)
            && (e.Begin? ==> Queued(s.m, t) == 0.0)
  {
    var s := Exec(env, Boot(env, file), es);
    RunKeepsInv(env, file, es, eps);
    RunConserves(env, file, es, eps);
    assert CoversCounters(f, s.m, s.phase);
    if e.Begin? {
      assert Tracked(s.m, t.sn).pending == NO_PENDING;
    }
  }

  /** No other step of a running process moves the freshness. */
  lemma NothingElseStamps(env: Env, s: Machine, e: Event)
    requires s.up && Enabled(env, s, e) && !Stamps(s, e)
    ensures Step(env, s, e).m.freshAt == s.m.freshAt
  {
    if e.Frame? {
      FrameLeavesFlushAlone(env, s, e.sn, e.d, e.now);
    } else if e.ConfigFrame? || e.Reserve? {
      // slots only
    } else if e.Begin? || e.Resume? {
      // a write begins, or its outcome is taken in
    } else {
      // everything else stays outside the accounting
    }
  }
}
