/** What a restart brings back of the calibrator: every device and every pair, as the file's writer had them. */
module Restarts {
  import opened Serials
  import opened LineFit
  import opened Calibration
  import opened CalibratorRuns
  import opened Verdicts
  import opened PairHistory
  import opened Accounting
  import opened Protocol
  import opened MachineShape
  import opened Agreement
  import opened Offsets

  // ---- One restart ----

  /** The regression a file holds for a pair. */
  function StoredPair(f: File, a: Serial, b: Serial): Sums {
    var key := PairKey(a, b).0;
    if key in f.calibration.pairs then f.calibration.pairs[key] else EMPTY
  }

  /** A restart takes over the file's regression of every pair whose two devices are restored, and of no other. */
  lemma RestartTakesPairs(env: Env, s: Machine, f: File, a: Serial, b: Serial)
    requires Enabled(env, s, Restart) && s.visible == Some(f) && Plausible(a) && Plausible(b)
    ensures var m := Step(env, s, Restart).m;
            m.cal.Pair(PairKey(a, b).0) == if a in m.devices && b in m.devices then StoredPair(f, a, b) else EMPTY
  {
    var kept := RestoredSerials(env.o, f.rows);
    RestoreKeepsAdmittedPairs(NEW_CAL, f.calibration, kept, a, b);
    assert Step(env, s, Restart).m.devices.Keys == kept;
  }

  // ---- Which serials the calibrator knows ----

  /** The devices of a known pair are tracked. */
  ghost predicate PairsTracked(c: Cal, tracked: set<Serial>) {
    forall a, b | Plausible(a) && Plausible(b) && PairKey(a, b).0 in c.pairs :: a in tracked && b in tracked
  }

  /** The calibrator knows only what has a slot. */
  ghost predicate CalTracked(c: Cal, tracked: set<Serial>) {
    c.devices.Keys <= tracked && c.live.Keys <= tracked && PairsTracked(c, tracked)
  }

  lemma BarAt(a: string, b: string, i: nat)
    requires '|' !in a && '|' !in b && i < |a + "|" + b| && (a + "|" + b)[i] == '|'
    ensures i == |a|
  {
  }

  lemma SameHalves(a: string, b: string, c: string, d: string)
    requires '|' !in a && '|' !in b && a + "|" + b == c + "|" + d
    ensures a == c && b == d
  {
    var s := c + "|" + d;
    assert s[|c|] == '|';
    BarAt(a, b, |c|);
    assert a == s[..|c|] == c && b == s[|c| + 1..] == d;
  }

  /** Whoever shares a key with two plausible serials is those two. */
  lemma KeyMembers(a: Serial, b: Serial, c: Serial, d: Serial)
    requires Plausible(a) && Plausible(b) && PairKey(a, b).0 == PairKey(c, d).0
    ensures (a == c && b == d) || (a == d && b == c)
  {
    var lo, hi := if Less(a, b) then a else b, if Less(a, b) then b else a;
    if Less(c, d) {
      SameHalves(lo, hi, c, d);
    } else {
      SameHalves(lo, hi, d, c);
    }
  }

  lemma {:induction false} KeysPaired(o: Options, c: Cal, sn: Serial, s: Sample, peers: seq<Serial>, key: string)
    requires o.Valid() && forall p | p in peers :: c.LiveOf(p).lastRaw.Some?
    requires key in PairSteps(o, c, sn, s, peers).pairs
    ensures key in c.pairs || exists p :: p in peers && key == PairKey(sn, p).0
    decreases |peers|
  {
    if peers != [] {
      var c' := PairStep(o, c, sn, s, peers[0], c.LiveOf(peers[0]).lastRaw.value.1);
      assert forall p :: c'.LiveOf(p) == c.LiveOf(p);
      KeysPaired(o, c', sn, s, peers[1..], key);
    }
  }

  /** A new pair joins the frame's device to one already known. */
  lemma NewPair(o: Options, c: Cal, sn: Serial, s: Sample, key: string)
    requires o.Valid() && key in Observe(o, c, sn, s).pairs && key !in c.pairs
    ensures exists p :: p in c.live && key == PairKey(sn, p).0
  {
    var i, peers := Integrate(o, c, sn, s, true), PeersOf(o, c, sn, s);
    RecomputeKeepsFits(o, UpdatePeers(o, i, sn, s), sn);
    KeysPaired(o, i, sn, s, peers, key);
    var p :| p in peers && key == PairKey(sn, p).0;
    PeerIsNear(o, c, sn, s, p);
  }

  lemma ObserveTracks(o: Options, c: Cal, sn: Serial, s: Sample, tracked: set<Serial>)
    requires o.Valid() && CalTracked(c, tracked) && sn in tracked
    ensures CalTracked(Observe(o, c, sn, s), tracked)
  {
    var c' := Observe(o, c, sn, s);
    KeysObserved(o, c, sn, s);
    LiveKeysObserved(o, c, sn, s);
    forall a, b | Plausible(a) && Plausible(b) && PairKey(a, b).0 in c'.pairs ensures a in tracked && b in tracked {
      if PairKey(a, b).0 !in c.pairs {
        NewPair(o, c, sn, s, PairKey(a, b).0);
        var p :| p in c.live && PairKey(a, b).0 == PairKey(sn, p).0;
        KeyMembers(a, b, sn, p);
      }
    }
  }

  lemma MoreTracked(c: Cal, tracked: set<Serial>, more: set<Serial>)
    requires CalTracked(c, tracked) && tracked <= more
    ensures CalTracked(c, more)
  {
  }

  lemma ObservedIsTracked(o: Config, m: Shared, sn: Serial, d: RealtimeData, now: real)
    requires Realtime(o, m, sn, d, now).cal != m.cal
    ensures sn in Realtime(o, m, sn, d, now).devices
  {
  }

  lemma SlotsStay(o: Config, m: Shared, sn: Serial, d: RealtimeData, now: real)
    ensures m.devices.Keys <= Realtime(o, m, sn, d, now).devices.Keys
  {
    FrameEffect(o, m, sn, d, now);
  }

  lemma CalMovesTracked(o: Config, m: Shared, m': Shared, sn: Serial)
    requires o.Valid() && CalTracked(m.cal, m.devices.Keys) && m.devices.Keys <= m'.devices.Keys
    requires m'.cal == m.cal
          || (sn in m'.devices && exists sample :: m'.cal == Observe(o.calibration, m.cal, sn, sample))
    ensures CalTracked(m'.cal, m'.devices.Keys)
  {
    MoreTracked(m.cal, m.devices.Keys, m'.devices.Keys);
    if m'.cal != m.cal {
      var sample :| m'.cal == Observe(o.calibration, m.cal, sn, sample);
      ObserveTracks(o.calibration, m.cal, sn, sample, m'.devices.Keys);
    }
  }

  lemma FrameTracks(env: Env, s: Machine, sn: Serial, d: RealtimeData, now: real)
    requires Calibrates(env.o) && CalTracked(s.m.cal, s.m.devices.Keys)
    ensures var m := OnFrame(env, s, sn, d, now).m; CalTracked(m.cal, m.devices.Keys)
  {
    FrameObserves(env, s, sn, d, now);
    SlotsStay(env.o, s.m, sn, d, now);
    if Realtime(env.o, s.m, sn, d, now).cal != s.m.cal {
      ObservedIsTracked(env.o, s.m, sn, d, now);
    }
    CalMovesTracked(env.o, s.m, Realtime(env.o, s.m, sn, d, now), sn);
  }

  lemma RestoredTracks(o: Config, f: Option<File>, now: real)
    ensures var m := Restored(o, f, now); CalTracked(m.cal, m.devices.Keys)
  {
    var m := Restored(o, f, now);
    if f.Some? {
      var kept := RestoredSerials(o, f.value.rows);
      assert m.devices.Keys == kept;
      forall a, b | Plausible(a) && Plausible(b) && PairKey(a, b).0 in m.cal.pairs ensures a in kept && b in kept {
        RestoreKeepsAdmittedPairs(NEW_CAL, f.value.calibration, kept, a, b);
      }
    }
  }

  lemma StepTracks(env: Env, s: Machine, e: Event)
    requires Calibrates(env.o) && CalTracked(s.m.cal, s.m.devices.Keys) && Enabled(env, s, e)
    ensures CalTracked(Step(env, s, e).m.cal, Step(env, s, e).m.devices.Keys)
  {
    if e.Frame? {
      FrameTracks(env, s, e.sn, e.d, e.now);
    } else if e.Restart? {
      RestoredTracks(env.o, s.visible, s.clock);
    } else {
      StepKeepsMemory(env, s, e);
      MoreTracked(s.m.cal, s.m.devices.Keys, Step(env, s, e).m.devices.Keys);
    }
  }

  /** In every run the calibrator knows only devices and pairs of devices that have a slot. */
  lemma {:induction false} RunTracks(env: Env, file: Option<File>, es: seq<Event>)
    requires Calibrates(env.o)
    ensures var m := Exec(env, Boot(env, file), es).m; CalTracked(m.cal, m.devices.Keys)
  {
    if es == [] {
      RestoredTracks(env.o, file, 0.0);
    } else {
      RunTracks(env, file, es[..|es| - 1]);
      var s, e := Exec(env, Boot(env, file), es[..|es| - 1]), es[|es| - 1];
      if Enabled(env, s, e) {
        StepTracks(env, s, e);
      }
    }
  }

  // ---- From the write to the restart ----

  /** What a write in progress holds of the calibrator and of the serials. */
  lemma PayloadCarries(o: Config, m: Shared, f: File, a: Serial, b: Serial)
    requires f == Payload(o, m)
    ensures f.rows.Keys == m.devices.Keys && f.calibration.devices == m.cal.devices
    ensures StoredPair(f, a, b) == m.cal.Pair(PairKey(a, b).0)
  {
  }

  lemma AllComeBack(env: Env, m: Shared, later: Machine, f: File, a: Serial, b: Serial)
    requires Enabled(env, later, Restart) && later.visible == Some(f) && Plausible(a) && Plausible(b)
    requires CalTracked(m.cal, m.devices.Keys) && Fits(env.o, |m.devices|)
    requires f.rows.Keys == m.devices.Keys && f.calibration.devices == m.cal.devices
    requires StoredPair(f, a, b) == m.cal.Pair(PairKey(a, b).0)
    ensures var now := Step(env, later, Restart).m.cal;
            now.Pair(PairKey(a, b).0) == m.cal.Pair(PairKey(a, b).0) && now.Device(a) == m.cal.Device(a)
  {
    RestartTakesPairs(env, later, f, a, b);
    assert |f.rows.Keys| == |m.devices.Keys|;
    assert RestoredSerials(env.o, f.rows) == f.rows.Keys;
  }

  lemma PayloadOfBegin(env: Env, s: Machine, force: bool)
    requires s.phase.Idle? && OnBegin(env, s, force, true).phase.Writing?
    ensures OnBegin(env, s, force, true).phase.payload == Payload(env.o, s.m)
  {
  }

  lemma BegunComesBack(env: Env, s: Machine, force: bool, later: Machine, a: Serial, b: Serial)
    requires s.phase.Idle? && OnBegin(env, s, force, true).phase.Writing? && Enabled(env, later, Restart)
    requires later.visible == Some(OnBegin(env, s, force, true).phase.payload) && Plausible(a) && Plausible(b)
    requires CalTracked(s.m.cal, s.m.devices.Keys) && Fits(env.o, |s.m.devices|)
    ensures var now := Step(env, later, Restart).m.cal;
            now.Pair(PairKey(a, b).0) == s.m.cal.Pair(PairKey(a, b).0) && now.Device(a) == s.m.cal.Device(a)
  {
    PayloadOfBegin(env, s, force);
    PayloadCarries(env.o, s.m, Payload(env.o, s.m), a, b);
    AllComeBack(env, s.m, later, Payload(env.o, s.m), a, b);
  }

  /**
   * A restart brings the calibrator back. Whatever run led to a flush that begins a write, and whatever
   * happened since: a process restarted on the file that write made knows of every device, and of every
   * pair of devices, exactly what the calibrator knew when the write began.
   */
  lemma RestartBringsBack(
      env: Env, file: Option<File>, es: seq<Event>, force: bool, later: Machine, eps: real, a: Serial, b: Serial)
    requires Calibrates(env.o) && Nudges(env.o.bump, eps) && eps >= 0.0 && FileOk(env.o, file)
    requires Plausible(a) && Plausible(b)
    requires var s := Exec(env, Boot(env, file), es);
             && Unlocked(s) && s.phase.Idle?
             && (var begun := Step(env, s, Begin(force, true));
                 begun.phase.Writing? && later.visible == Some(begun.phase.payload))
    requires Enabled(env, later, Restart)
    ensures var was, now := Exec(env, Boot(env, file), es).m.cal, Step(env, later, Restart).m.cal;
            && now.Pair(PairKey(a, b).0) == was.Pair(PairKey(a, b).0)
            && now.Device(a) == was.Device(a)
  {
    RunKeepsShape(env, file, es, eps);
    RunTracks(env, file, es);
    BegunComesBack(env, Exec(env, Boot(env, file), es), force, later, a, b);
  }
}
