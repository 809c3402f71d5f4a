/** What a frame hands to the calibrator: its own readings, and the capacity last configured for its device. */
module Feed {
  import opened Serials
  import opened LineFit
  import opened Calibration
  import opened Accounting
  import opened Protocol
  import opened MachineShape
  import opened TrueCharge

  /** The capacity this process last read in a config frame of the device. */
  function LastRated(env: Env, file: Option<File>, es: seq<Event>, sn: Serial): Option<real> {
    if es == [] then None
    else
      var s, e := Exec(env, Boot(env, file), es[..|es| - 1]), es[|es| - 1];
      var before := LastRated(env, file, es[..|es| - 1], sn);
      if !Enabled(env, s, e) then before
      else if e.Restart? then None
      else if e.ConfigFrame? && e.cfgSn == sn && e.ratedAh.Some? then e.ratedAh
      else before
  }

  predicate RatedIs(m: Shared, sn: Serial, rated: Option<real>) {
    if sn in m.rated then rated == Some(m.rated[sn]) else rated.None?
  }

  lemma RatedKept(env: Env, s: Machine, e: Event)
    requires Enabled(env, s, e) && !e.ConfigFrame? && !e.Restart?
    ensures Step(env, s, e).m.rated == s.m.rated
  {
    if e.Frame? {
      FrameEffect(env.o, s.m, e.sn, e.d, e.now);
    } else if e.Begin? || e.Resume? || e.Reserve? {
      // neither the flush nor a slot has capacities
    } else {
      // everything else stays outside the accounting
    }
  }

  lemma RatedMoves(env: Env, s: Machine, e: Event, sn: Serial, rated: Option<real>)
    requires Enabled(env, s, e) && RatedIs(s.m, sn, rated)
    ensures RatedIs(Step(env, s, e).m, sn,
                    if e.Restart? then None
                    else if e.ConfigFrame? && e.cfgSn == sn && e.ratedAh.Some? then e.ratedAh
                    else rated)
  {
    if !e.ConfigFrame? && !e.Restart? {
      RatedKept(env, s, e);
    }
  }

  lemma {:induction false} RatedIsLast(env: Env, file: Option<File>, es: seq<Event>, sn: Serial)
    ensures RatedIs(Exec(env, Boot(env, file), es).m, sn, LastRated(env, file, es, sn))
  {
    if es != [] {
      RatedIsLast(env, file, es[..|es| - 1], sn);
      var s, e := Exec(env, Boot(env, file), es[..|es| - 1]), es[|es| - 1];
      if Enabled(env, s, e) {
        RatedMoves(env, s, e, sn, LastRated(env, file, es[..|es| - 1], sn));
      }
    }
  }

  /** The sample a frame makes: its readings, and the configured capacity if that is positive. */
  function Handed(d: RealtimeData, now: real, rated: Option<real>): Sample
    requires d.currentA.Some?
  {
    Sample(d.currentA.value, d.balanceCurrentA, d.remainingAh, if rated.Some? && rated.value > 0.0 then rated else None, now)
  }

  lemma TrackedIffRoom(o: Config, m: Shared, sn: Serial, d: RealtimeData)
    ensures Integrates(o, Track(o, m, sn), sn, d) <==> d.currentA.Some? && (sn in m.devices || o.HasRoom(|m.devices|))
  {
  }

  lemma HintIsRated(o: Config, m: Shared, sn: Serial, d: RealtimeData, now: real, rated: Option<real>)
    requires RatedIs(m, sn, rated) && d.currentA.Some?
    ensures SampleOf(m.rated, sn, d, d.currentA.value, now) == Handed(d, now, rated)
  {
  }

  lemma StateHands(env: Env, s: Machine, sn: Serial, d: RealtimeData, now: real, rated: Option<real>)
    requires Calibrates(env.o) && env.o.calibrationEnabled && Unlocked(s) && RatedIs(s.m, sn, rated)
    ensures OnFrame(env, s, sn, d, now).m.cal ==
              if d.currentA.Some? && (sn in s.m.devices || env.o.HasRoom(|s.m.devices|)) then
                Observe(env.o.calibration, s.m.cal, sn, Handed(d, now, rated))
              else s.m.cal
  {
    TrackedIffRoom(env.o, s.m, sn, d);
    if TrueCharge.Seen(env, s, sn, d) {
      SeenFrame(env, s, sn, d, now, 0.0);
      HintIsRated(env.o, s.m, sn, d, now, rated);
    } else {
      UnseenFrame(env, s, sn, d, now);
    }
  }

  /**
   * In every run a frame with a current, of a device with a slot or with room for one, is one observation
   * of the calibrator: current, bleed and remaining capacity as the frame has them, the capacity last
   * configured for the device in this process, if positive, and the clock. Any other frame is none.
   */
  lemma FrameIsHanded(env: Env, file: Option<File>, es: seq<Event>, sn: Serial, d: RealtimeData, now: real)
    requires Calibrates(env.o) && env.o.calibrationEnabled && Unlocked(Exec(env, Boot(env, file), es))
    ensures var s := Exec(env, Boot(env, file), es);
            OnFrame(env, s, sn, d, now).m.cal ==
              if d.currentA.Some? && (sn in s.m.devices || env.o.HasRoom(|s.m.devices|)) then
                Observe(env.o.calibration, s.m.cal, sn, Handed(d, now, LastRated(env, file, es, sn)))
              else s.m.cal
  {
    RatedIsLast(env, file, es, sn);
    StateHands(env, Exec(env, Boot(env, file), es), sn, d, now, LastRated(env, file, es, sn));
  }
}
