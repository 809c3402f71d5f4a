/** Which serials get in: through the endpoint, and back in through a restart. */
module Admission {
  import opened Serials
  import opened LineFit
  import opened Calibration
  import opened Accounting
  import opened CounterFacts
  import opened MachineShape
  import opened Ingest

  // ---- Through the endpoint ----

  /** Well-formed, and on the list if there is one. */
  predicate Welcome(setup: Setup, sn: Serial) {
    && 1 <= |sn| <= 64
    && (forall i | 0 <= i < |sn| :: 'a' <= sn[i] <= 'z' || 'A' <= sn[i] <= 'Z' || '0' <= sn[i] <= '9')
    && (setup.allowed == [] || sn in setup.allowed)
  }

  /** Only welcome serials are known, and no more of them are tracked than the cap allows. */
  ghost predicate OnlyWelcome(setup: Setup, v: Service) {
    && (forall k | k in v.shared.devices :: Welcome(setup, k))
    && (forall k | k in v.seen :: Welcome(setup, k))
    && Fits(setup.o, |v.shared.devices|)
  }

  /** The slots are those there were, and perhaps the one serial's. */
  ghost predicate AtMostOneMore(o: Config, m: Shared, m': Shared, sn: Serial) {
    && m.devices.Keys <= m'.devices.Keys <= m.devices.Keys + {sn}
    && (Fits(o, |m.devices|) ==> Fits(o, |m'.devices|))
  }

  lemma SameSlots(o: Config, m: Shared, m': Shared, sn: Serial)
    requires m'.devices.Keys == m.devices.Keys
    ensures AtMostOneMore(o, m, m', sn)
  {
    assert |m'.devices.Keys| == |m.devices.Keys|;
  }

  lemma TrackAdds(o: Config, m: Shared, sn: Serial)
    ensures AtMostOneMore(o, m, Track(o, m, sn), sn) && AtMostOneMore(o, m, Admit(o, m, sn), sn)
  {
  }

  lemma AccumulateAdds(o: Config, m: Shared, sn: Serial, d: RealtimeData, now: real)
    ensures AtMostOneMore(o, m, Accumulate(o, m, sn, d, now), sn)
  {
    AccumulateEffect(o, m, sn, d, now);
    var m' := Accumulate(o, m, sn, d, now);
    if Fits(o, |m.devices|) {
      GrowthFits(o, m.devices.Keys, m'.devices.Keys, sn);
    }
  }

  lemma AddsTwice(o: Config, m: Shared, m': Shared, m'': Shared, sn: Serial)
    requires AtMostOneMore(o, m, m', sn) && AtMostOneMore(o, m', m'', sn)
    ensures AtMostOneMore(o, m, m'', sn)
  {
  }

  lemma FlushedSlots(m: Shared, snapshot: map<Serial, Pending>)
    ensures Emptied(m.devices).Keys == m.devices.Keys && Requeued(Emptied(m.devices), snapshot).Keys == m.devices.Keys
  {
    assert Emptied(m.devices).Keys == m.devices.Keys;
  }

  lemma FlushKeepsSlots(o: Config, m: Shared, persisted: bool, force: bool, io: FlushIo, sn: Serial)
    ensures AtMostOneMore(o, m, Flushed(o, m, persisted, force, io), sn)
  {
    FlushedSlots(m, Snapshot(m));
    SameSlots(o, m, Flushed(o, m, persisted, force, io), sn);
  }

  lemma HandledAdds(setup: Setup, v: Service, sn: Serial, e: Entry)
    ensures AtMostOneMore(setup.o, v.shared, Handled(setup, v, sn, e).shared, sn) && Handled(setup, v, sn, e).seen == v.seen
  {
    var o, m, verdict := setup.o, v.shared, Judge(setup.limits, e);
    if verdict.Accepted? && verdict.reading.RealtimeReading? {
      var d := verdict.reading.d;
      var after := Realtime(o, m, sn, d, e.now);
      TrackAdds(o, m, sn);
      AccumulateAdds(o, Track(o, m, sn), sn, d, e.now);
      AddsTwice(o, m, Track(o, m, sn), after, sn);
      FlushKeepsSlots(o, after, setup.persisted, false, e.io, sn);
      AddsTwice(o, m, after, Flushed(o, after, setup.persisted, false, e.io), sn);
    } else if verdict.Accepted? {
      TrackAdds(o, if verdict.reading.ratedAh.Some? then m.(rated := m.rated[sn := verdict.reading.ratedAh.value]) else m, sn);
    }
  }

  lemma {:induction false} AllHandledAdd(setup: Setup, v: Service, sn: Serial, es: seq<Entry>)
    ensures AtMostOneMore(setup.o, v.shared, HandledAll(setup, v, sn, es).shared, sn)
    ensures HandledAll(setup, v, sn, es).seen == v.seen
  {
    if es != [] {
      AllHandledAdd(setup, v, sn, es[..|es| - 1]);
      HandledAdds(setup, HandledAll(setup, v, sn, es[..|es| - 1]), sn, es[|es| - 1]);
      AddsTwice(setup.o, v.shared, HandledAll(setup, v, sn, es[..|es| - 1]).shared, HandledAll(setup, v, sn, es).shared, sn);
    }
  }

  lemma PostAdds(setup: Setup, v: Service, p: Post)
    ensures AtMostOneMore(setup.o, v.shared, Served(setup, v, p).shared, p.sn)
    ensures !Welcome(setup, p.sn) ==> Served(setup, v, p) == v.(dropped := Served(setup, v, p).dropped)
    ensures Served(setup, v, p).seen <= v.seen + {p.sn}
  {
    var admitted := v.(shared := Admit(setup.o, v.shared, p.sn));
    if AcceptsSerial(setup, p.sn) && Admitted(setup.o, v.shared, p.sn) {
      TrackAdds(setup.o, v.shared, p.sn);
      AllHandledAdd(setup, admitted, p.sn, p.entries);
      AddsTwice(setup.o, v.shared, admitted.shared, Served(setup, v, p).shared, p.sn);
    } else {
      SameSlots(setup.o, v.shared, Served(setup, v, p).shared, p.sn);
    }
  }

  lemma PostKeepsWelcome(setup: Setup, v: Service, p: Post)
    requires OnlyWelcome(setup, v)
    ensures OnlyWelcome(setup, Served(setup, v, p))
  {
    PostAdds(setup, v, p);
  }

  /** After any posts only well-formed, allowed serials have a slot or were seen, and no more than the cap. */
  lemma {:induction false} OnlyWelcomeGetIn(setup: Setup, posts: seq<Post>)
    ensures OnlyWelcome(setup, ServedAll(setup, posts))
  {
    if posts != [] {
      OnlyWelcomeGetIn(setup, posts[..|posts| - 1]);
      PostKeepsWelcome(setup, ServedAll(setup, posts[..|posts| - 1]), posts[|posts| - 1]);
    }
  }

  /**
   * And every welcome serial does get in while there is room for it or it is in already: its post is
   * seen, and under a cap it has a slot. Any other post only counts its entries, at least one, as dropped:
   * for its serial, or else for the cap.
   */
  lemma WelcomeGetsIn(setup: Setup, v: Service, p: Post)
    ensures var w, o := Served(setup, v, p), setup.o;
            if Welcome(setup, p.sn) && (o.maxDevices == 0 || p.sn in v.shared.devices || |v.shared.devices| < o.maxDevices) then
              p.sn in w.seen && (o.maxDevices != 0 ==> p.sn in w.shared.devices)
            else
              var reason := if Welcome(setup, p.sn) then DeviceLimit else SerialRejected;
              w == v.(dropped := v.dropped + multiset{}[reason := if p.entries == [] then 1 else |p.entries|])
  {
    var admitted := v.(shared := Admit(setup.o, v.shared, p.sn));
    AllHandledAdd(setup, admitted, p.sn, p.entries);
    assert Welcome(setup, p.sn) <==> AcceptsSerial(setup, p.sn);
  }

  // ---- Back in through a restart ----

  lemma RankOfKey(keys: seq<Serial>, i: nat)
    requires Ascending(keys) && i < |keys|
    ensures (set k | k in keys && Less(k, keys[i])) == FirstKeys(keys, i)
  {
    forall k | k in keys ensures Less(k, keys[i]) <==> k in FirstKeys(keys, i) {
      var j :| 0 <= j < |keys| && keys[j] == k;
      if j >= i {
        if Less(k, keys[i]) {
          LessIsAsymmetric(keys[i], keys[j]);
        }
        forall l | 0 <= l < i ensures keys[l] != k {
          AscendingIsDistinct(keys, l, j);
        }
      }
    }
  }

  lemma AmongTheFirst(keys: seq<Serial>, i: nat, n: nat)
    requires Ascending(keys) && i < |keys| && n <= |keys|
    ensures keys[i] in FirstKeys(keys, n) <==> i < n
  {
    if i >= n {
      forall j | 0 <= j < n ensures keys[j] != keys[i] {
        AscendingIsDistinct(keys, j, i);
      }
    }
  }

  lemma Rank(s: set<Serial>, keys: seq<Serial>, i: nat)
    requires keys == Sorted(s) && i < |keys|
    ensures |set k | k in s && Less(k, keys[i])| == i
  {
    RankOfKey(keys, i);
    FirstKeysCount(keys, i);
    assert (set k | k in s && Less(k, keys[i])) == (set k | k in keys && Less(k, keys[i]));
  }

  /** A restart brings back exactly the serials of the file that fewer than the cap come before. */
  lemma FirstSerialsComeBack(o: Config, rows: map<Serial, CoulombEntry>, sn: Serial)
    ensures sn in RestoredSerials(o, rows)
       <==> sn in rows && (o.maxDevices == 0 || |set k | k in rows.Keys && Less(k, sn)| < o.maxDevices)
  {
    var keys := Sorted(rows.Keys);
    if sn in rows {
      var i :| 0 <= i < |keys| && keys[i] == sn;
      Rank(rows.Keys, keys, i);
      if o.maxDevices != 0 && |keys| > o.maxDevices {
        AmongTheFirst(keys, i, o.maxDevices);
      }
    }
  }
}
