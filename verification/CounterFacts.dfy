/** How counters, snapshots and restored rows add up. */
module CounterFacts {
  import opened Serials
  import opened LineFit
  import opened Calibration
  import opened Accounting

  lemma EveryCounter(c: Counter)
    ensures c in COUNTERS
  {
  }

  lemma RaiseReads(counters: map<Series, real>, s: Series, v: real, t: Series)
    ensures Read(Raise(counters, s, v), t) == Read(counters, t) + if t == s then Max(v, 0.0) else 0.0
    ensures t in Raise(counters, s, v) <==> t in counters || (t == s && v > 0.0)
  {
  }

  /** The history of nine raises. */
  predicate NineRaises(h: seq<map<Series, real>>, sn: Serial, v: seq<real>) {
    && |h| == 10 && |v| == 9
    && (forall i | 0 <= i < 9 :: h[i + 1] == Raise(h[i], Series(ORDER[i], sn), v[i]))
  }

  const ORDER: seq<Counter> :=
    [ChargeAh, DischargeAh, ChargeWh, DischargeWh, CalChargeAh, CalDischargeAh, CalChargeWh, CalDischargeWh, BalanceAh]

  /** Position of a counter in the order of raising. */
  function Place(c: Counter): (i: nat)
    ensures i < 9 && ORDER[i] == c
    ensures forall j | 0 <= j < 9 && j != i :: ORDER[j] != c
  {
    match c
    case ChargeAh => 0
    case DischargeAh => 1
    case ChargeWh => 2
    case DischargeWh => 3
    case CalChargeAh => 4
    case CalDischargeAh => 5
    case CalChargeWh => 6
    case CalDischargeWh => 7
    case BalanceAh => 8
  }

  lemma {:induction false} NineRaisesRead(h: seq<map<Series, real>>, sn: Serial, v: seq<real>, t: Series, k: nat)
    requires NineRaises(h, sn, v) && k <= 9
    ensures var i := Place(t.counter);
            && Read(h[k], t) == Read(h[0], t) + (if t.sn == sn && i < k then Max(v[i], 0.0) else 0.0)
            && (t in h[k] <==> t in h[0] || (t.sn == sn && i < k && v[i] > 0.0))
  {
    if k > 0 {
      NineRaisesRead(h, sn, v, t, k - 1);
      RaiseReads(h[k - 1], Series(ORDER[k - 1], sn), v[k - 1], t);
    }
  }

  /** Maps of counters with the same series and readings are the same. */
  lemma SameCounters(c: map<Series, real>, c': map<Series, real>)
    requires forall t :: t in c <==> t in c'
    requires forall t :: Read(c, t) == Read(c', t)
    ensures c == c'
  {
    forall t | t in c ensures c[t] == c'[t] {
      assert Read(c, t) == Read(c', t);
    }
  }

  lemma RaisedSeries(snapshot: map<Serial, Pending>, t: Series)
    ensures t in Raised(snapshot) <==> t.sn in snapshot && Part(snapshot[t.sn], t.counter) > 0.0
  {
    EveryCounter(t.counter);
    if t.sn in snapshot && Part(snapshot[t.sn], t.counter) > 0.0 {
      assert t == Series(t.counter, t.sn);
    }
  }

  lemma AppliedReads(counters: map<Series, real>, snapshot: map<Serial, Pending>, t: Series)
    ensures Read(Applied(counters, snapshot), t) == Read(counters, t) + PartOf(snapshot, t)
    ensures t in Applied(counters, snapshot) <==>
              t in counters || (t.sn in snapshot && Part(snapshot[t.sn], t.counter) > 0.0)
  {
    RaisedSeries(snapshot, t);
  }

  function Parts(p: Pending): seq<real> {
    [p.ah.charge, p.ah.discharge, p.wh.charge, p.wh.discharge, p.calAh.charge, p.calAh.discharge, p.calWh.charge, p.calWh.discharge, p.balanceAh]
  }

  function Totals(e: CoulombEntry): seq<real> {
    [e.chargeAh, e.dischargeAh, e.chargeWh, e.dischargeWh, e.calChargeAh, e.calDischargeAh, e.calChargeWh, e.calDischargeWh, e.balanceAh]
  }

  lemma PartInOrder(p: Pending, c: Counter)
    ensures Parts(p)[Place(c)] == Part(p, c)
  {
  }

  lemma TotalInOrder(e: CoulombEntry, c: Counter)
    ensures Totals(e)[Place(c)] == Total(e, c)
  {
  }

  /** Raising the nine counters one by one adds the device's deltas. */
  lemma NineRaisesApply(h: seq<map<Series, real>>, sn: Serial, p: Pending)
    requires NineRaises(h, sn, Parts(p))
    ensures h[9] == Applied(h[0], map[sn := p])
  {
    var a := Applied(h[0], map[sn := p]);
    forall t ensures (t in h[9] <==> t in a) && Read(h[9], t) == Read(a, t) {
      NineRaisesRead(h, sn, Parts(p), t, 9);
      PartInOrder(p, t.counter);
      AppliedReads(h[0], map[sn := p], t);
    }
    SameCounters(h[9], a);
  }

  /** Snapshots of different devices can be applied one device at a time. */
  lemma AppliedOneMore(counters: map<Series, real>, done: map<Serial, Pending>, sn: Serial, p: Pending)
    requires sn !in done
    ensures Applied(Applied(counters, done), map[sn := p]) == Applied(counters, done[sn := p])
  {
    var r, a := Applied(Applied(counters, done), map[sn := p]), Applied(counters, done[sn := p]);
    forall t ensures (t in r <==> t in a) && Read(r, t) == Read(a, t) {
      AppliedReads(counters, done, t);
      AppliedReads(Applied(counters, done), map[sn := p], t);
      AppliedReads(counters, done[sn := p], t);
    }
    SameCounters(r, a);
  }

  lemma RestoredReads(rows: map<Serial, CoulombEntry>, kept: set<Serial>, t: Series)
    ensures t in RestoredCounters(rows, kept) <==> t.sn in kept && t.sn in rows && Total(rows[t.sn], t.counter) > 0.0
    ensures Read(RestoredCounters(rows, kept), t)
         == if t.sn in kept && t.sn in rows then Max(Total(rows[t.sn], t.counter), 0.0) else 0.0
  {
    EveryCounter(t.counter);
    assert t == Series(t.counter, t.sn);
  }

  lemma RestoredOneMore(rows: map<Serial, CoulombEntry>, kept: set<Serial>, sn: Serial, h: seq<map<Series, real>>)
    requires sn in rows && sn !in kept
    requires NineRaises(h, sn, Totals(rows[sn])) && h[0] == RestoredCounters(rows, kept)
    ensures h[9] == RestoredCounters(rows, kept + {sn})
  {
    var a := RestoredCounters(rows, kept + {sn});
    forall t ensures (t in h[9] <==> t in a) && Read(h[9], t) == Read(a, t) {
      NineRaisesRead(h, sn, Totals(rows[sn]), t, 9);
      TotalInOrder(rows[sn], t.counter);
      RestoredReads(rows, kept, t);
      RestoredReads(rows, kept + {sn}, t);
    }
    SameCounters(h[9], a);
  }

  lemma AscendingIsDistinct(keys: seq<Serial>, i: nat, j: nat)
    requires Ascending(keys) && i < j < |keys|
    ensures keys[i] != keys[j]
  {
    LessIsAsymmetric(keys[i], keys[j]);
  }

  lemma FirstKeysGrow(keys: seq<Serial>, n: nat)
    requires Ascending(keys) && n < |keys|
    ensures FirstKeys(keys, n + 1) == FirstKeys(keys, n) + {keys[n]}
    ensures keys[n] !in FirstKeys(keys, n)
  {
    forall j | 0 <= j < n ensures keys[j] != keys[n] {
      AscendingIsDistinct(keys, j, n);
    }
  }

  lemma {:induction false} FirstKeysCount(keys: seq<Serial>, n: nat)
    requires Ascending(keys) && n <= |keys|
    ensures |FirstKeys(keys, n)| == n
  {
    if n > 0 {
      FirstKeysCount(keys, n - 1);
      FirstKeysGrow(keys, n - 1);
    } else {
      assert FirstKeys(keys, 0) == {};
    }
  }

  lemma AllKeys(s: set<Serial>)
    ensures FirstKeys(Sorted(s), |s|) == s
  {
    forall k | k in s ensures k in FirstKeys(Sorted(s), |s|) {
      assert k in Sorted(s);
    }
  }

  lemma SlotKeys(kept: set<Serial>)
    ensures Slots(kept).Keys == kept
  {
  }

  lemma SlotsGrow(kept: set<Serial>, sn: Serial)
    ensures Slots(kept)[sn := NEW_SERIES] == Slots(kept + {sn})
  {
  }

  lemma SlotsCount(keys: seq<Serial>, n: nat)
    requires Ascending(keys) && n <= |keys|
    ensures |Slots(FirstKeys(keys, n))| == n
  {
    FirstKeysCount(keys, n);
    SlotKeys(FirstKeys(keys, n));
  }

  lemma NoneKept(rows: map<Serial, CoulombEntry>, keys: seq<Serial>)
    ensures Slots(FirstKeys(keys, 0)) == map[] && RestoredCounters(rows, FirstKeys(keys, 0)) == map[]
  {
    assert FirstKeys(keys, 0) == {};
  }

  /** How many of `i` serials the cap lets in. */
  function KeptOf(o: Config, i: nat): (n: nat)
    ensures n <= i
  {
    if o.maxDevices == 0 || i <= o.maxDevices then i else o.maxDevices
  }

  lemma KeptAtEnd(o: Config, rows: map<Serial, CoulombEntry>)
    ensures var keys := Sorted(rows.Keys);
            FirstKeys(keys, KeptOf(o, |keys|)) == RestoredSerials(o, rows)
  {
    AllKeys(rows.Keys);
  }

  /** Taking what is pending and putting it back changes nothing. */
  lemma TakeThenRequeue(devices: map<Serial, LastSeries>)
    ensures Requeued(Emptied(devices), map sn | sn in devices :: devices[sn].pending) == devices
  {
    var r := Requeued(Emptied(devices), map sn | sn in devices :: devices[sn].pending);
    forall sn | sn in devices ensures r[sn] == devices[sn] {
      NothingPlus(devices[sn].pending);
    }
  }

  lemma NothingPlus(p: Pending)
    ensures NO_PENDING.Plus(p) == p && p.Plus(NO_PENDING) == p
  {
  }
}
