/** What the gate buys: garbage leaves no trace, every entry is counted once, the raw ceilings are idle. */
module IngestFacts {
  import opened Serials
  import opened LineFit
  import opened Modbus
  import opened ModbusProofs
  import opened Accounting
  import opened MachineShape
  import opened Agreement
  import opened Books
  import opened Ingest

  // ---- Garbage leaves no trace ----

  /** The entries that are not dropped. */
  function Kept(limits: Limits, es: seq<Entry>): seq<Entry> {
    if es == [] then []
    else
      var init, e := Kept(limits, es[..|es| - 1]), es[|es| - 1];
      if Judge(limits, e).Accepted? then init + [e] else init
  }

  /** Why the others were dropped. */
  function Reasons(limits: Limits, es: seq<Entry>): multiset<DropReason> {
    if es == [] then multiset{}
    else
      var init, verdict := Reasons(limits, es[..|es| - 1]), Judge(limits, es[|es| - 1]);
      if verdict.Dropped? then init + multiset{verdict.reason} else init
  }

  /** Entries read and state left are those of the accepted entries alone; the rest is counted, by reason. */
  lemma {:induction false} DroppedEntriesLeaveNoTrace(setup: Setup, v: Service, sn: Serial, es: seq<Entry>)
    ensures var all, clean := HandledAll(setup, v, sn, es), HandledAll(setup, v, sn, Kept(setup.limits, es));
            && clean.dropped == v.dropped
            && all == clean.(dropped := v.dropped + Reasons(setup.limits, es))
  {
    if es != [] {
      var init, e := es[..|es| - 1], es[|es| - 1];
      DroppedEntriesLeaveNoTrace(setup, v, sn, init);
      if Judge(setup.limits, e).Accepted? {
        HandledOneMore(setup, v, sn, Kept(setup.limits, init), e);
      }
    }
  }

  function Cleaned(limits: Limits, posts: seq<Post>): seq<Post> {
    if posts == [] then []
    else
      var p := posts[|posts| - 1];
      Cleaned(limits, posts[..|posts| - 1]) + [Post(p.sn, Kept(limits, p.entries))]
  }

  lemma ServedCleaned(setup: Setup, v: Service, v': Service, p: Post)
    requires v'.shared == v.shared && v'.decoded == v.decoded && v'.seen == v.seen
    ensures var w, w' := Served(setup, v, p), Served(setup, v', Post(p.sn, Kept(setup.limits, p.entries)));
            w'.shared == w.shared && w'.decoded == w.decoded && w'.seen == w.seen
  {
    if AcceptsSerial(setup, p.sn) && Admitted(setup.o, v.shared, p.sn) {
      var a, a' := v.(shared := Admit(setup.o, v.shared, p.sn)), v'.(shared := Admit(setup.o, v.shared, p.sn));
      DroppedEntriesLeaveNoTrace(setup, a, p.sn, p.entries);
      DropsDoNotMatter(setup, a, a', p.sn, Kept(setup.limits, p.entries));
    }
  }

  lemma {:induction false} DropsDoNotMatter(setup: Setup, v: Service, v': Service, sn: Serial, es: seq<Entry>)
    requires v' == v.(dropped := v'.dropped)
    ensures var w, w' := HandledAll(setup, v, sn, es), HandledAll(setup, v', sn, es);
            w' == w.(dropped := w'.dropped)
  {
    if es != [] {
      DropsDoNotMatter(setup, v, v', sn, es[..|es| - 1]);
    }
  }

  /**
   * Garbage leaves no trace: whatever was posted, the accounting state, baselines, pending deltas and
   * calibrator included, is what the same posts leave with every dropped entry removed beforehand.
   */
  lemma {:induction false} GarbageLeavesNoTrace(setup: Setup, posts: seq<Post>)
    ensures var all, clean := ServedAll(setup, posts), ServedAll(setup, Cleaned(setup.limits, posts));
            clean.shared == all.shared && clean.decoded == all.decoded && clean.seen == all.seen
  {
    if posts != [] {
      var init, p := posts[..|posts| - 1], posts[|posts| - 1];
      GarbageLeavesNoTrace(setup, init);
      var cleaned := Cleaned(setup.limits, init);
      assert (cleaned + [Post(p.sn, Kept(setup.limits, p.entries))])[..|cleaned|] == cleaned;
      ServedCleaned(setup, ServedAll(setup, init), ServedAll(setup, cleaned), p);
    }
  }

  // ---- Every entry is counted ----

  lemma {:induction false} HandledCounts(setup: Setup, v: Service, sn: Serial, es: seq<Entry>)
    ensures var w := HandledAll(setup, v, sn, es);
            |w.dropped| + |w.decoded| == |v.dropped| + |v.decoded| + |es|
  {
    if es != [] {
      HandledCounts(setup, v, sn, es[..|es| - 1]);
    }
  }

  lemma {:induction false} RepeatedSize(reason: DropReason, n: nat)
    ensures |Repeated(reason, n)| == n
  {
    if n > 0 {
      RepeatedSize(reason, n - 1);
      assert Repeated(reason, n) == Repeated(reason, n - 1) + multiset{reason};
    } else {
      assert Repeated(reason, 0) == multiset{};
    }
  }

  function EntriesOf(setup: Setup, v: Service, p: Post): nat
  {
    if p.entries == [] && !(AcceptsSerial(setup, p.sn) && Admitted(setup.o, v.shared, p.sn)) then 1 else |p.entries|
  }

  /** Every entry of a post is decoded or dropped, once; a refused empty post counts as one drop. */
  lemma EveryEntryIsCountedOnce(setup: Setup, v: Service, p: Post)
    ensures var w := Served(setup, v, p);
            |w.dropped| + |w.decoded| == |v.dropped| + |v.decoded| + EntriesOf(setup, v, p)
  {
    RepeatedSize(SerialRejected, EntriesOf(setup, v, p));
    RepeatedSize(DeviceLimit, EntriesOf(setup, v, p));
    HandledCounts(setup, v.(shared := Admit(setup.o, v.shared, p.sn)), p.sn, p.entries);
  }

  // ---- What the gate lets an interval reach ----

  predicate PassesGate(limits: Limits, d: RealtimeData) {
    Implausibility(d, limits).None? && (d.packV.Some? ==> d.packV.value >= 0.0)
  }

  /** The previous frame of the slot passed the gate. */
  predicate PassedGate(limits: Limits, e: LastSeries) {
    PassesGate(limits, RealtimeData(e.lastPackV, e.lastCurrent, None, None))
  }

  /** The largest reading in tenths at or below `limit`; a register gives no more than `top`. */
  function LargestReading(limit: real, top: int): int {
    var tenths := (10.0 * limit).Floor;
    if tenths < top then tenths else top
  }

  /** The largest current a register can give under the gate's limit. */
  function LargestAmps(limits: Limits): real {
    LargestReading(limits.maxCurrentA, 35535) as real / 10.0
  }

  /** The largest voltage a register can give under the gate's upper limit. */
  function LargestVolts(limits: Limits): real {
    LargestReading(limits.maxPackV, 65535) as real / 10.0
  }

  /** The gate's limits, as far as registers can come up to them. */
  function Readable(limits: Limits): Limits {
    limits.(maxCurrentA := LargestAmps(limits), maxPackV := LargestVolts(limits))
  }

  /** Some voltage a register can give passes the gate. */
  predicate PassesSomeVoltage(limits: Limits) {
    LargestVolts(limits) >= limits.minPackV && LargestVolts(limits) >= 0.0
  }

  ghost predicate AllPassed(limits: Limits, m: Shared) {
    forall sn :: PassedGate(limits, Tracked(m, sn))
  }

  /** Charge of the longest interval at the highest current. */
  function ReachableAh(o: Config, limits: Limits): real {
    limits.maxCurrentA * (o.maxGapSecs / 3600.0)
  }

  /** The ceilings the configuration loader warns about are not below what can be reached. */
  predicate Generous(o: Config, limits: Limits) {
    o.maxFrameAh >= ReachableAh(o, limits) && o.maxFrameWh >= ReachableAh(o, limits) * limits.maxPackV
  }

  lemma ProductBound(a: real, b: real, x: real, y: real)
    requires Abs(x) <= a && 0.0 <= y <= b
    ensures Abs(x * y) <= a * b
  {
    assert (a - x) * y >= 0.0 && (a + x) * y >= 0.0;
    assert a * (b - y) >= 0.0;
  }

  lemma MeanBound(prev: real, cur: real, bound: real, hours: real, most: real)
    requires Abs(prev) <= bound && Abs(cur) <= bound && 0.0 <= hours <= most
    ensures Abs(MeanOver(prev, cur, hours)) <= bound * most
  {
    ProductBound(bound, most, (prev + cur) / 2.0, hours);
  }

  /** A reading bounded at both ends integrates to no more than the bound over the longest gap. */
  lemma IntegralBound(prev: real, cur: real, dt: real, gap: real, bound: real, ceiling: real)
    requires gap >= 0.0 && Abs(prev) <= bound && Abs(cur) <= bound && bound * (gap / 3600.0) <= ceiling
    ensures TrapezoidHours(prev, cur, dt, gap).Clamped(ceiling) == TrapezoidHours(prev, cur, dt, gap)
  {
    var hours := Clamp(dt, 0.0, gap) / 3600.0;
    TrapezoidSides(prev, cur, dt, gap);
    MeanBound(prev, cur, bound, hours, gap / 3600.0);
    ClampedSides(MeanOver(prev, cur, hours), ceiling);
  }

  lemma ClampedSides(v: real, ceiling: real)
    requires Abs(v) <= ceiling
    ensures Split(Max(v, 0.0), Max(-v, 0.0)).Clamped(ceiling) == Split(Max(v, 0.0), Max(-v, 0.0))
  {
  }

  /** The raw deltas of the interval are below their ceilings. */
  predicate RawUncut(o: Config, e: LastSeries, d: RealtimeData, cur: real, offset: real, now: real) {
    var raw := IntervalDeltas(o, e, d, cur, offset, now);
    raw.ah.Clamped(o.maxFrameAh) == raw.ah && raw.wh.Clamped(o.maxFrameWh) == raw.wh
  }

  lemma ReachProduct(i: real, v: real, h: real)
    ensures Watts(i, v) * h == i * h * v
  {
  }

  lemma WattsBound(limits: Limits, amps: real, volts: real)
    requires Abs(amps) <= limits.maxCurrentA && 0.0 <= volts <= limits.maxPackV
    ensures Abs(Watts(amps, volts)) <= Watts(limits.maxCurrentA, limits.maxPackV)
  {
    ProductBound(limits.maxCurrentA, limits.maxPackV, amps, volts);
  }

  /** Bounded powers at both ends. */
  lemma EnergyUncut(o: Config, limits: Limits, p: real, q: real, dt: real)
    requires o.Valid() && Generous(o, limits)
    requires Abs(p) <= Watts(limits.maxCurrentA, limits.maxPackV) && Abs(q) <= Watts(limits.maxCurrentA, limits.maxPackV)
    ensures TrapezoidHours(p, q, dt, o.maxGapSecs).Clamped(o.maxFrameWh) == TrapezoidHours(p, q, dt, o.maxGapSecs)
  {
    ReachProduct(limits.maxCurrentA, limits.maxPackV, o.maxGapSecs / 3600.0);
    IntegralBound(p, q, dt, o.maxGapSecs, Watts(limits.maxCurrentA, limits.maxPackV), o.maxFrameWh);
  }

  /** Energy of an interval, as the counters see it. */
  function CountedWh(o: Config, e: LastSeries, d: RealtimeData, cur: real, now: real): Split {
    if EndsInterval(e) && e.lastPackV.Some? && d.packV.Some? then
      TrapezoidHours(Watts(e.lastCurrent.value, e.lastPackV.value), Watts(cur, d.packV.value), now - e.lastTs.value, o.maxGapSecs)
    else NOTHING
  }

  lemma WhPart(o: Config, e: LastSeries, d: RealtimeData, cur: real, offset: real, now: real)
    ensures IntervalDeltas(o, e, d, cur, offset, now).wh == CountedWh(o, e, d, cur, now)
  {
  }

  lemma GatedChargeUncut(o: Config, limits: Limits, e: LastSeries, cur: real, now: real)
    requires o.Valid() && Generous(o, limits) && PassedGate(limits, e) && Abs(cur) <= limits.maxCurrentA
    ensures CountedAh(o, e, cur, now).Clamped(o.maxFrameAh) == CountedAh(o, e, cur, now)
  {
    if EndsInterval(e) {
      IntegralBound(e.lastCurrent.value, cur, now - e.lastTs.value, o.maxGapSecs, limits.maxCurrentA, o.maxFrameAh);
    }
  }

  lemma GateBounds(limits: Limits, d: RealtimeData)
    requires PassesGate(limits, d)
    ensures d.currentA.Some? ==> Abs(d.currentA.value) <= limits.maxCurrentA
    ensures d.packV.Some? ==> 0.0 <= d.packV.value <= limits.maxPackV
  {
  }

  lemma GatedEnergyUncut(o: Config, limits: Limits, e: LastSeries, d: RealtimeData, cur: real, now: real)
    requires o.Valid() && Generous(o, limits) && PassedGate(limits, e) && PassesGate(limits, d) && d.currentA == Some(cur)
    ensures CountedWh(o, e, d, cur, now).Clamped(o.maxFrameWh) == CountedWh(o, e, d, cur, now)
  {
    if EndsInterval(e) && e.lastPackV.Some? && d.packV.Some? {
      GateBounds(limits, d);
      GateBounds(limits, RealtimeData(e.lastPackV, e.lastCurrent, None, None));
      WattsBound(limits, e.lastCurrent.value, e.lastPackV.value);
      WattsBound(limits, cur, d.packV.value);
      EnergyUncut(o, limits, Watts(e.lastCurrent.value, e.lastPackV.value), Watts(cur, d.packV.value), now - e.lastTs.value);
    }
  }

  lemma GatedFramesUncut(o: Config, limits: Limits, e: LastSeries, d: RealtimeData, cur: real, offset: real, now: real)
    requires o.Valid() && Generous(o, limits) && PassedGate(limits, e) && PassesGate(limits, d) && d.currentA == Some(cur)
    ensures RawUncut(o, e, d, cur, offset, now)
  {
    IntervalParts(o, e, d, cur, offset, now);
    WhPart(o, e, d, cur, offset, now);
    GatedChargeUncut(o, limits, e, cur, now);
    GatedEnergyUncut(o, limits, e, d, cur, now);
  }

  // ---- Every slot holds a frame that passed the gate ----

  lemma ReadingBelow(n: int, limit: real, top: int)
    requires n <= top && n as real / 10.0 <= limit
    ensures n <= LargestReading(limit, top)
  {
  }

  lemma AmpsReadable(limits: Limits, raw: bv16)
    requires Abs(Amps(raw)) <= limits.maxCurrentA
    ensures Abs(Amps(raw)) <= LargestAmps(limits)
  {
    var n := raw as int - 30000;
    ReadingBelow(if n < 0 then -n else n, limits.maxCurrentA, 35535);
  }

  lemma VoltsReadable(limits: Limits, raw: bv16)
    requires limits.minPackV <= Deci(raw) <= limits.maxPackV
    ensures 0.0 <= Deci(raw) <= LargestVolts(limits) && PassesSomeVoltage(limits)
  {
    ReadingBelow(raw as int, limits.maxPackV, 65535);
  }

  /** An accepted frame passes the gate at the limits registers can come up to. */
  lemma AcceptedPassesGate(limits: Limits, regs: seq<bv16>)
    requires Implausibility(RealtimeOf(regs), limits).None?
    ensures PassesGate(Readable(limits), RealtimeOf(regs))
    ensures RealtimeOf(regs).currentA.Some? ==> PassesSomeVoltage(limits)
  {
    if REG_CURRENT < |regs| {
      AmpsReadable(limits, regs[REG_CURRENT]);
    }
    if REG_PACK_VOLTAGE < |regs| {
      VoltsReadable(limits, regs[REG_PACK_VOLTAGE]);
    }
  }

  lemma DecodedPassesGate(limits: Limits, e: Entry)
    requires Judge(limits, e).Accepted? && Judge(limits, e).reading.RealtimeReading?
    ensures PassesGate(Readable(limits), Judge(limits, e).reading.d)
    ensures Judge(limits, e).reading.d.currentA.Some? ==> PassesSomeVoltage(limits)
  {
    AcceptedPassesGate(limits, ParseResponse(e.data).value);
  }

  lemma AccumulatePasses(o: Config, limits: Limits, m: Shared, sn: Serial, d: RealtimeData, cur: real, offset: real, now: real)
    requires AllPassed(limits, m) && PassesGate(limits, d) && d.currentA == Some(cur)
    ensures AllPassed(limits, AccumulateAt(o, m, sn, d, cur, offset, now))
  {
    var m' := AccumulateAt(o, m, sn, d, cur, offset, now);
    forall k ensures PassedGate(limits, Tracked(m', k)) {
      assert PassedGate(limits, Tracked(m, k));
    }
  }

  lemma SameHistoryPasses(limits: Limits, m: Shared, m': Shared)
    requires AllPassed(limits, m) && forall k :: SameHistory(Tracked(m, k), Tracked(m', k))
    ensures AllPassed(limits, m')
  {
    forall k ensures PassedGate(limits, Tracked(m', k)) {
      assert PassedGate(limits, Tracked(m, k)) && SameHistory(Tracked(m, k), Tracked(m', k));
    }
  }

  lemma RealtimePasses(o: Config, limits: Limits, m: Shared, sn: Serial, d: RealtimeData, now: real)
    requires AllPassed(limits, m) && PassesGate(limits, d)
    ensures AllPassed(limits, Realtime(o, m, sn, d, now))
  {
    var t := Track(o, m, sn);
    SameHistoryPasses(limits, m, t);
    if Integrates(o, t, sn, d) {
      var cur := d.currentA.value;
      var c := t.(cal := Calibrated(o, t, sn, d, cur, now));
      SameHistoryPasses(limits, t, c);
      AccumulatePasses(o, limits, c, sn, d, cur, OffsetFor(o, t, sn, d, cur, now), now);
    }
  }

  /** A flush leaves every slot's readings. */
  lemma FlushKeepsHistory(o: Config, m: Shared, persisted: bool, force: bool, io: FlushIo, k: Serial)
    ensures SameHistory(Tracked(m, k), Tracked(Flushed(o, m, persisted, force, io), k))
  {
    var m' := Flushed(o, m, persisted, force, io);
    if persisted && Writes(o, m, force, io.begunAt) && io.serializes && !io.written {
      assert m'.devices == Requeued(Emptied(m.devices), Snapshot(m));
    } else {
      assert m'.devices == m.devices || m'.devices == Emptied(m.devices);
    }
  }

  lemma FlushPasses(o: Config, limits: Limits, m: Shared, persisted: bool, force: bool, io: FlushIo)
    requires AllPassed(limits, m)
    ensures AllPassed(limits, Flushed(o, m, persisted, force, io))
  {
    var m' := Flushed(o, m, persisted, force, io);
    forall k ensures SameHistory(Tracked(m, k), Tracked(m', k)) {
      FlushKeepsHistory(o, m, persisted, force, io, k);
    }
    SameHistoryPasses(limits, m, m');
  }

  lemma HandledPasses(setup: Setup, v: Service, sn: Serial, e: Entry)
    requires AllPassed(Readable(setup.limits), v.shared)
    ensures AllPassed(Readable(setup.limits), Handled(setup, v, sn, e).shared)
  {
    var limits, verdict := Readable(setup.limits), Judge(setup.limits, e);
    if verdict.Accepted? {
      if verdict.reading.RealtimeReading? {
        var d := verdict.reading.d;
        DecodedPassesGate(setup.limits, e);
        RealtimePasses(setup.o, limits, v.shared, sn, d, e.now);
        FlushPasses(setup.o, limits, Realtime(setup.o, v.shared, sn, d, e.now), setup.persisted, false, e.io);
      } else {
        SameHistoryPasses(limits, v.shared, Configure(setup.o, v.shared, sn, verdict.reading.ratedAh));
      }
    }
  }

  lemma {:induction false} HandledAllPasses(setup: Setup, v: Service, sn: Serial, es: seq<Entry>)
    requires AllPassed(Readable(setup.limits), v.shared)
    ensures AllPassed(Readable(setup.limits), HandledAll(setup, v, sn, es).shared)
  {
    if es != [] {
      HandledAllPasses(setup, v, sn, es[..|es| - 1]);
      HandledPasses(setup, HandledAll(setup, v, sn, es[..|es| - 1]), sn, es[|es| - 1]);
    }
  }

  /** After any stream of posts every slot holds a frame that registers can give and that passed the gate. */
  lemma {:induction false} ServedAllPasses(setup: Setup, posts: seq<Post>)
    ensures AllPassed(Readable(setup.limits), ServedAll(setup, posts).shared)
  {
    if posts != [] {
      var v, p := ServedAll(setup, posts[..|posts| - 1]), posts[|posts| - 1];
      ServedAllPasses(setup, posts[..|posts| - 1]);
      SameHistoryPasses(Readable(setup.limits), v.shared, Admit(setup.o, v.shared, p.sn));
      HandledAllPasses(setup, v.(shared := Admit(setup.o, v.shared, p.sn)), p.sn, p.entries);
    }
  }

  // ---- When a ceiling cuts ----

  /** The accounting inside a post: earlier posts served, this one admitted, these entries of it handled. */
  function Inside(setup: Setup, posts: seq<Post>, post: Post): Shared {
    var v := ServedAll(setup, posts);
    HandledAll(setup, v.(shared := Admit(setup.o, v.shared, post.sn)), post.sn, post.entries).shared
  }

  /** The post is let in after the earlier ones. */
  predicate LetIn(setup: Setup, posts: seq<Post>, sn: Serial) {
    AcceptsSerial(setup, sn) && Admitted(setup.o, ServedAll(setup, posts).shared, sn)
  }

  /** The entry is accepted, and its frame carries a current. */
  predicate CarriesCurrent(limits: Limits, e: Entry) {
    var verdict := Judge(limits, e);
    verdict.Accepted? && verdict.reading.RealtimeReading? && verdict.reading.d.currentA.Some?
  }

  /** As the next entry of a post under way, the frame's raw charge and energy stay below their ceilings. */
  predicate NextUncut(setup: Setup, posts: seq<Post>, post: Post, e: Entry, offset: real)
    requires CarriesCurrent(setup.limits, e)
  {
    var d := Judge(setup.limits, e).reading.d;
    RawUncut(setup.o, Tracked(Inside(setup, posts, post), post.sn), d, d.currentA.value, offset, e.now)
  }

  /** Whatever is posted, no ceiling cuts an accepted frame. */
  ghost predicate NeverCuts(setup: Setup) {
    forall posts, post: Post, e, offset | LetIn(setup, posts, post.sn) && CarriesCurrent(setup.limits, e) ::
      NextUncut(setup, posts, post, e, offset)
  }

  /** The ceilings are generous up to the largest readings, if frames with a current can be accepted at all. */
  predicate Suffices(o: Config, limits: Limits) {
    PassesSomeVoltage(limits) ==> Generous(o, Readable(limits))
  }

  /**
   * Under sufficient ceilings, wherever a stream of posts stands, between posts or inside one, the raw
   * charge and energy of the next accepted frame is not cut, whatever the gap, offset and voltages.
   */
  lemma RawCeilingsNeverCut(setup: Setup, posts: seq<Post>, post: Post, e: Entry, offset: real)
    requires setup.o.Valid() && Suffices(setup.o, setup.limits) && CarriesCurrent(setup.limits, e)
    ensures NextUncut(setup, posts, post, e, offset)
  {
    var limits, v := Readable(setup.limits), ServedAll(setup, posts);
    var a := v.(shared := Admit(setup.o, v.shared, post.sn));
    ServedAllPasses(setup, posts);
    SameHistoryPasses(limits, v.shared, a.shared);
    HandledAllPasses(setup, a, post.sn, post.entries);
    DecodedPassesGate(setup.limits, e);
    var m, d := Inside(setup, posts, post), Judge(setup.limits, e).reading.d;
    assert PassedGate(limits, Tracked(m, post.sn));
    GatedFramesUncut(setup.o, limits, Tracked(m, post.sn), d, d.currentA.value, offset, e.now);
  }

  // ---- Two accepted entries that are cut ----

  /** A frame of the largest readings: 42 registers, voltage and current the last two. */
  function LimitRegisters(limits: Limits): (regs: seq<bv16>)
    requires limits.Valid() && PassesSomeVoltage(limits)
    ensures |regs| == 42
  {
    seq(40, _ => 0)
    + [LargestReading(limits.maxPackV, 65535) as bv16, (LargestReading(limits.maxCurrentA, 35535) + 30000) as bv16]
  }

  function LimitEntry(limits: Limits, now: real, io: FlushIo): Entry
    requires limits.Valid() && PassesSomeVoltage(limits)
  {
    Entry(HexEncode(WithCrc([BMS_ADDRESS, FUNC_READ_HOLDING, 0, 0, 0, 0x7E])), BuildFrame(LimitRegisters(limits)), now, io)
  }

  function LimitFrame(limits: Limits): RealtimeData {
    RealtimeData(Some(LargestVolts(limits)), Some(LargestAmps(limits)), None, None)
  }

  lemma RegisterAtMost(n: int)
    requires 0 <= n < 0x10000
    ensures (n as bv16) as int <= n
  {
  }

  lemma RegisterAtLeast(n: int)
    requires 0 <= n < 0x10000
    ensures n <= (n as bv16) as int
  {
  }

  lemma RegisterHolds(n: int)
    requires 0 <= n < 0x10000
    ensures (n as bv16) as int == n
  {
    RegisterAtMost(n);
    RegisterAtLeast(n);
  }

  lemma LimitFrameDecoded(limits: Limits)
    requires limits.Valid() && PassesSomeVoltage(limits)
    ensures RealtimeOf(LimitRegisters(limits)) == LimitFrame(limits)
  {
    var regs := LimitRegisters(limits);
    RegisterHolds(LargestReading(limits.maxPackV, 65535));
    RegisterHolds(LargestReading(limits.maxCurrentA, 35535) + 30000);
    assert regs[REG_PACK_VOLTAGE] == LargestReading(limits.maxPackV, 65535) as bv16;
    assert regs[REG_CURRENT] == (LargestReading(limits.maxCurrentA, 35535) + 30000) as bv16;
  }

  lemma LimitCommand(command: string, bytes: seq<bv8>)
    requires bytes == WithCrc([BMS_ADDRESS, FUNC_READ_HOLDING, 0, 0, 0, 0x7E]) && command == HexEncode(bytes)
    ensures RequestStartRegister(command) == Ok(0)
  {
    HexRoundTrip(bytes);
    assert bytes[2] == 0 && bytes[3] == 0;
    assert FromLe(0, 0) == 0;
  }

  lemma LimitReadingBelow(limit: real, top: int)
    ensures LargestReading(limit, top) as real / 10.0 <= limit
    ensures limit > 0.0 && top >= 0 ==> LargestReading(limit, top) >= 0
  {
  }

  lemma LimitEntryAccepted(limits: Limits, now: real, io: FlushIo)
    requires limits.Valid() && PassesSomeVoltage(limits)
    ensures Judge(limits, LimitEntry(limits, now, io)) == Accepted(RealtimeReading(LimitFrame(limits)))
  {
    var e := LimitEntry(limits, now, io);
    LimitCommand(e.command, WithCrc([BMS_ADDRESS, FUNC_READ_HOLDING, 0, 0, 0, 0x7E]));
    FrameRoundTrip(LimitRegisters(limits));
    LimitFrameDecoded(limits);
    LimitReadingBelow(limits.maxCurrentA, 35535);
    LimitReadingBelow(limits.maxPackV, 65535);
    assert Implausibility(LimitFrame(limits), limits).None?;
  }

  lemma LimitIntegral(bound: real, gap: real)
    requires gap > 0.0 && bound >= 0.0
    ensures TrapezoidHours(bound, bound, gap, gap) == Split(bound * (gap / 3600.0), 0.0)
  {
    TrapezoidSides(bound, bound, gap, gap);
    assert MeanOver(bound, bound, gap / 3600.0) == bound * (gap / 3600.0);
    assert bound * (gap / 3600.0) >= 0.0;
  }

  lemma NothingReachable(o: Config, limits: Limits)
    requires o.Valid() && o.maxGapSecs == 0.0
    ensures Generous(o, limits)
  {
    assert ReachableAh(o, limits) == 0.0;
  }

  /** Two frames at the limits, the longest gap apart, under ceilings that are not generous. */
  lemma LimitFramesAreCut(o: Config, limits: Limits, e: LastSeries, d: RealtimeData, offset: real, now: real)
    requires o.Valid() && limits.maxCurrentA >= 0.0 && limits.maxPackV >= 0.0 && !Generous(o, limits)
    requires e.lastTs == Some(now - o.maxGapSecs)
    requires e.lastCurrent == d.currentA == Some(limits.maxCurrentA) && e.lastPackV == d.packV == Some(limits.maxPackV)
    ensures !RawUncut(o, e, d, limits.maxCurrentA, offset, now)
  {
    if o.maxGapSecs == 0.0 {
      NothingReachable(o, limits);
    }
    var i, v, gap := limits.maxCurrentA, limits.maxPackV, o.maxGapSecs;
    IntervalParts(o, e, d, i, offset, now);
    WhPart(o, e, d, i, offset, now);
    LimitIntegral(i, gap);
    ProductBound(i, v, i, v);
    LimitIntegral(Watts(i, v), gap);
    ReachProduct(i, v, gap / 3600.0);
  }

  /** The slot's previous frame is this one. */
  predicate Holds(slot: LastSeries, d: RealtimeData, at: real) {
    slot.lastTs == Some(at) && slot.lastCurrent == d.currentA && slot.lastPackV == d.packV
  }

  /** A first frame on an idle service becomes its device's baseline. */
  lemma FirstFrame(setup: Setup, post: Post, e: Entry, d: RealtimeData)
    requires Judge(setup.limits, e) == Accepted(RealtimeReading(d)) && d.currentA.Some? && post.entries == [e]
    ensures Holds(Tracked(Inside(setup, [], post), post.sn), d, e.now)
  {
    var o, sn, m, cur := setup.o, post.sn, Admit(setup.o, FRESH, post.sn), d.currentA.value;
    var t := Track(o, m, sn);
    var after := Realtime(o, m, sn, d, e.now);
    assert |FRESH.devices| == 0;
    assert sn in t.devices;
    AccumulateRecords(o, t, Calibrated(o, t, sn, d, cur, e.now), sn, d, cur, OffsetFor(o, t, sn, d, cur, e.now), e.now);
    FlushKeepsHistory(o, after, setup.persisted, false, e.io, sn);
    HandledOneMore(setup, IDLE_SERVICE.(shared := m), sn, [], e);
    assert [] + [e] == [e];
  }

  lemma NextIsCut(setup: Setup, posts: seq<Post>, post: Post, e: Entry, d: RealtimeData, offset: real)
    requires Judge(setup.limits, e) == Accepted(RealtimeReading(d)) && d.currentA.Some?
    requires !RawUncut(setup.o, Tracked(Inside(setup, posts, post), post.sn), d, d.currentA.value, offset, e.now)
    ensures CarriesCurrent(setup.limits, e) && !NextUncut(setup, posts, post, e, offset)
  {
  }

  lemma FirstIsLetIn(setup: Setup, sn: Serial)
    requires AcceptsSerial(setup, sn)
    ensures LetIn(setup, [], sn)
  {
    assert |FRESH.devices| == 0;
  }

  lemma LimitPairIsCut(setup: Setup, slot: LastSeries, at: real, now: real)
    requires setup.o.Valid() && setup.limits.Valid() && !Suffices(setup.o, setup.limits)
    requires Holds(slot, LimitFrame(setup.limits), at) && at == now - setup.o.maxGapSecs
    ensures !RawUncut(setup.o, slot, LimitFrame(setup.limits), LargestAmps(setup.limits), 0.0, now)
  {
    LimitReadingBelow(setup.limits.maxCurrentA, 35535);
    LimitFramesAreCut(setup.o, Readable(setup.limits), slot, LimitFrame(setup.limits), 0.0, now);
  }

  lemma NextLimitIsCut(setup: Setup, posts: seq<Post>, post: Post, next: Entry, d: RealtimeData, at: real)
    requires setup.o.Valid() && setup.limits.Valid() && !Suffices(setup.o, setup.limits)
    requires Judge(setup.limits, next) == Accepted(RealtimeReading(d)) && d == LimitFrame(setup.limits)
    requires Holds(Tracked(Inside(setup, posts, post), post.sn), d, at) && at == next.now - setup.o.maxGapSecs
    ensures CarriesCurrent(setup.limits, next) && !NextUncut(setup, posts, post, next, 0.0)
  {
    LimitPairIsCut(setup, Tracked(Inside(setup, posts, post), post.sn), at, next.now);
    NextIsCut(setup, posts, post, next, d, 0.0);
  }

  /** Without sufficient ceilings: of two accepted entries at the limits, a longest gap apart, the second is cut. */
  lemma SecondIsCut(setup: Setup, post: Post, first: Entry, next: Entry, d: RealtimeData)
    requires setup.o.Valid() && setup.limits.Valid() && !Suffices(setup.o, setup.limits) && d == LimitFrame(setup.limits)
    requires Judge(setup.limits, first) == Judge(setup.limits, next) == Accepted(RealtimeReading(d))
    requires post.entries == [first] && first.now == next.now - setup.o.maxGapSecs
    ensures CarriesCurrent(setup.limits, next) && !NextUncut(setup, [], post, next, 0.0)
  {
    FirstFrame(setup, post, first, d);
    NextLimitIsCut(setup, [], post, next, d, first.now);
  }

  /** Such entries exist, and any accepted serial can post them. */
  lemma SomeFrameIsCut(setup: Setup, sn: Serial)
    requires setup.o.Valid() && setup.limits.Valid() && AcceptsSerial(setup, sn) && !Suffices(setup.o, setup.limits)
    ensures !NeverCuts(setup)
  {
    var limits, io := setup.limits, FlushIo(0.0, false, false, 0.0);
    var first, next := LimitEntry(limits, 0.0, io), LimitEntry(limits, setup.o.maxGapSecs, io);
    var post := Post(sn, [first]);
    LimitEntryAccepted(limits, 0.0, io);
    LimitEntryAccepted(limits, setup.o.maxGapSecs, io);
    SecondIsCut(setup, post, first, next, LimitFrame(limits));
    FirstIsLetIn(setup, sn);
    assert !NextUncut(setup, [], post, next, 0.0);
  }

  /**
   * Exactly when a ceiling can cut: with a serial the service accepts, no accepted frame is ever cut if and
   * only if the ceilings reach what the largest readings under the limits give over the longest gap, or no
   * voltage passes the gate.
   */
  lemma NeverCutsExactly(setup: Setup, sn: Serial)
    requires setup.o.Valid() && setup.limits.Valid() && AcceptsSerial(setup, sn)
    ensures NeverCuts(setup) <==> Suffices(setup.o, setup.limits)
  {
    if Suffices(setup.o, setup.limits) {
      forall posts, post: Post, e, offset | LetIn(setup, posts, post.sn) && CarriesCurrent(setup.limits, e)
        ensures NextUncut(setup, posts, post, e, offset) {
        RawCeilingsNeverCut(setup, posts, post, e, offset);
      }
    } else {
      SomeFrameIsCut(setup, sn);
    }
  }

  // ---- The loader's warning ----

  lemma ScaledOrder(a: real, b: real, c: real)
    requires 0.0 <= a <= b && c >= 0.0
    ensures 0.0 <= a * c <= b * c
  {
  }

  lemma ReachGrows(o: Config, limits: Limits, limits': Limits)
    requires o.Valid() && 0.0 <= limits.maxCurrentA <= limits'.maxCurrentA
    ensures 0.0 <= ReachableAh(o, limits) <= ReachableAh(o, limits')
  {
    ScaledOrder(limits.maxCurrentA, limits'.maxCurrentA, o.maxGapSecs / 3600.0);
  }

  /**
   * Without the loader's warning no frame is cut; and for limits that are themselves readings of a
   * register the warning is given exactly when one can be.
   */
  lemma WarningSuffices(o: Config, limits: Limits)
    requires o.Valid() && limits.Valid()
    ensures Generous(o, limits) ==> Suffices(o, limits)
    ensures Readable(limits) == limits && limits.maxPackV >= 0.0 ==> (Generous(o, limits) <==> Suffices(o, limits))
  {
    if Generous(o, limits) && PassesSomeVoltage(limits) {
      var tight := Readable(limits);
      LimitReadingBelow(limits.maxCurrentA, 35535);
      LimitReadingBelow(limits.maxPackV, 65535);
      ReachGrows(o, tight, limits);
      ProductBound(ReachableAh(o, limits), limits.maxPackV, ReachableAh(o, tight), tight.maxPackV);
    }
  }

  lemma LastRegisters()
    ensures Readable(Limits(10000.0, 0.0, 7000.0)) == Limits(3553.5, 0.0, 6553.5)
  {
    assert LargestReading(10000.0, 35535) == 35535 && LargestReading(7000.0, 65535) == 65535;
  }

  lemma HourCeilings(o: Config)
    requires o.maxGapSecs == 3600.0 && o.maxFrameAh == 4000.0 && o.maxFrameWh == 40000000.0
    ensures Generous(o, Limits(3553.5, 0.0, 6553.5)) && !Generous(o, Limits(10000.0, 0.0, 7000.0))
  {
  }

  /** In general it is cautious: limits above all readings draw it under ceilings that never cut. */
  lemma WarningIsCautious(setup: Setup, sn: Serial)
    requires setup.o.Valid() && AcceptsSerial(setup, sn)
    requires setup.limits == Limits(10000.0, 0.0, 7000.0) && setup.o.maxGapSecs == 3600.0
    requires setup.o.maxFrameAh == 4000.0 && setup.o.maxFrameWh == 40000000.0
    ensures !Generous(setup.o, setup.limits) && NeverCuts(setup)
  {
    LastRegisters();
    HourCeilings(setup.o);
    NeverCutsExactly(setup, sn);
  }
}
