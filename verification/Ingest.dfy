/** Telemetry ingest: what becomes of an entry, decoding and plausibility gate included, and of a whole post. */
module Ingest {
  import opened Serials
  import opened Modbus
  import opened LineFit
  import opened Accounting

  // ---- Registers ----

  datatype Block = RealtimeBlock | ConfigBlock

  function BlockOf(start: bv16): Option<Block> {
    if start == 0x0000 then Some(RealtimeBlock) else if start == 0x0080 then Some(ConfigBlock) else None
  }

  /** Amperes: offset by 30000, in tenths; positive charges. */
  function Amps(raw: bv16): (amps: real)
    ensures -3000.0 <= amps <= 3553.5
  {
    ((raw as int) - 30000) as real / 10.0
  }

  /** A plain value in tenths. */
  function Deci(raw: bv16): (value: real)
    ensures 0.0 <= value <= 6553.5
  {
    (raw as int) as real / 10.0
  }

  function AmpsAt(regs: seq<bv16>, address: nat): Option<real> {
    if address < |regs| then Some(Amps(regs[address])) else None
  }

  function DeciAt(regs: seq<bv16>, address: nat): Option<real> {
    if address < |regs| then Some(Deci(regs[address])) else None
  }

  const REG_PACK_VOLTAGE: nat := 0x28
  const REG_CURRENT: nat := 0x29
  const REG_REMAINING_CAPACITY: nat := 0x30
  const REG_BALANCE_CURRENT_RT: nat := 0x40
  const CFG_BASE: nat := 0x80
  const REG_RATED_CAPACITY: nat := 0x80

  /** Absent registers give absent values; a short frame is not an error. */
  function RealtimeOf(regs: seq<bv16>): RealtimeData {
    RealtimeData(
      DeciAt(regs, REG_PACK_VOLTAGE), AmpsAt(regs, REG_CURRENT),
      DeciAt(regs, REG_REMAINING_CAPACITY), AmpsAt(regs, REG_BALANCE_CURRENT_RT))
  }

  function RatedOf(regs: seq<bv16>): Option<real> {
    DeciAt(regs, REG_RATED_CAPACITY - CFG_BASE)
  }

  // ---- The gate ----

  datatype Limits = Limits(maxCurrentA: real, minPackV: real, maxPackV: real) {
    /** What the configuration loader guarantees. */
    predicate Valid() {
      maxCurrentA > 0.0 && minPackV < maxPackV
    }
  }

  datatype DropReason =
    | SerialRejected | DeviceLimit
    | BadCommand | UnknownBlockStart | HexError | FrameTooShort | FrameError | CrcError
    | ImplausibleCurrent | ImplausibleVoltage

  /** Only values that are present are judged. */
  function Implausibility(d: RealtimeData, limits: Limits): Option<DropReason> {
    if d.currentA.Some? && Abs(d.currentA.value) > limits.maxCurrentA then Some(ImplausibleCurrent)
    else if d.packV.Some? && (d.packV.value < limits.minPackV || d.packV.value > limits.maxPackV) then
      Some(ImplausibleVoltage)
    else None
  }

  function DropReasonOf(e: DecodeError): DropReason {
    match e
    case BadHex => HexError
    case TooShort(_) => FrameTooShort
    case BadAddress(_) => FrameError
    case BadFunction(_) => FrameError
    case BadByteCount(_, _) => FrameError
    case CrcMismatch(_, _) => CrcError
    case UnknownBlock(_) => UnknownBlockStart
  }

  // ---- One entry ----

  /** A request and its response, and the clocks and the disk as they are when it is handled. */
  datatype Entry = Entry(command: string, data: string, now: real, io: FlushIo)

  datatype Reading = RealtimeReading(d: RealtimeData) | ConfigReading(ratedAh: Option<real>)

  datatype Verdict = Accepted(reading: Reading) | Dropped(reason: DropReason)

  /** Command first, then block, then response, then the gate: the first that fails names the drop. */
  function Judge(limits: Limits, e: Entry): Verdict {
    match RequestStartRegister(e.command)
    case Err(_) => Dropped(BadCommand)
    case Ok(start) =>
      match BlockOf(start)
      case None => Dropped(UnknownBlockStart)
      case Some(block) =>
        match ParseResponse(e.data)
        case Err(error) => Dropped(DropReasonOf(error))
        case Ok(regs) =>
          match block
          case ConfigBlock => Accepted(ConfigReading(RatedOf(regs)))
          case RealtimeBlock =>
            var d := RealtimeOf(regs);
            match Implausibility(d, limits)
            case Some(reason) => Dropped(reason)
            case None => Accepted(RealtimeReading(d))
  }

  // ---- The service ----

  datatype Setup = Setup(o: Config, limits: Limits, allowed: seq<Serial>, persisted: bool)

  datatype Service = Service(
    shared: Shared, dropped: multiset<DropReason>, decoded: multiset<Block>, seen: set<Serial>)

  const IDLE_SERVICE := Service(FRESH, multiset{}, multiset{}, {})

  /** The accounting after an entry that was accepted. */
  function Taken(setup: Setup, m: Shared, sn: Serial, reading: Reading, e: Entry): Shared {
    match reading
    case RealtimeReading(d) =>
      var after := Realtime(setup.o, m, sn, d, e.now);
      // a frame without a current, or of a serial that cannot be tracked, ends before the flush
      if Integrates(setup.o, Track(setup.o, m, sn), sn, d) then Flushed(setup.o, after, setup.persisted, false, e.io)
      else after
    case ConfigReading(ratedAh) => Configure(setup.o, m, sn, ratedAh)
  }

  function BlockRead(reading: Reading): Block {
    if reading.RealtimeReading? then RealtimeBlock else ConfigBlock
  }

  function Handled(setup: Setup, v: Service, sn: Serial, e: Entry): Service {
    match Judge(setup.limits, e)
    case Dropped(reason) => v.(dropped := v.dropped + multiset{reason})
    case Accepted(reading) =>
      v.(shared := Taken(setup, v.shared, sn, reading, e), decoded := v.decoded + multiset{BlockRead(reading)})
  }

  function HandledAll(setup: Setup, v: Service, sn: Serial, es: seq<Entry>): Service {
    if es == [] then v
    else Handled(setup, HandledAll(setup, v, sn, es[..|es| - 1]), sn, es[|es| - 1])
  }

  lemma HandledOneMore(setup: Setup, v: Service, sn: Serial, es: seq<Entry>, e: Entry)
    ensures HandledAll(setup, v, sn, es + [e]) == Handled(setup, HandledAll(setup, v, sn, es), sn, e)
  {
    assert (es + [e])[..|es|] == es;
  }

  lemma HandledNext(setup: Setup, v: Service, sn: Serial, es: seq<Entry>, i: nat)
    requires i < |es|
    ensures HandledAll(setup, v, sn, es[..i + 1]) == Handled(setup, HandledAll(setup, v, sn, es[..i]), sn, es[i])
  {
    assert es[..i + 1] == es[..i] + [es[i]];
    HandledOneMore(setup, v, sn, es[..i], es[i]);
  }

  // ---- One post ----

  predicate AcceptsSerial(setup: Setup, sn: Serial) {
    Plausible(sn) && (setup.allowed == [] || sn in setup.allowed)
  }

  function Repeated(reason: DropReason, n: nat): multiset<DropReason> {
    multiset{}[reason := n]
  }

  /** A refused post counts its entries as dropped, at least one. */
  function Refused(v: Service, reason: DropReason, entries: nat): Service {
    v.(dropped := v.dropped + Repeated(reason, if entries == 0 then 1 else entries))
  }

  datatype Post = Post(sn: Serial, entries: seq<Entry>)

  function Served(setup: Setup, v: Service, post: Post): Service {
    if !AcceptsSerial(setup, post.sn) then Refused(v, SerialRejected, |post.entries|)
    else if !Admitted(setup.o, v.shared, post.sn) then Refused(v, DeviceLimit, |post.entries|)
    else
      var admitted := v.(shared := Admit(setup.o, v.shared, post.sn));
      var handled := HandledAll(setup, admitted, post.sn, post.entries);
      handled.(seen := handled.seen + {post.sn})
  }

  function ServedAll(setup: Setup, posts: seq<Post>): Service {
    if posts == [] then IDLE_SERVICE
    else Served(setup, ServedAll(setup, posts[..|posts| - 1]), posts[|posts| - 1])
  }
}
