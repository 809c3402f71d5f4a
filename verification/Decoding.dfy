/** What an entry's bytes say, and which failure names its drop: the ingest path against the wire. */
module Decoding {
  import opened Serials
  import opened Modbus
  import opened ModbusProofs
  import opened LineFit
  import opened Accounting
  import opened Ingest

  // ---- Words of the wire ----

  lemma WordHalves(lo: bv8, hi: bv8, word: bv16)
    requires word == FromLe(lo, hi)
    ensures word >> 8 == hi as bv16 && word & 0xFF == lo as bv16
  {
  }

  lemma WordOfHalves(word: bv16)
    ensures word as int == 256 * ((word >> 8) as int) + ((word & 0xFF) as int)
  {
  }

  lemma WideByte(b: bv8)
    ensures (b as bv16) as int == b as int
  {
  }

  lemma WordValue(lo: bv8, hi: bv8)
    ensures FromLe(lo, hi) as int == 256 * (hi as int) + (lo as int)
  {
    WordHalves(lo, hi, FromLe(lo, hi));
    WordOfHalves(FromLe(lo, hi));
    WideByte(lo);
    WideByte(hi);
  }

  lemma KnownStarts(lo: bv8, hi: bv8)
    ensures FromLe(lo, hi) == 0x0000 <==> hi == 0 && lo == 0
    ensures FromLe(lo, hi) == 0x0080 <==> hi == 0 && lo == 0x80
  {
  }

  lemma {:induction false} RegisterAt(payload: seq<bv8>, k: nat)
    requires 2 * k + 1 < |payload|
    ensures k < |ToRegisters(payload)| && ToRegisters(payload)[k] == FromLe(payload[2 * k + 1], payload[2 * k])
  {
    if k > 0 {
      RegisterAt(payload[2..], k - 1);
    }
  }

  /** The two bytes of register `k` of a response, high byte first. */
  function Word(raw: seq<bv8>, k: nat): int
    requires 2 * k + 4 < |raw|
  {
    256 * (raw[2 * k + 3] as int) + raw[2 * k + 4] as int
  }

  /** Whether a response of this byte count carries register `k` whole. */
  predicate Carries(raw: seq<bv8>, k: nat) {
    |raw| >= 5 && 2 * k + 1 < |raw| - 5
  }

  /** A plain value, in tenths. */
  function TenthsIn(raw: seq<bv8>, k: nat): Option<real> {
    if Carries(raw, k) then Some(Word(raw, k) as real / 10.0) else None
  }

  /** A current, in tenths above -3000. */
  function CurrentIn(raw: seq<bv8>, k: nat): Option<real> {
    if Carries(raw, k) then Some((Word(raw, k) - 30000) as real / 10.0) else None
  }

  lemma RegisterOfFrame(raw: seq<bv8>, k: nat)
    requires |raw| >= 5
    ensures var regs := ToRegisters(raw[3..|raw| - 2]);
            && (k < |regs| <==> Carries(raw, k))
            && (k < |regs| ==> regs[k] as int == Word(raw, k))
  {
    var payload := raw[3..|raw| - 2];
    if Carries(raw, k) {
      RegisterAt(payload, k);
      WordValue(payload[2 * k + 1], payload[2 * k]);
    }
  }

  lemma DeciIsTenths(raw: seq<bv8>, k: nat)
    requires |raw| >= 5
    ensures DeciAt(ToRegisters(raw[3..|raw| - 2]), k) == TenthsIn(raw, k)
  {
    RegisterOfFrame(raw, k);
  }

  lemma AmpsAreCurrent(raw: seq<bv8>, k: nat)
    requires |raw| >= 5
    ensures AmpsAt(ToRegisters(raw[3..|raw| - 2]), k) == CurrentIn(raw, k)
  {
    RegisterOfFrame(raw, k);
  }

  // ---- The verdict on an entry, from its bytes ----

  /** Pack voltage, current, remaining capacity and balance current where the BMS puts them. */
  function RealtimeIn(raw: seq<bv8>): RealtimeData {
    RealtimeData(TenthsIn(raw, 0x28), CurrentIn(raw, 0x29), TenthsIn(raw, 0x30), CurrentIn(raw, 0x40))
  }

  /** The gate on what the frame carries: current first, then voltage. */
  function Gated(limits: Limits, d: RealtimeData): Verdict {
    match d.currentA
    case Some(i) =>
      if -limits.maxCurrentA <= i <= limits.maxCurrentA then GatedVolts(limits, d) else Dropped(ImplausibleCurrent)
    case None => GatedVolts(limits, d)
  }

  function GatedVolts(limits: Limits, d: RealtimeData): Verdict {
    if d.packV.None? || limits.minPackV <= d.packV.value <= limits.maxPackV then Accepted(RealtimeReading(d))
    else Dropped(ImplausibleVoltage)
  }

  /** What becomes of a request and its response, byte by byte. */
  function VerdictOn(limits: Limits, request: seq<bv8>, response: seq<bv8>): Verdict {
    if |request| < 6 then Dropped(BadCommand)
    else if request[2] != 0 || (request[3] != 0 && request[3] != 0x80) then Dropped(UnknownBlockStart)
    else if |response| < 5 then Dropped(FrameTooShort)
    else if !WellFormed(response) then Dropped(FrameError)
    else if CrcOf(response) != 0 then Dropped(CrcError)
    else if request[3] == 0 then Gated(limits, RealtimeIn(response))
    else Accepted(ConfigReading(TenthsIn(response, 0)))
  }

  lemma GateAgrees(limits: Limits, d: RealtimeData)
    ensures Gated(limits, d) == match Implausibility(d, limits)
                                case Some(reason) => Dropped(reason)
                                case None => Accepted(RealtimeReading(d))
  {
  }

  lemma AcceptedRegisters(raw: seq<bv8>)
    requires ParseBytes(raw).Ok?
    ensures |raw| >= 5 && ParseBytes(raw).value == ToRegisters(raw[3..|raw| - 2])
  {
  }

  lemma RealtimeAgrees(raw: seq<bv8>)
    requires |raw| >= 5
    ensures RealtimeOf(ToRegisters(raw[3..|raw| - 2])) == RealtimeIn(raw)
  {
    DeciIsTenths(raw, 0x28);
    AmpsAreCurrent(raw, 0x29);
    DeciIsTenths(raw, 0x30);
    AmpsAreCurrent(raw, 0x40);
  }

  /** How a response that does not parse is counted. */
  lemma RefusalReason(raw: seq<bv8>)
    requires ParseBytes(raw).Err?
    ensures DropReasonOf(ParseBytes(raw).error)
         == if |raw| < 5 then FrameTooShort else if !WellFormed(raw) then FrameError else CrcError
  {
    AcceptedIffResidueZero(raw);
  }

  lemma StartOfRequest(command: string, request: seq<bv8>)
    requires command == HexEncode(request) && |request| >= 6
    ensures var block := BlockOf(FromLe(request[3], request[2]));
            && RequestStartRegister(command) == Ok(FromLe(request[3], request[2]))
            && (block == Some(RealtimeBlock) <==> request[2] == 0 && request[3] == 0)
            && (block == Some(ConfigBlock) <==> request[2] == 0 && request[3] == 0x80)
  {
    HexRoundTrip(request);
    KnownStarts(request[3], request[2]);
  }

  lemma ResponseAgrees(limits: Limits, e: Entry, response: seq<bv8>, block: Block)
    requires e.data == HexEncode(response) && RequestStartRegister(e.command).Ok?
    requires BlockOf(RequestStartRegister(e.command).value) == Some(block)
    ensures Judge(limits, e)
         == if |response| < 5 then Dropped(FrameTooShort)
            else if !WellFormed(response) then Dropped(FrameError)
            else if CrcOf(response) != 0 then Dropped(CrcError)
            else if block.RealtimeBlock? then Gated(limits, RealtimeIn(response))
            else Accepted(ConfigReading(TenthsIn(response, 0)))
  {
    HexRoundTrip(response);
    AcceptedIffResidueZero(response);
    if ParseBytes(response).Err? {
      RefusalReason(response);
    } else {
      AcceptedRegisters(response);
      RealtimeAgrees(response);
      DeciIsTenths(response, 0);
      GateAgrees(limits, RealtimeIn(response));
    }
  }

  /**
   * An entry is judged by its bytes: request, block, then response length, header, CRC and gate, the
   * first failure naming the drop; and what an accepted frame carries stands at the BMS's addresses,
   * high byte first, in tenths.
   */
  lemma JudgedByBytes(limits: Limits, e: Entry, request: seq<bv8>, response: seq<bv8>)
    requires e.command == HexEncode(request) && e.data == HexEncode(response)
    ensures Judge(limits, e) == VerdictOn(limits, request, response)
  {
    if |request| < 6 {
      HexRoundTrip(request);
    } else {
      StartOfRequest(e.command, request);
      var block := BlockOf(FromLe(request[3], request[2]));
      if block.Some? {
        ResponseAgrees(limits, e, response, block.value);
      }
    }
  }

  /** A drop is counted by its reason and nothing else happens; an accepted entry by the block its request names. */
  lemma CountedByBytes(setup: Setup, v: Service, sn: Serial, e: Entry, request: seq<bv8>, response: seq<bv8>)
    requires e.command == HexEncode(request) && e.data == HexEncode(response)
    ensures var verdict, w := VerdictOn(setup.limits, request, response), Handled(setup, v, sn, e);
            if verdict.Dropped? then w == v.(dropped := v.dropped + multiset{verdict.reason})
            else
              w.dropped == v.dropped && w.seen == v.seen
              && w.decoded == v.decoded + multiset{if request[3] == 0 then RealtimeBlock else ConfigBlock}
  {
    JudgedByBytes(setup.limits, e, request, response);
  }

  /** Text that is not hex is dropped as such: the request's before the response's. */
  lemma NotHexIsDropped(limits: Limits, e: Entry)
    ensures !IsHex(e.command) ==> Judge(limits, e) == Dropped(BadCommand)
    ensures (Judge(limits, e).Accepted? ==> IsHex(e.command) && IsHex(e.data))
    ensures !IsHex(e.data) && (exists e': Entry :: e'.command == e.command && Judge(limits, e').Accepted?) ==>
              Judge(limits, e) == Dropped(HexError)
  {
  }

  /** The request names a block the exporter knows. */
  predicate KnownBlock(command: string) {
    RequestStartRegister(command).Ok? && BlockOf(RequestStartRegister(command).value).Some?
  }

  lemma AcceptedParses(limits: Limits, e: Entry, sent: seq<bv8>)
    requires Judge(limits, e).Accepted? && e.data == HexEncode(sent)
    ensures KnownBlock(e.command) && ParseBytes(sent).Ok?
  {
    HexRoundTrip(sent);
  }

  lemma UnparsedIsDropped(limits: Limits, e: Entry, got: seq<bv8>)
    requires KnownBlock(e.command) && e.data == HexEncode(got) && ParseBytes(got).Err?
    ensures Judge(limits, e) == Dropped(DropReasonOf(ParseBytes(got).error))
  {
    HexRoundTrip(got);
  }

  /** An accepted response that is damaged within sixteen consecutive bits on the way is never accepted. */
  lemma DamageIsDropped(limits: Limits, e: Entry, e': Entry, sent: seq<bv8>, got: seq<bv8>, from: nat)
    requires Judge(limits, e).Accepted? && e.data == HexEncode(sent)
    requires e'.command == e.command && e'.data == HexEncode(got)
    requires DifferWithinBurst(sent, got, from) && sent != got
    ensures Judge(limits, e') == Dropped(if |got| < 5 then FrameTooShort else if !WellFormed(got) then FrameError else CrcError)
  {
    AcceptedParses(limits, e, sent);
    BurstRejected(sent, got, from);
    UnparsedIsDropped(limits, e', got);
    RefusalReason(got);
  }

  // ---- Either case ----

  function UpperDigit(c: char): char {
    if 'a' <= c <= 'f' then (c as int - 32) as char else c
  }

  function Upper(s: string): (t: string)
    ensures |t| == |s| && forall i | 0 <= i < |s| :: t[i] == UpperDigit(s[i])
  {
    if s == "" then "" else [UpperDigit(s[0])] + Upper(s[1..])
  }

  lemma UpperValue(c: char)
    ensures HexValue(c) >= 0 ==> HexValue(UpperDigit(c)) == HexValue(c)
  {
  }

  lemma SameByte(a: char, b: char, c: char, d: char)
    requires HexValue(a) == HexValue(c) >= 0 && HexValue(b) == HexValue(d) >= 0
    ensures HexByte(a, b) == HexByte(c, d)
  {
  }

  lemma SameDigits(s: string, t: string)
    requires |s| == |t| && IsHex(s) && forall i | 0 <= i < |s| :: HexValue(t[i]) == HexValue(s[i])
    ensures HexDecode(t) == HexDecode(s)
  {
    var x, y := HexDecode(s).value, HexDecode(t).value;
    forall i | 0 <= i < |x| ensures y[i] == x[i] {
      DecodedAt(s, i);
      DecodedAt(t, i);
      SameByte(t[2 * i], t[2 * i + 1], s[2 * i], s[2 * i + 1]);
    }
    assert x == y;
  }

  /** The bytes of an encoded frame read the same in upper case. */
  lemma UpperCaseReads(bytes: seq<bv8>)
    ensures HexDecode(Upper(HexEncode(bytes))) == Ok(bytes)
  {
    var s := HexEncode(bytes);
    HexRoundTrip(bytes);
    forall i | 0 <= i < |s| ensures HexValue(Upper(s)[i]) == HexValue(s[i]) {
      UpperValue(s[i]);
    }
    SameDigits(s, Upper(s));
  }
}
