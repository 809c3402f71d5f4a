/** Modbus RTU frames: hex text, CRC-16, and the read-holding-registers response. */
module Modbus {
  import opened ShiftRegister

  const BMS_ADDRESS: bv8 := 0xD2
  const FUNC_READ_HOLDING: bv8 := 0x03

  datatype DecodeError =
    | BadHex
    | TooShort(len: nat)
    | BadAddress(address: bv8)
    | BadFunction(function_: bv8)
    | BadByteCount(declared: nat, actual: nat)
    | CrcMismatch(expected: bv16, got: bv16)
    | UnknownBlock(start: bv16)

  datatype Result<+T> = Ok(value: T) | Err(error: DecodeError)

  // ---- CRC-16: reflected polynomial 0xA001, initial value 0xFFFF ----

  const CRC_INIT: bv16 := 0xFFFF
  const BYTE_BITS: nat := 8

  function ShiftBit(crc: bv16): bv16 {
    if crc & 1 != 0 then (crc >> 1) ^ 0xA001 else crc >> 1
  }

  /** One byte enters the register: exclusive-or, then eight shifts. */
  function Absorb(crc: bv16, b: bv8): bv16 {
    Iterate(ShiftBit, BYTE_BITS, crc ^ (b as bv16))
  }

  function CrcFrom(crc: bv16, data: seq<bv8>): bv16
    decreases |data|
  {
    if data == [] then crc else CrcFrom(Absorb(crc, data[0]), data[1..])
  }

  function CrcOf(data: seq<bv8>): bv16 {
    CrcFrom(CRC_INIT, data)
  }

  lemma CrcFromStep(crc: bv16, data: seq<bv8>, i: nat)
    requires i < |data|
    ensures CrcFrom(crc, data[i..]) == CrcFrom(Absorb(crc, data[i]), data[i + 1..])
  {
    var rest := data[i..];
    assert rest[0] == data[i] && rest[1..] == data[i + 1..];
  }

  /** One shift done, one fewer to go. */
  lemma ShiftOnce(crc: bv16, n: nat, next: bv16)
    requires n > 0 && next == ShiftBit(crc)
    ensures Iterate(ShiftBit, n, crc) == Iterate(ShiftBit, n - 1, next)
  {
  }

  method Crc16(data: seq<bv8>) returns (crc: bv16)
    ensures crc == CrcOf(data)
  {
    crc := 0xFFFF;
    assert data[0..] == data;
    for i := 0 to |data|
      invariant CrcFrom(crc, data[i..]) == CrcOf(data)
    {
      CrcFromStep(crc, data, i);
      ghost var absorbed := Absorb(crc, data[i]);
      crc := crc ^ (data[i] as bv16);
      for k := 0 to BYTE_BITS
        invariant Iterate(ShiftBit, BYTE_BITS - k, crc) == absorbed
      {
        ShiftOnce(crc, BYTE_BITS - k, ShiftBit(crc));
        if crc & 1 != 0 {
          crc := (crc >> 1) ^ 0xA001;
        } else {
          crc := crc >> 1;
        }
      }
    }
  }

  // ---- Hex text ----

  function HexValue(c: char): int {
    if '0' <= c <= '9' then c as int - '0' as int
    else if 'a' <= c <= 'f' then c as int - 'a' as int + 10
    else if 'A' <= c <= 'F' then c as int - 'A' as int + 10
    else -1
  }

  predicate IsHex(s: string) {
    |s| % 2 == 0 && forall i | 0 <= i < |s| :: HexValue(s[i]) >= 0
  }

  function HexByte(high: char, low: char): bv8
    requires HexValue(high) >= 0 && HexValue(low) >= 0
  {
    (HexValue(high) * 16 + HexValue(low)) as bv8
  }

  /** Two digits a byte, either case, nothing else. */
  function HexDecode(s: string): Result<seq<bv8>> {
    if IsHex(s) then Ok(seq(|s| / 2, i requires 0 <= i < |s| / 2 => HexByte(s[2 * i], s[2 * i + 1])))
    else Err(BadHex)
  }

  function HexDigit(v: int): (c: char)
    requires 0 <= v < 16
    ensures HexValue(c) == v
  {
    if v < 10 then ('0' as int + v) as char else ('a' as int + v - 10) as char
  }

  function HexEncode(bytes: seq<bv8>): string {
    if bytes == [] then ""
    else [HexDigit(bytes[0] as int / 16), HexDigit(bytes[0] as int % 16)] + HexEncode(bytes[1..])
  }

  // ---- The response frame: addr func bytecount payload crc(LE) ----

  function FromLe(lo: bv8, hi: bv8): bv16 {
    (lo as bv16) | ((hi as bv16) << 8)
  }

  function LowByte(v: bv16): bv8 {
    (v & 0xFF) as bv8
  }

  function HighByte(v: bv16): bv8 {
    (v >> 8) as bv8
  }

  /** `chunks_exact(2)` read big-endian: an odd last byte is ignored. */
  function ToRegisters(payload: seq<bv8>): (regs: seq<bv16>)
    ensures |regs| == |payload| / 2
  {
    if |payload| < 2 then []
    else [FromLe(payload[1], payload[0])] + ToRegisters(payload[2..])
  }

  function ParseBytes(raw: seq<bv8>): Result<seq<bv16>> {
    if |raw| < 5 then Err(TooShort(|raw|))
    else if raw[0] != BMS_ADDRESS then Err(BadAddress(raw[0]))
    else if raw[1] != FUNC_READ_HOLDING then Err(BadFunction(raw[1]))
    else
      var nbytes := raw[2] as int;
      if |raw| != 3 + nbytes + 2 then Err(BadByteCount(nbytes, |raw| - 5))
      else
        var crcPos := 3 + nbytes;
        var expected := FromLe(raw[crcPos], raw[crcPos + 1]);
        var got := CrcOf(raw[..crcPos]);
        if expected != got then Err(CrcMismatch(expected, got))
        else Ok(ToRegisters(raw[3..crcPos]))
  }

  function ParseResponse(hex: string): Result<seq<bv16>> {
    match HexDecode(hex)
    case Ok(raw) => ParseBytes(raw)
    case Err(e) => Err(e)
  }

  /** Start register of a request: addr func start(2 BE) qty(2 BE) crc(2). */
  function RequestStartRegister(hex: string): Result<bv16> {
    match HexDecode(hex)
    case Ok(raw) =>
      if |raw| < 6 then Err(TooShort(|raw|)) else Ok(FromLe(raw[3], raw[2]))
    case Err(e) => Err(e)
  }

  function PayloadOf(regs: seq<bv16>): (payload: seq<bv8>)
    ensures |payload| == 2 * |regs|
  {
    if regs == [] then []
    else [HighByte(regs[0]), LowByte(regs[0])] + PayloadOf(regs[1..])
  }

  function WithCrc(body: seq<bv8>): seq<bv8> {
    body + [LowByte(CrcOf(body)), HighByte(CrcOf(body))]
  }

  /** The encoder; the byte count is cut to eight bits. */
  function BuildBytes(regs: seq<bv16>): seq<bv8> {
    WithCrc([BMS_ADDRESS, FUNC_READ_HOLDING, (2 * |regs| % 256) as bv8] + PayloadOf(regs))
  }

  function BuildFrame(regs: seq<bv16>): string {
    HexEncode(BuildBytes(regs))
  }
}
