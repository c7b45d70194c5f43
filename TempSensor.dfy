/**
 * Bit-level decoding of the two SPI temperature converters (TempSensor.py):
 * the MAX31855 thermocouple converter, which returns one 32-bit word, and
 * the MAX31865 RTD converter, which returns an ADC code in two registers
 * and a fault-status register. Results stay integer counts: quarter
 * degrees Celsius, sixteenth degrees Celsius and ADC codes.
 */
module TempSensor {
  import opened Wrappers

  type Byte = b: int | 0 <= b < 0x100
  type Word = w: int | 0 <= w < 0x1_0000_0000

  /** `w & weight != 0` for a power-of-two `weight`: the bit of that weight is set in `w`. */
  predicate Bit(w: nat, weight: nat)
    requires weight > 0
  {
    (w / weight) % 2 == 1
  }

  // ---------------------------------------------------------------------
  // MAX31855 thermocouple converter

  /**
   * read_32: the four bytes read from the bus, most significant first.
   * The source ORs the shifted bytes together; for byte values the four
   * fields do not overlap, so the OR is their sum. A short read makes the
   * indexing raise, which the model reports as None.
   */
  function Read32(raw: seq<Byte>): (r: Option<Word>)
    ensures r.Some? <==> |raw| >= 4
    ensures r.Some? ==> WordBytes(r.value) == raw[..4]
  {
    if |raw| < 4 then None
    else
      var w: int := (raw[0] as int) * 0x100_0000 + (raw[1] as int) * 0x1_0000 + (raw[2] as int) * 0x100 + (raw[3] as int);
      var b0, b1, b2, b3 := raw[0] as int, raw[1] as int, raw[2] as int, raw[3] as int;
      DivideOut(b0, b1 * 0x1_0000 + b2 * 0x100 + b3, 0x100_0000);
      DivideOut(b0 * 0x100 + b1, b2 * 0x100 + b3, 0x1_0000);
      DivideOut(b0, b1, 0x100);
      DivideOut(b0 * 0x1_0000 + b1 * 0x100 + b2, b3, 0x100);
      DivideOut(b0 * 0x100 + b1, b2, 0x100);
      Some(w)
  }

  /** Euclidean division recovers the quotient and remainder it was built from. */
  lemma DivideOut(q: int, r: int, d: int)
    requires 0 < d && 0 <= r < d
    ensures (q * d + r) / d == q && (q * d + r) % d == r
  {
    var w := q * d + r;
    var q', r' := w / d, w % d;
    assert w == q' * d + r';
    assert (q - q') * d == r' - r;
    assert q - q' >= 1 ==> (q - q') * d >= d;
    assert q' - q >= 1 ==> (q' - q) * d >= d;
  }

  /** Dividing by two factors in turn is dividing by their product. */
  lemma DivDiv(x: nat, d1: nat, d2: nat)
    requires d1 > 0 && d2 > 0
    ensures x / (d1 * d2) == (x / d1) / d2
  {
    var q1, r1 := x / d1, x % d1;
    var q2, r2 := q1 / d2, q1 % d2;
    assert r2 * d1 + r1 < d1 * d2 by {
      assert r2 <= d2 - 1;
      assert r2 * d1 <= (d2 - 1) * d1;
    }
    assert x == q2 * (d1 * d2) + (r2 * d1 + r1);
    DivideOut(q2, r2 * d1 + r1, d1 * d2);
  }

  /** The four bytes of a word, most significant first. */
  function WordBytes(w: Word): seq<Byte> {
    [w / 0x100_0000, (w / 0x1_0000) % 0x100, (w / 0x100) % 0x100, w % 0x100]
  }

  /** Read32's sum is the source's `raw[0] << 24 | raw[1] << 16 | raw[2] << 8 | raw[3]`. */
  lemma Read32IsBitwiseOr(b0: bv8, b1: bv8, b2: bv8, b3: bv8)
    ensures Read32([b0 as int, b1 as int, b2 as int, b3 as int])
         == Some((((b0 as bv32) << 24) | ((b1 as bv32) << 16) | ((b2 as bv32) << 8) | (b3 as bv32)) as int)
  {
  }

  /** Every word is what Read32 makes of its own four bytes. */
  lemma Read32OfWordBytes(w: Word)
    ensures Read32(WordBytes(w)) == Some(w)
  {
    var bs := WordBytes(w);
    var a, b, c := w / 0x100_0000, w / 0x1_0000, w / 0x100;
    assert b == a * 0x100 + bs[1];
    assert c == b * 0x100 + bs[2];
    assert w == c * 0x100 + bs[3];
  }

  /**
   * read_internal: the cold-junction temperature in sixteenths of a degree,
   * bits 14..4 of the word as a count, minus 4096 when bit 15 is set.
   */
  function ReadInternal(w: Word): (c: int)
    ensures !Bit(w, 0x8000) ==> 0 <= c <= 2047
    ensures Bit(w, 0x8000) ==> -4096 <= c <= -2049
    ensures c % 0x800 == (w / 0x10) % 0x800
  {
    var v := w / 0x10;
    var internal := v % 0x800;
    assert Bit(v, 0x800) == Bit(w, 0x8000) by { assert v / 0x800 == w / 0x8000; }
    if Bit(v, 0x800) then internal - 4096 else internal
  }

  /**
   * The cold-junction count as the MAX31855 encodes it: bits 15..4 of the
   * word as a 12-bit two's-complement number, so a set sign bit subtracts
   * 2048 from the 11 low bits.
   */
  function ReadInternalIntended(w: Word): (c: int)
    ensures -2048 <= c <= 2047
    ensures c < 0 <==> Bit(w, 0x8000)
    ensures c % 0x1000 == (w / 0x10) % 0x1000
  {
    var v := w / 0x10;
    var internal := v % 0x800;
    assert Bit(v, 0x800) == Bit(w, 0x8000) by { assert v / 0x800 == w / 0x8000; }
    assert v % 0x1000 == internal + (if Bit(v, 0x800) then 0x800 else 0) by {
      assert v == (v / 0x1000) * 0x1000 + (v / 0x800) % 2 * 0x800 + internal;
    }
    if Bit(v, 0x800) then internal - 2048 else internal
  }

  /** As written, a negative count comes out 2048 too low: the all-ones 12 bits read -2049, not -1. */
  lemma ReadInternalOffByHalfRange(w: Word)
    ensures ReadInternal(w) == ReadInternalIntended(w) - (if Bit(w, 0x8000) then 2048 else 0)
    ensures ReadInternal(0xFFF0) == -2049 && ReadInternalIntended(0xFFF0) == -1
  {
  }

  /**
   * read_temp: the thermocouple temperature in quarter degrees, or None
   * when one of the three fault bits 0..2 is set (`voltage & 0x7`).
   */
  function ThermocoupleCount(w: Word): (r: Option<int>)
    ensures r.None? <==> w % 8 != 0
    ensures r.Some? ==> -8192 <= r.value <= 8191
    ensures r.Some? ==> (r.value < 0 <==> Bit(w, 0x8000_0000))
    ensures r.Some? ==> r.value % 0x4000 == w / 0x4_0000
  {
    if w % 8 != 0 then None
    else if Bit(w, 0x8000_0000) then Some(w / 0x4_0000 - 16384)
    else Some(w / 0x4_0000)
  }

  /** read_state's flags. */
  datatype ThermocoupleState = ThermocoupleState(
    openCircuit: bool, shortGnd: bool, shortVcc: bool, fault: bool)

  /** read_state: bits 0, 1, 2 and 16 of the word. */
  function ReadState(w: Word): (r: ThermocoupleState)
    ensures r.openCircuit || r.shortGnd || r.shortVcc <==> w % 8 != 0
  {
    LowFaultBits(w);
    ThermocoupleState(Bit(w, 1), Bit(w, 2), Bit(w, 4), Bit(w, 0x1_0000))
  }

  /** The three fault flags of a word are exactly its lowest three bits. */
  lemma LowFaultBits(w: Word)
    ensures Bit(w, 1) || Bit(w, 2) || Bit(w, 4) <==> w % 8 != 0
  {
    var q := w / 8;
    var low := w % 8;
    assert w == q * 8 + low;
    assert Bit(w, 1) <==> low % 2 == 1 by { assert w % 2 == low % 2; }
    assert Bit(w, 2) <==> (low / 2) % 2 == 1 by { assert w / 2 == q * 4 + low / 2; }
    assert Bit(w, 4) <==> low / 4 == 1 by { assert w / 4 == q * 2 + low / 4; }
  }

  /** read_temp refuses a word exactly when read_state reports one of the three wiring faults. */
  lemma ThermocoupleFaultAgreesWithState(w: Word)
    ensures ThermocoupleCount(w).None?
        <==> (ReadState(w).openCircuit || ReadState(w).shortGnd || ReadState(w).shortVcc)
  {
  }

  /** The driver object; `connected` is the only state the decoding changes. */
  class MAX31855 {
    var connected: bool

    /**
     * __init__ starts disconnected and ends with a first read(), so the
     * driver comes up connected exactly when that reading is non-zero.
     * `firstScaled` is the first reading's rounded Celsius value times 1.8.
     */
    constructor (firstScaled: real)
      ensures connected <==> firstScaled != 0.0
    {
      connected := false;
      new;
      Read(firstScaled);
    }

    /**
     * read(): the thermocouple counts as connected exactly when its
     * reading, times 1.8 and rounded to two places (`scaled`), is not 0.
     */
    method Read(scaled: real)
      modifies this`connected
      ensures connected <==> scaled != 0.0
    {
      if scaled == 0.0 {
        connected := false;
      } else {
        connected := true;
      }
    }

    /** read_temp on the word read_32 returned: 0 and disconnected on a fault. */
    method ReadTemp(w: Word) returns (quarterDegrees: int)
      modifies this`connected
      ensures connected <==> ThermocoupleCount(w).Some?
      ensures quarterDegrees == ThermocoupleCount(w).GetOr(0)
      ensures -8192 <= quarterDegrees <= 8191
    {
      if w % 8 != 0 {
        connected := false;
        return 0;
      }
      connected := true;
      var v: int := w;
      if Bit(w, 0x8000_0000) {
        v := v / 0x4_0000;
        v := v - 16384;
      } else {
        v := v / 0x4_0000;
      }
      quarterDegrees := v;
    }
  }

  // ---------------------------------------------------------------------
  // MAX31865 RTD converter

  /** The RTD reference resistor, in ohms. */
  const R_REFERENCE: int := 4300

  /** What read() derives from the two ADC registers before the float maths. */
  datatype RtdSample = RtdSample(adc: int, faultFlagged: bool, rMeasured: real)

  /**
   * read: the 15-bit ADC code is `((msb << 8) + lsb) >> 1`; bit 0 of the
   * low register is the fault flag; the resistance is adc*4300/2^15.
   */
  function RtdConversion(msb: Byte, lsb: Byte): (s: RtdSample)
    ensures 0 <= s.adc <= 32767
    ensures s.adc == msb * 128 + lsb / 2
    ensures s.faultFlagged <==> Bit(lsb, 1)
    ensures 0.0 <= s.rMeasured < R_REFERENCE as real
  {
    var adc := (msb * 0x100 + lsb) / 2;
    RtdSample(adc, lsb % 2 == 1, (adc * R_REFERENCE) as real / 32768.0)
  }

  /** The ADC code does not see the fault bit, and it determines msb and the top seven bits of lsb. */
  lemma RtdAdcCode(msb: Byte, lsb: Byte)
    ensures RtdConversion(msb, lsb).adc == RtdConversion(msb, lsb - lsb % 2).adc
    ensures RtdConversion(msb, lsb).adc / 128 == msb
    ensures RtdConversion(msb, lsb).adc % 128 == lsb / 2
  {
  }

  /** The six messages get_fault can log. */
  datatype RtdFault =
    | HighThreshold     // RTD High Threshold
    | LowThreshold      // RTD Low Threshold
    | RefInHigh         // REFIN- > 0.85 x V_BIAS
    | RefInLow          // REFIN- < 0.85 x V_BIAS (FORCE- open)
    | RtdInLow          // RTDIN- < 0.85 x V_BIAS (FORCE- open)
    | OverUnderVoltage  // overvoltage / undervoltage

  /** The bit of the fault-status register each message reports. */
  function FaultWeight(k: RtdFault): nat {
    match k
    case HighThreshold => 0x80
    case LowThreshold => 0x40
    case RefInHigh => 0x20
    case RefInLow => 0x10
    case RtdInLow => 0x08
    case OverUnderVoltage => 0x04
  }

  /**
   * get_fault as written: the REFIN- low test uses the literal 0b0001000,
   * which has seven digits and is 8, the same mask as the RTDIN- test.
   */
  function GetFaultAsWritten(f: Byte): (r: seq<RtdFault>)
    ensures RefInLow in r <==> Bit(f, 0x08)
    ensures forall k :: k != RefInLow ==> (k in r <==> Bit(f, FaultWeight(k)))
  {
    (if Bit(f, 0x80) then [HighThreshold] else [])
    + (if Bit(f, 0x40) then [LowThreshold] else [])
    + (if Bit(f, 0x20) then [RefInHigh] else [])
    + (if Bit(f, 0x08) then [RefInLow] else [])
    + (if Bit(f, 0x08) then [RtdInLow] else [])
    + (if Bit(f, 0x04) then [OverUnderVoltage] else [])
  }

  /** As written, bit 3 yields two messages and bit 4 none. */
  lemma GetFaultAsWrittenMisreads()
    ensures GetFaultAsWritten(0x08) == [RefInLow, RtdInLow]
    ensures GetFaultAsWritten(0x10) == []
  {
  }

  /** As written, bit 4 of the register never changes what is reported. */
  lemma GetFaultAsWrittenIgnoresBit4(f: Byte)
    requires !Bit(f, 0x10)
    ensures f + 0x10 < 0x100 && GetFaultAsWritten(f + 0x10) == GetFaultAsWritten(f)
  {
    var g := f + 0x10;
    SetBit4(f);
    DivDiv(f, 0x20, 2);
    DivDiv(g, 0x20, 2);
    DivDiv(f, 0x20, 4);
    DivDiv(g, 0x20, 4);
    assert Bit(g, 0x80) == Bit(f, 0x80);
    assert Bit(g, 0x40) == Bit(f, 0x40);
    assert Bit(g, 0x20) == Bit(f, 0x20);
    assert Bit(g, 0x08) == Bit(f, 0x08);
    assert Bit(g, 0x04) == Bit(f, 0x04);
  }

  /** Setting a clear bit 4 leaves the bits above it and below it as they were. */
  lemma SetBit4(f: Byte)
    requires !Bit(f, 0x10)
    ensures (f + 0x10) / 0x20 == f / 0x20 && f + 0x10 < 0x100
    ensures (f + 0x10) / 0x08 == f / 0x08 + 2
    ensures (f + 0x10) / 0x04 == f / 0x04 + 4
  {
    var g := f + 0x10;
    DivideOut(f / 0x10 + 1, f % 0x10, 0x10);
    assert g / 0x10 == f / 0x10 + 1;
    DivDiv(f, 0x10, 2);
    DivDiv(g, 0x10, 2);
    DivideOut(f / 0x20, 1, 2);
    DivideOut(f / 0x08 + 2, f % 0x08, 0x08);
    DivideOut(f / 0x04 + 4, f % 0x04, 0x04);
  }

  /** get_fault with the REFIN- low mask it evidently intends, 0b00010000. */
  function GetFault(f: Byte): (r: seq<RtdFault>)
    ensures forall k :: k in r <==> Bit(f, FaultWeight(k))
    ensures forall i, j :: 0 <= i < j < |r| ==> FaultWeight(r[i]) > FaultWeight(r[j])
    ensures r == [] <==> f < 4
  {
    var r := FaultReports(f);
    forall k ensures k in r <==> Bit(f, FaultWeight(k)) { ReportMembership(f, k); }
    FaultReportsOrdered(f);
    NoFaultBitBelowFour(f);
    r
  }

  /** The reports come in descending bit order. */
  lemma FaultReportsOrdered(f: Byte)
    ensures var r := FaultReports(f);
      forall i, j :: 0 <= i < j < |r| ==> FaultWeight(r[i]) > FaultWeight(r[j])
  {
  }

  /** Bits 2..7 of a byte are all clear exactly when it is below 4. */
  lemma NoFaultBitBelowFour(f: Byte)
    ensures FaultReports(f) == [] <==> f < 4
  {
    if !Bit(f, 0x80) && !Bit(f, 0x40) && !Bit(f, 0x20) && !Bit(f, 0x10) && !Bit(f, 0x08) && !Bit(f, 0x04) {
      assert f < 0x80;
      assert f < 0x40;
      assert f < 0x20;
      assert f < 0x10;
      assert f < 0x08;
      assert f < 0x04;
    }
  }

  /** The six tests of get_fault, each with its own bit. */
  function FaultReports(f: Byte): seq<RtdFault> {
    (if Bit(f, 0x80) then [HighThreshold] else [])
    + (if Bit(f, 0x40) then [LowThreshold] else [])
    + (if Bit(f, 0x20) then [RefInHigh] else [])
    + (if Bit(f, 0x10) then [RefInLow] else [])
    + (if Bit(f, 0x08) then [RtdInLow] else [])
    + (if Bit(f, 0x04) then [OverUnderVoltage] else [])
  }

  /** Each message appears among the six reports exactly when its own bit is set. */
  lemma ReportMembership(f: Byte, k: RtdFault)
    ensures k in FaultReports(f) <==> Bit(f, FaultWeight(k))
  {
    match k
    case HighThreshold =>
    case LowThreshold =>
    case RefInHigh =>
    case RefInLow =>
    case RtdInLow =>
    case OverUnderVoltage =>
  }

  /**
   * What read() reports: the sample, and the fault messages of get_fault
   * as written, read only when the fault flag (bit 0 of the low register)
   * is set.
   */
  function RtdRead(msb: Byte, lsb: Byte, faultRegister: Byte): (r: (RtdSample, seq<RtdFault>))
    ensures r.0 == RtdConversion(msb, lsb)
    ensures Bit(lsb, 1) ==> r.1 == GetFaultAsWritten(faultRegister)
    ensures !Bit(lsb, 1) ==> r.1 == []
  {
    var s := RtdConversion(msb, lsb);
    (s, if s.faultFlagged then GetFaultAsWritten(faultRegister) else [])
  }

  /** read() with the intended get_fault: a flagged sample reports exactly the set fault bits. */
  function RtdReadIntended(msb: Byte, lsb: Byte, faultRegister: Byte): (r: (RtdSample, seq<RtdFault>))
    ensures r.0 == RtdConversion(msb, lsb)
    ensures forall k :: k in r.1 <==> Bit(lsb, 1) && Bit(faultRegister, FaultWeight(k))
  {
    var s := RtdConversion(msb, lsb);
    (s, if s.faultFlagged then GetFault(faultRegister) else [])
  }

  /**
   * The as-written and the intended reports agree exactly when bits 3 and
   * 4 of the fault register agree: the misread mask only matters there.
   */
  lemma GetFaultAsWrittenAgreement(f: Byte)
    ensures GetFaultAsWritten(f) == GetFault(f) <==> Bit(f, 0x08) == Bit(f, 0x10)
  {
    assert RefInLow in GetFaultAsWritten(f) <==> Bit(f, 0x08);
    assert RefInLow in GetFault(f) <==> Bit(f, 0x10);
  }

  /** A flagged read as written and as intended agree exactly when bits 3 and 4 agree. */
  lemma RtdReadAgreement(msb: Byte, lsb: Byte, faultRegister: Byte)
    ensures RtdRead(msb, lsb, faultRegister) == RtdReadIntended(msb, lsb, faultRegister)
        <==> !Bit(lsb, 1) || Bit(faultRegister, 0x08) == Bit(faultRegister, 0x10)
  {
    GetFaultAsWrittenAgreement(faultRegister);
  }
}
