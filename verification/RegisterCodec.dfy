/**
 Sensor values in Modbus registers (src/utils/modbus/ModbusCodec.cpp) and the register pairs
 of the built-in server (src/network/modbus/ModbusTcpServerService.cpp). Words are numbers
 below 2^16; doubles are exact reals with a sign for zero, and the conversions between
 doubles and 32-bit patterns are those of the platform.
 */
module RegisterCodec {
  import opened Prelude

  const K16 := 0x1_0000
  const K32 := 0x1_0000_0000

  type Word = w: int | 0 <= w < 0x1_0000
  type Raw = r: int | 0 <= r < 0x1_0000_0000

  /** negative tells -0.0 from 0.0. */
  datatype Double = Finite(value: real, negative: bool) | NotFinite

  datatype DataType = Uint16 | Int16 | Uint32 | Int32 | Float32 | OtherType

  /** BA is a byte swap for 16 bits and an old name of CDAB for 32. */
  datatype Format = AB | BA | ABCD | CDAB | BADC | DCBA | OtherFormat

  /** What a float's pattern is as a double, and the pattern of the nearest float, if it is finite. */
  datatype Floats = Floats(widen: Raw -> Double, narrow: Double -> Option<Raw>)

  /** A float survives the way to double and back. */
  ghost predicate FloatsOk(fl: Floats) { forall p: Raw :: fl.widen(p).Finite? ==> fl.narrow(fl.widen(p)) == Some(p) }

  function RegisterCount(t: DataType): nat { if t == Float32 || t == Int32 || t == Uint32 then 2 else 1 }

  // ---- Integers -----------------------------------------------------------------------

  function SwapBytes(w: Word): Word { w % 0x100 * 0x100 + w / 0x100 }

  function Join(hi: Word, lo: Word): Raw { hi * 0x1_0000 + lo }

  function Hi(r: Raw): Word { r / 0x1_0000 }

  function Lo(r: Raw): Word { r % 0x1_0000 }

  /** The value of a two's complement pattern below k, and the pattern of a value. */
  function Signed(r: int, k: int): int { if r >= k / 2 then r - k else r }

  function Unsigned(v: int, k: int): int { if v < 0 then v + k else v }

  function Truncated(v: real): int { if v >= 0.0 then v.Floor else -(-v).Floor }

  function FromInt(v: int): Double { Finite(v as real, v < 0) }

  // ---- Byte orders -----------------------------------------------------------------------

  /** The two words of a value as they stand on the line, and of the line as they stand in the value. */
  function Arranged(f: Format, p: (Word, Word)): (Word, Word) {
    match f
    case CDAB => (p.1, p.0)
    case BA => (p.1, p.0)
    case BADC => (SwapBytes(p.0), SwapBytes(p.1))
    case DCBA => (SwapBytes(p.1), SwapBytes(p.0))
    case _ => p
  }

  function Octets(p: (Word, Word)): seq<int> { [p.0 / 0x100, p.0 % 0x100, p.1 / 0x100, p.1 % 0x100] }

  /** The order spelt by the name of the format, A being the most significant octet. */
  function Spelt(f: Format, o: seq<int>): seq<int>
    requires |o| == 4
  {
    match f
    case CDAB => [o[2], o[3], o[0], o[1]]
    case BA => [o[2], o[3], o[0], o[1]]
    case BADC => [o[1], o[0], o[3], o[2]]
    case DCBA => [o[3], o[2], o[1], o[0]]
    case _ => o
  }

  lemma SwapTwice(w: Word)
    ensures SwapBytes(SwapBytes(w)) == w && SwapBytes(w) / 0x100 == w % 0x100 && SwapBytes(w) % 0x100 == w / 0x100
  {}

  /** Every order puts the octets where its name says, and undoes itself. */
  lemma OrdersAreInvolutions(f: Format, p: (Word, Word))
    ensures Octets(Arranged(f, p)) == Spelt(f, Octets(p))
    ensures Arranged(f, Arranged(f, p)) == p
  {
    SwapTwice(p.0);
    SwapTwice(p.1);
  }

  lemma HalvesJoin(r: Raw)
    ensures Join(Hi(r), Lo(r)) == r
  {}

  lemma JoinHalves(hi: Word, lo: Word)
    ensures Hi(Join(hi, lo)) == hi && Lo(Join(hi, lo)) == lo
  {}

  // ---- Decoding and encoding ------------------------------------------------------------------

  function Decode(regs: seq<Word>, t: DataType, f: Format, fl: Floats): Double {
    if regs == [] then FromInt(0)
    else if t == Uint16 then FromInt(if f == BA then SwapBytes(regs[0]) else regs[0])
    else if t == Int16 then FromInt(Signed(if f == BA then SwapBytes(regs[0]) else regs[0], K16))
    else if |regs| < 2 then FromInt(regs[0])
    else
      var raw :=
        if f == CDAB || f == BA then Join(regs[1], regs[0])
        else if f == BADC then Join(SwapBytes(regs[0]), SwapBytes(regs[1]))
        else if f == DCBA then Join(SwapBytes(regs[1]), SwapBytes(regs[0]))
        else Join(regs[0], regs[1]);
      if t == Uint32 then FromInt(raw)
      else if t == Int32 then FromInt(Signed(raw, K32))
      else if t == Float32 then fl.widen(raw)
      else FromInt(regs[0])
  }

  /** No registers for a value that does not fit. */
  function Encode(d: Double, t: DataType, f: Format, fl: Floats): seq<Word> {
    if d.NotFinite? then []
    else if t == Uint16 then
      if d.value < 0.0 || d.value > 65535.0 then []
      else
        var w: Word := Truncated(d.value);
        [if f == BA then SwapBytes(w) else w]
    else if t == Int16 then
      if d.value < -32768.0 || d.value > 32767.0 then []
      else
        var w: Word := Unsigned(Truncated(d.value), K16);
        [if f == BA then SwapBytes(w) else w]
    else
      var raw: Option<Raw> :=
        if t == Float32 then fl.narrow(d)
        else if t == Int32 then
          if d.value < -2147483648.0 || d.value > 2147483647.0 then None else Some(Unsigned(Truncated(d.value), K32))
        else if d.value < 0.0 || d.value > 4294967295.0 then None
        else Some(Truncated(d.value));
      if raw.None? then []
      else
        var hi, lo := Hi(raw.value), Lo(raw.value);
        if f == CDAB || f == BA then [lo, hi]
        else if f == BADC then [SwapBytes(hi), SwapBytes(lo)]
        else if f == DCBA then [SwapBytes(lo), SwapBytes(hi)]
        else [hi, lo]
  }

  // ---- What the two mean ------------------------------------------------------------------------

  /** The integer types and their ranges. */
  predicate IsInteger(t: DataType) { t == Uint16 || t == Int16 || t == Uint32 || t == Int32 }

  function Lowest(t: DataType): int { if t == Int16 then -0x8000 else if t == Int32 then -0x8000_0000 else 0 }

  function Highest(t: DataType): int {
    match t
    case Uint16 => 0xffff
    case Int16 => 0x7fff
    case Int32 => 0x7fff_ffff
    case _ => 0xffff_ffff
  }

  predicate InRange(d: Double, t: DataType) { d.Finite? && Lowest(t) as real <= d.value <= Highest(t) as real }

  lemma TruncatedIsTowardsZero(v: real, lo: int, hi: int)
    requires lo <= 0 <= hi && lo as real <= v <= hi as real
    ensures var n := Truncated(v);
            && (if v >= 0.0 then n as real <= v < n as real + 1.0 && n >= 0
                else n as real - 1.0 < v <= n as real && n <= 0)
            && lo <= n <= hi
  {}

  lemma IntegersStayWhole(v: int)
    ensures Truncated(v as real) == v
  {}

  /** Two's complement on the way to the pattern and back. */
  lemma SignComesBack(v: int, k: int)
    requires k > 0 && k % 2 == 0
    ensures -k / 2 <= v < k / 2 ==> 0 <= Unsigned(v, k) < k && Signed(Unsigned(v, k), k) == v
    ensures 0 <= v < k ==> -k / 2 <= Signed(v, k) < k / 2 && Unsigned(Signed(v, k), k) == v
  {}

  lemma ShortEncodedDecodes(d: Double, t: DataType, f: Format, fl: Floats)
    requires (t == Uint16 || t == Int16) && InRange(d, t)
    ensures |Encode(d, t, f, fl)| == 1 && Decode(Encode(d, t, f, fl), t, f, fl) == FromInt(Truncated(d.value))
  {
    TruncatedIsTowardsZero(d.value, Lowest(t), Highest(t));
    SignComesBack(Truncated(d.value), K16);
    SwapTwice(Unsigned(Truncated(d.value), K16));
  }

  /** The pattern of a 32-bit value, if it has one. */
  function Pattern(d: Double, t: DataType, fl: Floats): Option<Raw> {
    if d.NotFinite? then None
    else if t == Float32 then fl.narrow(d)
    else if !InRange(d, t) then None
    else
      TruncatedIsTowardsZero(d.value, Lowest(t), Highest(t));
      Some(Unsigned(Truncated(d.value), K32))
  }

  function ValueOf(raw: Raw, t: DataType, fl: Floats): Double {
    if t == Float32 then fl.widen(raw) else FromInt(if t == Int32 then Signed(raw, K32) else raw)
  }

  lemma LongEncoding(d: Double, t: DataType, f: Format, fl: Floats)
    requires RegisterCount(t) == 2
    ensures var p := Pattern(d, t, fl);
            Encode(d, t, f, fl) == if p.None? then [] else var w := Arranged(f, (Hi(p.value), Lo(p.value))); [w.0, w.1]
  {
    if InRange(d, t) { TruncatedIsTowardsZero(d.value, Lowest(t), Highest(t)); }
  }

  lemma LongDecoding(hi: Word, lo: Word, t: DataType, f: Format, fl: Floats)
    requires RegisterCount(t) == 2
    ensures Decode([hi, lo], t, f, fl) == var w := Arranged(f, (hi, lo)); ValueOf(Join(w.0, w.1), t, fl)
  {}

  lemma LongEncodedDecodes(d: Double, t: DataType, f: Format, fl: Floats)
    requires RegisterCount(t) == 2 && Pattern(d, t, fl).Some?
    ensures |Encode(d, t, f, fl)| == 2
            && Decode(Encode(d, t, f, fl), t, f, fl) == ValueOf(Pattern(d, t, fl).value, t, fl)
  {
    var raw := Pattern(d, t, fl).value;
    var w := Arranged(f, (Hi(raw), Lo(raw)));
    LongEncoding(d, t, f, fl);
    LongDecoding(w.0, w.1, t, f, fl);
    OrdersAreInvolutions(f, (Hi(raw), Lo(raw)));
    HalvesJoin(raw);
  }

  /**
   An integer type refuses exactly what is not finite or out of its range, and anything else
   comes back truncated towards zero, from registers of the type's number, in every format.
   */
  lemma EncodedDecodes(d: Double, t: DataType, f: Format, fl: Floats)
    requires IsInteger(t)
    ensures Encode(d, t, f, fl) == [] <==> !InRange(d, t)
    ensures InRange(d, t) ==>
              |Encode(d, t, f, fl)| == RegisterCount(t)
                && Decode(Encode(d, t, f, fl), t, f, fl) == FromInt(Truncated(d.value))
  {
    if InRange(d, t) {
      TruncatedIsTowardsZero(d.value, Lowest(t), Highest(t));
      if RegisterCount(t) == 1 {
        ShortEncodedDecodes(d, t, f, fl);
      } else {
        LongEncodedDecodes(d, t, f, fl);
        SignComesBack(Truncated(d.value), K32);
      }
    } else if RegisterCount(t) == 2 {
      LongEncoding(d, t, f, fl);
    }
  }

  /** A float type refuses exactly what has no finite float, and yields the nearest float otherwise. */
  lemma EncodedFloatDecodes(d: Double, f: Format, fl: Floats)
    ensures Encode(d, Float32, f, fl) == [] <==> d.NotFinite? || fl.narrow(d).None?
    ensures d.Finite? && fl.narrow(d).Some? ==>
              Decode(Encode(d, Float32, f, fl), Float32, f, fl) == fl.widen(fl.narrow(d).value)
  {
    LongEncoding(d, Float32, f, fl);
    if Pattern(d, Float32, fl).Some? { LongEncodedDecodes(d, Float32, f, fl); }
  }

  /** Registers read and written back are the same registers: any of an integer type, and those of finite floats. */
  lemma DecodedEncodes(regs: seq<Word>, t: DataType, f: Format, fl: Floats)
    requires |regs| == RegisterCount(t)
             && (IsInteger(t) || (t == Float32 && FloatsOk(fl) && Decode(regs, t, f, fl).Finite?))
    ensures Encode(Decode(regs, t, f, fl), t, f, fl) == regs
  {
    if RegisterCount(t) == 1 {
      ShortDecodedEncodes(regs[0], t, f, fl);
      assert regs == [regs[0]];
    } else {
      LongDecodedEncodes(regs[0], regs[1], t, f, fl);
      assert regs == [regs[0], regs[1]];
    }
  }

  lemma ShortDecodedEncodes(w: Word, t: DataType, f: Format, fl: Floats)
    requires t == Uint16 || t == Int16
    ensures Encode(Decode([w], t, f, fl), t, f, fl) == [w]
  {
    var raw := if f == BA then SwapBytes(w) else w;
    SwapTwice(w);
    SignComesBack(raw, K16);
    IntegersStayWhole(Signed(raw, K16));
    IntegersStayWhole(raw);
  }

  lemma LongDecodedEncodes(hi: Word, lo: Word, t: DataType, f: Format, fl: Floats)
    requires RegisterCount(t) == 2 && (t == Float32 ==> FloatsOk(fl) && Decode([hi, lo], t, f, fl).Finite?)
    ensures Encode(Decode([hi, lo], t, f, fl), t, f, fl) == [hi, lo]
  {
    var w := Arranged(f, (hi, lo));
    var raw := Join(w.0, w.1);
    LongDecoding(hi, lo, t, f, fl);
    LongEncoding(Decode([hi, lo], t, f, fl), t, f, fl);
    OrdersAreInvolutions(f, (hi, lo));
    JoinHalves(w.0, w.1);
    SignComesBack(raw, K32);
    IntegersStayWhole(Signed(raw, K32));
    IntegersStayWhole(raw);
  }

  // ---- The server's pairs --------------------------------------------------------------------------

  /** packFloat32, on the float's pattern. */
  method PackFloat32(raw: Raw) returns (hi: Word, lo: Word)
    ensures forall fl :: Decode([hi, lo], Float32, ABCD, fl) == fl.widen(raw)
  {
    hi, lo := raw / 0x1_0000, raw % 0x1_0000;
    HalvesJoin(raw);
  }

  method PackU32(v: Raw) returns (hi: Word, lo: Word)
    ensures forall fl :: Decode([hi, lo], Uint32, ABCD, fl) == FromInt(v)
  {
    hi, lo := v / 0x1_0000, v % 0x1_0000;
    HalvesJoin(v);
  }

  // ---- A type by any other name --------------------------------------------------------------------

  /** Which whole numbers come back: those whose first word on the line is the number itself. */
  predicate ComesBack(v: Raw, f: Format) {
    if f == CDAB || f == BA then v < K16
    else if f == DCBA then v < K16 && SwapBytes(v) == v
    else v == 0
  }

  /**
   A data type the codec does not know is written like uint32, as a pair, and read as the
   first word alone. It refuses what uint32 refuses, and a whole number comes back exactly
   when ComesBack says.
   */
  lemma OtherTypesComeBackExactly(d: Double, v: Raw, f: Format, fl: Floats)
    ensures Encode(d, OtherType, f, fl) == [] <==> !InRange(d, Uint32)
    ensures Decode(Encode(FromInt(v), OtherType, f, fl), OtherType, f, fl) == FromInt(v) <==> ComesBack(v, f)
  {
    if InRange(d, Uint32) { TruncatedIsTowardsZero(d.value, 0, Highest(Uint32)); }
    IntegersStayWhole(v);
    FirstWord(v, f);
    var first := Arranged(f, (Hi(v), Lo(v))).0;
    assert Decode(Encode(FromInt(v), OtherType, f, fl), OtherType, f, fl) == FromInt(first);
  }

  /** The first word on the line equals the number exactly when it comes back. */
  lemma FirstWord(v: Raw, f: Format)
    ensures Arranged(f, (Hi(v), Lo(v))).0 == v <==> ComesBack(v, f)
  {
    var first: Word := Arranged(f, (Hi(v), Lo(v))).0;
    if v < K16 {
      SmallHalves(v);
      SmallFirstWord(v, f);
    } else {
      assert first < K16 <= v;
    }
  }

  lemma SmallHalves(v: Word)
    ensures Hi(v) == 0 && Lo(v) == v
  {}

  lemma SmallFirstWord(v: Word, f: Format)
    ensures Arranged(f, (0, v)).0 == v <==> ComesBack(v, f)
  {
    assert SwapBytes(0) == 0;
  }

  lemma OtherTypesDoNotComeBack(fl: Floats)
    ensures Encode(FromInt(1), OtherType, ABCD, fl) == [0, 1] && Decode([0, 1], OtherType, ABCD, fl) == FromInt(0)
  {
    IntegersStayWhole(1);
  }
}
