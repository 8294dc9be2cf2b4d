/**
 Integers on their way into and out of signals: bounds, two's complement, the 32-bit path, the
 bit-string path, and the buffers of the FLI.

 Dafny's `/` and `%` by a positive number round down, so `(v / 2^i) % 2` is bit i of the two's
 complement of v, negative or not.
 */
module IntegerCodec {
  import opened Wrappers

  function Pow2(n: nat): (r: nat)
    ensures r > 0
  {
    if n == 0 then 1 else 2 * Pow2(n - 1)
  }

  lemma {:induction false} Pow2Add(a: nat, b: nat)
    ensures Pow2(a + b) == Pow2(a) * Pow2(b)
  {
    if a > 0 {
      Pow2Add(a - 1, b);
    }
  }

  // ----- Bit strings -----

  function Digit(d: int): char {
    if d == 0 then '0' else '1'
  }

  // The `n` low bits of `v`, most significant first.
  function Bits(v: int, n: nat): (r: string)
    ensures |r| == n
    decreases n
  {
    if n == 0 then "" else Bits(v / 2, n - 1) + [Digit(v % 2)]
  }

  function Bit(v: int, i: nat): int {
    (v / Pow2(i)) % 2
  }

  lemma {:induction false} BitsAt(v: int, n: nat, i: nat)
    requires i < n
    ensures Bits(v, n)[n - 1 - i] == Digit(Bit(v, i))
    decreases n
  {
    if i > 0 {
      BitsAt(v / 2, n - 1, i - 1);
      DivDiv(v, Pow2(i - 1));
      assert Bits(v, n)[n - 1 - i] == Bits(v / 2, n - 1)[n - 1 - i];
      assert Bit(v / 2, i - 1) == Bit(v, i);
    }
  }

  lemma DivDiv(v: int, m: int)
    requires m > 0
    ensures (v / 2) / m == v / (2 * m)
  {
    var q, r := v / (2 * m), v % (2 * m);
    assert v == 2 * (m * q) + r;
    assert v / 2 == m * q + r / 2;
    DivPlus(q, m, r / 2);
  }

  lemma MulAtMost(m: int, a: int, b: int)
    requires m > 0
    ensures a <= b ==> m * a <= m * b
  {
  }

  lemma DivPlus(q: int, m: int, r: int)
    requires m > 0 && 0 <= r < m
    ensures (m * q + r) / m == q
  {
    var k := (m * q + r) / m;
    assert m * q + r == m * k + (m * q + r) % m;
    MulAtMost(m, q + 1, k);
    MulAtMost(m, k, q - 1);
  }

  // Bits above the n-th do not matter.
  lemma {:induction false} BitsPeriodic(v: int, n: nat, k: int)
    ensures Bits(v + k * Pow2(n), n) == Bits(v, n)
    decreases n
  {
    if n > 0 {
      var m := k * Pow2(n - 1);
      assert k * Pow2(n) == 2 * m;
      assert (v + 2 * m) / 2 == v / 2 + m && (v + 2 * m) % 2 == v % 2;
      BitsPeriodic(v / 2, n - 1, k);
    }
  }

  // `int(s, 2)`
  function Parse(s: string): nat {
    if s == "" then 0 else 2 * Parse(s[..|s| - 1]) + (if s[|s| - 1] == '0' then 0 else 1)
  }

  lemma {:induction false} ParseBits(u: nat, n: nat)
    requires u < Pow2(n)
    ensures Parse(Bits(u, n)) == u
  {
    if n > 0 {
      ParseBits(u / 2, n - 1);
      assert Bits(u, n)[..n - 1] == Bits(u / 2, n - 1);
    }
  }

  // ----- Python's `format(v, f"0{w}b")` -----

  function Digits(u: nat): (r: string)
    ensures |r| > 0
  {
    if u < 2 then [Digit(u)] else Digits(u / 2) + [Digit(u % 2)]
  }

  function Zeros(n: nat): (r: string)
    ensures |r| == n && forall i :: 0 <= i < n ==> r[i] == '0'
  {
    seq(n, _ => '0')
  }

  function Pad(s: string, w: int): string {
    if |s| < w then Zeros(w - |s|) + s else s
  }

  function Format(v: int, w: nat): string {
    if v < 0 then "-" + Pad(Digits(-v), w - 1) else Pad(Digits(v), w)
  }

  lemma {:induction false} BitsOfZero(n: nat)
    ensures Bits(0, n) == Zeros(n)
  {
    if n > 0 {
      BitsOfZero(n - 1);
    }
  }

  lemma {:induction false} FormatIsBits(u: nat, w: nat)
    requires w >= 1 && u < Pow2(w)
    ensures Format(u, w) == Bits(u, w)
  {
    if u < 2 {
      assert Bits(u, w) == Bits(0, w - 1) + [Digit(u)];
      BitsOfZero(w - 1);
      if w == 1 { assert Zeros(0) + [Digit(u)] == [Digit(u)]; }
    } else {
      FormatIsBits(u / 2, w - 1);
      FormatLength(u / 2, w - 1);
      assert Zeros(w - |Digits(u)|) + Digits(u) == Zeros(w - 1 - |Digits(u / 2)|) + Digits(u / 2) + [Digit(u % 2)];
    }
  }

  lemma {:induction false} FormatLength(u: nat, w: nat)
    requires w >= 1 && u < Pow2(w)
    ensures |Digits(u)| <= w
  {
    if u >= 2 {
      FormatLength(u / 2, w - 1);
    }
  }

  // ----- Bounds and the 32-bit cast -----

  // `_int_bounds`; `signed` is None when the signedness is not known.
  function IntBounds(width: nat, signed: Option<bool>): (int, int)
    requires width >= 1
  {
    var half: int := Pow2(width - 1);
    var all: int := Pow2(width);
    if signed.None? then (-half, all - 1)
    else if signed.value then (-half, half - 1)
    else (0, all - 1)
  }

  predicate InBounds(v: int, width: nat, signed: Option<bool>)
    requires width >= 1
  {
    IntBounds(width, signed).0 <= v <= IntBounds(width, signed).1
  }

  const TWO_32: int := 0x1_0000_0000

  // `static_cast<int32_t>`
  function Cast32(v: int): (r: int)
    ensures -0x8000_0000 <= r < 0x8000_0000
  {
    (v + 0x8000_0000) % TWO_32 - 0x8000_0000
  }

  lemma Pow2Of32()
    ensures Pow2(32) == TWO_32
  {
    assert Pow2(8) == 256;
    Pow2Add(8, 8);
    Pow2Add(16, 16);
  }

  lemma CastIsCongruent(v: int, w: nat) returns (j: int)
    requires w <= 32
    ensures Cast32(v) == v + j * Pow2(w)
  {
    var k := (v + 0x8000_0000) / TWO_32;
    Pow2Of32();
    Pow2Add(32 - w, w);
    j := -k * Pow2(32 - w);
    Scale(-k, Pow2(32 - w), Pow2(w));
    CastUnfolds(v);
  }

  lemma CastUnfolds(v: int)
    ensures Cast32(v) == v - (v + 0x8000_0000) / TWO_32 * TWO_32
  {
  }

  lemma Scale(k: int, m: int, p: int)
    ensures k * m * p == k * (m * p)
  {
  }

  // The cast keeps every bit that a signal of at most 32 bits can hold.
  lemma CastKeepsBits(v: int, w: nat)
    requires w <= 32
    ensures Bits(Cast32(v), w) == Bits(v, w)
  {
    var j := CastIsCongruent(v, w);
    BitsPeriodic(v, w, j);
  }

  // A value within any of the bounds, as an unsigned number of `width` bits.
  function Unsigned(v: int, width: nat): int {
    if v < 0 then v + Pow2(width) else v
  }

  lemma UnsignedFits(v: int, width: nat, signed: Option<bool>)
    requires width >= 1 && InBounds(v, width, signed)
    ensures 0 <= Unsigned(v, width) < Pow2(width) && Bits(Unsigned(v, width), width) == Bits(v, width)
  {
    BitsPeriodic(v, width, 1);
  }

  // ----- Objects of the design -----

  // What is handed to the simulator.
  datatype Write = IntWrite(value: int) | BinWrite(bits: string)

  // `IntegerObject._set_value`; None is ValueError.
  function SetInteger(v: int, width: nat, signed: bool): Option<Write>
    requires width >= 1
  {
    if !InBounds(v, width, Some(signed)) then None
    else if width <= 32 then Some(IntWrite(v))
    else Some(BinWrite(Format(Unsigned(v, width), width)))
  }

  // The int branch of `_LogicArrayObjectBase._set_value`.
  function SetLogicArray(v: int, width: nat): Option<Write>
    requires width >= 1
  {
    if !InBounds(v, width, None) then None
    else if width <= 32 then Some(IntWrite(v))
    else Some(BinWrite(Format(Unsigned(v, width), width)))
  }

  // `EnumObject._set_value`: no adjustment of negative values on objects wider than 32 bits.
  function SetEnum(v: int, width: nat, signed: bool): Option<Write>
    requires width >= 1
  {
    if !InBounds(v, width, Some(signed)) then None
    else if width <= 32 then Some(IntWrite(v))
    else Some(BinWrite(Format(v, width)))
  }

  // A simulator that keeps the `width` low bits of what it is given.
  function Stored(w: Write, width: nat): string {
    match w
    case IntWrite(v) => Bits(Cast32(v), width)
    case BinWrite(s) => s
  }

  // How the simulator answers a 32-bit read of a stored value: extended with zeros or with the sign.
  function LongRead(bits: string, signExtend: bool): int {
    var u := Parse(bits);
    if signExtend && |bits| > 0 && u >= Pow2(|bits| - 1) then u - Pow2(|bits|) else u
  }

  // `IntegerObject._get_value`
  function GetInteger(bits: string, signed: bool, signExtend: bool): int
    requires |bits| >= 1
  {
    var width := |bits|;
    if width <= 32 then
      var res := LongRead(bits, signExtend);
      if signed then (if res >= Pow2(width - 1) then res - Pow2(width) else res)
      else (if res < 0 then res + Pow2(width) else res)
    else
      var res := Parse(bits);
      if signed && res >= Pow2(width - 1) then res - Pow2(width) else res
  }

  // Both paths hand over the same digits.
  lemma StoredIsBits(v: int, width: nat, signed: bool)
    requires width >= 1 && InBounds(v, width, Some(signed))
    ensures Stored(SetInteger(v, width, signed).value, width) == Bits(v, width)
    ensures Parse(Bits(v, width)) == Unsigned(v, width)
  {
    var u := Unsigned(v, width);
    UnsignedFits(v, width, Some(signed));
    ParseBits(u, width);
    if width <= 32 {
      CastKeepsBits(v, width);
    } else {
      FormatIsBits(u, width);
    }
  }

  lemma ReadBack(v: int, bits: string, signed: bool, signExtend: bool)
    requires |bits| >= 1 && InBounds(v, |bits|, Some(signed)) && Parse(bits) == Unsigned(v, |bits|)
    ensures GetInteger(bits, signed, signExtend) == v
  {
    assert Pow2(|bits|) == 2 * Pow2(|bits| - 1);
  }

  // What is written is what is read, at every width, whichever way the simulator extends.
  lemma IntegerRoundTrip(v: int, width: nat, signed: bool, signExtend: bool)
    requires width >= 1 && InBounds(v, width, Some(signed))
    ensures SetInteger(v, width, signed).Some?
    ensures var bits := Stored(SetInteger(v, width, signed).value, width);
      |bits| == width && GetInteger(bits, signed, signExtend) == v
  {
    StoredIsBits(v, width, signed);
    ReadBack(v, Bits(v, width), signed, signExtend);
  }

  // A value is refused exactly when no signal of that width and signedness reads as it.
  lemma RefusedExactlyWhenNotRepresentable(v: int, width: nat, signed: bool, signExtend: bool)
    requires width >= 1
    ensures SetInteger(v, width, signed).None? <==>
      forall bits :: |bits| == width && IsBinary(bits) ==> GetInteger(bits, signed, signExtend) != v
  {
    if InBounds(v, width, Some(signed)) {
      StoredIsBits(v, width, signed);
      BitsAreDigits(v, width);
      ReadBack(v, Bits(v, width), signed, signExtend);
    } else {
      forall bits | |bits| == width && IsBinary(bits) ensures GetInteger(bits, signed, signExtend) != v {
        ParseBound(bits);
        assert Pow2(width) == 2 * Pow2(width - 1);
      }
    }
  }

  predicate IsBinary(s: string) {
    forall c :: c in s ==> c == '0' || c == '1'
  }

  lemma {:induction false} BitsAreDigits(v: int, n: nat)
    ensures IsBinary(Bits(v, n))
    decreases n
  {
    if n > 0 {
      BitsAreDigits(v / 2, n - 1);
    }
  }

  lemma {:induction false} ParseBound(s: string)
    ensures Parse(s) < Pow2(|s|)
  {
    if s != "" {
      ParseBound(s[..|s| - 1]);
    }
  }

  // A logic array takes what an integer of its width, signed or unsigned, would; and it then holds the digits
  // that either would hold.
  lemma LogicArrayTakesBothReadings(v: int, width: nat, signed: bool)
    requires width >= 1
    ensures SetLogicArray(v, width).Some? <==>
      SetInteger(v, width, true).Some? || SetInteger(v, width, false).Some?
    ensures SetInteger(v, width, signed).Some? ==>
      && Stored(SetLogicArray(v, width).value, width) == Bits(v, width)
      && Stored(SetInteger(v, width, signed).value, width) == Bits(v, width)
  {
    assert Pow2(width) == 2 * Pow2(width - 1);
    if InBounds(v, width, Some(signed)) {
      StoredIsBits(v, width, signed);
    }
  }

  // An enum is refused like an integer.  Of those accepted, exactly the negative ones wider than 32 bits are
  // sent with a sign, which is no digit; all others are read as they were written.
  lemma EnumRoundTripIff(v: int, width: nat, signed: bool, signExtend: bool)
    requires width >= 1
    ensures SetEnum(v, width, signed).Some? <==> SetInteger(v, width, signed).Some?
    ensures SetEnum(v, width, signed).Some? ==>
      var bits := Stored(SetEnum(v, width, signed).value, width);
      && (IsBinary(bits) <==> width <= 32 || v >= 0)
      && (IsBinary(bits) ==> |bits| == width && GetInteger(bits, signed, signExtend) == v)
      && (!IsBinary(bits) && -v < Pow2(width - 1) ==> bits == "-" + Bits(-v, width - 1))
  {
    if InBounds(v, width, Some(signed)) {
      if width <= 32 || v >= 0 {
        IntegerRoundTrip(v, width, signed, signExtend);
        StoredIsBits(v, width, signed);
        BitsAreDigits(v, width);
      } else {
        assert Format(v, width)[0] == '-';
        assert '-' in Format(v, width);
        if -v < Pow2(width - 1) { FormatIsBits(-v, width - 1); }
      }
    }
  }

  // ----- The FLI -----

  // `m_enum_map`: the last index of each character; `operator[]` yields 0 for any other.
  function EnumIndex(values: string, c: char): nat {
    if values == "" then 0
    else if values[|values| - 1] == c then |values| - 1
    else EnumIndex(values[..|values| - 1], c)
  }

  ghost predicate IsLogic(values: string) {
    && (forall i, j :: 0 <= i < j < |values| ==> values[i] != values[j])
    && '0' in values && '1' in values
  }

  lemma {:induction false} EnumIndexOf(values: string, c: char)
    requires c in values
    ensures EnumIndex(values, c) < |values| && values[EnumIndex(values, c)] == c
  {
    if values[|values| - 1] != c {
      EnumIndexOf(values[..|values| - 1], c);
    }
  }

  function Encode(values: string, s: string): (r: seq<nat>)
    ensures |r| == |s|
  {
    seq(|s|, i requires 0 <= i < |s| => EnumIndex(values, s[i]))
  }

  // An array of std_logic and the two buffers of its handle.
  class FliLogic {
    const values: string       // m_value_enum
    const numElems: nat
    const mtiBuff: array<nat>  // what is given to and got from the simulator
    const valBuff: array<char>

    ghost predicate Valid() {
      IsLogic(values) && mtiBuff.Length == numElems && valBuff.Length == numElems && numElems >= 1
    }

    constructor (values: string, numElems: nat)
      requires IsLogic(values) && numElems >= 1
      ensures Valid() && this.values == values && this.numElems == numElems && fresh(mtiBuff) && fresh(valBuff)
    {
      this.values, this.numElems := values, numElems;
      mtiBuff := new nat[numElems];
      valBuff := new char[numElems];
    }

    // `set_signal_value(int32_t)`
    method SetInt(value: int)
      requires Valid() && numElems <= 32
      modifies mtiBuff
      ensures mtiBuff[..] == Encode(values, Bits(value, numElems))
    {
      var i, idx := 0, numElems - 1;
      while i < numElems
        invariant 0 <= i <= numElems && idx == numElems - 1 - i
        invariant forall k :: idx < k < numElems ==> mtiBuff[k] == EnumIndex(values, Bits(value, numElems)[k])
      {
        BitsAt(value, numElems, i);
        mtiBuff[idx] := if Bit(value, i) != 0 then EnumIndex(values, '1') else EnumIndex(values, '0');
        i, idx := i + 1, idx - 1;
      }
    }

    // The text given to the simulator when an integer is forced.
    method ForceText(value: int) returns (r: string)
      requires Valid() && numElems <= 32
      ensures r == "2#" + Bits(value, numElems)
    {
      r := "2#";
      var idx := numElems - 1;
      while idx >= 0
        invariant -1 <= idx < numElems && r == "2#" + Bits(value, numElems)[..numElems - 1 - idx]
      {
        BitsAt(value, numElems, idx);
        r := r + (if Bit(value, idx) != 0 then "1" else "0");
        idx := idx - 1;
      }
    }

    // `set_signal_value_binstr`: false, and nothing written, when the length is wrong.
    method SetBinstr(s: string) returns (ok: bool)
      requires Valid()
      modifies mtiBuff
      ensures ok == (|s| == numElems)
      ensures mtiBuff[..] == if ok then Encode(values, s) else old(mtiBuff[..])
    {
      if |s| != numElems {
        return false;
      }
      for i := 0 to numElems
        invariant forall k :: 0 <= k < i ==> mtiBuff[k] == EnumIndex(values, s[k])
      {
        mtiBuff[i] := EnumIndex(values, s[i]);
      }
      return true;
    }

    // `get_signal_value_binstr`
    method GetBinstr() returns (r: string)
      requires Valid() && forall k :: 0 <= k < numElems ==> mtiBuff[k] < |values|
      modifies valBuff
      ensures |r| == numElems && forall k :: 0 <= k < numElems ==> r[k] == values[mtiBuff[k]]
    {
      for i := 0 to numElems
        invariant forall k :: 0 <= k < i ==> valBuff[k] == values[mtiBuff[k]]
      {
        valBuff[i] := values[mtiBuff[i]];
      }
      r := valBuff[..];
    }

    // Both write paths, one after the other: they leave the same buffer, and it reads back as the
    // digits that the wide path would have sent.
    method WriteBothWays(v: int) returns (byInt: seq<nat>, byText: seq<nat>, text: string)
      requires Valid() && numElems <= 32 && InBounds(v, numElems, None)
      modifies mtiBuff, valBuff
      ensures byInt == byText
      ensures text == Format(Unsigned(v, numElems), numElems) && Parse(text) == Unsigned(v, numElems)
    {
      SetInt(Cast32(v));
      byInt := mtiBuff[..];
      WritePathsAgree(v, numElems);
      BitsAreDigits(v, numElems);
      forall k | 0 <= k < numElems ensures mtiBuff[k] < |values| && values[mtiBuff[k]] == Bits(v, numElems)[k] {
        assert mtiBuff[k] == mtiBuff[..][k];
        assert Bits(v, numElems)[k] in Bits(v, numElems);
        EnumIndexOf(values, Bits(v, numElems)[k]);
      }
      text := GetBinstr();
      var ok := SetBinstr(Format(Unsigned(v, numElems), numElems));
      byText := mtiBuff[..];
    }
  }

  // The 32-bit path and the bit-string path write the same digits.
  lemma WritePathsAgree(v: int, width: nat)
    requires 1 <= width <= 32 && InBounds(v, width, None)
    ensures Bits(Cast32(v), width) == Format(Unsigned(v, width), width) == Bits(v, width)
    ensures Parse(Format(Unsigned(v, width), width)) == Unsigned(v, width)
  {
    CastKeepsBits(v, width);
    UnsignedFits(v, width, None);
    FormatIsBits(Unsigned(v, width), width);
    ParseBits(Unsigned(v, width), width);
  }

  lemma CongruentIffSameUnsigned(v: int, w: int, width: nat)
    requires 0 <= Unsigned(v, width) < Pow2(width) && 0 <= Unsigned(w, width) < Pow2(width)
    ensures (v - w) % Pow2(width) == 0 <==> Unsigned(v, width) == Unsigned(w, width)
  {
    var m, d := Pow2(width), Unsigned(v, width) - Unsigned(w, width);
    var k: int := (if w < 0 then 1 else 0) - (if v < 0 then 1 else 0);
    assert v - w == m * k + d;
    if d >= 0 {
      Remainder(m, k, d);
    } else {
      assert v - w == m * (k - 1) + (d + m);
      Remainder(m, k - 1, d + m);
    }
  }

  lemma Remainder(m: int, q: int, r: int)
    requires m > 0 && 0 <= r < m
    ensures (m * q + r) % m == r
  {
    DivPlus(q, m, r);
  }

  // Two integers written to a logic array leave the same digits exactly when they are equal modulo
  // the size of the array.
  lemma SameDigitsIffCongruent(v: int, w: int, width: nat)
    requires width >= 1 && InBounds(v, width, None) && InBounds(w, width, None)
    ensures Stored(SetLogicArray(v, width).value, width) == Stored(SetLogicArray(w, width).value, width)
      <==> (v - w) % Pow2(width) == 0
  {
    CongruentIffSameUnsigned(v, w, width);
    forall x | InBounds(x, width, None)
      ensures Parse(Stored(SetLogicArray(x, width).value, width)) == Unsigned(x, width)
      ensures Stored(SetLogicArray(x, width).value, width) == Bits(Unsigned(x, width), width)
    {
      UnsignedFits(x, width, None);
      FormatIsBits(Unsigned(x, width), width);
      ParseBits(Unsigned(x, width), width);
      if width <= 32 { CastKeepsBits(x, width); }
    }
  }

  // A single std_logic is set to '1' by every value but 0; within bounds that is its only bit.
  lemma SingleLogicAgrees(v: int)
    requires InBounds(v, 1, None)
    ensures Bits(v, 1) == if v != 0 then "1" else "0"
  {
    assert Pow2(1) == 2;
    assert Bits(v, 1) == Bits(v / 2, 0) + [Digit(v % 2)];
  }
}
