/** The bitmask of the signer types that a channel approves: 256 bits, written in hex. */
module SignerBitmask {
  import opened Options

  /** One bit per signer type, big-endian: type 0 is the lowest bit of the last byte. */
  type Mask = m: seq<bv8> | |m| == 32 witness seq(32, _ => 0)

  type SignerType = t: nat | t < 256

  const DEFAULT_SIGNER: SignerType := 0
  const SESSION_KEY_SIGNER: SignerType := 1
  const SIGNER_TYPES: seq<SignerType> := [DEFAULT_SIGNER, SESSION_KEY_SIGNER]

  const NO_MASK: Mask := seq(32, _ => 0)

  /** One, shifted left by i. */
  function Bit(i: nat): bv8
    requires i < 8
  {
    if i == 0 then 1 else if i == 1 then 2 else if i == 2 then 4 else if i == 3 then 8
    else if i == 4 then 16 else if i == 5 then 32 else if i == 6 then 64 else 128
  }

  predicate HasType(mask: Mask, t: SignerType) {
    mask[31 - t / 8] & Bit(t % 8) != 0
  }

  /** Setting one bit leaves every other bit as it is. */
  lemma SetBit(v: bv8, i: nat, j: nat)
    requires i < 8 && j < 8
    ensures (v | Bit(i)) & Bit(j) != 0 <==> v & Bit(j) != 0 || i == j
  {
    BitsDiffer(i, j);
    SetBits(v, Bit(i), Bit(j));
  }

  lemma BitsDiffer(i: nat, j: nat)
    requires i < 8 && j < 8
    ensures Bit(i) & Bit(j) != 0 <==> i == j
  {}

  lemma SetBits(v: bv8, a: bv8, b: bv8)
    ensures (v | a) & b == (v & b) | (a & b)
    ensures (v & b) | (a & b) != 0 <==> v & b != 0 || a & b != 0
  {}

  lemma NoTypes()
    ensures forall t: SignerType :: !HasType(NO_MASK, t)
  {
    forall t: SignerType ensures !HasType(NO_MASK, t) {
      ZeroAnd(Bit(t % 8));
    }
  }

  lemma ZeroAnd(v: bv8)
    ensures 0 & v == 0
  {}

  /** The mask of these types: a bit for every type in the list, and no other. */
  method SignerTypesToBitmask(types: seq<SignerType>) returns (mask: array<bv8>)
    ensures fresh(mask) && mask.Length == 32
    ensures forall t: SignerType :: HasType(mask[..], t) <==> t in types
  {
    mask := new bv8[32](_ => 0);
    assert mask[..] == NO_MASK;
    NoTypes();
    for n := 0 to |types|
      invariant forall t: SignerType :: HasType(mask[..], t) <==> t in types[..n]
    {
      var idx := types[n];
      assert types[..n + 1] == types[..n] + [idx];
      ghost var before := mask[..];
      mask[31 - idx / 8] := mask[31 - idx / 8] | Bit(idx % 8);
      forall t: SignerType ensures HasType(mask[..], t) <==> t in types[..n + 1] {
        AddType(before, mask[..], idx, t);
      }
    }
    assert types[..|types|] == types;
  }

  lemma AddType(before: Mask, after: Mask, idx: SignerType, t: SignerType)
    requires after == before[31 - idx / 8 := before[31 - idx / 8] | Bit(idx % 8)]
    ensures HasType(after, t) <==> HasType(before, t) || t == idx
  {
    SetBit(before[31 - idx / 8], idx % 8, t % 8);
    SameType(t, idx);
  }

  lemma SameType(t: SignerType, idx: SignerType)
    ensures t == idx <==> t / 8 == idx / 8 && t % 8 == idx % 8
  {}

  // ---------- Hex ----------

  /** The hex digit of a value below 16. */
  function Digit(d: bv8): char {
    if d == 0 then '0' else if d == 1 then '1' else if d == 2 then '2' else if d == 3 then '3'
    else if d == 4 then '4' else if d == 5 then '5' else if d == 6 then '6' else if d == 7 then '7'
    else if d == 8 then '8' else if d == 9 then '9' else if d == 10 then 'a' else if d == 11 then 'b'
    else if d == 12 then 'c' else if d == 13 then 'd' else if d == 14 then 'e' else 'f'
  }

  function DigitValue(c: char): Option<bv8> {
    if c == '0' then Some(0) else if c == '1' then Some(1) else if c == '2' then Some(2) else if c == '3' then Some(3)
    else if c == '4' then Some(4) else if c == '5' then Some(5) else if c == '6' then Some(6)
    else if c == '7' then Some(7)
    else if c == '8' then Some(8) else if c == '9' then Some(9) else if c == 'a' || c == 'A' then Some(10)
    else if c == 'b' || c == 'B' then Some(11) else if c == 'c' || c == 'C' then Some(12)
    else if c == 'd' || c == 'D' then Some(13) else if c == 'e' || c == 'E' then Some(14)
    else if c == 'f' || c == 'F' then Some(15) else None
  }

  function EncodeBytes(b: seq<bv8>): string {
    if b == [] then "" else [Digit(b[0] >> 4), Digit(b[0] & 15)] + EncodeBytes(b[1..])
  }

  function DecodeBytes(s: string): Option<seq<bv8>> {
    if s == "" then Some([])
    else if |s| == 1 then None
    else
      var high, low, rest := DigitValue(s[0]), DigitValue(s[1]), DecodeBytes(s[2..]);
      if high.None? || low.None? || rest.None? then None
      else Some([(high.value << 4) | low.value] + rest.value)
  }

  /** Strings need the prefix 0x or 0X, and whole bytes. */
  function Decode(s: string): Option<seq<bv8>> {
    if |s| < 2 || s[0] != '0' || (s[1] != 'x' && s[1] != 'X') then None else DecodeBytes(s[2..])
  }

  function Encode(b: seq<bv8>): string {
    "0x" + EncodeBytes(b)
  }

  lemma DigitRoundTrip(d: bv8)
    requires d < 16
    ensures DigitValue(Digit(d)) == Some(d)
  {}

  lemma ByteRoundTrip(v: bv8)
    ensures v >> 4 < 16 && v & 15 < 16 && ((v >> 4) << 4) | (v & 15) == v
  {}

  lemma {:induction false} BytesRoundTrip(b: seq<bv8>)
    ensures DecodeBytes(EncodeBytes(b)) == Some(b)
  {
    if b != [] {
      ByteRoundTrip(b[0]);
      DigitRoundTrip(b[0] >> 4);
      DigitRoundTrip(b[0] & 15);
      BytesRoundTrip(b[1..]);
      assert EncodeBytes(b)[2..] == EncodeBytes(b[1..]);
      assert b == [b[0]] + b[1..];
    }
  }

  // ---------- Parsing and printing a mask ----------

  /** The bytes at the end of 32, after zeros. */
  function Aligned(b: seq<bv8>): Mask
    requires |b| <= 32
  {
    seq(32 - |b|, _ => 0) + b
  }

  function Parse(s: string): Option<Mask> {
    var b := Decode(s);
    if b.None? || b.value == [] || |b.value| > 32 then None else Some(Aligned(b.value))
  }

  method HexToBitmask(s: string) returns (val: array<bv8>, ok: bool)
    ensures fresh(val) && val.Length == 32 && (ok <==> Parse(s).Some?)
    ensures ok ==> val[..] == Parse(s).value
  {
    val := new bv8[32](_ => 0);
    var b := Decode(s);
    if b.None? || |b.value| == 0 || |b.value| > 32 { return val, false; }
    var bytes := b.value;
    var from := 32 - |bytes|;
    for i := 0 to |bytes|
      invariant forall j :: 0 <= j < from ==> val[j] == 0
      invariant forall j :: 0 <= j < i ==> val[from + j] == bytes[j]
    {
      val[from + i] := bytes[i];
    }
    forall j | from <= j < 32 ensures val[j] == bytes[j - from] {
      assert val[from + (j - from)] == bytes[j - from];
    }
    assert val[..] == Aligned(bytes);
    ok := true;
  }

  /** The bytes from the first one that is not zero, or a single zero. */
  function Significant(mask: seq<bv8>): (b: seq<bv8>)
    ensures mask != [] ==> 0 < |b| <= |mask|
  {
    if mask == [] then [] else if mask[0] != 0 || |mask| == 1 then mask else Significant(mask[1..])
  }

  function Print(mask: Mask): string {
    Encode(Significant(mask))
  }

  lemma {:induction false} SignificantAligned(mask: seq<bv8>)
    requires mask != []
    ensures mask == seq(|mask| - |Significant(mask)|, _ => 0) + Significant(mask)
  {
    if mask[0] == 0 && |mask| > 1 {
      SignificantAligned(mask[1..]);
      assert mask == [mask[0]] + mask[1..];
    }
  }

  lemma {:induction false} SignificantFrom(mask: seq<bv8>, i: nat)
    requires i < |mask| && forall j :: 0 <= j < i ==> mask[j] == 0
    ensures mask[i] != 0 || i == |mask| - 1 ==> Significant(mask) == mask[i..]
  {
    if i > 0 && |mask| > 1 {
      SignificantFrom(mask[1..], i - 1);
      assert mask[1..][i - 1..] == mask[i..];
    }
  }

  method BitmaskToHex(mask: array<bv8>) returns (s: string)
    requires mask.Length == 32
    ensures s == Print(mask[..])
  {
    for i := 0 to 32
      invariant forall j :: 0 <= j < i ==> mask[j] == 0
    {
      if mask[i] != 0 {
        SignificantFrom(mask[..], i);
        assert mask[i..] == mask[..][i..];
        return Encode(mask[i..]);
      }
    }
    SignificantFrom(mask[..], 31);
    assert mask[..][31..] == [0];
    assert EncodeBytes([0]) == "00";
    return "0x00";
  }

  /** Parsing a printed mask gives it back. */
  lemma PrintedParses(mask: Mask)
    ensures Parse(Print(mask)) == Some(mask)
  {
    var b := Significant(mask);
    BytesRoundTrip(b);
    assert Encode(b)[2..] == EncodeBytes(b);
    SignificantAligned(mask);
  }

  // ---------- Which types are supported ----------

  method IsChannelSignerSupported(approved: string, t: SignerType) returns (ok: bool)
    ensures ok <==> t == DEFAULT_SIGNER || (Parse(approved).Some? && HasType(Parse(approved).value, t))
  {
    if t == DEFAULT_SIGNER { return true; }
    var val, parsed := HexToBitmask(approved);
    if !parsed { return false; }
    assert val[31 - t / 8] == val[..][31 - t / 8];
    return val[31 - t / 8] & Bit(t % 8) != 0;
  }

  method BuildSigValidatorsBitmap(types: seq<SignerType>) returns (s: string)
    ensures Parse(s).Some? && forall t: SignerType :: HasType(Parse(s).value, t) <==> t in types
  {
    var mask := SignerTypesToBitmask(types);
    s := BitmaskToHex(mask);
    PrintedParses(mask[..]);
  }

  /** Of a bitmap built from a list of types, exactly those and the default one are supported. */
  method BuiltIsSupported(types: seq<SignerType>, t: SignerType) returns (ok: bool)
    ensures ok <==> t == DEFAULT_SIGNER || t in types
  {
    var s := BuildSigValidatorsBitmap(types);
    ok := IsChannelSignerSupported(s, t);
  }

  predicate HasBit(v: bv8, i: nat) {
    i < 8 && v & Bit(i) != 0
  }

  /** A byte covers another exactly if it has every bit of it. */
  lemma CoversBits(n: bv8, c: bv8)
    ensures n & c == c <==> forall i :: HasBit(c, i) ==> HasBit(n, i)
  {
    if n & c == c {
      forall i | HasBit(c, i) ensures HasBit(n, i) {
        CoveredBit(n, c, Bit(i));
      }
    }
    if forall i :: HasBit(c, i) ==> HasBit(n, i) {
      EachBit(c);
      EachBit(n);
      AllBits(n, c);
    }
  }

  lemma EachBit(v: bv8)
    ensures (HasBit(v, 0) <==> v & 1 != 0) && (HasBit(v, 1) <==> v & 2 != 0) && (HasBit(v, 2) <==> v & 4 != 0)
    ensures (HasBit(v, 3) <==> v & 8 != 0) && (HasBit(v, 4) <==> v & 16 != 0) && (HasBit(v, 5) <==> v & 32 != 0)
    ensures (HasBit(v, 6) <==> v & 64 != 0) && (HasBit(v, 7) <==> v & 128 != 0)
  {}

  lemma CoveredBit(n: bv8, c: bv8, b: bv8)
    requires n & c == c && c & b != 0
    ensures n & b != 0
  {}

  lemma AllBits(n: bv8, c: bv8)
    requires (c & 1 != 0 ==> n & 1 != 0) && (c & 2 != 0 ==> n & 2 != 0) && (c & 4 != 0 ==> n & 4 != 0)
    requires (c & 8 != 0 ==> n & 8 != 0) && (c & 16 != 0 ==> n & 16 != 0) && (c & 32 != 0 ==> n & 32 != 0)
    requires (c & 64 != 0 ==> n & 64 != 0) && (c & 128 != 0 ==> n & 128 != 0)
    ensures n & c == c
  {}

  /** Accepts exactly the masks in which every set bit is a known type. */
  method SignerValidatorsSupported(validators: string) returns (ok: bool)
    ensures ok <==>
      Parse(validators).Some? && forall t: SignerType :: HasType(Parse(validators).value, t) ==> t in SIGNER_TYPES
  {
    var inc, parsed := HexToBitmask(validators);
    if !parsed { return false; }
    var node := SignerTypesToBitmask(SIGNER_TYPES);
    for i := 0 to 32
      invariant forall j :: 0 <= j < i ==> node[j] & inc[j] == inc[j]
    {
      if node[i] & inc[i] != inc[i] {
        UncoveredByte(node[..], inc[..], i);
        return false;
      }
    }
    CoveredBytes(node[..], inc[..]);
    return true;
  }

  lemma UncoveredByte(node: Mask, inc: Mask, i: nat)
    requires i < 32 && node[i] & inc[i] != inc[i]
    ensures exists t: SignerType :: HasType(inc, t) && !HasType(node, t)
  {
    CoversBits(node[i], inc[i]);
    var b: nat :| HasBit(inc[i], b) && !HasBit(node[i], b);
    var t := TypeAt(i, b);
    TypeOfBit(inc, i, b);
    TypeOfBit(node, i, b);
  }

  /** The type of a bit in a byte. */
  function TypeAt(i: nat, b: nat): (t: SignerType)
    requires i < 32 && b < 8
    ensures 31 - t / 8 == i && t % 8 == b
  {
    (31 - i) * 8 + b
  }

  lemma TypeOfBit(mask: Mask, i: nat, b: nat)
    requires i < 32 && b < 8
    ensures HasType(mask, TypeAt(i, b)) <==> HasBit(mask[i], b)
  {}

  lemma CoveredBytes(node: Mask, inc: Mask)
    requires forall j :: 0 <= j < 32 ==> node[j] & inc[j] == inc[j]
    ensures forall t: SignerType :: HasType(inc, t) ==> HasType(node, t)
  {
    forall t: SignerType | HasType(inc, t) ensures HasType(node, t) {
      CoversBits(node[31 - t / 8], inc[31 - t / 8]);
    }
  }
}
