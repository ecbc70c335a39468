/** The Variable Byte Integer of section 1.5.5 of MQTT Version 5.0, as the client encodes and decodes it. */
module VariableByteIntegers {
  import opened Bytes

  const MAX_VALUE := 0x0FFF_FFFF

  const TWO_TO_THE_32 := 0x1_0000_0000

  /** What is left of a number in 32 bits. */
  function Wrapped(x: nat): uint32 {
    x % TWO_TO_THE_32
  }

  /** What is left of it in 8 bits. */
  function Wrapped8(x: nat): byte {
    x % 0x100
  }

  /** Seven bits a byte, least significant group first, the top bit set on all bytes but the last. */
  function Encoding(value: nat): seq<byte> {
    if value < 128 then [value] else [value % 128 + 128] + Encoding(value / 128)
  }

  /** How many bytes the integer at the start of `s` takes, when its last byte is in `s`. */
  function FieldLength(s: seq<byte>): (n: Option<nat>)
    ensures n.Some? ==> 1 <= n.value <= |s|
  {
    if s == [] then None
    else if s[0] < 128 then Some(1)
    else
      match FieldLength(s[1..])
      case None => None
      case Some(n) => Some(n + 1)
  }

  /** The number a whole field stands for, before any 32-bit wrap-around. */
  function Number(field: seq<byte>): nat {
    if field == [] then 0 else field[0] % 128 + 128 * Number(field[1..])
  }

  function Pow128(k: nat): nat {
    if k == 0 then 1 else 128 * Pow128(k - 1)
  }

  lemma {:induction false} NumberSnoc(field: seq<byte>, b: byte)
    ensures Number(field + [b]) == Number(field) + b % 128 * Pow128(|field|)
  {
    if field != [] {
      var rest := field[1..];
      assert (field + [b])[1..] == rest + [b];
      NumberSnoc(rest, b);
      assert 128 * (b % 128 * Pow128(|rest|)) == b % 128 * (128 * Pow128(|rest|));
    } else {
      assert field + [b] == [b] && Number([b]) == b % 128 + 128 * Number([]);
    }
  }

  lemma ModAddMul(a: nat, b: nat, p: nat)
    ensures (a % TWO_TO_THE_32 + b * (p % TWO_TO_THE_32)) % TWO_TO_THE_32 == (a + b * p) % TWO_TO_THE_32
  {
    var q, r := p / TWO_TO_THE_32, p % TWO_TO_THE_32;
    assert p == r + TWO_TO_THE_32 * q;
    Distributed(b, r, q);
    SumModulo(a, b * r, b * q);
  }

  lemma Distributed(b: nat, r: nat, q: nat)
    ensures b * (r + TWO_TO_THE_32 * q) == b * r + TWO_TO_THE_32 * (b * q)
  {
  }

  lemma SumModulo(a: nat, c: nat, k: nat)
    ensures (a % TWO_TO_THE_32 + c) % TWO_TO_THE_32 == (a + (c + TWO_TO_THE_32 * k)) % TWO_TO_THE_32
  {
    var m := a / TWO_TO_THE_32;
    assert a + (c + TWO_TO_THE_32 * k) == (a % TWO_TO_THE_32 + c) + TWO_TO_THE_32 * (m + k);
  }

  /** The decoder's two 32-bit updates, wrap-around included. */
  function Accumulated(value: uint32, b: byte, multiplier: uint32): uint32 {
    Wrapped(value + b % 128 * multiplier)
  }

  function NextMultiplier(multiplier: uint32): uint32 {
    Wrapped(128 * multiplier)
  }

  lemma DecodeStep(field: seq<byte>, b: byte, value: uint32, multiplier: uint32)
    requires value == Wrapped(Number(field)) && multiplier == Wrapped(Pow128(|field|))
    ensures Accumulated(value, b, multiplier) == Wrapped(Number(field + [b]))
    ensures NextMultiplier(multiplier) == Wrapped(Pow128(|field| + 1))
  {
    NumberSnoc(field, b);
    ModAddMul(Number(field), b % 128, Pow128(|field|));
    ModAddMul(0, 128, Pow128(|field|));
  }

  lemma SizeStep(k: nat)
    ensures Wrapped8(Wrapped8(k) + 1) == Wrapped8(k + 1)
  {
  }

  lemma {:induction false} FieldLengthSplits(s: seq<byte>)
    requires FieldLength(s).Some?
    ensures s[FieldLength(s).value - 1] < 128
    ensures forall i :: 0 <= i < FieldLength(s).value - 1 ==> s[i] >= 128
  {
    if s[0] >= 128 {
      FieldLengthSplits(s[1..]);
    }
  }

  /** Decoding into a 32-bit value and an 8-bit size, both of which wrap around on overlong fields. */
  method DecodeBytes(bytes: seq<byte>) returns (value: uint32, size: byte)
    requires FieldLength(bytes).Some?
    ensures var n := FieldLength(bytes).value;
            value == Wrapped(Number(bytes[..n])) && size == Wrapped8(n)
  {
    FieldLengthSplits(bytes);
    assert Number(bytes[..0]) == 0 && Pow128(0) == 1 == Wrapped(1) && Wrapped8(0) == 0 == Wrapped(0);
    hide Number, Pow128, FieldLength, Accumulated, NextMultiplier, Wrapped, Wrapped8;
    var multiplier: uint32 := 1;
    value, size := 0, 0;
    var found := false;
    var at: nat := 0;
    ghost var n := FieldLength(bytes).value;
    while !found
      invariant at <= n && found == (at == n)
      invariant value == Wrapped(Number(bytes[..at]))
      invariant multiplier == Wrapped(Pow128(at))
      invariant size == Wrapped8(at)
      decreases n - at
    {
      var encodedByte := bytes[at];
      assert bytes[..at] + [encodedByte] == bytes[..at + 1];
      DecodeStep(bytes[..at], encodedByte, value, multiplier);
      SizeStep(at);
      size := Wrapped8(size + 1);
      value := Accumulated(value, encodedByte, multiplier);
      multiplier := NextMultiplier(multiplier);
      found := encodedByte < 128;
      at := at + 1;
    }
  }

  /** Byte `k` of a field, or 0 past its end. */
  function ByteOr0(field: seq<byte>, k: nat): byte {
    if k < |field| then field[k] else 0
  }

  /** At most four bytes packed into 32 bits, first byte on top. */
  function Packed(field: seq<byte>): uint32 {
    ByteOr0(field, 0) as int * 0x100_0000 + ByteOr0(field, 1) as int * 0x1_0000
    + ByteOr0(field, 2) as int * 0x100 + ByteOr0(field, 3) as int
  }

  function Weight(k: nat): nat
    requires k < 4
  {
    if k == 0 then 0x100_0000 else if k == 1 then 0x1_0000 else if k == 2 then 0x100 else 1
  }

  /** Encoding into the packed form; the caller has checked the range. */
  method EncodeValue(value: nat) returns (encodedValue: uint32, size: nat)
    requires value <= MAX_VALUE
    ensures encodedValue == Packed(Encoding(value)) && size == |Encoding(value)|
  {
    hide Encoding, Packed, Weight;
    EncodingLength(value);
    ghost var field := Encoding(value);
    NothingPacked(field);
    var i: nat, rest: nat, more := 4, value, true;
    encodedValue := 0;
    while more
      invariant 4 - |field| <= i <= 4 && more == (i > 4 - |field|)
      invariant encodedValue == Packed(field[..4 - i])
      invariant more ==> field[4 - i..] == Encoding(rest)
      decreases i
    {
      i := i - 1;
      EncodeStep(field, 3 - i, rest);
      var encodedByte: byte := rest % 128;
      rest := rest / 128;
      if rest > 0 {
        encodedByte := encodedByte + 128;
      }
      more := rest > 0;
      assert encodedByte == field[3 - i];
      encodedValue := encodedValue + encodedByte as int * Weight(3 - i);
    }
    assert field[..4 - i] == field;
    size := 4 - i;
  }

  lemma NothingPacked(field: seq<byte>)
    ensures field[0..] == field && Packed(field[..0]) == 0
  {
  }

  /** What one turn of the encoding loop adds. */
  lemma EncodeStep(field: seq<byte>, k: nat, rest: nat)
    requires k < |field| <= 4 && field[k..] == Encoding(rest)
    ensures field[k] == rest % 128 + (if rest / 128 > 0 then 128 else 0)
    ensures (rest / 128 > 0) == (k + 1 < |field|)
    ensures rest / 128 > 0 ==> field[k + 1..] == Encoding(rest / 128)
    ensures Packed(field[..k + 1]) == Packed(field[..k]) + field[k] as int * Weight(k)
  {
    var tail := field[k..];
    assert field[k] == tail[0] && field[k + 1..] == tail[1..] && |tail| == |field| - k;
    EncodingLengthPositive(rest / 128);
    PackedSnoc(field[..k], field[k]);
    assert field[..k] + [field[k]] == field[..k + 1];
  }

  lemma PackedSnoc(field: seq<byte>, b: byte)
    requires |field| < 4
    ensures Packed(field + [b]) == Packed(field) + b * Weight(|field|)
  {
    assert forall k: nat | k != |field| :: ByteOr0(field + [b], k) == ByteOr0(field, k);
  }

  /** The `size` most significant bytes of a packed value. */
  function Unpacked(encodedValue: uint32, size: nat): seq<byte>
    requires size <= 4
  {
    seq(size, k requires 0 <= k < size => encodedValue / Weight(k) % 0x100)
  }

  /** Packing loses nothing. */
  lemma UnpackedPacked(field: seq<byte>)
    requires |field| <= 4
    ensures Unpacked(Packed(field), |field|) == field
  {
    BytesOf(ByteOr0(field, 0), ByteOr0(field, 1), ByteOr0(field, 2), ByteOr0(field, 3));
  }

  lemma BytesOf(b0: byte, b1: byte, b2: byte, b3: byte)
    ensures var p := b0 as int * 0x100_0000 + b1 as int * 0x1_0000 + b2 as int * 0x100 + b3 as int;
            p / 0x100_0000 % 0x100 == b0 && p / 0x1_0000 % 0x100 == b1 && p / 0x100 % 0x100 == b2 && p / 1 % 0x100 == b3
  {
    var low := b2 as int * 0x100 + b3 as int;
    var high := b0 as int * 0x100 + b1 as int;
    var p := high * 0x1_0000 + low;
    assert 0 <= low < 0x1_0000;
    assert p / 0x100_0000 == b0;
    assert p / 0x1_0000 == high && high % 0x100 == b1;
    assert p / 0x100 == high * 0x100 + b2 as int;
  }

  /** Writing the packed form out, most significant byte first. */
  method EmitPacked(encodedValue: uint32, size: nat) returns (written: seq<byte>)
    requires size <= 4
    ensures written == Unpacked(encodedValue, size)
  {
    written := [];
    for i := 0 to size
      invariant written == Unpacked(encodedValue, size)[..i]
    {
      written := written + [encodedValue / Weight(i) % 0x100];
    }
  }

  /** One to four bytes for every value the client accepts. */
  lemma EncodingLength(value: nat)
    ensures 1 <= |Encoding(value)|
    ensures |Encoding(value)| <= 4 <==> value <= MAX_VALUE
    ensures |Encoding(value)| == 1 <==> value < 0x80
    ensures |Encoding(value)| <= 2 <==> value < 0x4000
    ensures |Encoding(value)| <= 3 <==> value < 0x20_0000
  {
    var v1 := value / 128;
    var v2 := v1 / 128;
    var v3 := v2 / 128;
    assert |Encoding(value)| == if value < 128 then 1 else 1 + |Encoding(v1)|;
    assert |Encoding(v1)| == if v1 < 128 then 1 else 1 + |Encoding(v2)|;
    assert |Encoding(v2)| == if v2 < 128 then 1 else 1 + |Encoding(v3)|;
    assert |Encoding(v3)| == if v3 < 128 then 1 else 1 + |Encoding(v3 / 128)|;
    EncodingLengthPositive(v3 / 128);
  }

  lemma {:induction false} EncodingLengthPositive(value: nat)
    ensures |Encoding(value)| >= 1
  {
    if value >= 128 {
      EncodingLengthPositive(value / 128);
    }
  }

  /** Round trip: a value's encoding reads back as that value, whatever follows it. */
  lemma {:induction false} DecodeEncode(value: nat, after: seq<byte>)
    ensures FieldLength(Encoding(value) + after) == Some(|Encoding(value)|)
    ensures Number(Encoding(value)) == value
  {
    if value >= 128 {
      var v := value / 128;
      DecodeEncode(v, after);
      assert (Encoding(value) + after)[1..] == Encoding(v) + after;
      assert Encoding(value)[1..] == Encoding(v);
    }
  }

  /** A field the client would write: terminated, and with no superfluous last byte. */
  predicate Minimal(field: seq<byte>) {
    FieldLength(field) == Some(|field|) && (|field| > 1 ==> field[|field| - 1] != 0)
  }

  /** The other direction: the encoding of what a minimal field stands for is that field. */
  lemma {:induction false} EncodeDecode(field: seq<byte>)
    requires Minimal(field)
    ensures Encoding(Number(field)) == field
  {
    if field[0] < 128 {
      assert Number(field[1..]) == 0;
      assert field == [field[0]];
    } else {
      var rest := field[1..];
      assert |rest| >= 1 && FieldLength(rest) == Some(|rest|);
      EncodeDecode(rest);
      assert Number(field) == field[0] % 128 + 128 * Number(rest);
      MinimalPositive(rest);
      assert Number(field) / 128 == Number(rest);
      assert [field[0]] + rest == field;
    }
  }

  lemma {:induction false} MinimalPositive(field: seq<byte>)
    requires Minimal(field) && field[|field| - 1] != 0
    ensures Number(field) > 0
  {
    if field[0] >= 128 {
      assert FieldLength(field[1..]) == Some(|field| - 1);
      MinimalPositive(field[1..]);
    } else {
      assert field[0] % 128 > 0;
    }
  }

  /** No terminated field for the same number is shorter than the encoding. */
  lemma {:induction false} EncodingIsShortest(field: seq<byte>)
    requires FieldLength(field) == Some(|field|)
    ensures |Encoding(Number(field))| <= |field|
  {
    if field[0] < 128 {
      assert Number(field[1..]) == 0;
    } else {
      var rest := field[1..];
      assert |rest| >= 1 && FieldLength(rest) == Some(|rest|);
      EncodingIsShortest(rest);
      assert Number(field) / 128 == Number(rest);
      EncodingLengthPositive(Number(rest));
    }
  }

  lemma {:induction false} NumberBound(field: seq<byte>)
    ensures Number(field) < Pow128(|field|)
  {
    if field != [] {
      NumberBound(field[1..]);
    }
  }

  /** A field of at most four bytes never wraps around. */
  lemma ShortFieldsDoNotWrap(field: seq<byte>)
    requires |field| <= 4
    ensures Number(field) <= MAX_VALUE && Wrapped(Number(field)) == Number(field)
  {
    NumberBound(field);
    assert Pow128(1) == 0x80 && Pow128(2) == 0x4000 && Pow128(3) == 0x20_0000 && Pow128(4) == 0x1000_0000;
  }
}
