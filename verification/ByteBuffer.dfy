/** The fixed-capacity byte buffer: an array, a fill mark and a read cursor. */
module ByteBuffers {
  import opened Bytes

  class ByteBuffer {
    var bytes: array<byte>
    var size: nat
    var readCursor: nat

    ghost predicate Valid()
      reads this
    {
      size <= bytes.Length
    }

    /** The bytes currently stored. */
    function Contents(): seq<byte>
      reads this, bytes
      requires Valid()
    {
      bytes[..size]
    }

    function Capacity(): nat
      reads this
    {
      bytes.Length
    }

    constructor (capacity: nat)
      ensures Valid() && fresh(bytes)
      ensures Contents() == [] && Capacity() == capacity && readCursor == 0
    {
      bytes := new byte[capacity];
      size := 0;
      readCursor := 0;
    }

    /** Appending a single byte; `ok` is false where the source throws. */
    method AppendByte(b: byte) returns (ok: bool)
      requires Valid()
      modifies this`size, bytes
      ensures Valid() && ok == (old(size) < Capacity())
      ensures Contents() == old(Contents()) + (if ok then [b] else [])
    {
      ok := size < bytes.Length;
      if ok {
        bytes[size] := b;
        size := size + 1;
      }
    }

    method AppendU16(v: uint16) returns (ok: bool)
      requires Valid()
      modifies this`size, bytes
      ensures Valid() && ok == (old(size) + 2 <= Capacity())
      ensures Contents() == old(Contents()) + (if ok then U16Bytes(v) else [])
    {
      ok := bytes.Length - size >= 2;
      if ok {
        bytes[size], bytes[size + 1] := v / 0x100, v % 0x100;
        size := size + 2;
      }
    }

    method AppendU32(v: uint32) returns (ok: bool)
      requires Valid()
      modifies this`size, bytes
      ensures Valid() && ok == (old(size) + 4 <= Capacity())
      ensures Contents() == old(Contents()) + (if ok then U32Bytes(v) else [])
    {
      ok := bytes.Length - size >= 4;
      if ok {
        bytes[size], bytes[size + 1] := v / 0x100_0000, v / 0x1_0000 % 0x100;
        bytes[size + 2], bytes[size + 3] := v / 0x100 % 0x100, v % 0x100;
        size := size + 4;
      }
    }

    /** Copying a block behind the stored bytes, all of it or nothing. */
    method Append(block: seq<byte>) returns (ok: bool)
      requires Valid()
      modifies this`size, bytes
      ensures Valid() && ok == (old(size) + |block| <= Capacity())
      ensures Contents() == old(Contents()) + (if ok then block else [])
    {
      ok := bytes.Length - size >= |block|;
      if ok {
        forall i | 0 <= i < |block| {
          bytes[size + i] := block[i];
        }
        size := size + |block|;
      }
    }

    /** The three reads throw unless the whole field lies below the fill mark. */
    method ReadUint8() returns (r: Option<byte>)
      requires Valid()
      modifies this`readCursor
      ensures r.Some? == (old(readCursor) + 1 <= size)
      ensures r.Some? ==> r.value == Contents()[old(readCursor)] && readCursor == old(readCursor) + 1
      ensures r.None? ==> readCursor == old(readCursor)
    {
      if size <= readCursor {
        return None;
      }
      r := Some(bytes[readCursor]);
      readCursor := readCursor + 1;
    }

    method ReadUInt16() returns (r: Option<uint16>)
      requires Valid()
      modifies this`readCursor
      ensures r.Some? == (old(readCursor) + 2 <= size)
      ensures r.Some? ==> r.value == U16Value(Contents()[old(readCursor)..old(readCursor) + 2])
      ensures r.Some? ==> readCursor == old(readCursor) + 2
      ensures r.None? ==> readCursor == old(readCursor)
    {
      if size <= readCursor + 1 {
        return None;
      }
      r := Some(bytes[readCursor] as int * 0x100 + bytes[readCursor + 1] as int);
      readCursor := readCursor + 2;
    }

    method ReadUInt32() returns (r: Option<uint32>)
      requires Valid()
      modifies this`readCursor
      ensures r.Some? == (old(readCursor) + 4 <= size)
      ensures r.Some? ==> r.value == U32Value(Contents()[old(readCursor)..old(readCursor) + 4])
      ensures r.Some? ==> readCursor == old(readCursor) + 4
      ensures r.None? ==> readCursor == old(readCursor)
    {
      if size <= readCursor + 3 {
        return None;
      }
      r := Some(bytes[readCursor] as int * 0x100_0000 + bytes[readCursor + 1] as int * 0x1_0000
                + bytes[readCursor + 2] as int * 0x100 + bytes[readCursor + 3] as int);
      readCursor := readCursor + 4;
    }

    /** Unchecked, as in the source: only the caller keeps the cursor in range. */
    method IncrementReadCursor(shift: nat)
      modifies this`readCursor
      ensures readCursor == old(readCursor) + shift
    {
      readCursor := readCursor + shift;
    }

    method ResetReadCursor()
      modifies this`readCursor
      ensures readCursor == 0
    {
      readCursor := 0;
    }

    /** Moves the rest to the front; a cursor inside the removed part goes to 0. */
    method RemoveFromBeginning(count: nat) returns (ok: bool)
      requires Valid()
      modifies this`size, this`readCursor, bytes
      ensures Valid() && ok == (count <= old(size))
      ensures ok ==> Contents() == old(Contents())[count..]
      ensures ok ==> readCursor == if old(readCursor) >= count then old(readCursor) - count else 0
      ensures !ok ==> Contents() == old(Contents()) && readCursor == old(readCursor)
      ensures old(readCursor <= size) ==> readCursor <= size
    {
      ok := count <= size;
      if ok {
        forall i | 0 <= i < size - count {
          bytes[i] := bytes[i + count];
        }
        size := size - count;
        readCursor := if readCursor >= count then readCursor - count else 0;
      }
    }

    method Expand(newCapacity: nat)
      requires Valid()
      modifies this`bytes
      ensures Valid() && (bytes == old(bytes) || fresh(bytes))
      ensures Capacity() == if newCapacity <= old(Capacity()) then old(Capacity()) else newCapacity
      ensures Contents() == old(Contents())
    {
      if newCapacity <= bytes.Length {
        return;
      }
      var newBytes := new byte[newCapacity];
      forall i | 0 <= i < size {
        newBytes[i] := bytes[i];
      }
      bytes := newBytes;
    }

    method Clear()
      requires Valid()
      modifies this`size, this`readCursor
      ensures Valid() && Contents() == [] && readCursor == 0
    {
      size := 0;
      readCursor := 0;
    }
  }

  /** The integer fields a header is made of. */
  datatype Field = U8(b: byte) | U16(h: uint16) | U32(w: uint32)

  datatype Width = One | Two | Four

  function FieldBytes(f: Field): seq<byte> {
    match f
    case U8(b) => [b]
    case U16(h) => U16Bytes(h)
    case U32(w) => U32Bytes(w)
  }

  function WidthOf(f: Field): Width {
    match f
    case U8(_) => One
    case U16(_) => Two
    case U32(_) => Four
  }

  function Octets(w: Width): nat {
    match w
    case One => 1
    case Two => 2
    case Four => 4
  }

  function Serialize(fields: seq<Field>): seq<byte> {
    if fields == [] then [] else FieldBytes(fields[0]) + Serialize(fields[1..])
  }

  function FieldAt(w: Width, s: seq<byte>, cursor: nat): Field
    requires cursor + Octets(w) <= |s|
  {
    match w
    case One => U8(s[cursor])
    case Two => U16(U16Value(s[cursor..cursor + 2]))
    case Four => U32(U32Value(s[cursor..cursor + 4]))
  }

  /** Reading fields of the given widths from a cursor: the fields, and where the cursor stops. */
  function ReadFields(widths: seq<Width>, s: seq<byte>, cursor: nat): (r: Option<(seq<Field>, nat)>) {
    if widths == [] then Some(([], cursor))
    else if cursor + Octets(widths[0]) > |s| then None
    else
      match ReadFields(widths[1..], s, cursor + Octets(widths[0]))
      case None => None
      case Some((rest, stop)) => Some(([FieldAt(widths[0], s, cursor)] + rest, stop))
  }

  function Widths(fields: seq<Field>): seq<Width> {
    seq(|fields|, i requires 0 <= i < |fields| => WidthOf(fields[i]))
  }

  lemma Middle(before: seq<byte>, field: seq<byte>, after: seq<byte>)
    ensures (before + field + after)[|before|..|before| + |field|] == field
    ensures field != [] ==> (before + field + after)[|before|] == field[0]
  {
  }

  lemma U16Back(v: uint16)
    ensures |U16Bytes(v)| == 2 && U16Value(U16Bytes(v)) == v
  {
  }

  lemma UpperByte(v: uint32)
    ensures v / 0x100_0000 == v / 0x1_0000 / 0x100
  {
  }

  lemma LowerBytes(v: uint32)
    ensures v / 0x100 % 0x100 == v % 0x1_0000 / 0x100
    ensures v % 0x100 == v % 0x1_0000 % 0x100
  {
    var high, low := v / 0x1_0000, v % 0x1_0000;
    assert v == 0x1_0000 * high + low;
    assert v / 0x100 == 0x100 * high + low / 0x100;
  }

  lemma U32Back(v: uint32)
    ensures |U32Bytes(v)| == 4 && U32Value(U32Bytes(v)) == v
  {
    UpperByte(v);
    LowerBytes(v);
    var high, low := v / 0x1_0000, v % 0x1_0000;
    assert high == 0x100 * (high / 0x100) + high % 0x100;
    assert low == 0x100 * (low / 0x100) + low % 0x100;
  }

  lemma FieldBack(f: Field, before: seq<byte>, after: seq<byte>)
    ensures |FieldBytes(f)| == Octets(WidthOf(f))
    ensures FieldAt(WidthOf(f), before + FieldBytes(f) + after, |before|) == f
  {
    hide U16Bytes, U16Value, U32Bytes, U32Value;
    Middle(before, FieldBytes(f), after);
    match f
    case U8(_) =>
    case U16(v) => U16Back(v);
    case U32(v) => U32Back(v);
  }

  lemma ReadOne(widths: seq<Width>, s: seq<byte>, cursor: nat, rest: seq<Field>, stop: nat)
    requires widths != [] && cursor + Octets(widths[0]) <= |s|
    requires ReadFields(widths[1..], s, cursor + Octets(widths[0])) == Some((rest, stop))
    ensures ReadFields(widths, s, cursor) == Some(([FieldAt(widths[0], s, cursor)] + rest, stop))
  {
    hide FieldAt;
  }

  lemma SerializeOne(fields: seq<Field>, before: seq<byte>)
    requires fields != []
    ensures before + Serialize(fields) == before + FieldBytes(fields[0]) + Serialize(fields[1..])
    ensures |Serialize(fields)| == |FieldBytes(fields[0])| + |Serialize(fields[1..])|
  {
    var here, rest := FieldBytes(fields[0]), Serialize(fields[1..]);
    assert Serialize(fields) == here + rest;
    hide FieldBytes, Serialize;
    assert before + (here + rest) == before + here + rest;
  }

  lemma WidthsOne(fields: seq<Field>)
    requires fields != []
    ensures Widths(fields) != [] && Widths(fields)[0] == WidthOf(fields[0]) && Widths(fields)[1..] == Widths(fields[1..])
    ensures [fields[0]] + fields[1..] == fields
  {
    hide WidthOf;
  }

  lemma ReadNone(before: seq<byte>)
    ensures ReadFields(Widths([]), before + Serialize([]), |before|) == Some(([], |before| + |Serialize([])|))
  {
  }

  lemma {:induction false} ReadBackFrom(fields: seq<Field>, before: seq<byte>)
    ensures ReadFields(Widths(fields), before + Serialize(fields), |before|)
         == Some((fields, |before| + |Serialize(fields)|))
  {
    hide *;
    if fields == [] {
      ReadNone(before);
    } else {
      var f, rest := fields[0], fields[1..];
      var s, next := before + Serialize(fields), before + FieldBytes(f);
      SerializeOne(fields, before);
      WidthsOne(fields);
      FieldBack(f, before, Serialize(rest));
      ReadBackFrom(rest, next);
      assert |next| == |before| + Octets(WidthOf(f));
      ReadOne(Widths(fields), s, |before|, rest, |next| + |Serialize(rest)|);
    }
  }

  /** Any list of appended fields reads back unchanged from cursor 0, leaving the cursor at the end. */
  lemma SerializedFieldsReadBack(fields: seq<Field>)
    ensures ReadFields(Widths(fields), Serialize(fields), 0) == Some((fields, |Serialize(fields)|))
  {
    ReadBackFrom(fields, []);
    assert [] + Serialize(fields) == Serialize(fields);
  }
}
