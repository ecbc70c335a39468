/** Cutting a received byte string into control packets. */
module Framing {
  import opened Bytes
  import opened ByteBuffers
  import opened VariableByteIntegers

  /** The size of the packet at the start of `s`, once its fixed header is complete. */
  function Needed(s: seq<byte>): (n: Option<nat>)
    ensures n.Some? ==> n.value >= 1
  {
    if |s| < 2 then None
    else
      match FieldLength(s[1..])
      case None => None
      case Some(n) => Some(1 + Wrapped8(n) + Wrapped(Number(s[1..1 + n])))
  }

  predicate StartsWithPacket(s: seq<byte>) {
    Needed(s).Some? && Needed(s).value <= |s|
  }

  /** A byte string that is exactly one packet. */
  predicate IsPacket(p: seq<byte>) {
    Needed(p) == Some(|p|)
  }

  predicate AllPackets(packets: seq<seq<byte>>) {
    packets == [] || (IsPacket(packets[0]) && AllPackets(packets[1..]))
  }

  /** The size of the whole packet `s` starts with, if it starts with one. */
  function First(s: seq<byte>): (n: Option<nat>)
    ensures n.Some? ==> 1 <= n.value <= |s|
  {
    if StartsWithPacket(s) then Needed(s) else None
  }

  /** What framing should deliver: the whole packets, and the bytes of the unfinished one. */
  function Frames(s: seq<byte>): seq<seq<byte>>
    decreases |s|
  {
    match First(s)
    case None => []
    case Some(n) => [s[..n]] + Frames(s[n..])
  }

  function Tail(s: seq<byte>): (t: seq<byte>)
    ensures |t| <= |s|
    decreases |s|
  {
    match First(s)
    case None => s
    case Some(n) => Tail(s[n..])
  }

  // ---------------------------------------------------------------- properties of Frames and Tail

  /** Nothing is lost, repeated or reordered. */
  lemma {:induction false} FramesThenTail(s: seq<byte>)
    ensures Concat(Frames(s)) + Tail(s) == s
    ensures !StartsWithPacket(Tail(s))
    decreases |s|
  {
    if StartsWithPacket(s) {
      var n := Needed(s).value;
      var rest := s[n..];
      FramesThenTail(rest);
      assert Frames(s) == [s[..n]] + Frames(rest) && Tail(s) == Tail(rest);
      hide Frames, Tail, StartsWithPacket, Needed;
      FirstConcat(s[..n], Frames(rest), Tail(rest));
      assert s == s[..n] + rest;
    }
  }

  lemma FirstConcat(p: seq<byte>, ps: seq<seq<byte>>, tail: seq<byte>)
    ensures Concat([p] + ps) + tail == p + (Concat(ps) + tail)
  {
    assert ([p] + ps)[1..] == ps;
    assert p + Concat(ps) + tail == p + (Concat(ps) + tail);
  }

  lemma {:induction false} FieldLengthPrefix(s: seq<byte>, t: seq<byte>)
    requires FieldLength(s).Some?
    ensures FieldLength(s + t) == FieldLength(s)
  {
    if s[0] >= 128 {
      FieldLengthPrefix(s[1..], t);
      assert (s + t)[1..] == s[1..] + t;
    }
  }

  /** A complete header says the same whatever follows. */
  lemma NeededPrefix(s: seq<byte>, t: seq<byte>)
    requires Needed(s).Some?
    ensures Needed(s + t) == Needed(s)
  {
    FieldLengthPrefix(s[1..], t);
    assert (s + t)[1..] == s[1..] + t;
    var n := FieldLength(s[1..]).value;
    assert (s + t)[1..1 + n] == s[1..1 + n];
  }

  /** Every output of framing is one whole packet: 1 byte, the length field, the remaining length.
      (A length field of 256 bytes or more wraps the client's 8-bit field size.) */
  lemma {:induction false} FramesAreWhole(s: seq<byte>, k: nat)
    requires k < |Frames(s)|
    ensures var p := Frames(s)[k];
            |p| >= 1 && (|p| >= 2 && FieldLength(p[1..]).Some? ==> IsPacket(p))
    decreases |s|
  {
    var n := Needed(s).value;
    if k == 0 {
      var p := s[..n];
      assert p + s[n..] == s;
      if |p| >= 2 && FieldLength(p[1..]).Some? {
        NeededPrefix(p, s[n..]);
      }
    } else {
      FramesAreWhole(s[n..], k - 1);
    }
  }

  /** An ordinary packet is as long as section 2.1.4 says: header byte, length field, that many bytes. */
  lemma PacketSize(p: seq<byte>)
    requires IsPacket(p) && FieldLength(p[1..]).value <= 4
    ensures var n := FieldLength(p[1..]).value; |p| == 1 + n + Number(p[1..1 + n])
  {
    var n := FieldLength(p[1..]).value;
    ShortFieldsDoNotWrap(p[1..1 + n]);
  }

  /** A length field cut off by the end of the data can only stand for more bytes than are there,
      however it goes on, as long as it stays under 256 bytes. */
  lemma {:induction false} CutFieldNeedsMore(s: seq<byte>, beyond: seq<byte>)
    requires |s| >= 2 && FieldLength(s[1..]).None?
    requires FieldLength(s[1..] + beyond).Some? && FieldLength(s[1..] + beyond).value < 0x100
    ensures Needed(s + beyond).Some? && Needed(s + beyond).value > |s|
  {
    assert (s + beyond)[1..] == s[1..] + beyond;
    FieldLengthPast(s[1..], beyond);
  }

  lemma {:induction false} FieldLengthPast(s: seq<byte>, beyond: seq<byte>)
    requires FieldLength(s).None? && FieldLength(s + beyond).Some?
    ensures FieldLength(s + beyond).value > |s|
  {
    if s != [] {
      assert (s + beyond)[1..] == s[1..] + beyond;
      FieldLengthPast(s[1..], beyond);
    }
  }

  /** Framing ignores where the data was cut. */
  lemma {:induction false} FramesOfSplit(a: seq<byte>, b: seq<byte>)
    ensures Frames(a + b) == Frames(a) + Frames(Tail(a) + b)
    ensures Tail(a + b) == Tail(Tail(a) + b)
    decreases |a|
  {
    if StartsWithPacket(a) {
      var n := Needed(a).value;
      NeededPrefix(a, b);
      assert (a + b)[..n] == a[..n] && (a + b)[n..] == a[n..] + b;
      FramesOfSplit(a[n..], b);
    }
  }

  lemma FramesCons(p: seq<byte>, rest: seq<byte>)
    requires IsPacket(p)
    ensures Frames(p + rest) == [p] + Frames(rest) && Tail(p + rest) == Tail(rest)
  {
    NeededPrefix(p, rest);
    assert (p + rest)[..|p|] == p && (p + rest)[|p|..] == rest;
  }

  lemma ConcatCons(p: seq<byte>, ps: seq<seq<byte>>, rest: seq<byte>)
    ensures Concat([p] + ps) + rest == p + (Concat(ps) + rest)
  {
    assert ([p] + ps)[1..] == ps;
  }

  /** Round trip: framing the concatenation of packets returns exactly those packets, nothing left. */
  lemma {:induction false} FramesOfPackets(packets: seq<seq<byte>>, rest: seq<byte>)
    requires AllPackets(packets)
    ensures Frames(Concat(packets) + rest) == packets + Frames(rest)
    ensures Tail(Concat(packets) + rest) == Tail(rest)
  {
    hide First, IsPacket;
    if packets == [] {
      assert Concat(packets) + rest == rest;
      assert packets + Frames(rest) == Frames(rest);
    } else {
      var p, ps := packets[0], packets[1..];
      assert packets == [p] + ps;
      FramesOfPackets(ps, rest);
      ConcatCons(p, ps, rest);
      FramesCons(p, Concat(ps) + rest);
      assert [p] + (ps + Frames(rest)) == ([p] + ps) + Frames(rest);
    }
  }

  // ---------------------------------------------------------------- the client's framing loop

  /** The size of the length field at the start of `s` as the client counts it, in 8 bits. */
  function FieldSize(s: seq<byte>): byte {
    if s != [] && FieldLength(s[1..]).Some? then Wrapped8(FieldLength(s[1..]).value) else 0
  }

  /** The loop as written, from a packet start with the read cursor where the last packet left it:
      it gives up silently when under two bytes lie past the cursor. */
  function Separate(s: seq<byte>, start: nat, cursor: nat): (r: (seq<seq<byte>>, nat))
    requires start <= |s|
    decreases |s| - start
  {
    if start == |s| || 0 <= |s| - cursor < 2 then ([], 0)
    else
      match First(s[start..])
      case None => ([], |s| - start)
      case Some(n) =>
        var r := Separate(s, start + n, start + 1 + FieldSize(s[start..]));
        ([s[start..start + n]] + r.0, r.1)
  }

  /** The case in which the loop gives up on a last byte: it stands alone in the data, or the packet
      before it has no body. `bodyless` says so of the packet before `s`, and is true at the start. */
  predicate LoneByteMissed(s: seq<byte>, bodyless: bool)
    decreases |s|
  {
    match First(s)
    case None => |s| == 1 && bodyless
    case Some(n) => LoneByteMissed(s[n..], n == 1 + FieldSize(s))
  }

  /** One packet of the loop. */
  lemma SeparateOne(packets: seq<seq<byte>>, s: seq<byte>, start: nat, cursor: nat, n: nat)
    requires start < |s| && !(0 <= |s| - cursor < 2) && First(s[start..]) == Some(n)
    ensures n <= |s| - start
    ensures var rest := Separate(s, start + n, start + 1 + FieldSize(s[start..]));
            && packets + Separate(s, start, cursor).0 == packets + [s[start..start + n]] + rest.0
            && Separate(s, start, cursor).1 == rest.1
  {
    var rest := Separate(s, start + n, start + 1 + FieldSize(s[start..]));
    assert Separate(s, start, cursor).0 == [s[start..start + n]] + rest.0;
    hide Separate, First, FieldSize;
    assert packets + ([s[start..start + n]] + rest.0) == packets + [s[start..start + n]] + rest.0;
  }

  lemma SeparateEnds(packets: seq<seq<byte>>, s: seq<byte>, start: nat, cursor: nat)
    requires start <= |s|
    ensures start == |s| || 0 <= |s| - cursor < 2 ==> packets + Separate(s, start, cursor).0 == packets && Separate(s, start, cursor).1 == 0
    ensures !(start == |s| || 0 <= |s| - cursor < 2) && First(s[start..]).None? ==>
              packets + Separate(s, start, cursor).0 == packets && Separate(s, start, cursor).1 == |s| - start
  {
    assert packets + [] == packets;
  }

  lemma WithinPrefix(bytes: seq<byte>, size: nat, from: nat, to: nat)
    requires from <= to <= size <= |bytes|
    ensures bytes[..size][from..to] == bytes[from..to]
  {
  }

  method SeparateMqttPacketByteBuffers(buffer: ByteBuffer)
    returns (ok: bool, packets: seq<seq<byte>>, leftOver: nat)
    requires buffer.Valid()
    modifies buffer`readCursor
    ensures (packets, leftOver) == Separate(buffer.Contents(), 0, old(buffer.readCursor))
    ensures ok == (packets != [])
  {
    hide First, FieldSize, Separate;
    packets, leftOver := [], 0;
    var packetStart := 0;
    ghost var s := buffer.Contents();
    ghost var whole := Separate(s, 0, buffer.readCursor);
    assert packets + whole.0 == whole.0;
    while packetStart < buffer.size
      invariant packetStart <= |s| && buffer.Contents() == s && leftOver == 0
      invariant whole.0 == packets + Separate(s, packetStart, buffer.readCursor).0
      invariant whole.1 == Separate(s, packetStart, buffer.readCursor).1
      decreases |s| - packetStart
    {
      ghost var cursor := buffer.readCursor;
      SeparateEnds(packets, s, packetStart, cursor);
      if 0 <= buffer.size - buffer.readCursor < 2 {
        return packets != [], packets, 0;
      }
      buffer.ResetReadCursor();
      buffer.IncrementReadCursor(packetStart + 1);
      var packetSize, encodingSize := HeaderAt(buffer, packetStart);
      if packetSize > buffer.size - packetStart {
        assert First(s[packetStart..]).None?;
        return packets != [], packets, buffer.size - packetStart;
      }
      SeparateOne(packets, s, packetStart, cursor, packetSize);
      buffer.IncrementReadCursor(encodingSize);
      var packet := buffer.bytes[packetStart..packetStart + packetSize];
      WithinPrefix(buffer.bytes[..], buffer.size, packetStart, packetStart + packetSize);
      assert packet == s[packetStart..packetStart + packetSize];
      packets := packets + [packet];
      packetStart := packetStart + packetSize;
    }
    SeparateEnds(packets, s, packetStart, buffer.readCursor);
    return packets != [], packets, leftOver;
  }

  /** The size the header at `packetStart` asks for and the size of its length field. A header cut
      off by the end of the data asks for more than is there (the source then reads on past it). */
  method HeaderAt(buffer: ByteBuffer, packetStart: nat) returns (packetSize: nat, encodingSize: byte)
    requires buffer.Valid() && packetStart < buffer.size
    ensures var rest := buffer.Contents()[packetStart..];
            if First(rest).Some? then packetSize == First(rest).value && encodingSize == FieldSize(rest)
            else packetSize > |rest|
  {
    ghost var rest := buffer.Contents()[packetStart..];
    var header := buffer.bytes[packetStart + 1..buffer.size];
    assert header == rest[1..];
    var remaining := TryCreateFromBuffer(header);
    if remaining.None? {
      return buffer.size - packetStart + 1, 0;
    }
    encodingSize := remaining.value.1;
    packetSize := remaining.value.0 + 1 + encodingSize;
    if header != [] {
      assert rest[1..1 + FieldLength(header).value] == header[..FieldLength(header).value];
    }
  }

  /** An exhausted buffer yields the value 0 in one byte; a field cut off by the end of the data
      has no value here (the source goes on reading). */
  method TryCreateFromBuffer(rest: seq<byte>) returns (r: Option<(uint32, byte)>)
    ensures rest == [] ==> r == Some((0, 1))
    ensures rest != [] ==> r.Some? == FieldLength(rest).Some?
    ensures rest != [] && r.Some? ==>
              var n := FieldLength(rest).value; r.value == (Wrapped(Number(rest[..n])), Wrapped8(n))
  {
    if rest == [] {
      return Some((0, 1));
    }
    if FieldLength(rest).None? {
      return None;
    }
    var value, size := DecodeBytes(rest);
    return Some((value, size));
  }

  /** The loop delivers exactly the whole packets; its leftover count is the unfinished tail's,
      except that a missed lone byte is reported as nothing. */
  lemma SeparateIsFraming(s: seq<byte>)
    ensures Separate(s, 0, 0) == (Frames(s), if LoneByteMissed(s, true) then 0 else |Tail(s)|)
  {
    SeparateFrom(s, 0, 0);
    assert s[0..] == s;
  }

  lemma HeaderFits(rest: seq<byte>)
    ensures First(rest).Some? ==> |rest| >= 2 && 1 + FieldSize(rest) <= First(rest).value
  {
  }

  /** What each of the recursive definitions says of a stream that starts with a packet, or with none. */
  lemma AtPacket(rest: seq<byte>, n: nat, bodyless: bool)
    requires First(rest) == Some(n)
    ensures n <= |rest| && Frames(rest) == [rest[..n]] + Frames(rest[n..]) && Tail(rest) == Tail(rest[n..])
    ensures LoneByteMissed(rest, bodyless) == LoneByteMissed(rest[n..], n == 1 + FieldSize(rest))
  {
    hide FieldSize;
  }

  lemma AtTail(rest: seq<byte>, bodyless: bool)
    requires First(rest).None?
    ensures Frames(rest) == [] && Tail(rest) == rest && LoneByteMissed(rest, bodyless) == (|rest| == 1 && bodyless)
  {
    hide FieldSize;
  }

  lemma SeparateAt(s: seq<byte>, start: nat, cursor: nat)
    requires start <= |s|
    ensures Separate(s, start, cursor)
         == if start == |s| || 0 <= |s| - cursor < 2 then ([], 0)
            else if First(s[start..]).None? then ([], |s| - start)
            else
              var n := First(s[start..]).value;
              var r := Separate(s, start + n, start + 1 + FieldSize(s[start..]));
              ([s[start..start + n]] + r.0, r.1)
  {
    hide First, FieldSize;
  }

  lemma {:induction false} SeparateFrom(s: seq<byte>, start: nat, body: nat)
    requires body <= start <= |s|
    ensures Separate(s, start, start - body).0 == Frames(s[start..])
    ensures Separate(s, start, start - body).1
         == if LoneByteMissed(s[start..], body == 0) then 0 else |Tail(s[start..])|
    decreases |s| - start
  {
    hide *;
    var rest := s[start..];
    HeaderFits(rest);
    SeparateAt(s, start, start - body);
    if First(rest).Some? {
      var n := First(rest).value;
      AtPacket(rest, n, body == 0);
      assert rest[n..] == s[start + n..] && rest[..n] == s[start..start + n];
      SeparateFrom(s, start + n, n - 1 - FieldSize(rest));
    } else {
      AtTail(rest, body == 0);
    }
  }
}
