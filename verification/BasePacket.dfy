/** Encoding a control packet: fixed header first, then the packet's own headers. */
module BasePackets {
  import opened Bytes
  import opened ByteBuffers
  import opened VariableByteIntegers
  import opened Framing

  /** A header to encode: the size it announces and the bytes it writes. */
  datatype EncodeHeader = EncodeHeader(size: nat, bytes: seq<byte>)

  function Announced(headers: seq<EncodeHeader>): nat {
    if headers == [] then 0 else Announced(headers[..|headers| - 1]) + headers[|headers| - 1].size
  }

  function Body(headers: seq<EncodeHeader>): seq<byte> {
    if headers == [] then [] else Body(headers[..|headers| - 1]) + headers[|headers| - 1].bytes
  }

  type Nibble = n: nat | n < 16

  /** The packet type in the upper half of the first byte, the flags in the lower half, then the length field. */
  function FixedHeader(packetType: Nibble, flags: Nibble, remainingLength: nat): seq<byte> {
    [packetType * 16 + flags] + Encoding(remainingLength)
  }

  /** The bytes of a packet with these headers. */
  function PacketBytes(packetType: Nibble, flags: Nibble, headers: seq<EncodeHeader>): seq<byte> {
    FixedHeader(packetType, flags, Wrapped(Announced(headers))) + Body(headers)
  }

  // ---------------------------------------------------------------- what a receiver reads

  function TotalSize(headers: seq<EncodeHeader>): nat {
    if headers == [] then 0 else headers[0].size + TotalSize(headers[1..])
  }

  /** The bytes of the headers one after the other, each at the front of what the ones before it leave. */
  predicate CutsInto(body: seq<byte>, headers: seq<EncodeHeader>) {
    if headers == [] then body == []
    else headers[0].bytes <= body && CutsInto(body[|headers[0].bytes|..], headers[1..])
  }

  /** Read from the front: type and flags, a field with the sum of the sizes in 32 bits, the headers in order. */
  predicate ReadsAs(bytes: seq<byte>, packetType: Nibble, flags: Nibble, headers: seq<EncodeHeader>) {
    && bytes != [] && bytes[0] / 16 == packetType && bytes[0] % 16 == flags
    && match FieldLength(bytes[1..])
       case None => false
       case Some(n) => && Number(bytes[1..1 + n]) == TotalSize(headers) % 0x1_0000_0000
                       && CutsInto(bytes[1 + n..], headers)
  }

  lemma {:induction false} AnnouncedIsTotal(front: seq<EncodeHeader>, headers: seq<EncodeHeader>)
    ensures Announced(front + headers) == Announced(front) + TotalSize(headers)
    decreases |headers|
  {
    if headers == [] {
      assert front + headers == front;
    } else {
      var next := front + [headers[0]];
      AnnouncedIsTotal(next, headers[1..]);
      assert next + headers[1..] == front + headers && next[..|front|] == front;
    }
  }

  lemma {:induction false} BodyCutsInto(front: seq<EncodeHeader>, headers: seq<EncodeHeader>)
    ensures Body(front) <= Body(front + headers)
    ensures CutsInto(Body(front + headers)[|Body(front)|..], headers)
    decreases |headers|
  {
    if headers == [] {
      assert front + headers == front;
    } else {
      var next := front + [headers[0]];
      var whole := Body(front + headers);
      BodyCutsInto(next, headers[1..]);
      assert next + headers[1..] == front + headers && next[..|front|] == front;
      assert Body(next) == Body(front) + headers[0].bytes;
      hide Body, CutsInto;
      CutTwice(whole, Body(front), headers[0].bytes);
      CutOne(whole[|Body(front)|..], headers);
    }
  }

  lemma CutOne(body: seq<byte>, headers: seq<EncodeHeader>)
    requires headers != [] && headers[0].bytes <= body && CutsInto(body[|headers[0].bytes|..], headers[1..])
    ensures CutsInto(body, headers)
  {
  }

  lemma CutTwice(whole: seq<byte>, a: seq<byte>, b: seq<byte>)
    requires a + b <= whole
    ensures a <= whole && b <= whole[|a|..] && whole[|a|..][|b|..] == whole[|a + b|..]
  {
    assert forall i :: 0 <= i < |b| ==> whole[|a|..][i] == (a + b)[|a| + i];
  }

  lemma Halves(packetType: Nibble, flags: Nibble)
    ensures var first: byte := packetType * 16 + flags;
            first / 16 == packetType && first % 16 == flags
  {
  }

  lemma ReadFromFront(packetType: Nibble, flags: Nibble, field: seq<byte>, body: seq<byte>, headers: seq<EncodeHeader>)
    requires FieldLength(field + body) == Some(|field|) && Number(field) == TotalSize(headers) % 0x1_0000_0000
    requires CutsInto(body, headers)
    ensures ReadsAs([packetType * 16 + flags] + field + body, packetType, flags, headers)
  {
    hide FieldLength, Number, CutsInto, TotalSize;
    var bytes := [packetType * 16 + flags] + field + body;
    Halves(packetType, flags);
    Sliced(packetType * 16 + flags, field, body);
    assert bytes[0] == packetType * 16 + flags;
  }

  /** What an encoding reads as, for every type, flags and headers. */
  lemma EncodedReadsAs(packetType: Nibble, flags: Nibble, headers: seq<EncodeHeader>)
    ensures ReadsAs(PacketBytes(packetType, flags, headers), packetType, flags, headers)
  {
    hide Encoding, FieldLength, Number, Body, Announced, CutsInto, TotalSize, ReadsAs;
    var remaining := Wrapped(Announced(headers));
    DecodeEncode(remaining, Body(headers));
    AnnouncedIsTotal([], headers);
    BodyCutsInto([], headers);
    NothingYet();
    assert [] + headers == headers && Body(headers)[0..] == Body(headers);
    ReadFromFront(packetType, flags, Encoding(remaining), Body(headers), headers);
  }

  lemma NothingYet()
    ensures Body([]) == [] && Announced([]) == 0
  {
  }

  class BasePacket {
    const packetType: Nibble
    const flags: Nibble
    var otherEncodeHeaders: seq<EncodeHeader>
    const dataBuffer: ByteBuffer

    ghost predicate Valid()
      reads this, dataBuffer
    {
      dataBuffer.Valid()
    }

    constructor (packetType: Nibble, flags: Nibble)
      ensures Valid() && fresh(dataBuffer) && fresh(dataBuffer.bytes)
      ensures otherEncodeHeaders == [] && this.packetType == packetType && this.flags == flags
      ensures dataBuffer.Contents() == [] && dataBuffer.Capacity() == 0
    {
      this.packetType, this.flags := packetType, flags;
      otherEncodeHeaders := [];
      dataBuffer := new ByteBuffer(0);
    }

    method CalculateFixedHeaderRemainingLength() returns (remainingLength: nat)
      ensures remainingLength == Announced(otherEncodeHeaders)
    {
      remainingLength := 0;
      for i := 0 to |otherEncodeHeaders|
        invariant remainingLength == Announced(otherEncodeHeaders[..i])
      {
        assert otherEncodeHeaders[..i + 1][..i] == otherEncodeHeaders[..i];
        remainingLength := remainingLength + otherEncodeHeaders[i].size;
      }
      assert otherEncodeHeaders[..|otherEncodeHeaders|] == otherEncodeHeaders;
    }

    /** Succeeds when the 32-bit remaining length is encodable and the headers write no more than the
        capacity holds, which is what they announce or what the buffer had before. */
    method Encode() returns (ok: bool)
      requires Valid()
      modifies dataBuffer, dataBuffer.bytes
      ensures Valid()
      ensures var remaining := Wrapped(Announced(otherEncodeHeaders));
              var text := PacketBytes(packetType, flags, otherEncodeHeaders);
              var needed := |FixedHeader(packetType, flags, remaining)| + remaining;
              var capacity := if needed <= old(dataBuffer.Capacity()) then old(dataBuffer.Capacity()) else needed;
              && ok == (remaining <= MAX_VALUE && |text| <= capacity)
              && (remaining <= MAX_VALUE ==> dataBuffer.Capacity() == capacity && dataBuffer.Contents() <= text)
              && (remaining > MAX_VALUE ==> dataBuffer.Contents() == old(dataBuffer.Contents()))
              && (ok ==> dataBuffer.Contents() == text)
      ensures ok ==> ReadsAs(dataBuffer.Contents(), packetType, flags, otherEncodeHeaders)
    {
      hide Encoding, Packed, Weight, Wrapped, Announced, Body, ReadsAs;
      var total := CalculateFixedHeaderRemainingLength();
      var remaining := Wrapped(total);
      if remaining > MAX_VALUE {
        return false;
      }
      var encodedValue, size := EncodeValue(remaining);
      dataBuffer.Clear();
      dataBuffer.Expand(1 + size + remaining);
      WriteFixedHeader(remaining, encodedValue, size);
      EncodedReadsAs(packetType, flags, otherEncodeHeaders);
      ok := WriteHeaders();
    }

    method WriteFixedHeader(remaining: nat, encodedValue: uint32, size: nat)
      requires Valid() && dataBuffer.Contents() == [] && remaining <= MAX_VALUE
      requires encodedValue == Packed(Encoding(remaining)) && size == |Encoding(remaining)| && 1 + size <= dataBuffer.Capacity()
      modifies dataBuffer`size, dataBuffer.bytes
      ensures Valid() && dataBuffer.Contents() == FixedHeader(packetType, flags, remaining)
    {
      hide Encoding, Packed;
      EncodingLength(remaining);
      UnpackedPacked(Encoding(remaining));
      var appended := dataBuffer.AppendByte(packetType * 16 + flags);
      var lengthField := EmitPacked(encodedValue, size);
      appended := dataBuffer.Append(lengthField);
    }

    /** The header loop: each header is written whole, or throws and ends the encoding. */
    method WriteHeaders() returns (ok: bool)
      requires Valid()
      modifies dataBuffer`size, dataBuffer.bytes
      ensures Valid()
      ensures var all := old(dataBuffer.Contents()) + Body(otherEncodeHeaders);
              && ok == (|all| <= dataBuffer.Capacity())
              && dataBuffer.Contents() <= all
              && (ok ==> dataBuffer.Contents() == all)
    {
      ghost var start := dataBuffer.Contents();
      assert start + Body(otherEncodeHeaders[..0]) == start;
      for i := 0 to |otherEncodeHeaders|
        invariant Valid() && dataBuffer.Contents() == start + Body(otherEncodeHeaders[..i])
      {
        assert otherEncodeHeaders[..i + 1][..i] == otherEncodeHeaders[..i];
        var written := dataBuffer.Append(otherEncodeHeaders[i].bytes);
        BodyPrefix(otherEncodeHeaders, i);
        BodyPrefix(otherEncodeHeaders, i + 1);
        if !written {
          return false;
        }
        assert start + Body(otherEncodeHeaders[..i + 1])
            == start + Body(otherEncodeHeaders[..i]) + otherEncodeHeaders[i].bytes;
      }
      assert otherEncodeHeaders[..|otherEncodeHeaders|] == otherEncodeHeaders;
      return true;
    }
  }

  lemma {:induction false} BodyPrefix(headers: seq<EncodeHeader>, i: nat)
    requires i <= |headers|
    ensures Body(headers[..i]) <= Body(headers)
  {
    if i == |headers| {
      assert headers[..i] == headers;
    } else {
      BodyPrefix(headers[..|headers| - 1], i);
      assert headers[..|headers| - 1][..i] == headers[..i];
    }
  }

  /** Every header writes as many bytes as it announces. */
  predicate Honest(headers: seq<EncodeHeader>) {
    forall h :: h in headers ==> |h.bytes| == h.size
  }

  lemma {:induction false} HonestBody(headers: seq<EncodeHeader>)
    requires Honest(headers)
    ensures |Body(headers)| == Announced(headers)
  {
    if headers != [] {
      HonestBody(headers[..|headers| - 1]);
    }
  }

  /** An encoding is one whole packet exactly when the headers together write what they announce. */
  lemma EncodedIsPacketExactly(packetType: Nibble, flags: Nibble, headers: seq<EncodeHeader>)
    requires Announced(headers) <= MAX_VALUE
    ensures IsPacket(PacketBytes(packetType, flags, headers)) <==> |Body(headers)| == Announced(headers)
  {
    hide IsPacket, Encoding, Body, Announced;
    assert Wrapped(Announced(headers)) == Announced(headers);
    OneWholePacket(packetType * 16 + flags, Announced(headers), Body(headers));
  }

  lemma OneWholePacket(first: byte, remaining: nat, body: seq<byte>)
    requires remaining <= MAX_VALUE
    ensures IsPacket([first] + Encoding(remaining) + body) <==> |body| == remaining
  {
    hide Encoding, FieldLength, Number, Needed, Wrapped, Wrapped8;
    EncodingLength(remaining);
    DecodeEncode(remaining, body);
    NeededOf(first, Encoding(remaining), body);
    NothingWraps(remaining, |Encoding(remaining)|);
  }

  lemma NeededOf(first: byte, field: seq<byte>, body: seq<byte>)
    requires field != [] && FieldLength(field + body) == Some(|field|)
    ensures Needed([first] + field + body) == Some(1 + Wrapped8(|field|) + Wrapped(Number(field)))
  {
    hide FieldLength, Number, Wrapped, Wrapped8;
    Sliced(first, field, body);
  }

  lemma NothingWraps(value: nat, length: nat)
    requires value <= MAX_VALUE && length <= 4
    ensures Wrapped(value) == value && Wrapped8(length) == length
  {
  }

  lemma Sliced(first: byte, field: seq<byte>, body: seq<byte>)
    ensures var p := [first] + field + body;
            |p| == 1 + |field| + |body| && p[1..] == field + body && p[1..1 + |field|] == field
            && p[1 + |field|..] == body
  {
  }

  datatype Spec = Spec(packetType: Nibble, flags: Nibble, headers: seq<EncodeHeader>)

  predicate Encodable(packet: Spec) {
    Honest(packet.headers) && Announced(packet.headers) <= MAX_VALUE
  }

  function Encoded(packets: seq<Spec>): seq<seq<byte>> {
    if packets == [] then [] else [PacketBytes(packets[0].packetType, packets[0].flags, packets[0].headers)] + Encoded(packets[1..])
  }

  /** Encode, then frame: the concatenation of any list of encoded packets is cut back into exactly those
      packets, with nothing left over. */
  lemma FramingUndoesEncoding(packets: seq<Spec>)
    requires forall i :: 0 <= i < |packets| ==> Encodable(packets[i])
    ensures Frames(Concat(Encoded(packets))) == Encoded(packets) && Tail(Concat(Encoded(packets))) == []
    ensures AllPackets(Encoded(packets)) && Separate(Concat(Encoded(packets)), 0, 0) == (Encoded(packets), 0)
  {
    AllEncodedArePackets(packets);
    hide Encoded, PacketBytes, Needed, IsPacket, Encodable, LoneByteMissed;
    FramesOfPackets(Encoded(packets), []);
    var s := Concat(Encoded(packets));
    assert s + [] == s && Encoded(packets) + [] == Encoded(packets);
    assert Frames([]) == [] && Tail([]) == [];
    SeparateIsFraming(s);
  }

  lemma {:induction false} AllEncodedArePackets(packets: seq<Spec>)
    requires forall i :: 0 <= i < |packets| ==> Encodable(packets[i])
    ensures AllPackets(Encoded(packets))
  {
    hide IsPacket, PacketBytes;
    if packets != [] {
      HonestBody(packets[0].headers);
      EncodedIsPacketExactly(packets[0].packetType, packets[0].flags, packets[0].headers);
      AllEncodedArePackets(packets[1..]);
      assert Encoded(packets)[1..] == Encoded(packets[1..]);
    }
  }
}
