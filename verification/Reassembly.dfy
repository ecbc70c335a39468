/** Putting packets together again from the chunks the socket hands over. */
module Reassembly {
  import opened Bytes
  import opened ByteBuffers
  import opened Framing
  import opened ReceiveQueues
  import VariableByteIntegers

  /** What is kept for the next chunk: the bytes reported left over, but the old bytes when none are. */
  function Kept(held: seq<byte>, chunk: seq<byte>): seq<byte> {
    var full := held + chunk;
    var leftOver := if LoneByteMissed(full, true) then 0 else |Tail(full)|;
    if leftOver > 0 then full[|full| - leftOver..] else held
  }

  class SocketReceiver {
    var leftOverBuffer: ByteBuffer
    const receiveQueue: ReceiveQueue

    ghost predicate Valid()
      reads this, leftOverBuffer, receiveQueue
    {
      leftOverBuffer.Valid() && receiveQueue.Valid()
    }

    constructor (receiveQueue: ReceiveQueue)
      requires receiveQueue.Valid()
      ensures Valid() && this.receiveQueue == receiveQueue && fresh(leftOverBuffer)
      ensures leftOverBuffer.Contents() == []
    {
      leftOverBuffer := new ByteBuffer(0);
      this.receiveQueue := receiveQueue;
    }

    method HandleSocketDataReceivedEvent(buffer: ByteBuffer)
      requires Valid() && buffer.Valid()
      modifies this`leftOverBuffer, receiveQueue`inQueueData
      ensures Valid()
      ensures receiveQueue.inQueueData == old(receiveQueue.inQueueData)
                                        + Frames(old(leftOverBuffer.Contents()) + buffer.Contents())
      ensures leftOverBuffer.Contents() == Kept(old(leftOverBuffer.Contents()), buffer.Contents())
    {
      hide Frames, Tail, LoneByteMissed, Separate;
      ghost var full := leftOverBuffer.Contents() + buffer.Contents();
      var fullBuffer := Join(leftOverBuffer, buffer);
      SeparateIsFraming(full);
      var separated, packets, leftOver := SeparateMqttPacketByteBuffers(fullBuffer);
      assert packets == Frames(full) && fullBuffer.Contents() == full;
      assert forall i :: 0 <= i < |packets| ==> |packets[i]| > 0 by {
        forall i | 0 <= i < |packets| ensures |packets[i]| > 0 { FramesAreWhole(full, i); }
      }
      if separated {
        QueuePackets(packets);
      }
      if leftOver > 0 {
        leftOverBuffer := Suffix(fullBuffer, leftOver);
      }
    }

    method Join(first: ByteBuffer, second: ByteBuffer) returns (joined: ByteBuffer)
      requires first.Valid() && second.Valid()
      ensures fresh(joined) && joined.Valid() && joined.readCursor == 0
      ensures joined.Contents() == first.Contents() + second.Contents()
    {
      joined := new ByteBuffer(second.size + first.size);
      var ok := joined.Append(first.bytes[..first.size]);
      ok := joined.Append(second.bytes[..second.size]);
    }

    method Suffix(buffer: ByteBuffer, count: nat) returns (suffix: ByteBuffer)
      requires buffer.Valid() && count <= buffer.size
      ensures fresh(suffix) && suffix.Valid()
      ensures suffix.Contents() == buffer.Contents()[buffer.size - count..]
    {
      suffix := new ByteBuffer(count);
      var ok := suffix.Append(buffer.bytes[buffer.size - count..buffer.size]);
    }

    method QueuePackets(packets: seq<seq<byte>>)
      requires receiveQueue.Valid() && forall i :: 0 <= i < |packets| ==> |packets[i]| > 0
      modifies receiveQueue`inQueueData
      ensures receiveQueue.Valid() && receiveQueue.inQueueData == old(receiveQueue.inQueueData) + packets
    {
      for i := 0 to |packets|
        invariant receiveQueue.Valid()
        invariant receiveQueue.inQueueData == old(receiveQueue.inQueueData) + packets[..i]
      {
        receiveQueue.AddToQueue(packets[i]);
      }
      assert packets[..|packets|] == packets;
    }
  }

  /** The guard under which one call keeps exactly the unfinished tail: either there is a tail and it is
      reported, or what was held is what should be kept (nothing held when nothing is left over). */
  predicate KeepsTail(held: seq<byte>, chunk: seq<byte>) {
    var full := held + chunk;
    && (Tail(full) == [] ==> held == [])
    && (LoneByteMissed(full, true) ==> held == Tail(full))
  }

  lemma {:induction false} LoneByteIsTail(s: seq<byte>, bodyless: bool)
    requires LoneByteMissed(s, bodyless)
    ensures |Tail(s)| == 1
    decreases |s|
  {
    if First(s).Some? {
      LoneByteIsTail(s[First(s).value..], First(s).value == 1 + FieldSize(s));
    }
  }

  lemma {:induction false} TailIsSuffix(s: seq<byte>)
    ensures s[|s| - |Tail(s)|..] == Tail(s)
  {
    FramesThenTail(s);
    assert (Concat(Frames(s)) + Tail(s))[|Concat(Frames(s))|..] == Tail(s);
  }

  /** One call keeps exactly the unfinished tail if and only if the guard holds. */
  lemma KeptIsTailExactly(held: seq<byte>, chunk: seq<byte>)
    ensures Kept(held, chunk) == Tail(held + chunk) <==> KeepsTail(held, chunk)
  {
    TailIsSuffix(held + chunk);
    if LoneByteMissed(held + chunk, true) {
      LoneByteIsTail(held + chunk, true);
    }
  }

  /** The client fed a list of chunks: packets queued so far, and bytes held. */
  function Fed(chunks: seq<seq<byte>>): (seq<seq<byte>>, seq<byte>) {
    if chunks == [] then ([], [])
    else
      var (queued, held) := Fed(chunks[..|chunks| - 1]);
      var chunk := chunks[|chunks| - 1];
      (queued + Frames(held + chunk), Kept(held, chunk))
  }

  /** The same with the unfinished tail kept after every chunk, as intended. */
  function FedExactly(chunks: seq<seq<byte>>): (seq<seq<byte>>, seq<byte>) {
    if chunks == [] then ([], [])
    else
      var (queued, held) := FedExactly(chunks[..|chunks| - 1]);
      var chunk := chunks[|chunks| - 1];
      (queued + Frames(held + chunk), Tail(held + chunk))
  }

  lemma ConcatLast(chunks: seq<seq<byte>>)
    requires chunks != []
    ensures Concat(chunks) == Concat(chunks[..|chunks| - 1]) + chunks[|chunks| - 1]
  {
    ConcatSnoc(chunks[..|chunks| - 1], chunks[|chunks| - 1]);
    assert chunks[..|chunks| - 1] + [chunks[|chunks| - 1]] == chunks;
  }

  /** Reassembly ignores chunking: however the stream is split, keeping the tail yields the packets
      and the tail of the stream framed at once. */
  lemma {:induction false} ChunkingIsIrrelevant(chunks: seq<seq<byte>>)
    ensures FedExactly(chunks) == (Frames(Concat(chunks)), Tail(Concat(chunks)))
  {
    hide Frames, Tail, Concat;
    if chunks == [] {
      assert Concat([]) == [] by { EmptyStream(); }
      EmptyStream();
    } else {
      ChunkingIsIrrelevant(chunks[..|chunks| - 1]);
      ConcatLast(chunks);
      FramesOfSplit(Concat(chunks[..|chunks| - 1]), chunks[|chunks| - 1]);
    }
  }

  lemma EmptyStream()
    ensures Concat([]) == [] && Frames([]) == [] && Tail([]) == []
  {
  }

  /** Every call of a whole run meets the guard. */
  predicate WellSplit(chunks: seq<seq<byte>>) {
    chunks == []
    || (var before := chunks[..|chunks| - 1];
        WellSplit(before) && KeepsTail(Tail(Concat(before)), chunks[|chunks| - 1]))
  }

  /** After every call of a whole run the client holds exactly the unfinished tail. */
  predicate TailsKept(chunks: seq<seq<byte>>) {
    chunks == []
    || (TailsKept(chunks[..|chunks| - 1]) && Fed(chunks).1 == Tail(Concat(chunks)))
  }

  /** The client's own bookkeeping is right after every chunk if and only if every call meets the
      guard; and then the packets queued are those of the whole stream. */
  lemma {:induction false} ClientReassembles(chunks: seq<seq<byte>>)
    ensures TailsKept(chunks) <==> WellSplit(chunks)
    ensures WellSplit(chunks) ==> Fed(chunks) == (Frames(Concat(chunks)), Tail(Concat(chunks)))
  {
    hide Frames, Tail, Concat, KeepsTail, Kept;
    EmptyStream();
    if chunks != [] {
      var before, chunk := chunks[..|chunks| - 1], chunks[|chunks| - 1];
      ClientReassembles(before);
      ConcatLast(chunks);
      FramesOfSplit(Concat(before), chunk);
      KeptIsTailExactly(Tail(Concat(before)), chunk);
    }
  }

  /** The whole family that goes wrong: once a packet cut into `a` and `b` is complete, the client still
      holds `a`, and frames the next chunk `c` as if `a` came before it. */
  lemma CompletedPacketLeavesFirstPart(a: seq<byte>, b: seq<byte>, c: seq<byte>)
    requires a != [] && Frames(a) == [] && Tail(a) == a && !LoneByteMissed(a, true)
    requires Tail(a + b) == [] && !LoneByteMissed(a + b, true)
    ensures Fed([a, b, c]).0 == Frames(a + b) + Frames(a + c)
    ensures Fed([a, b]).1 == a != Tail(Concat([a, b]))
  {
    hide *;
    HeldAfterCompletion(a, b);
    ConcatPair(a, b);
    FedSnoc([a, b], c);
    assert [a, b] + [c] == [a, b, c];
  }

  lemma HeldAfterCompletion(a: seq<byte>, b: seq<byte>)
    requires a != [] && Frames(a) == [] && Tail(a) == a && !LoneByteMissed(a, true)
    requires Tail(a + b) == [] && !LoneByteMissed(a + b, true)
    ensures Fed([a, b]) == (Frames(a + b), a)
  {
    hide *;
    assert [] + a == a && [] + Frames(a + b) == Frames(a + b);
    KeptCases([], a);
    KeptCases(a, b);
    FedTwo(a, b);
  }

  lemma KeptCases(held: seq<byte>, chunk: seq<byte>)
    ensures Tail(held + chunk) == [] ==> Kept(held, chunk) == held
    ensures Tail(held + chunk) == held + chunk != [] && !LoneByteMissed(held + chunk, true) ==>
              Kept(held, chunk) == held + chunk
  {
    hide Tail, LoneByteMissed;
  }

  lemma FedTwo(a: seq<byte>, b: seq<byte>)
    ensures Fed([a]) == (Frames(a), Kept([], a))
    ensures Fed([a, b]) == (Frames(a) + Frames(Kept([], a) + b), Kept(Kept([], a), b))
  {
    assert Fed([]) == ([], []);
    hide Frames, Kept, Fed;
    FedSnoc([], a);
    FedSnoc([a], b);
    assert [] + [a] == [a] && [a] + [b] == [a, b] && [] + a == a && [] + Frames(a) == Frames(a);
  }

  const PUBACK_START: seq<byte> := [0x40, 0x02]
  const PUBACK_END: seq<byte> := [0x00, 0x01]
  const PINGRESP: seq<byte> := [0xD0, 0x00]

  /** An instance: a PUBACK completed by its second chunk leaves its first half behind, so that the
      PINGRESP after it is swallowed as the body of a second PUBACK. */
  lemma StaleLeftoverCounterexample()
    ensures Frames(Concat([PUBACK_START, PUBACK_END, PINGRESP])) == [PUBACK_START + PUBACK_END, PINGRESP]
    ensures Fed([PUBACK_START, PUBACK_END, PINGRESP]).0 == [PUBACK_START + PUBACK_END, PUBACK_START + PINGRESP]
  {
    HalfAPacket();
    PubackWith(PUBACK_END, PINGRESP);
    PubackThenNothing(PUBACK_END);
    PubackThenNothing(PINGRESP);
    PingOnly();
    StaleInstance(PUBACK_START, PUBACK_END, PINGRESP);
  }

  lemma PubackThenNothing(body: seq<byte>)
    requires |body| == 2
    ensures Frames(PUBACK_START + body) == [PUBACK_START + body] && Tail(PUBACK_START + body) == []
    ensures !LoneByteMissed(PUBACK_START + body, true)
  {
    PubackWith(body, []);
    EmptyStream();
    assert PUBACK_START + body + [] == PUBACK_START + body;
  }

  lemma StaleInstance(a: seq<byte>, b: seq<byte>, c: seq<byte>)
    requires a != [] && Frames(a) == [] && Tail(a) == a && !LoneByteMissed(a, true)
    requires Frames(a + b + c) == [a + b] + Frames(c) && Frames(c) == [c]
    requires Frames(a + b) == [a + b] && Tail(a + b) == [] && !LoneByteMissed(a + b, true)
    requires Frames(a + c) == [a + c]
    ensures Frames(Concat([a, b, c])) == [a + b, c] && Fed([a, b, c]).0 == [a + b, a + c]
  {
    hide *;
    ConcatTriple(a, b, c);
    CompletedPacketLeavesFirstPart(a, b, c);
  }

  lemma ConcatTriple(a: seq<byte>, b: seq<byte>, c: seq<byte>)
    ensures Concat([a, b, c]) == a + b + c
  {
    ConcatPair(b, c);
    assert [a, b, c][1..] == [b, c];
    assert a + (b + c) == a + b + c;
  }

  lemma ConcatPair(a: seq<byte>, b: seq<byte>)
    ensures Concat([a, b]) == a + b
  {
    assert [a, b][1..] == [b] && [b][1..] == [] && Concat([b]) == b;
  }

  lemma PubackWith(body: seq<byte>, rest: seq<byte>)
    requires |body| == 2
    ensures Frames(PUBACK_START + body + rest) == [PUBACK_START + body] + Frames(rest)
    ensures Tail(PUBACK_START + body + rest) == Tail(rest)
    ensures rest == [] ==> !LoneByteMissed(PUBACK_START + body + rest, true)
  {
    SmallPacket(0x40, body, rest);
    assert [0x40] + [|body|] + body == PUBACK_START + body;
  }

  lemma PingOnly()
    ensures Frames(PINGRESP) == [PINGRESP] && Tail(PINGRESP) == []
  {
    SmallPacket(0xD0, [], []);
    EmptyStream();
    assert [0xD0] + [0] + [] == PINGRESP == PINGRESP + [];
  }

  lemma FedSnoc(chunks: seq<seq<byte>>, chunk: seq<byte>)
    ensures Fed(chunks + [chunk]) == (Fed(chunks).0 + Frames(Fed(chunks).1 + chunk), Kept(Fed(chunks).1, chunk))
  {
    assert (chunks + [chunk])[..|chunks|] == chunks;
  }

  lemma HalfAPacket()
    ensures Frames(PUBACK_START) == [] && Tail(PUBACK_START) == PUBACK_START && !LoneByteMissed(PUBACK_START, true)
  {
    var a := PUBACK_START;
    assert a[1..] == [0x02] && a[1..2] == [0x02] && VariableByteIntegers.Number([0x02]) == 2;
    assert Needed(a) == Some(4);
  }

  lemma SmallPacket(first: byte, body: seq<byte>, rest: seq<byte>)
    requires |body| < 128
    ensures var p := [first] + [|body|] + body;
            && IsPacket(p)
            && Frames(p + rest) == [p] + Frames(rest) && Tail(p + rest) == Tail(rest)
            && (rest == [] ==> !LoneByteMissed(p + rest, true))
  {
    var p := [first] + [|body|] + body;
    assert p[1..][0] == |body| && p[1..2] == [|body|];
    assert VariableByteIntegers.Number([|body|]) == |body|;
    FramesCons(p, rest);
    EmptyStream();
  }

  /** A first byte arriving on its own is dropped, and with it the packet it starts. */
  lemma LoneByteCounterexample()
    ensures var chunks := [[0xD0], [0x00]];
            Frames(Concat(chunks)) == [PINGRESP] && Fed(chunks) == ([], [])
  {
    var a: seq<byte>, b: seq<byte> := [0xD0], [0x00];
    PingOnly();
    OneByte(0xD0);
    OneByte(0x00);
    ConcatPair(a, b);
    assert [] + a == a && [] + b == b && a + b == PINGRESP;
    assert Kept([], a) == [] && Kept([], b) == [];
    hide Frames, Tail, LoneByteMissed, Kept, Fed, Concat;
    FedTwo(a, b);
  }

  lemma OneByte(b: byte)
    ensures Frames([b]) == [] && Tail([b]) == [b] && LoneByteMissed([b], true)
  {
  }
}
