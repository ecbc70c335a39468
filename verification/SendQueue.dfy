/** The send queue as the client runs it: jobs, a persistent byte buffer, and a socket. */
module SendQueues {
  import opened Bytes
  import opened ByteBuffers
  import opened Packets
  import opened ReceiveMaximum
  import opened SendPipes

  const MAX_ALLOWED_PERSISTENT_SEND_BUFFER_SIZE := 1024 * 1024

  const MAX_PARTIAL_SEND_LOOPS := 3

  /** A socket that answers by a script: any list of partial sends and failures, then failures for good. */
  class Socket {
    var script: seq<Answer>
    var accepted: seq<byte>
    var lastError: int

    constructor (script: seq<Answer>)
      ensures this.script == script && accepted == []
    {
      this.script := script;
      accepted := [];
      lastError := 0;
    }

    method Send(data: seq<byte>) returns (result: int)
      requires data != []
      modifies this
      ensures accepted == old(accepted) + data[..Taken(old(script), |data|)]
      ensures script == RestOf(old(script), |data|)
      ensures (if result >= 0 then result else lastError) == SendData(old(script), |data|)
    {
      result := -1;
      if script == [] {
        lastError := -1;
        assert accepted + data[..0] == accepted;
      } else {
        var answer := script[0];
        script := script[1..];
        match answer
        case Accepted(n) =>
          result := Min(n, |data|);
          accepted := accepted + data[..result];
        case Failure(e) =>
          lastError := e;
          assert accepted + data[..0] == accepted;
      }
    }

    function GetLastError(): int
      reads this
    {
      lastError
    }
  }

  class SendQueue {
    /** Jobs in order; a job moved out of its place leaves nothing there. */
    var nextPacketComposersBatch: seq<Option<Job>>
    var sendBuffer: ByteBuffer
    var packetsMetadataInBuffer: seq<Tracked>
    var startGracefulClear: bool
    const tracker: ReceiveMaximumTracker
    const socket: Socket

    // The history of the connection: packets composed and callbacks fired.
    var composed: seq<Job>
    var fired: seq<Firing>
    var pings: seq<Firing>
    var orderly: bool

    ghost predicate Valid()
      reads this, sendBuffer
    {
      && sendBuffer.Valid()
      && (forall i :: 0 <= i < |nextPacketComposersBatch| ==>
            nextPacketComposersBatch[i].Some? && Proper(nextPacketComposersBatch[i].value))
    }

    function Jobs(): (jobs: seq<Job>)
      reads this, sendBuffer
      requires Valid()
      ensures |jobs| == |nextPacketComposersBatch| && AllProper(jobs)
    {
      seq(|nextPacketComposersBatch|, i requires 0 <= i < |nextPacketComposersBatch| && nextPacketComposersBatch[i].Some?
                                        reads this => nextPacketComposersBatch[i].value)
    }

    function State(): Pipe
      reads this, sendBuffer, sendBuffer.bytes, tracker, socket
      requires Valid()
    {
      Pipe(Jobs(), sendBuffer.Contents(), packetsMetadataInBuffer, tracker.ReceiveWindow(), tracker.SendWindow(),
           composed, socket.accepted, fired, pings, orderly)
    }

    constructor (tracker: ReceiveMaximumTracker, socket: Socket)
      ensures Valid() && this.tracker == tracker && this.socket == socket
      ensures fresh(sendBuffer) && fresh(sendBuffer.bytes) && !startGracefulClear
      ensures State() == Pipe([], [], [], tracker.ReceiveWindow(), tracker.SendWindow(), [], socket.accepted, [], [], true)
    {
      nextPacketComposersBatch := [];
      sendBuffer := new ByteBuffer(0);
      packetsMetadataInBuffer := [];
      startGracefulClear := false;
      this.tracker := tracker;
      this.socket := socket;
      composed, fired, pings, orderly := [], [], [], true;
    }

    method AddToQueue(job: Job)
      requires Valid() && Proper(job)
      modifies this`nextPacketComposersBatch
      ensures Valid() && Jobs() == old(Jobs()) + [job]
    {
      nextPacketComposersBatch := nextPacketComposersBatch + [Some(job)];
    }

    /** A graceful clear waits for the next batch; otherwise the queued jobs are cancelled at once. The
        buffer and its metadata stay. */
    method ClearQueue(graceful: bool) returns (cancelled: seq<Job>)
      requires Valid()
      modifies this`startGracefulClear, this`nextPacketComposersBatch
      ensures Valid()
      ensures graceful ==> startGracefulClear && cancelled == [] && Jobs() == old(Jobs())
      ensures !graceful ==> cancelled == old(Jobs()) && Jobs() == [] && startGracefulClear == old(startGracefulClear)
    {
      cancelled := [];
      if graceful {
        startGracefulClear := true;
      } else {
        cancelled := Jobs();
        nextPacketComposersBatch := [];
      }
    }

    /** One attempt at sending: `cancelled` lists the jobs a pending graceful clear dropped instead. */
    method TrySendBatch() returns (outcome: Outcome, cancelled: seq<Job>)
      requires Valid()
      modifies this, sendBuffer, sendBuffer.bytes, tracker, socket
      ensures startGracefulClear == old(startGracefulClear)
      ensures old(startGracefulClear) && old(Jobs()) != [] ==>
                Valid() && cancelled == old(Jobs()) && State() == old(State()).(jobs := []) && socket.script == old(socket.script)
      ensures !old(startGracefulClear) || old(Jobs()) == [] ==>
                var r := TryBatch(old(State()), old(socket.script));
                && cancelled == [] && outcome == r.0
                && (outcome != EncodeError ==> Valid() && State() == r.1 && socket.script == r.2)
                && (outcome == EncodeError ==>
                      && sendBuffer.Valid() && sendBuffer.Contents() == old(sendBuffer.Contents())
                      && packetsMetadataInBuffer == r.1.tracked && composed == r.1.composed
                      && EachInPlaceOrGone(old(Jobs()), nextPacketComposersBatch)
                      && tracker.ReceiveWindow() == r.1.receive && tracker.SendWindow() == r.1.send)
    {
      cancelled := [];
      if nextPacketComposersBatch == [] {
        return Sent, [];
      }
      if startGracefulClear {
        cancelled := Jobs();
        nextPacketComposersBatch := [];
        return Sent, cancelled;
      }
      outcome := ComposeAndSend();
    }

    method ComposeAndSend() returns (outcome: Outcome)
      requires Valid() && Jobs() != []
      modifies this`nextPacketComposersBatch, this`sendBuffer, this`packetsMetadataInBuffer, this`composed, this`fired,
               this`pings, this`orderly, sendBuffer, sendBuffer.bytes, tracker, socket
      ensures var r := TryBatch(old(State()), old(socket.script));
              && outcome == r.0
              && (outcome != EncodeError ==> Valid() && State() == r.1 && socket.script == r.2)
              && (outcome == EncodeError ==>
                    && sendBuffer.Valid() && sendBuffer.Contents() == old(sendBuffer.Contents())
                    && packetsMetadataInBuffer == r.1.tracked && composed == r.1.composed
                    && EachInPlaceOrGone(old(Jobs()), nextPacketComposersBatch)
                    && tracker.ReceiveWindow() == r.1.receive && tracker.SendWindow() == r.1.send)
    {
      ghost var p, script := State(), socket.script;
      ghost var c := Compose(p.jobs, p.Start());
      ComposeExtends(p.jobs, p.Start());
      hide Compose, SendLoop, Stream, Concat;
      var failed, ping, encodedDataQueue, full := ComposeBatch();
      if failed {
        return EncodeError;
      }
      AppendEncoded(encodedDataQueue, full);
      assert TransitNow(0, Running) == p.Sending(c, script);
      outcome := SendBuffered(ping);
    }

    /** The first loop: split the jobs into composed and delayed, and note what must be announced. */
    method ComposeBatch() returns (failed: bool, ping: Option<Tracked>, encodedDataQueue: seq<seq<byte>>, full: nat)
      requires Valid()
      modifies this`nextPacketComposersBatch, this`packetsMetadataInBuffer, this`composed, tracker
      ensures var p := old(State());
              var c := Compose(p.jobs, p.Start());
              && failed == c.failed && ping == c.ping && full == c.full
              && packetsMetadataInBuffer == c.tracked
              && tracker.ReceiveWindow() == c.receive && tracker.SendWindow() == c.send
              && |p.composed| <= |c.composed|
              && (failed ==> composed == p.composed && EachInPlaceOrGone(p.jobs, nextPacketComposersBatch))
              && (!failed ==>
                    && Valid() && Jobs() == c.delayed && composed == c.composed
                    && Concat(encodedDataQueue) == Stream(c.composed[|p.composed|..])
                    && full == |p.buffer| + |Concat(encodedDataQueue)|)
    {
      ghost var p := State();
      var delayedPackets: seq<Job> := [];
      var composedNow := composed;
      full := sendBuffer.size;
      ping := None;
      encodedDataQueue := [];
      ghost var c := p.Start();
      assert p.jobs[0..] == p.jobs && p.composed[|p.composed|..] == [];
      ghost var jobs := p.jobs;
      assert Concat(encodedDataQueue) == [] == Stream(composedNow[|p.composed|..]);
      hide Concat, Stream, Announced, IsCountedPublish, Window.Take, Window.Give;
      for i := 0 to |nextPacketComposersBatch|
        invariant |nextPacketComposersBatch| == |jobs| && AllProper(jobs) && AllProper(delayedPackets)
        invariant sendBuffer == old(sendBuffer) && sendBuffer.Valid()
        invariant forall j :: i <= j < |jobs| ==> nextPacketComposersBatch[j] == Some(jobs[j])
        invariant EachInPlaceOrGone(jobs, nextPacketComposersBatch) && composed == p.composed
        invariant Compose(jobs, p.Start()) == Compose(jobs[i..], c)
        invariant c == Composing(composedNow, delayedPackets, full, ping, packetsMetadataInBuffer,
                                 tracker.ReceiveWindow(), tracker.SendWindow(), false)
        invariant p.composed <= composedNow
        invariant Concat(encodedDataQueue) == Stream(composedNow[|p.composed|..])
        invariant full == |p.buffer| + |Concat(encodedDataQueue)|
      {
        var job := nextPacketComposersBatch[i].value;
        assert jobs[i..][0] == job && jobs[i..][1..] == jobs[i + 1..];
        if IsCountedPublish(job) && !tracker.HasSendAllowance() {
          delayedPackets := delayedPackets + [job];
          nextPacketComposersBatch := nextPacketComposersBatch[i := None];
        } else if job.encoded.None? {
          ComposeExtends(jobs, p.Start());
          return true, ping, encodedDataQueue, full;
        } else {
          OneMoreEncoded(p.composed, composedNow, job, encodedDataQueue);
          full, ping := NoteComposed(job, full, ping, |composedNow|, c);
          composedNow := composedNow + [job];
          encodedDataQueue := encodedDataQueue + [job.encoded.value];
        }
        c := ComposeOne(job, c);
      }
      composed := composedNow;
      nextPacketComposersBatch := seq(|delayedPackets|, i requires 0 <= i < |delayedPackets| => Some(delayedPackets[i]));
      return false, ping, encodedDataQueue, full;
    }

    /** Everything a composed packet changes besides the encoded data itself. */
    method NoteComposed(job: Job, full: nat, ping: Option<Tracked>, number: nat, ghost c: Composing)
      returns (newFull: nat, newPing: Option<Tracked>)
      requires CanSend(job, tracker.SendWindow()) && job.encoded.Some? && number == |c.composed|
      requires c == Composing(c.composed, c.delayed, full, ping, packetsMetadataInBuffer,
                              tracker.ReceiveWindow(), tracker.SendWindow(), false)
      modifies this`packetsMetadataInBuffer, tracker
      ensures newFull == full + |job.encoded.value|
      ensures ComposeOne(job, c) == Composing(c.composed + [job], c.delayed, newFull, newPing, packetsMetadataInBuffer,
                                              tracker.ReceiveWindow(), tracker.SendWindow(), false)
    {
      hide Window.Take, Window.Give;
      newFull := full + |job.encoded.value|;
      newPing := ping;
      var entry := Tracked(newFull, job.kind, job.id, number);
      if job.kind == PingRequest {
        if ping.None? {
          newPing := Some(entry);
        }
      }
      UpdateWindows(job);
      if Announced(job.kind) {
        packetsMetadataInBuffer := packetsMetadataInBuffer + [entry];
      }
    }

    method UpdateWindows(job: Job)
      modifies tracker
      ensures tracker.ReceiveWindow() == if job.kind in {PublishAck, PublishComplete} then old(tracker.ReceiveWindow()).Give(job.id)
                                         else old(tracker.ReceiveWindow())
      ensures tracker.SendWindow() == if IsCountedPublish(job) then old(tracker.SendWindow()).Take(job.id).1
                                      else old(tracker.SendWindow())
    {
      if job.kind == PublishAck {
        tracker.IncrementReceiveAllowance(job.id);
      } else if job.kind == PublishComplete {
        tracker.IncrementReceiveAllowance(job.id);
      } else if job.kind == PacketType.Publish {
        if job.qos != 0 {
          var unchecked := tracker.DecrementSendAllowance(job.id);
        }
      }
    }

    /** The buffer grows when it must, then takes all encoded packets. */
    method AppendEncoded(encodedDataQueue: seq<seq<byte>>, full: nat)
      requires Valid() && full == sendBuffer.size + |Concat(encodedDataQueue)|
      modifies this`sendBuffer, sendBuffer, sendBuffer.bytes
      ensures Valid() && Jobs() == old(Jobs())
      ensures (sendBuffer == old(sendBuffer) && sendBuffer.bytes == old(sendBuffer.bytes))
              || (fresh(sendBuffer) && fresh(sendBuffer.bytes))
      ensures sendBuffer.Contents() == old(sendBuffer.Contents()) + Concat(encodedDataQueue)
    {
      hide Concat;
      if full > sendBuffer.Capacity() {
        var tempBuffer := new ByteBuffer(full);
        var ok := tempBuffer.Append(sendBuffer.bytes[..sendBuffer.size]);
        sendBuffer := tempBuffer;
      }
      AppendAll(sendBuffer, encodedDataQueue);
    }

    static method AppendAll(buffer: ByteBuffer, parts: seq<seq<byte>>)
      requires buffer.Valid() && buffer.size + |Concat(parts)| <= buffer.Capacity()
      modifies buffer`size, buffer.bytes
      ensures buffer.Valid() && buffer.Contents() == old(buffer.Contents()) + Concat(parts)
    {
      ghost var before := buffer.Contents();
      assert before + Concat(parts[..0]) == before;
      hide Concat;
      for i := 0 to |parts|
        invariant buffer.Valid() && buffer.Contents() == before + Concat(parts[..i])
      {
        ConcatParts(parts, i);
        var ok := buffer.Append(parts[i]);
        assert before + Concat(parts[..i]) + parts[i] == before + (Concat(parts[..i]) + parts[i]);
      }
      assert parts[..|parts|] == parts;
    }

    function TransitNow(last: int, progress: Progress): Transit
      reads this, sendBuffer, sendBuffer.bytes, socket
      requires sendBuffer.Valid()
    {
      Transit(sendBuffer.Contents(), packetsMetadataInBuffer, socket.script, socket.accepted, fired, pings, orderly, last, progress)
    }

    /** The second loop: at most four sends. */
    method SendBuffered(ping: Option<Tracked>) returns (outcome: Outcome)
      requires Valid()
      modifies this`sendBuffer, this`packetsMetadataInBuffer, this`fired, this`pings, this`orderly,
               sendBuffer, sendBuffer.bytes, socket
      ensures Valid() && Jobs() == old(Jobs())
      ensures var x := SendLoop(ping, old(TransitNow(0, Running)), 0);
              && TransitNow(x.last, x.progress) == x
              && outcome == if x.progress == Thrown then Escaped else if x.progress == Complete || x.last >= 0 then Sent else SocketError(x.last)
    {
      hide SendOnce;
      var partialSendLoopCount := 0;
      var sendResult, progress := 0, Running;
      ghost var whole := SendLoop(ping, TransitNow(0, Running), 0);
      while partialSendLoopCount <= MAX_PARTIAL_SEND_LOOPS && progress == Running
        invariant Valid() && nextPacketComposersBatch == old(nextPacketComposersBatch)
        invariant (sendBuffer == old(sendBuffer) && sendBuffer.bytes == old(sendBuffer.bytes))
                  || (fresh(sendBuffer) && fresh(sendBuffer.bytes))
        invariant 0 <= partialSendLoopCount <= 4
        invariant whole == SendLoop(ping, TransitNow(sendResult, progress), partialSendLoopCount)
        decreases 4 - partialSendLoopCount
      {
        sendResult, progress := SendTurn(ping, sendResult);
        partialSendLoopCount := partialSendLoopCount + 1;
      }
      if progress == Thrown {
        return Escaped;
      }
      if progress == Complete || sendResult >= 0 {
        return Sent;
      }
      return SocketError(sendResult);
    }

    /** One turn: send what is in the buffer, announce what went, take it out. */
    method SendTurn(ping: Option<Tracked>, ghost last: int) returns (sendResult: int, progress: Progress)
      requires Valid()
      modifies this`sendBuffer, this`packetsMetadataInBuffer, this`fired, this`pings, this`orderly,
               sendBuffer, sendBuffer.bytes, socket
      ensures Valid() && nextPacketComposersBatch == old(nextPacketComposersBatch)
      ensures (sendBuffer == old(sendBuffer) && sendBuffer.bytes == old(sendBuffer.bytes))
              || (fresh(sendBuffer) && fresh(sendBuffer.bytes))
      ensures TransitNow(sendResult, progress) == SendOnce(ping, old(TransitNow(last, Running)))
    {
      hide Pass, KeepsToFront, FireAll, Fire, FirePing, SendData, Taken, RestOf;
      progress := Running;
      sendResult := SendBuffer();
      if sendResult < 0 {
        return;
      }
      if sendResult == sendBuffer.size {
        pings := pings + FirePing(ping, |socket.accepted|);
        fired := fired + FireAll(packetsMetadataInBuffer, |socket.accepted|);
        packetsMetadataInBuffer := [];
        if sendBuffer.Capacity() > MAX_ALLOWED_PERSISTENT_SEND_BUFFER_SIZE {
          sendBuffer := new ByteBuffer(0);
        } else {
          var ok := sendBuffer.RemoveFromBeginning(sendResult);
        }
        progress := Complete;
      } else {
        if ping.Some? {
          if sendResult >= ping.value.endByte {
            pings := pings + FirePing(ping, |socket.accepted|);
          }
          NotifyCovered(sendResult);
        }
        var ok := sendBuffer.RemoveFromBeginning(sendResult);
        if !ok {
          progress := Thrown;
        }
      }
    }

    method SendBuffer() returns (sendResult: int)
      requires Valid()
      modifies socket
      ensures sendResult == SendData(old(socket.script), sendBuffer.size)
      ensures socket.script == RestOf(old(socket.script), sendBuffer.size)
      ensures socket.accepted == old(socket.accepted) + sendBuffer.Contents()[..Taken(old(socket.script), sendBuffer.size)]
    {
      if sendBuffer.size > 0 {
        sendResult := socket.Send(sendBuffer.bytes[..sendBuffer.size]);
        if sendResult >= 0 {
          return;
        }
        return socket.GetLastError();
      }
      assert socket.accepted + [] == socket.accepted;
      return 0;
    }

    /** The notification loop. The vector's storage keeps its length while erasing the front moves the
        elements up, and the loop's end was fixed before. */
    method NotifyCovered(sendResult: int)
      modifies this`packetsMetadataInBuffer, this`fired, this`orderly
      ensures var positions := Pass(old(packetsMetadataInBuffer), sendResult);
              && fired == old(fired) + Fire(old(packetsMetadataInBuffer), positions, |socket.accepted|)
              && packetsMetadataInBuffer == old(packetsMetadataInBuffer)[|positions|..]
              && orderly == (old(orderly) && KeepsToFront(positions))
    {
      var ms, at := packetsMetadataInBuffer, |socket.accepted|;
      var storage, size := ms, |ms|;
      var positions: seq<nat> := [];
      ghost var before := fired;
      assert Shifted(ms, storage, 0) && Notified(ms, sendResult, 0, [], before, fired, at);
      hide Fire, KeepsToFront, Shifted, Pass, PassFrom, FrontErased, Notified;
      for k := 0 to |ms|
        invariant size == |ms| - |positions| && |positions| <= k && |storage| == |ms|
        invariant Shifted(ms, storage, |positions|) && Notified(ms, sendResult, k, positions, before, fired, at)
        invariant orderly == old(orderly)
      {
        ShiftedAt(ms, storage, |positions|, k);
        NotifiedNext(ms, sendResult, k, positions, before, fired, at);
        if sendResult >= storage[k].endByte {
          var p: nat := Min(k + |positions|, |ms| - 1);
          OneMoreErased(ms, storage, |positions|);
          fired := fired + [Firing(storage[k], at)];
          storage := FrontErased(storage, size);
          size := size - 1;
          positions := positions + [p];
        }
      }
      ShiftedFront(ms, storage, |positions|);
      NotifiedAll(ms, sendResult, positions, before, fired, at);
      packetsMetadataInBuffer := storage[..size];
      orderly := orderly && KeepsToFront(positions);
    }
  }

  /** After an encode error every job is still in its place, except those held back before it, which are gone. */
  predicate EachInPlaceOrGone(jobs: seq<Job>, batch: seq<Option<Job>>) {
    |batch| == |jobs| && forall i :: 0 <= i < |jobs| ==> batch[i] == Some(jobs[i]) || batch[i].None?
  }

  /** Erasing the first of a vector's `size` elements moves the others up, in storage that stays as long. */
  function FrontErased(storage: seq<Tracked>, size: nat): (r: seq<Tracked>)
    requires 0 < size <= |storage|
    ensures |r| == |storage|
  {
    storage[1..size] + storage[size - 1..]
  }

  /** What the vector's storage looks like after `erased` elements were taken off the front. */
  ghost predicate Shifted(ms: seq<Tracked>, storage: seq<Tracked>, erased: nat) {
    |storage| == |ms| && forall i :: 0 <= i < |ms| ==> storage[i] == ms[Min(i + erased, |ms| - 1)]
  }

  lemma ShiftedAt(ms: seq<Tracked>, storage: seq<Tracked>, erased: nat, k: nat)
    requires k < |ms| && Shifted(ms, storage, erased)
    ensures |storage| == |ms| && storage[k] == ms[Min(k + erased, |ms| - 1)]
  {
  }

  /** The first `k` turns of the pass have notified these positions. */
  ghost predicate Notified(ms: seq<Tracked>, sent: int, k: nat, positions: seq<nat>, before: seq<Firing>, fired: seq<Firing>, at: nat) {
    && (forall i :: 0 <= i < |positions| ==> positions[i] < |ms|)
    && Pass(ms, sent) == positions + PassFrom(ms, sent, k, |positions|)
    && fired == before + Fire(ms, positions, at)
  }

  lemma NotifiedNext(ms: seq<Tracked>, sent: int, k: nat, positions: seq<nat>, before: seq<Firing>, fired: seq<Firing>, at: nat)
    requires k < |ms| && Notified(ms, sent, k, positions, before, fired, at)
    ensures var p: nat := Min(k + |positions|, |ms| - 1);
            if sent >= ms[p].endByte then Notified(ms, sent, k + 1, positions + [p], before, fired + [Firing(ms[p], at)], at)
            else Notified(ms, sent, k + 1, positions, before, fired, at)
  {
    var p: nat := Min(k + |positions|, |ms| - 1);
    if sent >= ms[p].endByte {
      OneMoreFired(ms, positions, p, at, before, PassFrom(ms, sent, k + 1, |positions| + 1));
    }
    hide Pass, Fire;
  }

  lemma NotifiedAll(ms: seq<Tracked>, sent: int, positions: seq<nat>, before: seq<Firing>, fired: seq<Firing>, at: nat)
    requires Notified(ms, sent, |ms|, positions, before, fired, at)
    ensures Pass(ms, sent) == positions && fired == before + Fire(ms, positions, at)
  {
    assert positions + [] == positions;
  }

  lemma ShiftedFront(ms: seq<Tracked>, storage: seq<Tracked>, erased: nat)
    requires erased <= |ms| && Shifted(ms, storage, erased)
    ensures |storage| == |ms| && storage[..|ms| - erased] == ms[erased..]
  {
  }

  lemma OneMoreErased(ms: seq<Tracked>, storage: seq<Tracked>, erased: nat)
    requires erased < |ms| && Shifted(ms, storage, erased)
    ensures Shifted(ms, FrontErased(storage, |ms| - erased), erased + 1)
  {
  }

  lemma OneMoreFired(ms: seq<Tracked>, positions: seq<nat>, p: nat, at: nat, before: seq<Firing>, later: seq<nat>)
    requires p < |ms| && forall i :: 0 <= i < |positions| ==> positions[i] < |ms|
    ensures positions + ([p] + later) == (positions + [p]) + later
    ensures before + Fire(ms, positions + [p], at) == before + Fire(ms, positions, at) + [Firing(ms[p], at)]
  {
    assert Fire(ms, positions + [p], at) == Fire(ms, positions, at) + [Firing(ms[p], at)];
  }

  lemma OneMoreEncoded(before: seq<Job>, composed: seq<Job>, job: Job, parts: seq<seq<byte>>)
    requires before <= composed && job.encoded.Some?
    requires Concat(parts) == Stream(composed[|before|..])
    ensures Concat(parts + [job.encoded.value]) == Stream((composed + [job])[|before|..])
    ensures |Concat(parts + [job.encoded.value])| == |Concat(parts)| + |job.encoded.value|
  {
    ConcatSnoc(parts, job.encoded.value);
    assert (composed + [job])[|before|..] == composed[|before|..] + [job];
    assert (composed[|before|..] + [job])[..|composed| - |before|] == composed[|before|..];
  }

  lemma ConcatParts(parts: seq<seq<byte>>, i: nat)
    requires i < |parts|
    ensures Concat(parts[..i + 1]) == Concat(parts[..i]) + parts[i]
    ensures |Concat(parts[..i + 1])| <= |Concat(parts)|
  {
    ConcatSnoc(parts[..i], parts[i]);
    assert parts[..i] + [parts[i]] == parts[..i + 1];
    ConcatAppend(parts[..i + 1], parts[i + 1..]);
    assert parts[..i + 1] + parts[i + 1..] == parts;
  }
}
