/** The outbound pipeline as a function of its state: composing queued jobs, sending the buffer through a
    socket that takes any part of it, and the "sent" callbacks. */
module SendPipes {
  import opened Bytes
  import opened Packets
  import opened ReceiveMaximum

  /** A packet in the buffer whose sending is to be announced. `job` is its number among all composed
      packets, a history value the source does not have. */
  datatype Tracked = Tracked(endByte: nat, kind: PacketType, id: nat, job: nat)

  /** A callback, with the number of bytes the socket had accepted in all when it fired. */
  datatype Firing = Firing(packet: Tracked, at: nat)

  /** What the socket answers to one `send`: bytes taken, or a failure and its last error code. */
  datatype Answer = Accepted(bytes: nat) | Failure(lastError: int)

  predicate Announced(kind: PacketType) {
    kind in {PublishComplete, PublishReceived, PublishReleased, PacketType.Disconnect}
  }

  predicate IsCountedPublish(job: Job) {
    job.kind == PacketType.Publish && job.qos != 0
  }

  predicate CanSend(job: Job, send: Window) {
    !IsCountedPublish(job) || send.allowance > 0
  }

  /** Encoded packets have a fixed header of two bytes at least. */
  predicate Proper(job: Job) {
    job.encoded.Some? ==> |job.encoded.value| >= 2
  }

  predicate AllProper(jobs: seq<Job>) {
    forall i :: 0 <= i < |jobs| ==> Proper(jobs[i])
  }

  function EncodedBytes(job: Job): seq<byte> {
    if job.encoded.Some? then job.encoded.value else []
  }

  /** The byte stream of the packets composed so far. */
  function Stream(composed: seq<Job>): seq<byte> {
    if composed == [] then []
    else Stream(composed[..|composed| - 1]) + EncodedBytes(composed[|composed| - 1])
  }

  // ---------------------------------------------------------------- composing

  /** The compose loop's variables; `full` is the size of the outgoing data. */
  datatype Composing = Composing(composed: seq<Job>, delayed: seq<Job>, full: nat, ping: Option<Tracked>,
                                 tracked: seq<Tracked>, receive: Window, send: Window, failed: bool)

  function ComposeOne(job: Job, c: Composing): Composing {
    if !CanSend(job, c.send) then c.(delayed := c.delayed + [job])
    else if job.encoded.None? then c.(failed := true)
    else
      var end := c.full + |job.encoded.value|;
      var entry := Tracked(end, job.kind, job.id, |c.composed|);
      c.(composed := c.composed + [job],
         full := end,
         ping := if job.kind == PingRequest && c.ping.None? then Some(entry) else c.ping,
         tracked := if Announced(job.kind) then c.tracked + [entry] else c.tracked,
         receive := if job.kind in {PublishAck, PublishComplete} then c.receive.Give(job.id) else c.receive,
         send := if IsCountedPublish(job) then c.send.Take(job.id).1 else c.send)
  }

  function Compose(jobs: seq<Job>, c: Composing): Composing {
    if jobs == [] || c.failed then c else Compose(jobs[1..], ComposeOne(jobs[0], c))
  }

  // ---------------------------------------------------------------- sending

  datatype Progress = Running | Complete | Thrown

  /** The send loop's variables, the socket's remaining answers, what it has accepted, and the callbacks so
      far. `orderly` turns false at the first notification pass that does not keep to the front. */
  datatype Transit = Transit(buffer: seq<byte>, tracked: seq<Tracked>, script: seq<Answer>, accepted: seq<byte>,
                             fired: seq<Firing>, pings: seq<Firing>, orderly: bool, last: int, progress: Progress)

  function Min(a: int, b: int): int {
    if a <= b then a else b
  }

  /** What `sendData` returns: a failed send passes the socket's last error on, whatever its sign. */
  function SendData(script: seq<Answer>, size: nat): int {
    if size == 0 then 0
    else if script == [] then -1
    else match script[0]
      case Accepted(n) => Min(n, size)
      case Failure(e) => e
  }

  /** The bytes the socket really takes. */
  function Taken(script: seq<Answer>, size: nat): nat {
    if size == 0 || script == [] || script[0].Failure? then 0 else Min(script[0].bytes, size)
  }

  function RestOf(script: seq<Answer>, size: nat): seq<Answer> {
    if size == 0 || script == [] then script else script[1..]
  }

  /** The notification pass after a partial send, from place `k` with `erased` front entries gone: the
      vector has moved up under the loop, whose end stays where it was. Yields the positions notified. */
  function PassFrom(ms: seq<Tracked>, sent: int, k: nat, erased: nat): seq<nat>
    decreases |ms| - k
  {
    if k >= |ms| then []
    else
      var p := Min(k + erased, |ms| - 1);
      if sent >= ms[p].endByte then [p] + PassFrom(ms, sent, k + 1, erased + 1)
      else PassFrom(ms, sent, k + 1, erased)
  }

  lemma {:induction false} PassBounds(ms: seq<Tracked>, sent: int, k: nat, erased: nat)
    ensures forall i :: 0 <= i < |PassFrom(ms, sent, k, erased)| ==>
              PassFrom(ms, sent, k, erased)[i] < |ms| && sent >= ms[PassFrom(ms, sent, k, erased)[i]].endByte
    ensures k <= |ms| ==> |PassFrom(ms, sent, k, erased)| <= |ms| - k
    decreases |ms| - k
  {
    if k < |ms| {
      var p := Min(k + erased, |ms| - 1);
      PassBounds(ms, sent, k + 1, if sent >= ms[p].endByte then erased + 1 else erased);
    }
  }

  function Pass(ms: seq<Tracked>, sent: int): (positions: seq<nat>)
    ensures |positions| <= |ms| && forall i :: 0 <= i < |positions| ==> positions[i] < |ms|
  {
    PassBounds(ms, sent, 0, 0);
    PassFrom(ms, sent, 0, 0)
  }

  function Fire(ms: seq<Tracked>, positions: seq<nat>, at: nat): seq<Firing>
    requires forall i :: 0 <= i < |positions| ==> positions[i] < |ms|
  {
    seq(|positions|, i requires 0 <= i < |positions| => Firing(ms[positions[i]], at))
  }

  function FireAll(ms: seq<Tracked>, at: nat): seq<Firing> {
    seq(|ms|, i requires 0 <= i < |ms| => Firing(ms[i], at))
  }

  function FirePing(ping: Option<Tracked>, at: nat): seq<Firing> {
    if ping.Some? then [Firing(ping.value, at)] else []
  }

  /** A pass keeps to the front when it notifies the first entries, once each and in order. */
  predicate KeepsToFront(positions: seq<nat>) {
    forall i :: 0 <= i < |positions| ==> positions[i] == i
  }

  /** The transit with the socket's next answer taken in: bytes accepted and result noted. */
  function Answered(x: Transit): Transit {
    x.(script := RestOf(x.script, |x.buffer|),
       accepted := x.accepted + x.buffer[..Taken(x.script, |x.buffer|)],
       last := SendData(x.script, |x.buffer|))
  }

  /** Everything went: all callbacks fire, the buffer empties. */
  function Finish(ping: Option<Tracked>, y: Transit): Transit {
    y.(buffer := [], tracked := [], progress := Complete,
       pings := y.pings + FirePing(ping, |y.accepted|), fired := y.fired + FireAll(y.tracked, |y.accepted|))
  }

  /** A part went: callbacks only in a batch with a PINGREQ, then the part leaves the buffer. */
  function GoOn(ping: Option<Tracked>, y: Transit, result: nat): Transit {
    var z := if ping.Some? then Notify(ping.value, y, result) else y;
    if result > |y.buffer| then z.(progress := Thrown) else z.(buffer := y.buffer[result..])
  }

  function Notify(ping: Tracked, y: Transit, result: nat): Transit {
    var positions := Pass(y.tracked, result);
    y.(pings := y.pings + (if result >= ping.endByte then FirePing(Some(ping), |y.accepted|) else []),
       fired := y.fired + Fire(y.tracked, positions, |y.accepted|),
       tracked := y.tracked[|positions|..],
       orderly := y.orderly && KeepsToFront(positions))
  }

  /** One turn of the send loop; `ping` is the batch's first PINGREQ, if it has one. */
  function SendOnce(ping: Option<Tracked>, x: Transit): Transit {
    var y := Answered(x);
    if y.last < 0 then y
    else if y.last == |x.buffer| then Finish(ping, y)
    else GoOn(ping, y, y.last)
  }

  /** At most four turns, until the buffer is through. */
  function SendLoop(ping: Option<Tracked>, x: Transit, turns: nat): Transit
    decreases 4 - turns
  {
    if turns >= 4 || x.progress != Running then x else SendLoop(ping, SendOnce(ping, x), turns + 1)
  }

  // ---------------------------------------------------------------- a whole batch

  /** The pipeline: queued jobs, send buffer, tracked packets, both windows, and the history of composed
      packets, accepted bytes and callbacks. */
  datatype Pipe = Pipe(jobs: seq<Job>, buffer: seq<byte>, tracked: seq<Tracked>, receive: Window, send: Window,
                       composed: seq<Job>, accepted: seq<byte>, fired: seq<Firing>, pings: seq<Firing>, orderly: bool) {

    function Start(): Composing {
      Composing(composed, [], |buffer|, None, tracked, receive, send, false)
    }

    function Sending(c: Composing, script: seq<Answer>): Transit
      requires |c.composed| >= |composed|
    {
      Transit(buffer + Stream(c.composed[|composed|..]), c.tracked, script, accepted, fired, pings, orderly, 0, Running)
    }
  }

  datatype Outcome = Sent | EncodeError | SocketError(code: int) | Escaped

  /** `trySendBatch` outside a graceful clear. After an encode error the connection ends. */
  function TryBatch(p: Pipe, script: seq<Answer>): (r: (Outcome, Pipe, seq<Answer>)) {
    if p.jobs == [] then (Sent, p, script)
    else
      var c := Compose(p.jobs, p.Start());
      ComposeExtends(p.jobs, p.Start());
      if c.failed then (EncodeError, p.(tracked := c.tracked, receive := c.receive, send := c.send), script)
      else
        var x := SendLoop(c.ping, p.Sending(c, script), 0);
        (if x.progress == Thrown then Escaped else if x.progress == Complete || x.last >= 0 then Sent else SocketError(x.last),
         Pipe(c.delayed, x.buffer, x.tracked, c.receive, c.send, c.composed, x.accepted, x.fired, x.pings, x.orderly),
         x.script)
  }

  lemma {:induction false} ComposeExtends(jobs: seq<Job>, c: Composing)
    ensures c.composed <= Compose(jobs, c).composed && c.tracked <= Compose(jobs, c).tracked
    ensures c.delayed <= Compose(jobs, c).delayed
  {
    if jobs != [] && !c.failed {
      ComposeExtends(jobs[1..], ComposeOne(jobs[0], c));
    }
  }
}
