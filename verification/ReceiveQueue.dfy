/** Dispatching received packets to their handlers, one batch a tick. */
module ReceiveQueues {
  import opened Bytes
  import opened Packets
  import opened ReceiveMaximum

  /** The progress of a batch: how it ends, what the handlers got, both windows, whether a handler cleared the queue. */
  datatype Batch = Batch(code: DecodeErrorCode, delivered: seq<Inbound>, receive: Window, send: Window, cleared: bool)

  predicate Supported(t: PacketType) {
    t in {ConnectAck, PacketType.Publish, PublishAck, PublishComplete, PublishReceived, PublishReleased,
          SubscribeAck, UnsubscribeAck, PingResponse, PacketType.Disconnect}
  }

  /** Unsupported types are a protocol error; the others go through their packet's decoder. */
  function Classify(decode: seq<byte> -> Decoded, data: seq<byte>): Decoded
    requires |data| > 0
  {
    if Supported(CheckPacketType(data)) then decode(data) else Failed(ProtocolError)
  }

  /** The windows after a decoded packet, or nothing when the packet exceeds the Receive Maximum. */
  function Account(p: Inbound, receive: Window, send: Window): Option<(Window, Window)> {
    match p
    case Pub(qos, id, _, _) =>
      if qos == 0 then Some((receive, send))
      else if receive.Take(id).0 then Some((receive.Take(id).1, send))
      else None
    case PubAck(id) => Some((receive, send.Give(id)))
    case PubComp(id) => Some((receive, send.Give(id)))
    case PubRec(id, failed) => Some((receive, if failed then send.Give(id) else send))
    case _ => Some((receive, send))
  }

  /** One turn of the loop: the batch after one buffer, and whether the loop goes on. */
  function Turn(decode: seq<byte> -> Decoded, clears: nat -> bool, registered: bool, data: seq<byte>, b: Batch): (Batch, bool)
    requires |data| > 0
  {
    match Classify(decode, data)
    case Failed(code) => (b.(code := code), false)
    case Decoded(p) =>
      match Account(p, b.receive, b.send)
      case None => (b.(code := ReceiveMaximumExceeded), false)
      case Some(ws) =>
        var b' := b.(receive := ws.0, send := ws.1);
        if !registered then (b', true)
        else (b'.(delivered := b.delivered + [p], cleared := clears(|b.delivered|)), !clears(|b.delivered|))
  }

  predicate AllNonEmpty(queue: seq<seq<byte>>) {
    forall i :: 0 <= i < |queue| ==> |queue[i]| > 0
  }

  function Dispatch(decode: seq<byte> -> Decoded, clears: nat -> bool, registered: bool, queue: seq<seq<byte>>, b: Batch): Batch
    requires AllNonEmpty(queue)
  {
    if queue == [] then b
    else
      var (b', more) := Turn(decode, clears, registered, queue[0], b);
      if more then Dispatch(decode, clears, registered, queue[1..], b') else b'
  }

  class ReceiveQueue {
    var inQueueData: seq<seq<byte>>
    var inProgressData: seq<seq<byte>>
    var registered: bool
    const tracker: ReceiveMaximumTracker

    ghost predicate Valid()
      reads this
    {
      AllNonEmpty(inQueueData) && inProgressData == []
    }

    constructor (tracker: ReceiveMaximumTracker)
      ensures Valid() && inQueueData == [] && !registered && this.tracker == tracker
    {
      inQueueData, inProgressData, registered := [], [], false;
      this.tracker := tracker;
    }

    method AddToQueue(byteBuffer: seq<byte>)
      requires Valid() && |byteBuffer| > 0
      modifies this`inQueueData
      ensures Valid() && inQueueData == old(inQueueData) + [byteBuffer]
    {
      inQueueData := inQueueData + [byteBuffer];
    }

    method Clear()
      modifies this`inQueueData, this`inProgressData, this`registered
      ensures Valid() && inQueueData == [] && !registered
    {
      inQueueData, inProgressData, registered := [], [], false;
    }

    /** `clears(k)` says whether the handler of the k-th packet delivered in this batch clears the queue. */
    method ReceiveNextBatch(decode: seq<byte> -> Decoded, clears: nat -> bool)
      returns (code: DecodeErrorCode, delivered: seq<Inbound>)
      requires Valid()
      modifies this, tracker
      ensures Valid() && inQueueData == []
      ensures var b := Dispatch(decode, clears, old(registered), old(inQueueData),
                                Batch(NoError, [], old(tracker.ReceiveWindow()), old(tracker.SendWindow()), false));
              && (code, delivered) == (b.code, b.delivered)
              && tracker.ReceiveWindow() == b.receive && tracker.SendWindow() == b.send
              && registered == (old(registered) && !b.cleared)
    {
      hide Supported, CheckPacketType;
      code, delivered := NoError, [];
      if inQueueData == [] {
        return;
      }
      ghost var queue, live := inQueueData, registered;
      inQueueData, inProgressData := inProgressData, inQueueData;
      ghost var b := Batch(NoError, [], tracker.ReceiveWindow(), tracker.SendWindow(), false);
      ghost var whole := Dispatch(decode, clears, live, queue, b);
      while inProgressData != []
        invariant AllNonEmpty(inProgressData) && inQueueData == []
        invariant code == NoError == b.code && delivered == b.delivered
        invariant tracker.ReceiveWindow() == b.receive && tracker.SendWindow() == b.send
        invariant registered == (live && !b.cleared)
        invariant b.cleared ==> inProgressData == []
        invariant whole == Dispatch(decode, clears, live, inProgressData, b)
        decreases |inProgressData|
      {
        ghost var turn := Turn(decode, clears, live, inProgressData[0], b);
        var c := Classify(decode, inProgressData[0]);
        if c.Failed? {
          inProgressData := [];
          return c.code, delivered;
        }
        var accepted := UpdateWindows(c.packet);
        if !accepted {
          inProgressData := [];
          return ReceiveMaximumExceeded, delivered;
        }
        if registered {
          delivered := delivered + [c.packet];
          if clears(|delivered| - 1) {
            Clear();
          }
        }
        if inProgressData != [] {
          inProgressData := inProgressData[1..];
        }
        b := turn.0;
      }
    }

    method UpdateWindows(p: Inbound) returns (accepted: bool)
      modifies tracker
      ensures var a := Account(p, old(tracker.ReceiveWindow()), old(tracker.SendWindow()));
              && accepted == a.Some?
              && (tracker.ReceiveWindow(), tracker.SendWindow())
                 == if a.Some? then a.value else (old(tracker.ReceiveWindow()), old(tracker.SendWindow()))
    {
      accepted := true;
      match p
      case Pub(qos, id, _, _) =>
        if qos != 0 {
          accepted := tracker.DecrementReceiveAllowance(id);
        }
      case PubAck(id) => tracker.IncrementSendAllowance(id);
      case PubComp(id) => tracker.IncrementSendAllowance(id);
      case PubRec(id, failed) =>
        if failed {
          tracker.IncrementSendAllowance(id);
        }
      case _ =>
    }
  }

  // ---------------------------------------------------------------- what a batch delivers

  /** The first byte is that of a CONNACK, PUBLISH, PUBACK, PUBREC, PUBREL, PUBCOMP, SUBACK, UNSUBACK, PINGRESP or
      DISCONNECT, the packets a client without authentication may be sent (section 2.1.2 of MQTT Version 5.0). */
  predicate ForClient(data: seq<byte>)
    requires |data| > 0
  {
    data[0] / 16 in {2, 3, 4, 5, 6, 7, 9, 11, 13, 14}
  }

  lemma ClassifiedByFirstByte(decode: seq<byte> -> Decoded, data: seq<byte>)
    requires |data| > 0
    ensures Classify(decode, data) == if ForClient(data) then decode(data) else Failed(ProtocolError)
  {
    assert CheckPacketType(data) == PingResponse <==> data[0] / 16 == 13;
  }

  /** The buffer is decoded, and into this packet. */
  predicate Decodes(decode: seq<byte> -> Decoded, data: seq<byte>, p: Inbound)
    requires |data| > 0
  {
    ForClient(data) && decode(data) == Decoded(p)
  }

  /** Why the batch ends at a buffer: its type is not for a client, its own decoder fails with this very code, or
      it is a QoS 1 or 2 PUBLISH that finds the receive window full. */
  predicate EndsWith(decode: seq<byte> -> Decoded, data: seq<byte>, receive: Window, code: DecodeErrorCode)
    requires |data| > 0
  {
    if !ForClient(data) then code == ProtocolError
    else
      match decode(data)
      case Failed(own) => code == own
      case Decoded(p) => p.Pub? && p.qos != 0 && receive.allowance == 0 && code == ReceiveMaximumExceeded
  }

  /** What a batch that started with `from` packets delivered and with `queue` to go may end with: the buffers
      decoded and delivered one by one in arrival order, up to the first that ends it with an error; all of them
      unless that or a clearing handler ends it. */
  ghost predicate Explained(decode: seq<byte> -> Decoded, clears: nat -> bool, queue: seq<seq<byte>>, from: nat, r: Batch)
    requires AllNonEmpty(queue)
  {
    var k := |r.delivered| - from;
    && 0 <= k <= |queue|
    && (forall i :: 0 <= i < k ==> Decodes(decode, queue[i], r.delivered[from + i]))
    && (forall i :: from <= i < |r.delivered| && clears(i) ==> i == |r.delivered| - 1 && r.code == NoError)
    && r.cleared == (k > 0 && clears(|r.delivered| - 1))
    && (r.code == NoError ==> k == |queue| || r.cleared)
    && (r.code != NoError ==> k < |queue| && EndsWith(decode, queue[k], r.receive, r.code))
  }

  /** A batch with its handlers registered, told from the first bytes and the packets' own decoders alone. */
  lemma {:induction false} BatchDeliversPrefix(decode: seq<byte> -> Decoded, clears: nat -> bool, queue: seq<seq<byte>>, b: Batch)
    requires AllNonEmpty(queue) && b.code == NoError && !b.cleared
    ensures var r := Dispatch(decode, clears, true, queue, b);
            Explained(decode, clears, queue, |b.delivered|, r) && b.delivered <= r.delivered
  {
    hide Classify, Account, ForClient;
    if queue != [] {
      ClassifiedByFirstByte(decode, queue[0]);
      var (b', more) := Turn(decode, clears, true, queue[0], b);
      if more {
        BatchDeliversPrefix(decode, clears, queue[1..], b');
        var r := Dispatch(decode, clears, true, queue[1..], b');
        assert Decodes(decode, queue[0], b'.delivered[|b.delivered|]);
        OneMoreExplained(decode, clears, queue, |b.delivered|, r);
      } else {
        StopExplained(decode, clears, queue, b);
      }
    }
  }

  lemma OneMoreExplained(decode: seq<byte> -> Decoded, clears: nat -> bool, queue: seq<seq<byte>>, from: nat, r: Batch)
    requires AllNonEmpty(queue) && queue != [] && from < |r.delivered| && !clears(from)
    requires Explained(decode, clears, queue[1..], from + 1, r)
    requires Decodes(decode, queue[0], r.delivered[from])
    ensures Explained(decode, clears, queue, from, r)
  {
    hide Decodes, EndsWith;
    var k := |r.delivered| - from;
    forall i | 0 <= i < k
      ensures Decodes(decode, queue[i], r.delivered[from + i])
    {
      if i > 0 {
        assert queue[i] == queue[1..][i - 1];
        assert Decodes(decode, queue[1..][i - 1], r.delivered[from + 1 + (i - 1)]);
      }
    }
    assert k < |queue| ==> queue[k] == queue[1..][k - 1];
  }

  lemma StopExplained(decode: seq<byte> -> Decoded, clears: nat -> bool, queue: seq<seq<byte>>, b: Batch)
    requires AllNonEmpty(queue) && queue != [] && b.code == NoError && !b.cleared
    requires !Turn(decode, clears, true, queue[0], b).1
    ensures Explained(decode, clears, queue, |b.delivered|, Turn(decode, clears, true, queue[0], b).0)
  {
    ClassifiedByFirstByte(decode, queue[0]);
    hide Classify, ForClient;
  }

  lemma {:induction false} BatchKeepsBalance(decode: seq<byte> -> Decoded, clears: nat -> bool, live: bool, queue: seq<seq<byte>>, b: Batch)
    requires AllNonEmpty(queue) && b.receive.Balanced() && b.send.Balanced()
    ensures var r := Dispatch(decode, clears, live, queue, b);
            && r.receive.Balanced() && r.send.Balanced() && r.receive.max == b.receive.max && r.send.max == b.send.max
            && (!live ==> r.delivered == b.delivered && r.cleared == b.cleared)
  {
    if queue != [] {
      TurnKeepsBalance(decode, clears, live, queue[0], b);
      hide Classify, Turn, Account;
      BatchKeepsBalance(decode, clears, live, queue[1..], Turn(decode, clears, live, queue[0], b).0);
    }
  }

  lemma TurnKeepsBalance(decode: seq<byte> -> Decoded, clears: nat -> bool, live: bool, data: seq<byte>, b: Batch)
    requires |data| > 0 && b.receive.Balanced() && b.send.Balanced()
    ensures var r := Turn(decode, clears, live, data, b).0;
            && r.receive.Balanced() && r.send.Balanced() && r.receive.max == b.receive.max && r.send.max == b.send.max
            && (!live ==> r.delivered == b.delivered && r.cleared == b.cleared)
  {
    hide Classify;
  }

  // ---------------------------------------------------------------- what a batch does to the windows

  /** The ids of the QoS 1 and 2 PUBLISHes among packets, and of the packets that finish a publish of ours. */
  function OpenedIds(ps: seq<Inbound>): set<nat> {
    set p | p in ps && p.Pub? && p.qos > 0 :: p.id
  }

  function ClosedIds(ps: seq<Inbound>): set<nat> {
    set p | p in ps && (p.PubAck? || p.PubComp? || (p.PubRec? && p.failed)) :: p.id
  }

  lemma IdsOfOne(p: Inbound)
    ensures OpenedIds([p]) == if p.Pub? && p.qos > 0 then {p.id} else {}
    ensures ClosedIds([p]) == if p.PubAck? || p.PubComp? || (p.PubRec? && p.failed) then {p.id} else {}
  {
  }

  lemma AccountedIds(p: Inbound, receive: Window, send: Window)
    requires receive.Balanced() && send.Balanced() && Account(p, receive, send).Some?
    ensures var (r, s) := Account(p, receive, send).value;
            r.Balanced() && s.Balanced() && r.ids == receive.ids + OpenedIds([p]) && s.ids == send.ids - ClosedIds([p])
  {
    hide OpenedIds, ClosedIds, Window.Take, Window.Give, Window.Balanced;
    IdsOfOne(p);
    match p
    case Pub(qos, id, _, _) =>
      if receive.allowance > 0 {
        TakeOpens(receive, id);
      }
      RefusedAtZero(receive, id);
    case PubAck(id) => GiveCloses(send, id);
    case PubComp(id) => GiveCloses(send, id);
    case PubRec(id, failed) => GiveCloses(send, id);
    case _ =>
  }

  lemma RefusedAtZero(w: Window, id: nat)
    ensures w.Take(id).0 <==> w.allowance > 0
  {
  }

  lemma IdsOn(ps: seq<Inbound>, more: seq<Inbound>)
    ensures OpenedIds(ps + more) == OpenedIds(ps) + OpenedIds(more)
    ensures ClosedIds(ps + more) == ClosedIds(ps) + ClosedIds(more)
  {
    assert forall q :: q in ps + more <==> q in ps || q in more;
  }

  /** From `b` to `r` the receive window opened exactly the ids of the QoS 1 and 2 PUBLISHes delivered, and the send
      window closed exactly those of the PUBACKs, PUBCOMPs and failing PUBRECs. */
  ghost predicate WindowsMoved(b: Batch, r: Batch) {
    && b.delivered <= r.delivered && r.receive.Balanced() && r.send.Balanced()
    && r.receive.ids == b.receive.ids + OpenedIds(r.delivered[|b.delivered|..])
    && r.send.ids == b.send.ids - ClosedIds(r.delivered[|b.delivered|..])
  }

  lemma NothingMoved(b: Batch, r: Batch)
    requires b.receive.Balanced() && b.send.Balanced()
    requires r.delivered == b.delivered && r.receive == b.receive && r.send == b.send
    ensures WindowsMoved(b, r)
  {
    assert r.delivered[|b.delivered|..] == [];
  }

  lemma TurnMovesWindows(decode: seq<byte> -> Decoded, clears: nat -> bool, data: seq<byte>, b: Batch)
    requires |data| > 0 && b.receive.Balanced() && b.send.Balanced()
    ensures WindowsMoved(b, Turn(decode, clears, true, data, b).0)
  {
    hide Classify, Account, WindowsMoved, Window.Balanced;
    var c, b' := Classify(decode, data), Turn(decode, clears, true, data, b).0;
    if c.Decoded? && Account(c.packet, b.receive, b.send).Some? {
      AccountedIds(c.packet, b.receive, b.send);
      DeliveredOne(b, b', c.packet);
    } else {
      NothingMoved(b, b');
    }
  }

  lemma DeliveredOne(b: Batch, r: Batch, p: Inbound)
    requires r.delivered == b.delivered + [p] && r.receive.Balanced() && r.send.Balanced()
    requires r.receive.ids == b.receive.ids + OpenedIds([p]) && r.send.ids == b.send.ids - ClosedIds([p])
    ensures WindowsMoved(b, r)
  {
    hide OpenedIds, ClosedIds;
    assert r.delivered[|b.delivered|..] == [p];
  }

  lemma MovedTwice(b: Batch, c: Batch, r: Batch)
    requires WindowsMoved(b, c) && WindowsMoved(c, r)
    ensures WindowsMoved(b, r)
  {
    hide OpenedIds, ClosedIds, Window.Balanced;
    var here, rest := c.delivered[|b.delivered|..], r.delivered[|c.delivered|..];
    Spliced(b.delivered, c.delivered, r.delivered);
    IdsOn(here, rest);
    AddedTwice(b.receive.ids, OpenedIds(here), OpenedIds(rest));
    TakenTwice(b.send.ids, ClosedIds(here), ClosedIds(rest));
  }

  lemma Spliced(a: seq<Inbound>, b: seq<Inbound>, c: seq<Inbound>)
    requires a <= b <= c
    ensures a <= c && c[|a|..] == b[|a|..] + c[|b|..]
  {
  }

  lemma AddedTwice(x: set<nat>, a: set<nat>, b: set<nat>)
    ensures x + a + b == x + (a + b)
  {
  }

  lemma TakenTwice(x: set<nat>, a: set<nat>, b: set<nat>)
    ensures x - a - b == x - (a + b)
  {
  }

  /** A batch with its handlers registered. */
  lemma {:induction false} BatchMovesWindows(decode: seq<byte> -> Decoded, clears: nat -> bool, queue: seq<seq<byte>>, b: Batch)
    requires AllNonEmpty(queue) && b.receive.Balanced() && b.send.Balanced()
    ensures WindowsMoved(b, Dispatch(decode, clears, true, queue, b))
  {
    hide Turn, WindowsMoved, Window.Balanced;
    if queue == [] {
      NothingMoved(b, b);
    } else {
      var (b', more) := Turn(decode, clears, true, queue[0], b);
      TurnMovesWindows(decode, clears, queue[0], b);
      if more {
        BalancedThen(b, b');
        BatchMovesWindows(decode, clears, queue[1..], b');
        MovedTwice(b, b', Dispatch(decode, clears, true, queue[1..], b'));
      }
    }
  }

  lemma BalancedThen(b: Batch, r: Batch)
    requires WindowsMoved(b, r)
    ensures r.receive.Balanced() && r.send.Balanced()
  {
  }

  /** Without handlers a batch ends and moves the windows as one whose handlers never clear the queue. */
  lemma {:induction false} HandlersMakeNoDifference(decode: seq<byte> -> Decoded, clears: nat -> bool, queue: seq<seq<byte>>, b: Batch, c: Batch)
    requires AllNonEmpty(queue) && c == b.(delivered := c.delivered, cleared := c.cleared) && forall k :: !clears(k)
    ensures var without, live := Dispatch(decode, clears, false, queue, b), Dispatch(decode, clears, true, queue, c);
            && (without.code, without.receive, without.send) == (live.code, live.receive, live.send)
            && without.delivered == b.delivered
  {
    hide Classify, Account;
    if queue != [] {
      var (b', more) := Turn(decode, clears, false, queue[0], b);
      if more {
        HandlersMakeNoDifference(decode, clears, queue[1..], b', Turn(decode, clears, true, queue[0], c).0);
      }
    }
  }

  // ---------------------------------------------------------------- what a whole run delivers

  /** A buffer arriving, a tick's batch with its handlers' clearing behaviour, a clear from outside a
      batch, or the handlers being registered. */
  datatype Step = Arrive(data: seq<byte>) | Tick(clears: nat -> bool) | Cleared | Registered

  /** `arrived` has all buffers ever queued; the queue holds those from `next` on; `delivered` has the
      arrival indices of the buffers handed to a handler. */
  datatype Run = Run(arrived: seq<seq<byte>>, next: nat, live: bool, delivered: seq<nat>, receive: Window, send: Window) {
    ghost predicate Valid() {
      && AllNonEmpty(arrived) && next <= |arrived|
      && receive.Balanced() && send.Balanced()
      && (forall i :: 0 <= i < |delivered| ==> delivered[i] < next)
      && (forall i, j :: 0 <= i < j < |delivered| ==> delivered[i] < delivered[j])
    }

    ghost function Start(): Batch {
      Batch(NoError, [], receive, send, false)
    }
  }

  predicate Possible(s: Step) {
    s.Arrive? ==> |s.data| > 0
  }

  ghost function Advance(decode: seq<byte> -> Decoded, run: Run, s: Step): Run
    requires run.Valid() && Possible(s)
  {
    match s
    case Arrive(data) => run.(arrived := run.arrived + [data])
    case Cleared => run.(next := |run.arrived|, live := false)
    case Registered => run.(live := true)
    case Tick(clears) =>
      var r := Dispatch(decode, clears, run.live, run.arrived[run.next..], run.Start());
      run.(next := |run.arrived|, live := run.live && !r.cleared, receive := r.receive, send := r.send,
           delivered := run.delivered + seq(|r.delivered|, i requires 0 <= i < |r.delivered| => run.next + i))
  }

  /** Every queued buffer reaches at most one handler, and buffers are handled in arrival order across
      batches: the arrival indices of the handled buffers only grow. Each handled packet is the decoding
      of the buffer with its index, whose first byte is one for a client. */
  lemma DeliveredInArrivalOrder(decode: seq<byte> -> Decoded, run: Run, s: Step)
    requires run.Valid() && Possible(s)
    ensures Advance(decode, run, s).Valid()
    ensures run.delivered <= Advance(decode, run, s).delivered
    ensures s.Tick? ==>
              var r := Dispatch(decode, s.clears, run.live, run.arrived[run.next..], run.Start());
              forall i :: 0 <= i < |r.delivered| ==>
                var at := Advance(decode, run, s).delivered[|run.delivered| + i];
                at < |run.arrived| && Decodes(decode, run.arrived[at], r.delivered[i])
  {
    hide Classify, Dispatch, ForClient;
    if s.Tick? {
      var queue := run.arrived[run.next..];
      BatchKeepsBalance(decode, s.clears, run.live, queue, run.Start());
      if run.live {
        BatchDeliversPrefix(decode, s.clears, queue, run.Start());
      }
    }
  }

  /** The run of any list of steps from a new connection; its result type carries the ordering. */
  ghost function RunAll(decode: seq<byte> -> Decoded, client: nat, broker: nat, steps: seq<Step>): (run: Run)
    requires forall i :: 0 <= i < |steps| ==> Possible(steps[i])
    ensures run.Valid()
  {
    if steps == [] then Run([], 0, false, [], Window(client, client, {}), Window(broker, broker, {}))
    else
      var before := RunAll(decode, client, broker, steps[..|steps| - 1]);
      DeliveredInArrivalOrder(decode, before, steps[|steps| - 1]);
      Advance(decode, before, steps[|steps| - 1])
  }
}
