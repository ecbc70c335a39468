/** From a call of the client to the wire: over whole runs every packet asked for is composed once, in order, and its
    own bytes are among those the socket accepted or is about to be given. */
module ClientWire {
  import opened Bytes
  import opened Packets
  import opened PacketIdPools
  import opened SendPipes
  import opened SendPipeProperties
  import opened Clients
  import opened Protocol
  import opened ProtocolPackets
  import opened PipelineRefinement
  import SendPipeRuns
  import ClientRuns

  // ---------------------------------------------------------------- whole runs of the client

  function AskedBy(n: Node, e: ClientRuns.Event): seq<Job>
    requires n.client.status.Connected? && ClientRuns.Possible(n, e)
  {
    if e.Other? then Asked(Abs(n), e.step) else []
  }

  /** All packets asked for in a run, in order. */
  ghost function AskedIn(n: Node, events: seq<ClientRuns.Event>): seq<Job>
    requires ClientRuns.Proceeds(n, events)
    decreases |events|
  {
    if events == [] then [] else AskedBy(n, events[0]) + AskedIn(ClientRuns.After(n, events[0]), events[1..])
  }

  /** The packets composed, and behind them those still queued, are the ones asked for: the QoS 1 and 2 publishes in
      their order and all others in theirs. */
  ghost predicate InLine(p: Pipe, asked: seq<Job>) {
    && SendPipeRuns.Counted(p.composed) + SendPipeRuns.Counted(p.jobs) == SendPipeRuns.Counted(asked)
    && SendPipeRuns.Others(p.composed) + SendPipeRuns.Others(p.jobs) == SendPipeRuns.Others(asked)
  }

  /** Packet `k` has bytes, and they stand at its place in what was accepted and what is in the buffer. */
  ghost predicate OnTheWire(p: Pipe, k: nat)
    requires k < |p.composed|
  {
    && p.composed[k].encoded.Some?
    && var end, size := EndOf(p.composed, k), |p.composed[k].encoded.value|;
       size <= end <= |p.accepted + p.buffer| && (p.accepted + p.buffer)[end - size..end] == p.composed[k].encoded.value
  }

  predicate AllEncoded(composed: seq<Job>) {
    forall k :: 0 <= k < |composed| ==> composed[k].encoded.Some?
  }

  /** Nothing but QoS 1 and 2 publishes is left in the queue, and those only when no allowance is. */
  ghost predicate OnlyHeldBack(p: Pipe) {
    SendPipeRuns.Others(p.jobs) == [] && (p.jobs != [] ==> p.send.allowance == 0)
  }

  lemma {:induction false} SelectOn(a: seq<Job>, b: seq<Job>, counted: bool)
    ensures SendPipeRuns.Select(a + b, counted) == SendPipeRuns.Select(a, counted) + SendPipeRuns.Select(b, counted)
    decreases |b|
  {
    hide SendPipeRuns.Select, SendPipeRuns.Pick;
    if b == [] {
      assert a + b == a;
      NothingSelected(a, counted);
    } else {
      var c, last := b[..|b| - 1], b[|b| - 1];
      SelectOn(a, c, counted);
      SendPipeRuns.SelectSnoc(a + c, last, counted);
      SendPipeRuns.SelectSnoc(c, last, counted);
      assert a + c + [last] == a + b && c + [last] == b;
      SendPipeRuns.Reassociate(SendPipeRuns.Select(a, counted), SendPipeRuns.Select(c, counted), SendPipeRuns.Pick(last, counted));
    }
  }

  lemma NothingSelected(a: seq<Job>, counted: bool)
    ensures SendPipeRuns.Select(a, counted) + SendPipeRuns.Select([], counted) == SendPipeRuns.Select(a, counted)
  {
  }

  lemma {:induction false} ComposedAreEncoded(jobs: seq<Job>, c: Composing)
    requires AllEncoded(c.composed) && !Compose(jobs, c).failed
    ensures AllEncoded(Compose(jobs, c).composed)
  {
    if jobs != [] && !c.failed {
      var rest, d := jobs[1..], ComposeOne(jobs[0], c);
      assert !d.failed by {
        assert d.failed ==> Compose(rest, d) == d;
      }
      assert AllEncoded(d.composed);
      hide ComposeOne, AllEncoded;
      ComposedAreEncoded(rest, d);
    }
  }

  /** A batch without an encode error loses no packet, composes only packets with bytes, and leaves only QoS 1 and 2
      publishes behind, at no allowance. */
  lemma BatchEmptiesQueue(p: Pipe, script: seq<Answer>)
    requires AllEncoded(p.composed) && TryBatch(p, script).0 != EncodeError
    ensures var q := TryBatch(p, script).1;
            && AllEncoded(q.composed) && OnlyHeldBack(q)
            && (forall asked :: InLine(p, asked) ==> InLine(q, asked))
  {
    assert SendPipeRuns.Others([]) == [] && SendPipeRuns.HeldBack(p.Start());
    hide SendPipeRuns.Counted, SendPipeRuns.Others, SendLoop, Compose, AllEncoded;
    if p.jobs != [] {
      SendPipeRuns.BatchOrder(p, script);
      SendPipeRuns.ComposeOrder(p.jobs, p.Start());
      ComposedAreEncoded(p.jobs, p.Start());
    }
  }

  lemma Queued(p: Pipe, q: Pipe, asked: seq<Job>, more: seq<Job>)
    requires InLine(p, asked) && q.composed == p.composed && q.jobs == p.jobs + more
    ensures InLine(q, asked + more)
  {
    SelectOn(p.jobs, more, true);
    SelectOn(p.jobs, more, false);
    SelectOn(asked, more, true);
    SelectOn(asked, more, false);
    hide SendPipeRuns.Select;
    SendPipeRuns.Reassociate(SendPipeRuns.Counted(p.composed), SendPipeRuns.Counted(p.jobs), SendPipeRuns.Counted(more));
    SendPipeRuns.Reassociate(SendPipeRuns.Others(p.composed), SendPipeRuns.Others(p.jobs), SendPipeRuns.Others(more));
  }

  /** One event keeps the packets in line; a batch leaves only what is held back. */
  lemma EventInLine(n: Node, e: ClientRuns.Event, asked: seq<Job>)
    requires NodeOk(n) && ClientRuns.Possible(n, e) && InLine(n.pipe, asked) && AllEncoded(n.pipe.composed)
    ensures var m := ClientRuns.After(n, e);
            InLine(m.pipe, asked + AskedBy(n, e)) && AllEncoded(m.pipe.composed) && (e.Batch? ==> OnlyHeldBack(m.pipe))
  {
    assert asked + [] == asked;
    hide InLine, AllEncoded, OnlyHeldBack, Asked, Next, Enabled, TryBatch, SendPipeRuns.PipeOk;
    match e
    case Other(step) =>
      StepAsks(Abs(n), step);
      Queued(n.pipe, ClientRuns.After(n, e).pipe, asked, AskedBy(n, e));
    case Batch(script, clock, interval) =>
      BatchEmptiesQueue(n.pipe, script);
      TickedPipe(n, script, clock, interval);
  }

  lemma {:induction false} RunInLine(n: Node, events: seq<ClientRuns.Event>, asked: seq<Job>)
    requires NodeOk(n) && ClientRuns.Proceeds(n, events) && InLine(n.pipe, asked) && AllEncoded(n.pipe.composed)
    ensures var f := ClientRuns.Final(n, events);
            && NodeOk(f) && InLine(f.pipe, asked + AskedIn(n, events)) && AllEncoded(f.pipe.composed)
            && (events != [] && events[|events| - 1].Batch? ==> OnlyHeldBack(f.pipe))
    decreases |events|
  {
    hide NodeOk, InLine, AllEncoded, OnlyHeldBack, AskedBy, ClientRuns.Possible, ClientRuns.After;
    if events == [] {
      assert asked + [] == asked;
    } else {
      var m, here := ClientRuns.After(n, events[0]), AskedBy(n, events[0]);
      EventInLine(n, events[0], asked);
      ClientRuns.EventRefines(n, events[0]);
      RunInLine(m, events[1..], asked + here);
      SendPipeRuns.Reassociate(asked, here, AskedIn(m, events[1..]));
    }
  }

  lemma StreamParts(composed: seq<Job>, k: nat)
    requires k < |composed|
    ensures Stream(composed) == Stream(composed[..k]) + EncodedBytes(composed[k]) + Stream(composed[k + 1..])
    ensures EndOf(composed, k) == |Stream(composed[..k]) + EncodedBytes(composed[k])|
  {
    hide Stream;
    var front, rest := composed[..k + 1], composed[k + 1..];
    StreamAppend(front, rest);
    assert front + rest == composed;
    LastInStream(front);
    assert front[..k] == composed[..k] && front[k] == composed[k];
  }

  lemma PlaceInStream(p: Pipe, k: nat)
    requires p.accepted + p.buffer == Stream(p.composed) && k < |p.composed| && p.composed[k].encoded.Some?
    ensures OnTheWire(p, k)
  {
    hide Stream, EndOf;
    StreamParts(p.composed, k);
    SliceOf(Stream(p.composed[..k]), p.composed[k].encoded.value, Stream(p.composed[k + 1..]));
  }

  lemma SliceOf(before: seq<byte>, bytes: seq<byte>, behind: seq<byte>)
    ensures var whole, end := before + bytes + behind, |before + bytes|;
            |bytes| <= end <= |whole| && whole[end - |bytes|..end] == bytes
  {
  }

  /** Over every run of the client, QoS 0 publishes, replies and retries included: the packets composed and then those
      still queued are exactly those asked for, in order; every packet composed has its own bytes at its place among
      those the socket accepted and those in the buffer; and when a batch has just been sent, only QoS 1 and 2
      publishes are still queued, and none while allowance is left. */
  lemma AskedReachesTheWire(events: seq<ClientRuns.Event>, clientMaximum: nat, brokerMaximum: nat)
    requires ClientRuns.Proceeds(ClientRuns.NewNode(clientMaximum, brokerMaximum), events)
    ensures var n := ClientRuns.NewNode(clientMaximum, brokerMaximum);
            var p := ClientRuns.Final(n, events).pipe;
            && InLine(p, AskedIn(n, events))
            && (forall k :: 0 <= k < |p.composed| ==> OnTheWire(p, k))
            && (events != [] && events[|events| - 1].Batch? ==> OnlyHeldBack(p))
  {
    var n := ClientRuns.NewNode(clientMaximum, brokerMaximum);
    ClientRuns.NewNodeOk(clientMaximum, brokerMaximum);
    assert InLine(n.pipe, []);
    hide NodeOk, InLine, OnlyHeldBack, AskedBy, AskedIn, OnTheWire, ClientRuns.Possible, ClientRuns.After, ClientRuns.Final, ClientRuns.NewNode;
    RunInLine(n, events, []);
    assert [] + AskedIn(n, events) == AskedIn(n, events);
    var f := ClientRuns.Final(n, events);
    StreamOf(f);
    forall k | 0 <= k < |f.pipe.composed| ensures OnTheWire(f.pipe, k) {
      PlaceInStream(f.pipe, k);
    }
  }

  lemma StreamOf(n: Node)
    requires NodeOk(n)
    ensures n.pipe.accepted + n.pipe.buffer == Stream(n.pipe.composed)
  {
  }
}
