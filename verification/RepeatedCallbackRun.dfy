/** One run of the client from its start, with the id spaces apart, in which a PUBCOMP is called back twice and the client
    forgets a publish it accepted in between. */
module RepeatedCallbackRun {
  import opened Bytes
  import opened Packets
  import opened PacketIdPools
  import opened Sessions
  import opened TopicAliasMaps
  import opened SendPipes
  import opened SendPipeProperties
  import opened Clients
  import opened Protocol
  import opened PipelineRefinement
  import ClientRuns
  import ReceiveMaximum

  // ---------------------------------------------------------------- the packets

  function Rec(id: uint16, content: nat): Job {
    Reply(PublishReceived, id, content)
  }

  function Comp(id: uint16, content: nat): Job {
    Reply(PublishComplete, id, content)
  }

  /** A QoS 0 publish of 1000 bytes, a PINGREQ, and the encoding of a QoS 1 publish. */
  function Large(): Job {
    Job(PacketType.Publish, 0, 0, 7, Some(seq(1000, i => 0)))
  }

  function Ping(): Job {
    Job(PingRequest, 0, 0, 0, Some([0xC0, 0]))
  }

  function Small(): seq<byte> {
    [0x32, 2, 0, 0]
  }

  function Offered(id: nat, content: nat): Msg {
    Msg(PacketType.Publish, 2, id, content, false, false, true)
  }

  function Released(id: nat, content: nat): Msg {
    Msg(PublishReleased, 0, id, content, false, false, true)
  }

  function Handling(m: Msg): ClientRuns.Event {
    ClientRuns.Other(Handles(m, "t", None, 0, "", 0, 0))
  }

  function Zero(k: nat): nat {
    0
  }

  function Sends(script: seq<Answer>): ClientRuns.Event {
    ClientRuns.Batch(script, Zero, 0)
  }

  /** The message with id 2 arrives and is released behind a large publish, of which a part goes; the one with id 1 is
      released behind that; a batch with a PINGREQ sends up to the end of its PUBCOMP; a publish takes id 1; and
      the rest goes. */
  function Events(): seq<ClientRuns.Event> {
    [ClientRuns.Other(BrokerPublishes(2, 2)), ClientRuns.Other(BrokerPublishes(2, 1)), Handling(Offered(2, 0)), Handling(Offered(1, 1)),
     Sends([Accepted(8)]), ClientRuns.Other(BrokerTakes(JobMsg(Rec(2, 0)), false)), ClientRuns.Other(BrokerTakes(JobMsg(Rec(1, 1)), false)),
     ClientRuns.Other(Queues(Large())), Handling(Released(2, 0)), Sends([Accepted(998), Accepted(0), Accepted(0), Accepted(0)]),
     Handling(Released(1, 1)), ClientRuns.Other(Queues(Ping())), Sends([Accepted(10), Accepted(0), Accepted(0), Accepted(0)]),
     ClientRuns.Other(Publishes(1, Some(Small()), 0, 0)), Sends([Accepted(6)])]
  }

  // ---------------------------------------------------------------- batches of the pipe

  predicate Plain(job: Job) {
    job.encoded.Some? && !IsCountedPublish(job)
  }

  lemma ComposeTwo(a: Job, b: Job, c: Composing)
    requires Plain(a) && Plain(b) && !c.failed
    ensures Compose([a, b], c) == ComposeOne(b, ComposeOne(a, c)) && !Compose([a, b], c).failed
  {
    hide ReceiveMaximum.Window.Give, ReceiveMaximum.Window.Take;
    assert [a, b][1..] == [b] && [b][1..] == [];
    assert Compose([], ComposeOne(b, ComposeOne(a, c))) == ComposeOne(b, ComposeOne(a, c));
    assert Compose([b], ComposeOne(a, c)) == Compose([], ComposeOne(b, ComposeOne(a, c)));
  }

  lemma StreamOfTwo(a: Job, b: Job)
    ensures Stream([a, b]) == EncodedBytes(a) + EncodedBytes(b)
  {
    assert [a, b][..1] == [a] && [a][..0] == [];
    assert Stream([]) == [];
    assert Stream([a]) == [] + EncodedBytes(a);
  }

  /** What composing two jobs on top of what is tracked leaves to send. */
  lemma TwoComposed(p: Pipe, a: Job, b: Job) returns (c: Composing)
    requires p.jobs == [a, b] && Plain(a) && Plain(b)
    ensures c == Compose(p.jobs, p.Start()) && !c.failed && p.composed <= c.composed
    ensures c.composed == p.composed + [a, b] && c.delayed == [] && c.send == p.send
    ensures var m, n := |p.buffer| + |EncodedBytes(a)|, |p.buffer| + |EncodedBytes(a)| + |EncodedBytes(b)|;
            && c.tracked == p.tracked + (if Announced(a.kind) then [Tracked(m, a.kind, a.id, |p.composed|)] else [])
                            + (if Announced(b.kind) then [Tracked(n, b.kind, b.id, |p.composed| + 1)] else [])
            && (a.kind != PingRequest ==> c.ping == if b.kind == PingRequest then Some(Tracked(n, b.kind, b.id, |p.composed| + 1)) else None)
    ensures p.Sending(c, []).buffer == p.buffer + (EncodedBytes(a) + EncodedBytes(b))
    ensures c.receive.allowance >= p.receive.allowance
  {
    hide ReceiveMaximum.Window.Take, Announced;
    c := Compose(p.jobs, p.Start());
    ComposeTwo(a, b, p.Start());
    StreamOfTwo(a, b);
    assert c.composed[|p.composed|..] == [a, b];
  }

  /** A part of the buffer goes: callbacks only in a batch with a PINGREQ. */
  lemma PartGoes(ping: Option<Tracked>, x: Transit, n: nat)
    requires x.progress == Running && x.script != [] && x.script[0] == Accepted(n) && n < |x.buffer|
    ensures var y := SendOnce(ping, x);
            && y.progress == Running && y.script == x.script[1..] && |y.buffer| == |x.buffer| - n && |y.accepted| == |x.accepted| + n
            && (ping.None? ==> y.tracked == x.tracked && y.fired == x.fired)
            && (ping.Some? ==> y.tracked == x.tracked[|Pass(x.tracked, n)|..] && y.fired == x.fired + Fire(x.tracked, Pass(x.tracked, n), |y.accepted|))
  {
    hide Pass, Fire, FirePing, KeepsToFront;
  }

  lemma AllGoes(ping: Option<Tracked>, x: Transit)
    requires x.progress == Running && x.script == [Accepted(|x.buffer|)] && x.buffer != []
    ensures var y := SendOnce(ping, x);
            && y.progress == Complete && y.script == [] && y.buffer == [] && y.tracked == [] && |y.accepted| == |x.accepted| + |x.buffer|
            && y.fired == x.fired + FireAll(x.tracked, |y.accepted|)
    ensures SendLoop(ping, x, 0) == SendOnce(ping, x)
  {
    hide FirePing, FireAll;
    LoopCases(ping, x, 0);
    LoopCases(ping, SendOnce(ping, x), 1);
    assert x.buffer[..|x.buffer|] == x.buffer;
  }

  /** A part and then three times nothing. */
  lemma PartLoop(ping: Option<Tracked>, x: Transit, n: nat) returns (z: Transit)
    requires x.progress == Running && x.script == [Accepted(n), Accepted(0), Accepted(0), Accepted(0)] && n < |x.buffer|
    requires ping.Some? ==> Pass(x.tracked[|Pass(x.tracked, n)|..], 0) == []
    ensures z == SendLoop(ping, x, 0) && z.progress == Running && z.last >= 0 && |z.buffer| == |x.buffer| - n && |z.accepted| == |x.accepted| + n
    ensures ping.None? ==> z.tracked == x.tracked && z.fired == x.fired
    ensures ping.Some? ==> z.tracked == x.tracked[|Pass(x.tracked, n)|..] && z.fired == x.fired + Fire(x.tracked, Pass(x.tracked, n), |z.accepted|)
  {
    var y1 := SendOnce(ping, x);
    PartGoes(ping, x, n);
    assert x.script[1..] == [Accepted(0), Accepted(0), Accepted(0)];
    var y2 := SendOnce(ping, y1);
    PartGoes(ping, y1, 0);
    assert y1.script[1..] == [Accepted(0), Accepted(0)];
    NothingFires(y1.tracked, y1.fired, if ping.Some? then Pass(y1.tracked, 0) else [], |y2.accepted|);
    var y3 := SendOnce(ping, y2);
    PartGoes(ping, y2, 0);
    assert y2.script[1..] == [Accepted(0)];
    NothingFires(y2.tracked, y2.fired, if ping.Some? then Pass(y2.tracked, 0) else [], |y3.accepted|);
    var y4 := SendOnce(ping, y3);
    PartGoes(ping, y3, 0);
    NothingFires(y3.tracked, y3.fired, if ping.Some? then Pass(y3.tracked, 0) else [], |y4.accepted|);
    LoopCases(ping, x, 0);
    LoopCases(ping, y1, 1);
    LoopCases(ping, y2, 2);
    LoopCases(ping, y3, 3);
    LoopCases(ping, y4, 4);
    LastOf(ping, y3);
    hide SendOnce, SendLoop, Pass, Fire;
    z := SendLoop(ping, x, 0);
  }

  lemma LastOf(ping: Option<Tracked>, x: Transit)
    requires x.script == [Accepted(0)] && x.buffer != []
    ensures SendOnce(ping, x).last == 0
  {
    hide Pass, Fire, FirePing, KeepsToFront;
  }

  lemma NothingFires(ms: seq<Tracked>, fired: seq<Firing>, positions: seq<nat>, at: nat)
    ensures positions == [] ==> ms[0..] == ms && fired + Fire(ms, positions, at) == fired
  {
  }

  /** The PUBCOMP behind the large publish, with the offset it got when composed, and the one behind it. */
  function Stale(): Tracked {
    Tracked(1004, PublishComplete, 2, 3)
  }

  function Second(): Tracked {
    Tracked(10, PublishComplete, 1, 4)
  }

  lemma JobsArePlain()
    ensures forall id: uint16, content: nat :: Plain(Rec(id, content)) && |EncodedBytes(Rec(id, content))| == 4
    ensures forall id: uint16, content: nat :: Plain(Comp(id, content)) && |EncodedBytes(Comp(id, content))| == 4
    ensures Plain(Large()) && |EncodedBytes(Large())| == 1000 && Plain(Ping()) && |EncodedBytes(Ping())| == 2
  {
  }

  lemma FirstBatch(p: Pipe)
    requires p.jobs == [Rec(2, 0), Rec(1, 1)] && p.buffer == [] && p.tracked == [] && p.composed == [] && p.accepted == []
    ensures var (outcome, q, _) := TryBatch(p, [Accepted(8)]);
            && outcome == Sent && q.jobs == [] && q.buffer == [] && q.tracked == [] && q.composed == [Rec(2, 0), Rec(1, 1)] && |q.accepted| == 8
            && q.send == p.send && q.receive.allowance >= p.receive.allowance && p.fired <= q.fired
            && |q.fired| == |p.fired| + 2 && q.fired[|p.fired|].packet == Tracked(4, PublishReceived, 2, 0)
            && q.fired[|p.fired| + 1].packet == Tracked(8, PublishReceived, 1, 1)
  {
    var c := TwoComposed(p, Rec(2, 0), Rec(1, 1));
    var x := p.Sending(c, [Accepted(8)]);
    JobsArePlain();
    hide Compose, SendLoop, EncodedBytes, Stream;
    assert |x.buffer| == 8;
    AllGoes(c.ping, x);
  }

  lemma SecondBatch(p: Pipe)
    requires p.jobs == [Large(), Comp(2, 0)] && p.buffer == [] && p.tracked == [] && |p.composed| == 2
    ensures var (outcome, q, _) := TryBatch(p, [Accepted(998), Accepted(0), Accepted(0), Accepted(0)]);
            && outcome == Sent && q.jobs == [] && |q.buffer| == 6 && q.tracked == [Stale()] && q.composed == p.composed + [Large(), Comp(2, 0)]
            && q.send == p.send && q.receive.allowance >= p.receive.allowance && q.fired == p.fired
  {
    var c := TwoComposed(p, Large(), Comp(2, 0));
    var x := p.Sending(c, [Accepted(998), Accepted(0), Accepted(0), Accepted(0)]);
    JobsArePlain();
    hide Compose, SendLoop, EncodedBytes, Stream, Pass, Fire;
    assert |x.buffer| == 1004;
    var z := PartLoop(c.ping, x, 998);
  }

  lemma StalePass()
    ensures Pass([Stale(), Second()], 10) == [1] && Pass([Second()], 0) == []
  {
    var ms := [Stale(), Second()];
    assert PassFrom(ms, 10, 2, 1) == [];
    assert PassFrom(ms, 10, 1, 0) == [1] + [];
    assert PassFrom(ms, 10, 0, 0) == [1];
    assert PassFrom([Second()], 0, 1, 0) == [];
    assert PassFrom([Second()], 0, 0, 0) == [];
  }

  lemma ThirdBatch(p: Pipe)
    requires p.jobs == [Comp(1, 1), Ping()] && |p.buffer| == 6 && p.tracked == [Stale()] && |p.composed| == 4
    ensures var (outcome, q, _) := TryBatch(p, [Accepted(10), Accepted(0), Accepted(0), Accepted(0)]);
            && outcome == Sent && q.jobs == [] && |q.buffer| == 2 && q.tracked == [Second()] && q.composed == p.composed + [Comp(1, 1), Ping()]
            && q.send == p.send && p.fired <= q.fired && |q.fired| == |p.fired| + 1 && q.fired[|p.fired|].packet == Second()
  {
    var c := TwoComposed(p, Comp(1, 1), Ping());
    var x := p.Sending(c, [Accepted(10), Accepted(0), Accepted(0), Accepted(0)]);
    JobsArePlain();
    hide Compose, SendLoop, EncodedBytes, Stream, Pass, PassFrom;
    StalePass();
    assert |x.buffer| == 12 && x.tracked == [Stale(), Second()];
    assert [Stale(), Second()][1..] == [Second()];
    var z := PartLoop(c.ping, x, 10);
  }

  function Reusing(): Job {
    Job(PacketType.Publish, 1, 1, 2, Some(Small()))
  }

  lemma FourthBatch(p: Pipe)
    requires p.jobs == [Reusing()] && |p.buffer| == 2 && p.tracked == [Second()] && p.send.allowance > 0
    ensures var (outcome, q, _) := TryBatch(p, [Accepted(6)]);
            && outcome == Sent && q.composed == p.composed + [Reusing()] && p.fired <= q.fired
            && |q.fired| == |p.fired| + 1 && q.fired[|p.fired|].packet == Second() && q.jobs == []
  {
    hide ReceiveMaximum.Window.Take, ReceiveMaximum.Window.Give;
    var c := Compose(p.jobs, p.Start());
    assert [Reusing()][1..] == [];
    assert c == Compose([], ComposeOne(Reusing(), p.Start())) == ComposeOne(Reusing(), p.Start());
    assert c.composed[|p.composed|..] == [Reusing()] && [Reusing()][..0] == [];
    assert Stream([Reusing()]) == Stream([]) + Small();
    var x := p.Sending(c, [Accepted(6)]);
    hide Compose, SendLoop, Stream;
    assert |x.buffer| == 6;
    AllGoes(c.ping, x);
  }

  // ---------------------------------------------------------------- events of the client

  /** Where the client is: its session, its queue, and its pipe. */
  ghost predicate At(n: Node, session: Messages, jobs: seq<Job>, buffered: nat, tracked: seq<Tracked>, composed: seq<Job>) {
    && n.client.status.Connected? && n.client.pool == NewPool && n.client.session == session && n.client.jobs == jobs
    && n.pipe.jobs == jobs && |n.pipe.buffer| == buffered && n.pipe.tracked == tracked && n.pipe.composed == composed
    && n.pipe.send.allowance > 0 && n.done == {}
  }

  /** The event can happen and keeps the id spaces apart. */
  predicate Allowed(n: Node, e: ClientRuns.Event) {
    n.client.status.Connected? && ClientRuns.Possible(n, e) && (e.Other? ==> Apart(Abs(n), e.step))
  }

  function Stored(id: nat, content: nat, status: Status): Message {
    Message(id, content, 0, status, 0)
  }

  lemma OfferEvent(n: Node, session: Messages, jobs: seq<Job>, buffered: nat, tracked: seq<Tracked>, composed: seq<Job>, id: nat)
    requires At(n, session, jobs, buffered, tracked, composed) && 0 < id < 0x1_0000 && AllProper(jobs)
    ensures var e := ClientRuns.Other(BrokerPublishes(2, id));
            ClientRuns.Possible(n, e) && Allowed(n, e) && var m := ClientRuns.After(n, e);
            && At(m, session, jobs, buffered, tracked, composed) && m.requests == n.requests + 1
            && m.toClient == n.toClient + multiset{Offered(id, n.requests)} && m.toBroker == n.toBroker
            && m.pipe.receive == n.pipe.receive && m.pipe.accepted == n.pipe.accepted
  {
    hide Waiting, Unfired, Whole, Jobs;
  }

  lemma ArriveEvent(n: Node, session: Messages, jobs: seq<Job>, id: uint16, content: nat)
    requires At(n, session, jobs, 0, [], []) && AllProper(jobs) && Offered(id, content) in n.toClient && !Contains(session, id)
    requires n.pipe.receive.allowance > 0
    ensures var e := Handling(Offered(id, content));
            ClientRuns.Possible(n, e) && Allowed(n, e) && var m := ClientRuns.After(n, e);
            && At(m, session + [Stored(id, content, WaitingForPubRec)], jobs + [Rec(id, content)], 0, [], []) && m.requests == n.requests
            && m.toClient == n.toClient - multiset{Offered(id, content)} && m.toBroker == n.toBroker
            && m.pipe.receive.allowance >= n.pipe.receive.allowance - 1 && m.pipe.accepted == n.pipe.accepted
  {
    hide Waiting, Unfired, Whole, Jobs, Contains, Reply;
    ProperMore(jobs, Rec(id, content));
  }

  lemma ProperMore(jobs: seq<Job>, job: Job)
    requires AllProper(jobs) && SendPipes.Proper(job)
    ensures AllProper(jobs + [job])
  {
  }

  lemma TakeEvent(n: Node, session: Messages, composed: seq<Job>, id: uint16, content: nat)
    requires At(n, session, [], 0, [], composed) && JobMsg(Rec(id, content)) in n.toBroker
    ensures var e := ClientRuns.Other(BrokerTakes(JobMsg(Rec(id, content)), false));
            ClientRuns.Possible(n, e) && Allowed(n, e) && var m := ClientRuns.After(n, e);
            && At(m, session, [], 0, [], composed) && m.requests == n.requests
            && m.toClient == n.toClient + multiset{Released(id, content)} && m.toBroker == n.toBroker - multiset{JobMsg(Rec(id, content))}
  {
    hide Waiting, Unfired, Whole, Jobs;
  }

  lemma QueueEvent(n: Node, session: Messages, jobs: seq<Job>, buffered: nat, tracked: seq<Tracked>, composed: seq<Job>, job: Job)
    requires At(n, session, jobs, buffered, tracked, composed) && AllProper(jobs) && SendPipes.Proper(job) && !Carries(job.kind, job.qos)
    ensures var e := ClientRuns.Other(Queues(job));
            ClientRuns.Possible(n, e) && Allowed(n, e) && var m := ClientRuns.After(n, e);
            At(m, session, jobs + [job], buffered, tracked, composed) && m.requests == n.requests && m.toClient == n.toClient
  {
    hide Waiting, Unfired, Whole, Jobs, Carries;
    ProperMore(jobs, job);
  }

  lemma ReleaseEvent(n: Node, session: Messages, after: Messages, jobs: seq<Job>, buffered: nat, tracked: seq<Tracked>, composed: seq<Job>, id: uint16, content: nat)
    requires At(n, session, jobs, buffered, tracked, composed) && AllProper(jobs) && Released(id, content) in n.toClient
    requires Contains(session, id) && after == Update(session, id, NeedToSendPubComp, 0, 0)
    ensures var e := Handling(Released(id, content));
            ClientRuns.Possible(n, e) && Allowed(n, e) && var m := ClientRuns.After(n, e);
            && At(m, after, jobs + [Comp(id, content)], buffered, tracked, composed) && m.requests == n.requests
            && m.toClient == n.toClient - multiset{Released(id, content)}
  {
    hide Waiting, Unfired, Whole, Jobs, Contains, Reply, Update;
    ProperMore(jobs, Comp(id, content));
  }

  lemma PublishEvent(n: Node, session: Messages, buffered: nat, tracked: seq<Tracked>, composed: seq<Job>)
    requires At(n, session, [], buffered, tracked, composed) && !Contains(session, 1) && n.requests == 2
    ensures var e := ClientRuns.Other(Publishes(1, Some(Small()), 0, 0));
            ClientRuns.Possible(n, e) && Allowed(n, e) && var m := ClientRuns.After(n, e);
            && m.client.status.Connected? && m.client.pool == Pool(2, [], {1}) && m.client.session == session + [Message(1, 2, 1, WaitingForAck, 0)]
            && m.client.jobs == [Reusing()] && m.pipe.jobs == [Reusing()] && |m.pipe.buffer| == buffered && m.pipe.tracked == tracked
            && m.pipe.composed == composed && m.pipe.send.allowance > 0 && m.done == {} && 2 in m.accepted && m.accepted[2] == 1
  {
    hide Waiting, Unfired, Whole, Jobs, Contains;
    assert {} + {1} == {1};
  }

  // ---------------------------------------------------------------- the batches

  /** The two received messages. */
  function Two(first: Status, second: Status): Messages {
    [Stored(2, 0, first), Stored(1, 1, second)]
  }

  lemma UpdateTwo(first: Status, second: Status, status: Status)
    ensures Update(Two(first, second), 2, status, 0, 0) == Two(status, second)
    ensures Update(Two(first, second), 1, status, 0, 0) == Two(first, status)
    ensures Contains(Two(first, second), 1) && Contains(Two(first, second), 2)
  {
    var ms := Two(first, second);
    assert ms[0].id == 2 && ms[1].id == 1;
    assert ms[1..] == [ms[1]];
    UpdateNeverMoves(ms, 2, status, 0, 0);
    UpdateNeverMoves(ms, 1, status, 0, 0);
    hide Update;
    assert IndexOf(ms, 2) == 0 && IndexOf(ms, 1) == 1;
  }

  lemma EraseSecond(m: Message)
    requires m.id == 1
    ensures Erase([Stored(2, 0, NeedToSendPubComp), m], 1) == [Stored(2, 0, NeedToSendPubComp)]
    ensures !Contains([Stored(2, 0, NeedToSendPubComp)], 1)
  {
    var ms := [Stored(2, 0, NeedToSendPubComp), m];
    assert ms[1].id == 1 && ms[1..] == [ms[1]];
    assert IndexOf(ms, 1) == 1;
  }

  lemma OneCalled(c: Client, f: Firing, clock: nat -> nat, interval: nat, k: nat)
    ensures AllCalledBack(c, [f], clock, interval, k) == CalledBack(c, Reported(f.packet), clock(k), interval)
    ensures AllSurvived(c, [f], clock, interval, k) <==> Survives(c, Reported(f.packet))
  {
    hide CalledBack, Survives;
    assert [f][1..] == [];
    var d := CalledBack(c, Reported(f.packet), clock(k), interval);
    assert AllCalledBack(d, [], clock, interval, k + 1) == d && AllSurvived(d, [], clock, interval, k + 1);
  }

  lemma TwoCalled(c: Client, f: Firing, g: Firing, clock: nat -> nat, interval: nat, k: nat)
    ensures AllCalledBack(c, [f, g], clock, interval, k)
         == CalledBack(CalledBack(c, Reported(f.packet), clock(k), interval), Reported(g.packet), clock(k + 1), interval)
    ensures AllSurvived(c, [f, g], clock, interval, k)
       <==> Survives(c, Reported(f.packet)) && Survives(CalledBack(c, Reported(f.packet), clock(k), interval), Reported(g.packet))
  {
    CalledBackAppend(c, [f], [g], clock, interval, k);
    OneCalled(c, f, clock, interval, k);
    OneCalled(CalledBack(c, Reported(f.packet), clock(k), interval), g, clock, interval, k + 1);
    assert [f] + [g] == [f, g];
    hide CalledBack, Survives;
  }

  /** The client calls back for both PUBRECs. */
  lemma BothRecsCalled(c: Client, f: Firing, g: Firing, clock: nat -> nat, k: nat)
    requires c.session == Two(WaitingForPubRec, WaitingForPubRec) && clock(k) == clock(k + 1) == 0
    requires f.packet == Tracked(4, PublishReceived, 2, 0) && g.packet == Tracked(8, PublishReceived, 1, 1)
    ensures AllSurvived(c, [f, g], clock, 0, k)
    ensures AllCalledBack(c, [f, g], clock, 0, k) == c.(session := Two(WaitingForPubRel, WaitingForPubRel))
  {
    TwoCalled(c, f, g, clock, 0, k);
    UpdateTwo(WaitingForPubRec, WaitingForPubRec, WaitingForPubRel);
    UpdateTwo(WaitingForPubRel, WaitingForPubRec, WaitingForPubRel);
    hide Update, Contains, AllCalledBack, AllSurvived;
  }

  lemma DeliveriesOfTwo(a: Job, b: Job)
    ensures Delivery(a) in Deliveries([a, b]) && Delivery(b) in Deliveries([a, b])
  {
    hide Delivery;
    assert [a, b][1..] == [b] && [b][1..] == [];
    assert Deliveries([b]) == multiset{Delivery(b)} + Deliveries([]);
  }

  /** A batch whose outcome and callbacks are known. */
  lemma TickIs(n: Node, script: seq<Answer>, q: Pipe, more: seq<Firing>)
    requires TryBatch(n.pipe, script).0 == Sent && q == TryBatch(n.pipe, script).1 && more == Since(n.pipe.fired, q.fired)
    requires n.client.status.Connected? && Truthful(script) && NoDisconnect(q.composed)
    requires AllSurvived(n.client.(jobs := q.jobs), more, Zero, 0, |n.pipe.fired|)
    ensures ClientRuns.Possible(n, Sends(script)) && Allowed(n, Sends(script)) && var m := ClientRuns.After(n, Sends(script));
            && m.client == AllCalledBack(n.client.(jobs := q.jobs), more, Zero, 0, |n.pipe.fired|) && m.pipe == q
            && m.requests == n.requests && m.toClient == n.toClient && m.accepted == n.accepted && m.done == n.done
            && (Gone(n.pipe) <= Gone(q) ==> m.toBroker == n.toBroker + Deliveries(q.composed[Gone(n.pipe)..Gone(q)]))
  {
    hide TryBatch, AllSurvived, AllCalledBack, Deliveries, Whole, Made, NoDisconnect, Jobs, Since;
  }

  lemma FirstTick(n: Node)
    requires At(n, Two(WaitingForPubRec, WaitingForPubRec), [Rec(2, 0), Rec(1, 1)], 0, [], []) && n.pipe.accepted == []
    ensures var e := Sends([Accepted(8)]);
            ClientRuns.Possible(n, e) && Allowed(n, e) && var m := ClientRuns.After(n, e);
            && At(m, Two(WaitingForPubRel, WaitingForPubRel), [], 0, [], [Rec(2, 0), Rec(1, 1)]) && m.requests == n.requests
            && JobMsg(Rec(2, 0)) in m.toBroker && JobMsg(Rec(1, 1)) in m.toBroker
  {
    hide TryBatch, Stream, Deliveries, AllCalledBack, AllSurvived, Whole, Reply, ClientRuns.Possible, ClientRuns.After, Allowed, Two, NoDisconnect, Delivery, JobMsg;
    var p, script := n.pipe, [Accepted(8)];
    FirstBatch(p);
    var q := TryBatch(p, script).1;
    var more := Since(p.fired, q.fired);
    assert more == [more[0], more[1]];
    BothRecsCalled(n.client.(jobs := q.jobs), more[0], more[1], Zero, |p.fired|);
    NoDisconnects();
    TickIs(n, script, q, more);
    FirstGone(p, q);
    DeliveriesOfTwo(Rec(2, 0), Rec(1, 1));
    DeliveredAs(2, 0);
    DeliveredAs(1, 1);
  }

  lemma FirstGone(p: Pipe, q: Pipe)
    requires p.composed == [] && q.composed == [Rec(2, 0), Rec(1, 1)] && |q.accepted| == 8
    ensures Gone(p) == 0 && Gone(q) == 2 && q.composed[0..2] == [Rec(2, 0), Rec(1, 1)]
  {
    StreamOfTwo(Rec(2, 0), Rec(1, 1));
    JobsArePlain();
    hide Stream, Reply;
  }

  lemma DeliveredAs(id: uint16, content: nat)
    ensures Delivery(Rec(id, content)) == JobMsg(Rec(id, content))
  {
  }

  lemma NoDisconnects()
    ensures NoDisconnect([Rec(2, 0), Rec(1, 1)]) && NoDisconnect([Rec(2, 0), Rec(1, 1), Large(), Comp(2, 0)])
    ensures NoDisconnect([Rec(2, 0), Rec(1, 1), Large(), Comp(2, 0), Comp(1, 1), Ping()])
    ensures NoDisconnect([Rec(2, 0), Rec(1, 1), Large(), Comp(2, 0), Comp(1, 1), Ping(), Reusing()])
  {
  }

  lemma SecondTick(n: Node)
    requires At(n, Two(NeedToSendPubComp, WaitingForPubRel), [Large(), Comp(2, 0)], 0, [], [Rec(2, 0), Rec(1, 1)])
    ensures var e := Sends([Accepted(998), Accepted(0), Accepted(0), Accepted(0)]);
            ClientRuns.Possible(n, e) && Allowed(n, e) && var m := ClientRuns.After(n, e);
            && At(m, Two(NeedToSendPubComp, WaitingForPubRel), [], 6, [Stale()], [Rec(2, 0), Rec(1, 1), Large(), Comp(2, 0)])
            && m.requests == n.requests && m.toClient == n.toClient
  {
    hide TryBatch, Deliveries, Whole, Reply, Large, ClientRuns.Possible, ClientRuns.After, Allowed, Two, NoDisconnect;
    var p, script := n.pipe, [Accepted(998), Accepted(0), Accepted(0), Accepted(0)];
    SecondBatch(p);
    NoDisconnects();
    var q := TryBatch(p, script).1;
    assert [Rec(2, 0), Rec(1, 1)] + [Large(), Comp(2, 0)] == [Rec(2, 0), Rec(1, 1), Large(), Comp(2, 0)];
    assert Since(p.fired, q.fired) == [];
    TickIs(n, script, q, []);
  }

  /** The callback for the second PUBCOMP, on either of the messages its id may stand for. */
  lemma SecondCalled(c: Client, f: Firing, m: Message, k: nat)
    requires f.packet == Second() && c.session == [Stored(2, 0, NeedToSendPubComp), m] && m.id == 1
    ensures AllSurvived(c, [f], Zero, 0, k)
    ensures AllCalledBack(c, [f], Zero, 0, k) == c.(session := [Stored(2, 0, NeedToSendPubComp)], pool := c.pool.Release(1))
  {
    hide Erase, Pool.Release, AllCalledBack, AllSurvived;
    OneCalled(c, f, Zero, 0, k);
    EraseSecond(m);
  }

  lemma ThirdTick(n: Node)
    requires At(n, Two(NeedToSendPubComp, NeedToSendPubComp), [Comp(1, 1), Ping()], 6, [Stale()], [Rec(2, 0), Rec(1, 1), Large(), Comp(2, 0)])
    ensures var e := Sends([Accepted(10), Accepted(0), Accepted(0), Accepted(0)]);
            ClientRuns.Possible(n, e) && Allowed(n, e) && var m := ClientRuns.After(n, e);
            && At(m, [Stored(2, 0, NeedToSendPubComp)], [], 2, [Second()], [Rec(2, 0), Rec(1, 1), Large(), Comp(2, 0), Comp(1, 1), Ping()])
            && m.requests == n.requests
  {
    hide TryBatch, Deliveries, Whole, Reply, Large, ClientRuns.Possible, ClientRuns.After, Allowed, NoDisconnect, AllCalledBack, AllSurvived, Ping;
    var p, script := n.pipe, [Accepted(10), Accepted(0), Accepted(0), Accepted(0)];
    ThirdBatch(p);
    NoDisconnects();
    var q := TryBatch(p, script).1;
    assert [Rec(2, 0), Rec(1, 1), Large(), Comp(2, 0)] + [Comp(1, 1), Ping()] == [Rec(2, 0), Rec(1, 1), Large(), Comp(2, 0), Comp(1, 1), Ping()];
    var more := Since(p.fired, q.fired);
    assert more == [more[0]] && more[0].packet == Second();
    SecondCalled(n.client.(jobs := q.jobs), more[0], Stored(1, 1, NeedToSendPubComp), |p.fired|);
    TickIs(n, script, q, more);
  }

  /** The second callback for the same PUBCOMP. */
  lemma FourthTick(n: Node)
    requires n.client.status.Connected? && n.client.pool == Pool(2, [], {1})
    requires n.client.session == [Stored(2, 0, NeedToSendPubComp), Message(1, 2, 1, WaitingForAck, 0)] && n.client.jobs == n.pipe.jobs == [Reusing()]
    requires |n.pipe.buffer| == 2 && n.pipe.tracked == [Second()] && n.pipe.send.allowance > 0
    requires n.pipe.composed == [Rec(2, 0), Rec(1, 1), Large(), Comp(2, 0), Comp(1, 1), Ping()]
    ensures var e := Sends([Accepted(6)]);
            ClientRuns.Possible(n, e) && Allowed(n, e) && var m := ClientRuns.After(n, e);
            !Contains(m.client.session, 1) && 1 !in m.client.pool.used && m.accepted == n.accepted && m.done == n.done
  {
    hide TryBatch, Deliveries, Whole, Reply, Large, ClientRuns.Possible, ClientRuns.After, Allowed, NoDisconnect, AllCalledBack, AllSurvived, Ping, Reusing, Contains;
    var p, script := n.pipe, [Accepted(6)];
    FourthBatch(p);
    NoDisconnects();
    var q := TryBatch(p, script).1;
    assert [Rec(2, 0), Rec(1, 1), Large(), Comp(2, 0), Comp(1, 1), Ping()] + [Reusing()]
        == [Rec(2, 0), Rec(1, 1), Large(), Comp(2, 0), Comp(1, 1), Ping(), Reusing()];
    var more := Since(p.fired, q.fired);
    assert more == [more[0]] && more[0].packet == Second();
    SecondCalled(n.client.(jobs := q.jobs), more[0], Message(1, 2, 1, WaitingForAck, 0), |p.fired|);
    TickIs(n, script, q, more);
    EraseSecond(Message(1, 2, 1, WaitingForAck, 0));
  }

  // ---------------------------------------------------------------- the run

  /** The publish accepted under number 2 is not acknowledged, but it is gone and its id is free. */
  predicate Forgotten(n: Node) {
    2 in n.accepted && n.accepted[2] == 1 && 2 !in n.done && !Contains(n.client.session, 1) && 1 !in n.client.pool.used
  }

  ghost predicate Forgets(n: Node, k: nat)
    requires k <= |Events()|
  {
    && ClientRuns.Proceeds(n, Events()[k..]) && ClientRuns.ApartAll(n, Events()[k..])
    && Forgotten(ClientRuns.Final(n, Events()[k..]))
  }

  lemma Chain(n: Node, k: nat)
    requires k < |Events()| && n.client.status.Connected? && ClientRuns.Possible(n, Events()[k]) && Allowed(n, Events()[k])
    requires Forgets(ClientRuns.After(n, Events()[k]), k + 1)
    ensures Forgets(n, k)
  {
    hide ClientRuns.Possible, ClientRuns.After, Events, Abs, Apart, Enabled, Forgotten;
    var events := Events()[k..];
    assert events[0] == Events()[k] && events[1..] == Events()[k + 1..];
  }

  lemma EndsForgetting(n: Node)
    requires Forgotten(n)
    ensures |Events()| == 15 && Forgets(n, 15)
  {
    hide Forgotten;
    assert |Events()| == 15;
    assert Events()[15..] == [];
  }

  lemma EventsAre()
    ensures |Events()| == 15
    ensures Events()[0] == ClientRuns.Other(BrokerPublishes(2, 2)) && Events()[1] == ClientRuns.Other(BrokerPublishes(2, 1))
    ensures Events()[2] == Handling(Offered(2, 0)) && Events()[3] == Handling(Offered(1, 1)) && Events()[4] == Sends([Accepted(8)])
    ensures Events()[5] == ClientRuns.Other(BrokerTakes(JobMsg(Rec(2, 0)), false)) && Events()[6] == ClientRuns.Other(BrokerTakes(JobMsg(Rec(1, 1)), false))
    ensures Events()[7] == ClientRuns.Other(Queues(Large())) && Events()[8] == Handling(Released(2, 0))
    ensures Events()[9] == Sends([Accepted(998), Accepted(0), Accepted(0), Accepted(0)]) && Events()[10] == Handling(Released(1, 1))
    ensures Events()[11] == ClientRuns.Other(Queues(Ping())) && Events()[12] == Sends([Accepted(10), Accepted(0), Accepted(0), Accepted(0)])
    ensures Events()[13] == ClientRuns.Other(Publishes(1, Some(Small()), 0, 0)) && Events()[14] == Sends([Accepted(6)])
  {
    hide Handling, Sends, JobMsg, Rec, Large, Ping, Small, Offered, Released;
  }

  lemma Lists()
    ensures AllProper([]) && AllProper([Rec(2, 0)]) && AllProper([Large()]) && AllProper([Comp(1, 1)])
    ensures SendPipes.Proper(Large()) && SendPipes.Proper(Ping()) && !Carries(Large().kind, Large().qos) && !Carries(Ping().kind, Ping().qos)
    ensures !Contains([], 2) && !Contains([Stored(2, 0, WaitingForPubRec)], 1) && !Contains([Stored(2, 0, NeedToSendPubComp)], 1)
    ensures [Stored(2, 0, WaitingForPubRec)] + [Stored(1, 1, WaitingForPubRec)] == Two(WaitingForPubRec, WaitingForPubRec)
    ensures JobMsg(Rec(2, 0)) != JobMsg(Rec(1, 1)) && Offered(2, 0) != Offered(1, 1) && Released(2, 0) != Released(1, 1)
  {
  }

  lemma Starting()
    ensures var n := ClientRuns.NewNode(10, 10);
            At(n, [], [], 0, [], []) && n.toClient == multiset{} && n.requests == 0 && n.pipe.receive.allowance == 10 && n.pipe.accepted == []
  {
  }

  lemma ConnectedAt(n: Node, session: Messages, jobs: seq<Job>, buffered: nat, tracked: seq<Tracked>, composed: seq<Job>)
    requires At(n, session, jobs, buffered, tracked, composed)
    ensures n.client.status.Connected?
  {
  }

  /** From a pipe with both messages received and their PUBRECs called back. */
  lemma SecondHalf(n: Node)
    requires At(n, Two(WaitingForPubRel, WaitingForPubRel), [], 0, [], [Rec(2, 0), Rec(1, 1)]) && n.requests == 2
    requires Released(2, 0) in n.toClient && Released(1, 1) in n.toClient
    ensures |Events()| == 15 && Forgets(n, 7)
  {
    hide *;
    EventsAre();
    Lists();
    UpdateTwo(WaitingForPubRel, WaitingForPubRel, NeedToSendPubComp);
    UpdateTwo(NeedToSendPubComp, WaitingForPubRel, NeedToSendPubComp);
    var composed := [Rec(2, 0), Rec(1, 1)];
    QueueEvent(n, Two(WaitingForPubRel, WaitingForPubRel), [], 0, [], composed, Large());
    ConnectedAt(n, Two(WaitingForPubRel, WaitingForPubRel), [], 0, [], composed);
    var n8 := ClientRuns.After(n, Events()[7]);
    assert [] + [Large()] == [Large()];
    ConnectedAt(n8, Two(WaitingForPubRel, WaitingForPubRel), [Large()], 0, [], composed);
    ReleaseEvent(n8, Two(WaitingForPubRel, WaitingForPubRel), Two(NeedToSendPubComp, WaitingForPubRel), [Large()], 0, [], composed, 2, 0);
    var n9 := ClientRuns.After(n8, Events()[8]);
    assert [Large()] + [Comp(2, 0)] == [Large(), Comp(2, 0)];
    ConnectedAt(n9, Two(NeedToSendPubComp, WaitingForPubRel), [Large(), Comp(2, 0)], 0, [], composed);
    SecondTick(n9);
    var n10 := ClientRuns.After(n9, Events()[9]);
    var more := [Rec(2, 0), Rec(1, 1), Large(), Comp(2, 0)];
    ConnectedAt(n10, Two(NeedToSendPubComp, WaitingForPubRel), [], 6, [Stale()], more);
    ReleaseEvent(n10, Two(NeedToSendPubComp, WaitingForPubRel), Two(NeedToSendPubComp, NeedToSendPubComp), [], 6, [Stale()], more, 1, 1);
    var n11 := ClientRuns.After(n10, Events()[10]);
    assert [] + [Comp(1, 1)] == [Comp(1, 1)];
    ConnectedAt(n11, Two(NeedToSendPubComp, NeedToSendPubComp), [Comp(1, 1)], 6, [Stale()], more);
    QueueEvent(n11, Two(NeedToSendPubComp, NeedToSendPubComp), [Comp(1, 1)], 6, [Stale()], more, Ping());
    var n12 := ClientRuns.After(n11, Events()[11]);
    assert [Comp(1, 1)] + [Ping()] == [Comp(1, 1), Ping()];
    LastPart(n12);
    Chain(n11, 11);
    Chain(n10, 10);
    Chain(n9, 9);
    Chain(n8, 8);
    Chain(n, 7);
  }

  lemma LastPart(n: Node)
    requires At(n, Two(NeedToSendPubComp, NeedToSendPubComp), [Comp(1, 1), Ping()], 6, [Stale()], [Rec(2, 0), Rec(1, 1), Large(), Comp(2, 0)])
    requires n.requests == 2
    ensures |Events()| == 15 && Forgets(n, 12)
  {
    hide *;
    EventsAre();
    Lists();
    var composed := [Rec(2, 0), Rec(1, 1), Large(), Comp(2, 0), Comp(1, 1), Ping()];
    ConnectedAt(n, Two(NeedToSendPubComp, NeedToSendPubComp), [Comp(1, 1), Ping()], 6, [Stale()], [Rec(2, 0), Rec(1, 1), Large(), Comp(2, 0)]);
    ThirdTick(n);
    var n13 := ClientRuns.After(n, Events()[12]);
    ConnectedAt(n13, [Stored(2, 0, NeedToSendPubComp)], [], 2, [Second()], composed);
    PublishEvent(n13, [Stored(2, 0, NeedToSendPubComp)], 2, [Second()], composed);
    var n14 := ClientRuns.After(n13, Events()[13]);
    assert [Stored(2, 0, NeedToSendPubComp)] + [Message(1, 2, 1, WaitingForAck, 0)] == [Stored(2, 0, NeedToSendPubComp), Message(1, 2, 1, WaitingForAck, 0)];
    FourthTick(n14);
    var n15 := ClientRuns.After(n14, Events()[14]);
    ForgottenIs(n15);
    EndsForgetting(n15);
    Chain(n14, 14);
    Chain(n13, 13);
    Chain(n, 12);
  }

  lemma ForgottenIs(n: Node)
    requires 2 in n.accepted && n.accepted[2] == 1 && n.done == {} && !Contains(n.client.session, 1) && 1 !in n.client.pool.used
    ensures Forgotten(n)
  {
  }

  /** From the start: a run with the id spaces apart after which an accepted publish that nobody acknowledged is gone. */
  lemma RepeatedCallbackForgets()
    ensures var n := ClientRuns.NewNode(10, 10);
            && ClientRuns.Proceeds(n, Events()) && ClientRuns.ApartAll(n, Events()) && Forgotten(ClientRuns.Final(n, Events()))
  {
    hide *;
    EventsAre();
    Lists();
    Starting();
    var n0 := ClientRuns.NewNode(10, 10);
    ConnectedAt(n0, [], [], 0, [], []);
    OfferEvent(n0, [], [], 0, [], [], 2);
    var n1 := ClientRuns.After(n0, Events()[0]);
    ConnectedAt(n1, [], [], 0, [], []);
    OfferEvent(n1, [], [], 0, [], [], 1);
    var n2 := ClientRuns.After(n1, Events()[1]);
    Arrivals(n2);
    Chain(n1, 1);
    Chain(n0, 0);
    WholeRun(n0);
  }

  lemma Arrivals(n: Node)
    requires At(n, [], [], 0, [], []) && n.requests == 2 && n.toClient == multiset{Offered(2, 0)} + multiset{Offered(1, 1)}
    requires n.pipe.receive.allowance == 10 && n.pipe.accepted == []
    ensures |Events()| == 15 && Forgets(n, 2)
  {
    hide *;
    EventsAre();
    Lists();
    ConnectedAt(n, [], [], 0, [], []);
    ArriveEvent(n, [], [], 2, 0);
    var n3 := ClientRuns.After(n, Events()[2]);
    assert [] + [Stored(2, 0, WaitingForPubRec)] == [Stored(2, 0, WaitingForPubRec)] && [] + [Rec(2, 0)] == [Rec(2, 0)];
    ConnectedAt(n3, [Stored(2, 0, WaitingForPubRec)], [Rec(2, 0)], 0, [], []);
    ArriveEvent(n3, [Stored(2, 0, WaitingForPubRec)], [Rec(2, 0)], 1, 1);
    var n4 := ClientRuns.After(n3, Events()[3]);
    assert [Rec(2, 0)] + [Rec(1, 1)] == [Rec(2, 0), Rec(1, 1)];
    FirstHalf(n4);
    Chain(n3, 3);
    Chain(n, 2);
  }

  lemma FirstHalf(n: Node)
    requires At(n, Two(WaitingForPubRec, WaitingForPubRec), [Rec(2, 0), Rec(1, 1)], 0, [], []) && n.pipe.accepted == [] && n.requests == 2
    ensures |Events()| == 15 && Forgets(n, 4)
  {
    hide *;
    EventsAre();
    Lists();
    var composed := [Rec(2, 0), Rec(1, 1)];
    ConnectedAt(n, Two(WaitingForPubRec, WaitingForPubRec), [Rec(2, 0), Rec(1, 1)], 0, [], []);
    FirstTick(n);
    var n5 := ClientRuns.After(n, Events()[4]);
    ConnectedAt(n5, Two(WaitingForPubRel, WaitingForPubRel), [], 0, [], composed);
    TakeEvent(n5, Two(WaitingForPubRel, WaitingForPubRel), composed, 2, 0);
    var n6 := ClientRuns.After(n5, Events()[5]);
    ConnectedAt(n6, Two(WaitingForPubRel, WaitingForPubRel), [], 0, [], composed);
    TakeEvent(n6, Two(WaitingForPubRel, WaitingForPubRel), composed, 1, 1);
    var n7 := ClientRuns.After(n6, Events()[6]);
    SecondHalf(n7);
    Chain(n6, 6);
    Chain(n5, 5);
    Chain(n, 4);
  }

  lemma WholeRun(n: Node)
    requires |Events()| == 15 && Forgets(n, 0)
    ensures ClientRuns.Proceeds(n, Events()) && ClientRuns.ApartAll(n, Events()) && Forgotten(ClientRuns.Final(n, Events()))
  {
    hide Events, ClientRuns.Proceeds, ClientRuns.ApartAll, ClientRuns.Final, Forgotten;
    assert Events()[0..] == Events();
  }
}
