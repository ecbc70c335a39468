/** Whole runs of the client with its real pipeline: what the protocol promises holds of them as well, and where a
    callback made twice ends it. */
module ClientRuns {
  import opened Bytes
  import opened Packets
  import opened ReceiveMaximum
  import opened PacketIdPools
  import opened Sessions
  import opened TopicAliasMaps
  import opened SendPipes
  import opened SendPipeProperties
  import opened Clients
  import opened Protocol
  import opened ProtocolInvariant
  import opened ProtocolSafety
  import opened ProtocolPromises
  import opened InboundQoS2
  import opened PipelineRefinement
  import ProtocolSurvival
  import SendPipeRuns

  // ---------------------------------------------------------------- runs

  /** A request, a packet handled, or a step of the broker; or a batch of the send queue. */
  datatype Event = Other(step: Step) | Batch(script: seq<Answer>, clock: nat -> nat, interval: nat)

  /** Not one of the steps batches are made of. */
  predicate Outside(step: Step) {
    !step.Composes? && !step.Transmits? && !step.Fires? && !step.Repeats?
  }

  predicate Possible(n: Node, e: Event)
    requires n.client.status.Connected?
  {
    match e
    case Other(step) => Outside(step) && Enabled(Abs(n), step) && AllProper(Next(Abs(n), step).client.jobs)
    case Batch(script, clock, interval) => BatchGoesOn(n, script, clock, interval)
  }

  function After(n: Node, e: Event): Node
    requires n.client.status.Connected? && Possible(n, e)
  {
    match e
    case Other(step) => Stepped(n, Next(Abs(n), step))
    case Batch(script, clock, interval) => Ticked(n, script, clock, interval)
  }

  function Stepped(n: Node, s: Sys): Node {
    Node(s.client, n.pipe.(jobs := s.client.jobs, receive := s.receive, send := s.send), s.toBroker, s.toClient, n.made,
         s.requests, s.exchanges, s.accepted, s.done)
  }

  /** Only batches send and call back. */
  predicate SendsNothing(s: Sys, t: Sys) {
    t.client.status == s.client.status && t.outbox == s.outbox && t.unfired == s.unfired && t.made == s.made
  }

  lemma HandlingSendsNothing(s: Sys, step: Step)
    requires step.Handles? && Enabled(s, step)
    ensures SendsNothing(s, Handled(s, step.m, step.topic, step.topicAlias, step.maximumTopicAliases, step.freed, step.now, step.interval))
  {
    var m := step.m;
    hide PointersAfter, Update, Add, Erase, ErasePending, Pool.Release, Window.Take, Window.Give, Reply, JobMsg, BrokerReply;
    HandledBranches(s, m, step.topic, step.topicAlias, step.maximumTopicAliases, step.freed, step.now, step.interval);
    hide Handled;
    match m.kind
    case Publish =>
    case PublishReleased =>
    case PublishReceived =>
    case _ =>
  }

  lemma OutsideKeeps(s: Sys, step: Step)
    requires s.client.status.Connected? && Outside(step) && Enabled(s, step)
    ensures SendsNothing(s, Next(s, step))
  {
    hide Legal, Handled, Add, Pool.Get, SendPipes.Compose, JobMsg, BrokerReply;
    if step.Publishes? || step.Subscribes? || step.Unsubscribes? {
      var job, m, now, interval := NextAsks(s, step);
    } else if step.Handles? {
      HandlingSendsNothing(s, step);
    }
  }

  lemma OtherRefines(n: Node, step: Step)
    requires NodeOk(n) && Possible(n, Other(step))
    ensures NodeOk(After(n, Other(step))) && Leads(Abs(n), [step], Abs(After(n, Other(step))))
  {
    hide Enabled, Next, Outside, Waiting, Unfired, Jobs, Whole, Marked, NoDisconnect, AllDescribe, NoneEarly, Callbacks, Stream, AllProper;
    OutsideKeeps(Abs(n), step);
    OneStep(Abs(n), step);
  }

  ghost predicate Proceeds(n: Node, events: seq<Event>)
    decreases |events|
  {
    events == [] || (n.client.status.Connected? && Possible(n, events[0]) && Proceeds(After(n, events[0]), events[1..]))
  }

  ghost function Final(n: Node, events: seq<Event>): Node
    requires Proceeds(n, events)
    decreases |events|
  {
    if events == [] then n else Final(After(n, events[0]), events[1..])
  }

  /** The guard of the protocol's promises: no request and no packet handled makes the two id spaces meet. */
  ghost predicate ApartAll(n: Node, events: seq<Event>)
    requires Proceeds(n, events)
    decreases |events|
  {
    events == []
    || ((events[0].Other? ==> Apart(Abs(n), events[0].step)) && ApartAll(After(n, events[0]), events[1..]))
  }

  lemma {:induction false} KeptApartOn(s: Sys, a: seq<Step>, b: seq<Step>)
    requires Goes(s, a) && KeptApart(s, a) && Goes(Reached(s, a), b) && KeptApart(Reached(s, a), b)
    ensures Goes(s, a + b) && KeptApart(s, a + b)
    decreases |a|
  {
    hide Enabled, Next, Apart;
    GoesOn(s, a, b);
    if a == [] {
      assert a + b == b;
    } else {
      assert (a + b)[1..] == a[1..] + b;
      KeptApartOn(Next(s, a[0]), a[1..], b);
    }
  }

  predicate NoRepeats(steps: seq<Step>) {
    forall i :: 0 <= i < |steps| ==> !steps[i].Repeats?
  }

  /** Sending and calling back for the first time never make the id spaces meet. */
  lemma {:induction false} SendingIsApart(s: Sys, steps: seq<Step>)
    requires Goes(s, steps) && NoRepeats(steps)
    requires forall i :: 0 <= i < |steps| ==> steps[i].Composes? || steps[i].Transmits? || steps[i].Fires?
    ensures KeptApart(s, steps)
    decreases |steps|
  {
    hide Enabled, Next;
    if steps != [] {
      SendingIsApart(Next(s, steps[0]), steps[1..]);
    }
  }

  lemma BatchIsApart(s: Sys, steps: seq<Step>, t: Sys)
    requires Leads(s, steps, t) && BatchSteps(steps, true)
    ensures KeptApart(s, steps) && NoRepeats(steps)
  {
    hide Goes, Reached;
    if steps != [] {
      assert forall i :: 1 <= i < |steps| ==> steps[i] == steps[1..][i - 1];
    }
    SendingIsApart(s, steps);
  }

  /** Callbacks made stay made. */
  lemma AfterFires(n: Node, e: Event)
    requires n.client.status.Connected? && Possible(n, e)
    ensures n.pipe.fired <= After(n, e).pipe.fired
  {
    hide Next, Enabled, Compose, SendLoop, Whole, Made, PipelineRefinement.Closed, Deliveries, AllCalledBack;
    if e.Batch? && n.pipe.jobs != [] {
      var c := Compose(n.pipe.jobs, n.pipe.Start());
      ComposeExtends(n.pipe.jobs, n.pipe.Start());
      if !c.failed {
        LoopShape(c.ping, n.pipe.Sending(c, e.script), 0);
      }
    }
  }

  lemma {:induction false} FinalFires(n: Node, events: seq<Event>)
    requires Proceeds(n, events)
    ensures n.pipe.fired <= Final(n, events).pipe.fired
    decreases |events|
  {
    hide Possible, After;
    if events != [] {
      AfterFires(n, events[0]);
      FinalFires(After(n, events[0]), events[1..]);
    }
  }

  lemma OnceBefore(a: seq<Firing>, b: seq<Firing>)
    requires a <= b && Once(b)
    ensures Once(a)
  {
    assert forall i :: 0 <= i < |a| ==> a[i] == b[i];
  }

  /** The steps of an event: its own, or those of its batch; and the steps of a run, in order. */
  ghost function EventOf(n: Node, e: Event): seq<Step> {
    match e
    case Other(step) => [step]
    case Batch(script, clock, interval) => BatchStepsOf(n.pipe, script, clock, interval)
  }

  ghost function StepsOf(n: Node, events: seq<Event>): seq<Step>
    requires Proceeds(n, events)
    decreases |events|
  {
    if events == [] then [] else EventOf(n, events[0]) + StepsOf(After(n, events[0]), events[1..])
  }

  /** One event is a run of the protocol, without repetitions if each packet is announced once, and then apart if
      the event is. */
  lemma EventRefines(n: Node, e: Event)
    requires NodeOk(n) && Possible(n, e)
    ensures NodeOk(After(n, e)) && Leads(Abs(n), EventOf(n, e), Abs(After(n, e)))
    ensures Once(After(n, e).pipe.fired) && (e.Other? ==> Apart(Abs(n), e.step)) ==>
              KeptApart(Abs(n), EventOf(n, e)) && NoRepeats(EventOf(n, e))
  {
    assert n.client.status.Connected?;
    hide NodeOk, Abs, Ticked, Once, Apart, Enabled, Next, Leads, KeptApart, NoRepeats, BatchGoesOn, Stepped, BatchSteps, TryBatch, BatchStepsOf;
    match e
    case Other(step) =>
      OtherRefines(n, step);
      OneApart(Abs(n), step, Abs(After(n, e)));
    case Batch(script, clock, interval) => BatchEvent(n, script, clock, interval);
  }

  lemma BatchEvent(n: Node, script: seq<Answer>, clock: nat -> nat, interval: nat)
    requires NodeOk(n) && BatchGoesOn(n, script, clock, interval)
    ensures var m, steps := Ticked(n, script, clock, interval), BatchStepsOf(n.pipe, script, clock, interval);
            && NodeOk(m) && Leads(Abs(n), steps, Abs(m))
            && (Once(m.pipe.fired) ==> KeptApart(Abs(n), steps) && NoRepeats(steps))
  {
    hide *;
    var m := Ticked(n, script, clock, interval);
    BatchRefines(n, script, clock, interval);
    TickedPipe(n, script, clock, interval);
    if Once(m.pipe.fired) {
      BatchIsApart(Abs(n), BatchStepsOf(n.pipe, script, clock, interval), Abs(m));
    }
  }

  lemma OneApart(s: Sys, step: Step, t: Sys)
    requires Leads(s, [step], t) && Outside(step)
    ensures Enabled(s, step) && (Apart(s, step) ==> KeptApart(s, [step]) && NoRepeats([step]))
  {
    hide Enabled, Next, Apart;
    var steps := [step];
    assert Goes(s, steps) && steps[0] == step && steps[1..] == [];
  }

  /** Every run of the client with its real pipeline is a run of the protocol, that of its events' steps; if no packet
      was announced twice, one without repetitions, and apart if the run's events are. */
  lemma {:induction false} RunRefines(n: Node, events: seq<Event>)
    requires NodeOk(n) && Proceeds(n, events)
    ensures NodeOk(Final(n, events)) && Leads(Abs(n), StepsOf(n, events), Abs(Final(n, events)))
    ensures Once(Final(n, events).pipe.fired) && ApartAll(n, events) ==>
              KeptApart(Abs(n), StepsOf(n, events)) && NoRepeats(StepsOf(n, events))
    decreases |events|
  {
    hide NodeOk, Abs, Once, Possible, After, Leads, KeptApart, NoRepeats, Goes, Reached, Apart, EventOf;
    if events == [] {
      NoEvents(n);
    } else {
      var m, f := After(n, events[0]), Final(n, events);
      EventRefines(n, events[0]);
      RunRefines(m, events[1..]);
      FinalFires(m, events[1..]);
      var first, rest := EventOf(n, events[0]), StepsOf(m, events[1..]);
      LeadsOn(Abs(n), first, Abs(m), rest, Abs(f));
      if Once(f.pipe.fired) && ApartAll(n, events) {
        OnceBefore(m.pipe.fired, f.pipe.fired);
        ApartOn(Abs(n), first, Abs(m), rest, Abs(f));
      }
    }
  }

  lemma NoEvents(n: Node)
    ensures Leads(Abs(n), [], Abs(n)) && KeptApart(Abs(n), []) && NoRepeats([])
  {
    hide Abs;
  }

  lemma ApartOn(s: Sys, a: seq<Step>, t: Sys, b: seq<Step>, u: Sys)
    requires Leads(s, a, t) && Leads(t, b, u) && KeptApart(s, a) && KeptApart(t, b) && NoRepeats(a) && NoRepeats(b)
    ensures Goes(s, a + b) && KeptApart(s, a + b) && NoRepeats(a + b)
  {
    hide KeptApart, Goes, Reached;
    KeptApartOn(s, a, b);
  }

  // ---------------------------------------------------------------- the guard of the pipeline

  /** Every batch of the run meets the guard. */
  ghost predicate AllInFront(n: Node, events: seq<Event>)
    requires Proceeds(n, events)
    decreases |events|
  {
    events == []
    || ((events[0].Batch? ==> SendPipeRuns.InFront(n.pipe, events[0].script)) && AllInFront(After(n, events[0]), events[1..]))
  }

  /** A run leaves all callbacks in order if and only if every batch meets the guard. */
  lemma {:induction false} RunIsOrderlyExactly(n: Node, events: seq<Event>)
    requires Proceeds(n, events)
    ensures Final(n, events).pipe.orderly <==> n.pipe.orderly && AllInFront(n, events)
    decreases |events|
  {
    hide Possible, After, SendPipeRuns.InFront;
    if events != [] {
      AfterIsOrderlyExactly(n, events[0]);
      RunIsOrderlyExactly(After(n, events[0]), events[1..]);
    }
  }

  lemma AfterIsOrderlyExactly(n: Node, e: Event)
    requires n.client.status.Connected? && Possible(n, e)
    ensures After(n, e).pipe.orderly <==> n.pipe.orderly && (e.Batch? ==> SendPipeRuns.InFront(n.pipe, e.script))
  {
    hide Next, Enabled, TryBatch, SendPipeRuns.InFront, Whole, Made, PipelineRefinement.Closed, Deliveries, AllCalledBack;
    if e.Batch? {
      SendPipeRuns.BatchIsOrderlyExactly(n.pipe, e.script);
    }
  }

  // ---------------------------------------------------------------- from the start of a connection

  function NewNode(clientMaximum: nat, brokerMaximum: nat): Node {
    Node(Client(Connected, NewPool, [], [], [], [], []),
         Pipe([], [], [], Window(clientMaximum, clientMaximum, {}), Window(brokerMaximum, brokerMaximum, {}), [], [], [], [], true),
         multiset{}, multiset{}, {}, 0, map[], map[], {})
  }

  lemma NewNodeOk(clientMaximum: nat, brokerMaximum: nat)
    ensures NodeOk(NewNode(clientMaximum, brokerMaximum))
    ensures Abs(NewNode(clientMaximum, brokerMaximum)) == NewSys(clientMaximum, brokerMaximum)
  {
  }

  /** The promises to the application and to the broker for the client with its real pipeline: over any run of
      requests, packets handled and batches in which every notification pass keeps to the front and the id spaces
      stay apart, with `s` the client, its channels and what is left to send and to call back. */
  lemma ClientPromises(events: seq<Event>, clientMaximum: nat, brokerMaximum: nat)
    requires Proceeds(NewNode(clientMaximum, brokerMaximum), events) && ApartAll(NewNode(clientMaximum, brokerMaximum), events)
    requires AllInFront(NewNode(clientMaximum, brokerMaximum), events)
    ensures var s := Abs(Final(NewNode(clientMaximum, brokerMaximum), events));
            && IdsSafe(s)
            && (forall r :: r in s.accepted ==> (Kept(s.client, s.accepted[r], r) <==> r !in s.done))
            && (forall id: nat :: id in s.send.ids <==> LivePublish(s.client, id) && !StillQueued(s.client.jobs, id))
            && |s.send.ids| + s.send.allowance == brokerMaximum
  {
    hide NodeOk, Proceeds, ApartAll, AllInFront, Final, Abs, Goes, Reached, KeptApart, IdsSafe, Kept, LivePublish, StillQueued, NewNode, NewSys;
    var n := NewNode(clientMaximum, brokerMaximum);
    NewNodeOk(clientMaximum, brokerMaximum);
    RunRefines(n, events);
    NewIsOrderly(clientMaximum, brokerMaximum);
    RunIsOrderlyExactly(n, events);
    FinalOnce(Final(n, events));
    ProtocolPromises.ProtocolPromises(StepsOf(n, events), clientMaximum, brokerMaximum);
  }

  lemma NewIsOrderly(clientMaximum: nat, brokerMaximum: nat)
    ensures NewNode(clientMaximum, brokerMaximum).pipe.orderly
  {
  }

  lemma FinalOnce(n: Node)
    requires NodeOk(n) && n.pipe.orderly
    ensures Once(n.pipe.fired)
  {
    hide SendPipeRuns.PipeOk, Marked, NoDisconnect, Jobs, Whole;
    SendPipeRuns.OrderlyAnnouncesOnce(n.pipe);
  }

  // ---------------------------------------------------------------- where a callback made twice ends it

  /** Of two PUBCOMPs the first stands with an offset from before an earlier part was sent, so a part of 12 bytes
      covers only the second: it is called back, but the first is erased, and the second stays to be called back
      again. */
  lemma RepeatedPubCompCounterexample()
    ensures var ms := [Tracked(1004, PublishComplete, 1, 0), Tracked(10, PublishComplete, 2, 1)];
            && Pass(ms, 12) == [1] && !SendPipeRuns.FrontOnly(ms, 12)
            && ms[|Pass(ms, 12)|..] == [ms[1]] && Fire(ms, Pass(ms, 12), 0)[0].packet == ms[1]
  {
    var ms := [Tracked(1004, PublishComplete, 1, 0), Tracked(10, PublishComplete, 2, 1)];
    assert PassFrom(ms, 12, 2, 1) == [];
    assert PassFrom(ms, 12, 1, 0) == [1] + [];
    assert PassFrom(ms, 12, 0, 0) == [1];
    assert 12 >= ms[1].endByte;
  }

  /** And what the second callback does when the id has been given to a publish in between: the accepted message is
      forgotten and its id is free again, although it is on its way. */
  lemma RepeatedCallbackCounterexample(c: Client, qos: nat, content: nat, encoded: Option<seq<byte>>, now: nat, interval: nat)
    requires c.status.Connected? && c.pool.Valid() && c.pool.CanGet() && qos >= 1
    requires DistinctIds(c.session) && !Contains(c.session, c.pool.Get().0)
    ensures var (r, d) := c.Publish(qos, content, encoded, now, interval);
            && r.Done? && Contains(d.session, r.id) && r.id in d.pool.used
            && var e := d.PubCompSent(r.id);
               !Contains(e.session, r.id) && r.id !in e.pool.used && e.jobs == d.jobs && e.jobs[|e.jobs| - 1].id == r.id
  {
    var (r, d) := c.Publish(qos, content, encoded, now, interval);
    GetKeepsValid(c.pool);
    ReleaseKeepsValid(d.pool, r.id);
    AddHeld(c.session, r.id, content, qos, now, interval);
    assert d.session[|c.session|].id == r.id;
    ProtocolSurvival.ErasedIsGone(d.session, r.id);
    hide Erase, DistinctIds, Pool.Get, Pool.Release;
  }
}
