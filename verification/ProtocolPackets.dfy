/** Every packet a step of the protocol asks for is in the client's queue, or on its way, or with the broker: none is lost
    and none multiplied. */
module ProtocolPackets {
  import opened Bytes
  import opened Packets
  import opened ReceiveMaximum
  import opened PacketIdPools
  import opened Sessions
  import opened TopicAliasMaps
  import opened SendPipes
  import opened Clients
  import opened ClientEffects
  import opened Protocol
  import ProtocolInvariant
  import ProtocolSafety

  // ---------------------------------------------------------------- what a step asks for

  /** The packets to be sent because of a step: the request made, the job queued, the reply to a packet handled, or the
      retries of a scan (`RetryExactly` says which). */
  function Asked(s: Sys, step: Step): seq<Job>
    requires Enabled(s, step)
  {
    match step
    case Publishes(qos, encoded, _, _) => [Job(PacketType.Publish, qos, s.client.pool.Get().0, s.requests, encoded)]
    case PublishesQoS0(content, encoded) => [Job(PacketType.Publish, 0, 0, content, encoded)]
    case Subscribes(encoded) => [Job(PacketType.Subscribe, 0, s.client.pool.Get().0, s.requests, encoded)]
    case Unsubscribes(encoded) => [Job(PacketType.Unsubscribe, 0, s.client.pool.Get().0, s.requests, encoded)]
    case Queues(job) => [job]
    case Scans(now, encode) => s.client.(jobs := []).Retry(now, encode).jobs
    case Handles(m, _, _, _, _, _, _) => Answers(m)
    case _ => []
  }

  /** What a handled packet is answered by. */
  function Answers(m: Msg): seq<Job>
    requires m.id < 0x1_0000
  {
    if m.kind == PacketType.Publish && m.qos == 1 then [Job(PublishAck, 0, m.id, m.content, FourBytes(0x40, m.id))]
    else if m.kind == PacketType.Publish && m.qos == 2 then [Job(PublishReceived, 0, m.id, m.content, FourBytes(0x50, m.id))]
    else if m.kind == PublishReceived && !m.failed then [Job(PublishReleased, 0, m.id, m.content, FourBytes(0x62, m.id))]
    else if m.kind == PublishReleased then [Job(PublishComplete, 0, m.id, m.content, FourBytes(0x70, m.id))]
    else []
  }

  /** A step adds to the queue exactly what it asks for. */
  lemma StepAsks(s: Sys, step: Step)
    requires s.client.status.Connected? && !step.Composes? && Enabled(s, step)
    ensures Next(s, step).client.jobs == s.client.jobs + Asked(s, step)
  {
    assert s.client.jobs + [] == s.client.jobs;
    hide Handled, Enabled, RetryAll, Pool.Get, Answers, Transmitted, Fired, CalledBack, TakenByBroker, Offered;
    if step.Handles? {
      HandlingAsks(s, step);
    } else if step.Fires? || step.Repeats? {
      CallingAsksNothing(s, step);
    }
  }

  lemma CallingAsksNothing(s: Sys, step: Step)
    requires s.client.status.Connected? && (step.Fires? || step.Repeats?) && Enabled(s, step)
    ensures Next(s, step).client.jobs == s.client.jobs
  {
    hide Update, Erase, Pool.Release, JobMsg;
  }

  lemma HandlingAsks(s: Sys, step: Step)
    requires s.client.status.Connected? && step.Handles? && Enabled(s, step)
    ensures Next(s, step).client.jobs == s.client.jobs + Answers(step.m)
  {
    hide Client.PublishReceived, Client.PublishRecReceived, Client.PublishRelReceived, Renewed, PointersAfter, Update, Erase,
      ErasePending, Pool.Release, Window.Take, Window.Give, JobMsg, FourBytes, Handled;
    var m, c := step.m, s.client;
    ProtocolSafety.HandledBranches(s, m, step.topic, step.topicAlias, step.maximumTopicAliases, step.freed, step.now, step.interval);
    assert c.jobs + [] == c.jobs;
    if m.kind == PacketType.Publish {
      PublishAnswered(c, m.qos, m.id, step.topic, step.topicAlias, m.content, step.maximumTopicAliases, step.freed, step.now, step.interval);
    }
    AcksAnswered(c, m.id, m.content, step.now, step.interval);
  }

  // ---------------------------------------------------------------- whole runs of the protocol

  /** What the client has for the broker and the broker has not taken yet. */
  function Outgoing(s: Sys): multiset<Msg> {
    Waiting(s.client.jobs) + s.outbox + s.toBroker
  }

  /** The packets asked for in a run, and those the broker took. */
  function AskedFor(s: Sys, steps: seq<Step>): multiset<Msg>
    requires Goes(s, steps)
    decreases |steps|
  {
    if steps == [] then multiset{} else Waiting(Asked(s, steps[0])) + AskedFor(Next(s, steps[0]), steps[1..])
  }

  function TakenOf(step: Step): multiset<Msg> {
    if step.BrokerTakes? then multiset{step.m} else multiset{}
  }

  function TakenIn(steps: seq<Step>): multiset<Msg> {
    if steps == [] then multiset{} else TakenOf(steps[0]) + TakenIn(steps[1..])
  }

  /** How many copies of a packet there are, whether or not they carry their exchange on: a PUBCOMP no longer does when
      it has been sent. */
  function Copies(packets: multiset<Msg>, m: Msg): nat {
    packets[m.(live := true)] + packets[m.(live := false)]
  }

  lemma CopiesAdd(a: multiset<Msg>, b: multiset<Msg>, m: Msg)
    ensures Copies(a + b, m) == Copies(a, m) + Copies(b, m)
  {
  }

  /** One step adds the packets asked for and loses the one the broker takes. */
  lemma StepConserves(s: Sys, step: Step, m: Msg)
    requires s.client.status.Connected? && Enabled(s, step)
    ensures Copies(Outgoing(Next(s, step)), m) + Copies(TakenOf(step), m) == Copies(Outgoing(s), m) + Copies(Waiting(Asked(s, step)), m)
  {
    hide *;
    var t := Next(s, step);
    if step.Composes? {
      ComposingConserves(s, m);
    } else {
      StepAsks(s, step);
      ProtocolInvariant.WaitingAppend(s.client.jobs, Asked(s, step));
      SendingConserves(s, step, m);
      CopiesAdd(Waiting(s.client.jobs), Waiting(Asked(s, step)), m);
      ThreeParts(s, m);
      ThreeParts(t, m);
    }
  }

  lemma ThreeParts(s: Sys, m: Msg)
    ensures Copies(Outgoing(s), m) == Copies(Waiting(s.client.jobs), m) + Copies(s.outbox, m) + Copies(s.toBroker, m)
  {
    hide Waiting;
  }

  lemma ComposingConserves(s: Sys, m: Msg)
    requires s.client.status.Connected? && Enabled(s, Composes)
    ensures Copies(Outgoing(Next(s, Composes)), m) + Copies(TakenOf(Composes), m)
         == Copies(Outgoing(s), m) + Copies(Waiting(Asked(s, Composes)), m)
  {
    hide Compose, Waiting, Copies;
    var c := Compose(s.client.jobs, s.Starting());
    ProtocolSafety.ComposeSplits(s.client.jobs, s.Starting());
    NothingWaits();
    NoCopies(m);
    ComposedBags(Waiting(s.client.jobs), Waiting(c.composed), Waiting(c.delayed), s.outbox, s.toBroker);
  }

  lemma NothingWaits()
    ensures Waiting([]) == multiset{}
  {
  }

  lemma ComposedBags(queued: multiset<Msg>, composed: multiset<Msg>, delayed: multiset<Msg>, outbox: multiset<Msg>, toBroker: multiset<Msg>)
    requires multiset{} + multiset{} + queued == composed + delayed
    ensures delayed + (outbox + composed) + toBroker == queued + outbox + toBroker
  {
    assert queued == composed + delayed by {
      assert multiset{} + multiset{} + queued == queued;
    }
    assert delayed + (outbox + composed) == composed + delayed + outbox;
  }

  lemma SendingConserves(s: Sys, step: Step, m: Msg)
    requires s.client.status.Connected? && !step.Composes? && Enabled(s, step)
    ensures var t := Next(s, step);
            Copies(t.outbox, m) + Copies(t.toBroker, m) + Copies(TakenOf(step), m) == Copies(s.outbox, m) + Copies(s.toBroker, m)
  {
    NotTaken(step, m);
    hide *;
    if step.Transmits? {
      TransmitConserves(s, step, m);
    } else if step.BrokerTakes? {
      TakingConserves(s, step, m);
    } else {
      OthersSendNothing(s, step);
    }
  }

  lemma NotTaken(step: Step, m: Msg)
    ensures !step.BrokerTakes? ==> Copies(TakenOf(step), m) == 0
  {
  }

  lemma OthersSendNothing(s: Sys, step: Step)
    requires s.client.status.Connected? && !step.Composes? && !step.Transmits? && !step.BrokerTakes? && Enabled(s, step)
    ensures Next(s, step).outbox == s.outbox && Next(s, step).toBroker == s.toBroker
  {
    hide Handled, CalledBack, Client.Publish, Client.Subscribe, Client.Unsubscribe, Client.Retry, Legal, Handleable, Survives, Enabled, JobMsg;
    match step
    case Publishes(_, _, _, _) => RequestingSendsNothing(s, step);
    case Subscribes(_) => RequestingSendsNothing(s, step);
    case Unsubscribes(_) => RequestingSendsNothing(s, step);
    case Handles(_, _, _, _, _, _, _) => HandlingSendsNothing(s, step);
    case _ =>
  }

  /** A packet goes from the outbox to the channel, a PUBCOMP as one that is no longer live. */
  lemma TransmitConserves(s: Sys, step: Step, m: Msg)
    requires s.client.status.Connected? && step.Transmits? && Enabled(s, step)
    ensures var t := Next(s, step);
            Copies(t.outbox, m) + Copies(t.toBroker, m) + Copies(TakenOf(step), m) == Copies(s.outbox, m) + Copies(s.toBroker, m)
  {
    var x := step.m;
    var y := if x.kind == PublishComplete then x.(live := false) else x;
    hide Copies;
    NoCopies(m);
    CopiesAdd(s.outbox - multiset{x}, multiset{x}, m);
    assert s.outbox - multiset{x} + multiset{x} == s.outbox;
    CopiesAdd(s.toBroker, multiset{y}, m);
    SameCopies(x, m);
  }

  lemma SameCopies(x: Msg, m: Msg)
    ensures Copies(multiset{x}, m) == Copies(multiset{x.(live := false)}, m)
  {
  }

  lemma TakingConserves(s: Sys, step: Step, m: Msg)
    requires s.client.status.Connected? && step.BrokerTakes? && Enabled(s, step)
    ensures var t := Next(s, step);
            Copies(t.outbox, m) + Copies(t.toBroker, m) + Copies(TakenOf(step), m) == Copies(s.outbox, m) + Copies(s.toBroker, m)
  {
    hide Copies, BrokerReply;
    CopiesAdd(s.toBroker - multiset{step.m}, multiset{step.m}, m);
    assert s.toBroker - multiset{step.m} + multiset{step.m} == s.toBroker;
  }

  lemma RequestingSendsNothing(s: Sys, step: Step)
    requires s.client.status.Connected? && (step.Publishes? || step.Subscribes? || step.Unsubscribes?) && Enabled(s, step)
    ensures Next(s, step).outbox == s.outbox && Next(s, step).toBroker == s.toBroker
  {
    hide JobMsg, Pool.Get, Add;
  }

  lemma HandlingSendsNothing(s: Sys, step: Step)
    requires s.client.status.Connected? && step.Handles? && Enabled(s, step)
    ensures Next(s, step).outbox == s.outbox && Next(s, step).toBroker == s.toBroker
  {
    hide Client.PublishReceived, Client.PublishRecReceived, Client.PublishRelReceived, Client.Forget, Client.SubscribeAckReceived,
      Client.UnsubscribeAckReceived, Legal, Window.Take, Window.Give, JobMsg, Reply;
  }

  /** Over every run every packet asked for has its copy: in the queue, composed, on the channel, or with the broker. */
  lemma {:induction false} PacketsConserved(s: Sys, steps: seq<Step>, m: Msg)
    requires Goes(s, steps)
    ensures Copies(Outgoing(Reached(s, steps)), m) + Copies(TakenIn(steps), m) == Copies(Outgoing(s), m) + Copies(AskedFor(s, steps), m)
    decreases |steps|
  {
    hide Outgoing, Copies, TakenOf, Asked, Waiting, Enabled, Next;
    if steps == [] {
      NoCopies(m);
    } else {
      var t, rest := Next(s, steps[0]), steps[1..];
      StepConserves(s, steps[0], m);
      PacketsConserved(t, rest, m);
      CopiesAdd(TakenOf(steps[0]), TakenIn(rest), m);
      CopiesAdd(Waiting(Asked(s, steps[0])), AskedFor(t, rest), m);
    }
  }

  lemma NoCopies(m: Msg)
    ensures Copies(multiset{}, m) == 0
  {
  }

  // ---------------------------------------------------------------- acknowledgements of QoS 1

  /** How often these steps handle a QoS 1 PUBLISH with the id and number, or are asked for its PUBACK directly. */
  function Owed(steps: seq<Step>, id: nat, content: nat): nat {
    if steps == [] then 0
    else (if OwesAck(steps[0], id, content) then 1 else 0) + Owed(steps[1..], id, content)
  }

  predicate OwesAck(step: Step, id: nat, content: nat) {
    match step
    case Handles(m, _, _, _, _, _, _) => m.kind == PacketType.Publish && m.qos == 1 && m.id == id && m.content == content
    case Queues(job) => job.kind == PublishAck && job.qos == 0 && job.id == id && job.content == content
    case _ => false
  }

  function Ack(id: nat, content: nat): Msg {
    Msg(PublishAck, 0, id, content, false, false, false)
  }

  lemma {:induction false} NoneAmong(jobs: seq<Job>, m: Msg)
    requires forall j :: j in jobs ==> j.kind != m.kind
    ensures Copies(Waiting(jobs), m) == 0
  {
    if jobs != [] {
      NoneAmong(jobs[1..], m);
    }
  }

  lemma {:induction false} RetriesNoAck(due: Messages, encode: Message -> Option<seq<byte>>)
    ensures forall j :: j in RetryAll(due, encode) ==> j.kind != PublishAck
  {
    if due != [] {
      RetriesNoAck(due[1..], encode);
      assert forall j :: j in RetryJobs(due[0], encode(due[0])) ==> j.kind != PublishAck;
      hide RetryJobs;
    }
  }

  lemma AskedOnce(job: Job, m: Msg)
    ensures Copies(Waiting([job]), m) == if JobMsg(job).(live := m.live) == m then 1 else 0
  {
    assert [job][1..] == [];
    assert Waiting([job]) == multiset{JobMsg(job)};
  }

  lemma AckAsked(s: Sys, step: Step, id: nat, content: nat)
    requires Enabled(s, step)
    ensures Copies(Waiting(Asked(s, step)), Ack(id, content)) == if OwesAck(step, id, content) then 1 else 0
  {
    hide Waiting, RetryAll, Scan, Copies, Enabled, FourBytes, Pool.Get;
    var asked, a := Asked(s, step), Ack(id, content);
    if step.Scans? {
      RetriesNoAck(Scan(s.client.session, step.now), step.encode);
      RetriesAlone(s.client, step.now, step.encode);
    }
    if |asked| == 1 && asked[0].kind == PublishAck {
      assert asked == [asked[0]];
      AskedOnce(asked[0], a);
    } else {
      NoneAmong(asked, a);
    }
  }

  lemma RetriesAlone(c: Client, now: nat, encode: Message -> Option<seq<byte>>)
    ensures c.(jobs := []).Retry(now, encode).jobs == RetryAll(Scan(c.session, now), encode)
  {
    hide RetryAll, Scan;
  }

  lemma {:induction false} AcksAsked(s: Sys, steps: seq<Step>, id: nat, content: nat)
    requires Goes(s, steps)
    ensures Copies(AskedFor(s, steps), Ack(id, content)) == Owed(steps, id, content)
    decreases |steps|
  {
    hide Copies, Asked, Waiting, Enabled, Next, OwesAck, Ack;
    if steps == [] {
      NoCopies(Ack(id, content));
    } else {
      var t, rest := Next(s, steps[0]), steps[1..];
      AckAsked(s, steps[0], id, content);
      AcksAsked(t, rest, id, content);
      CopiesAdd(Waiting(Asked(s, steps[0])), AskedFor(t, rest), Ack(id, content));
    }
  }

  /** Over every run from the start of a connection, guarded or not: as many PUBACKs with an id and a number are queued,
      composed, on the channel or taken by the broker as QoS 1 PUBLISHes with them have been handled. */
  lemma EachQoS1Acknowledged(steps: seq<Step>, clientMaximum: nat, brokerMaximum: nat, id: nat, content: nat)
    requires Goes(NewSys(clientMaximum, brokerMaximum), steps)
    ensures var s, ack := Reached(NewSys(clientMaximum, brokerMaximum), steps), Ack(id, content);
            Copies(Waiting(s.client.jobs), ack) + Copies(s.outbox, ack) + Copies(s.toBroker, ack) + Copies(TakenIn(steps), ack)
            == Owed(steps, id, content)
  {
    var s := NewSys(clientMaximum, brokerMaximum);
    assert Outgoing(s) == multiset{};
    hide *;
    NoCopies(Ack(id, content));
    PacketsConserved(s, steps, Ack(id, content));
    AcksAsked(s, steps, id, content);
    ThreeParts(Reached(s, steps), Ack(id, content));
  }
}
