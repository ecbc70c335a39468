/** The client and a broker it reaches over two channels, as one state machine: sections 2.2.1, 4.3.2 and
    4.3.3 of MQTT Version 5.0. The channels may deliver in any order, so what holds here holds for FIFO ones. */
module Protocol {
  import opened Bytes
  import opened Packets
  import opened ReceiveMaximum
  import opened PacketIdPools
  import opened Sessions
  import opened TopicAliasMaps
  import opened SendPipes
  import opened Clients
  import ReceiveQueues

  /** A packet, or a "sent" callback, under way. `content` numbers the exchange it belongs to: each request of
      ours and each PUBLISH of the broker has its own number, which the sources' packets do not carry. `mine`
      tells whose request began the exchange. An exchange moves on with its one `live` packet; the rest,
      such as a callback that only notes a status, are not live. */
  datatype Msg = Msg(kind: PacketType, qos: nat, id: nat, content: nat, mine: bool, failed: bool, live: bool)

  /** My exchanges are told apart by packet id, which is what id safety is about; the broker's by number. */
  datatype Key = Mine(id: nat) | Theirs(content: nat)

  function KeyOf(m: Msg): Key {
    if m.mine then Mine(m.id) else Theirs(m.content)
  }

  predicate PublishFlow(kind: PacketType) {
    kind in {PacketType.Publish, PublishAck, PublishReceived, PublishReleased, PublishComplete}
  }

  predicate SubscribeFlow(kind: PacketType) {
    kind in {PacketType.Subscribe, SubscribeAck}
  }

  predicate UnsubscribeFlow(kind: PacketType) {
    kind in {PacketType.Unsubscribe, UnsubscribeAck}
  }

  /** The packets the client sends that carry an exchange. */
  predicate Carries(kind: PacketType, qos: nat) {
    || (kind == PacketType.Publish && qos > 0)
    || kind in {PublishReceived, PublishReleased, PublishComplete, PacketType.Subscribe, PacketType.Unsubscribe}
  }

  /** Those of them that belong to an exchange of ours. */
  predicate OfMine(kind: PacketType) {
    kind in {PacketType.Publish, PublishReleased, PacketType.Subscribe, PacketType.Unsubscribe}
  }

  function JobMsg(job: Job): Msg {
    Msg(job.kind, job.qos, job.id, job.content, OfMine(job.kind), false, Carries(job.kind, job.qos))
  }

  function Waiting(jobs: seq<Job>): multiset<Msg> {
    if jobs == [] then multiset{} else multiset{JobMsg(jobs[0])} + Waiting(jobs[1..])
  }

  /** `outbox` holds what is composed and not yet accepted whole, `unfired` the callbacks not yet made, `made` those
      that were made once.
      `requests` counts exchanges, `exchanges` is the history of the open ones, `accepted` of the publishes
      the application was given an id for, `done` of those finally acknowledged. */
  datatype Sys = Sys(client: Client, receive: Window, send: Window,
                     outbox: multiset<Msg>, toBroker: multiset<Msg>, toClient: multiset<Msg>, unfired: multiset<Msg>,
                     made: set<Msg>, requests: nat, exchanges: map<Key, Msg>, accepted: map<nat, nat>, done: set<nat>) {

    function All(): multiset<Msg> {
      Waiting(client.jobs) + outbox + toBroker + toClient + unfired
    }

    function Starting(): Composing {
      Composing([], [], 0, None, [], receive, send, false)
    }
  }

  function NewSys(clientMaximum: nat, brokerMaximum: nat): Sys {
    Sys(Client(Connected, NewPool, [], [], [], [], []), Window(clientMaximum, clientMaximum, {}),
        Window(brokerMaximum, brokerMaximum, {}), multiset{}, multiset{}, multiset{}, multiset{}, {}, 0, map[], map[], {})
  }

  datatype Step =
    | Publishes(qos: nat, encoded: Option<seq<byte>>, now: nat, interval: nat)
    | PublishesQoS0(content: nat, encoded: Option<seq<byte>>)
    | Subscribes(encoded: Option<seq<byte>>)
    | Unsubscribes(encoded: Option<seq<byte>>)
    | Queues(job: Job)
    | Scans(now: nat, encode: Message -> Option<seq<byte>>)
    | Composes
    | Transmits(m: Msg)
    | Fires(m: Msg, now: nat, interval: nat)
    | Repeats(m: Msg, now: nat, interval: nat)
    | BrokerTakes(m: Msg, failed: bool)
    | BrokerPublishes(qos: nat, id: nat)
    | Handles(m: Msg, topic: string, topicAlias: Option<nat>, maximumTopicAliases: nat, freed: string,
              now: nat, interval: nat)

  /** What the broker answers to a packet it takes: it acknowledges what it received, and nothing else. */
  function BrokerReply(m: Msg, failed: bool): Msg {
    match m.kind
    case Publish => m.(kind := if m.qos == 1 then PublishAck else PublishReceived, failed := failed)
    case PublishReceived => m.(kind := PublishReleased)
    case PublishReleased => m.(kind := PublishComplete)
    case Subscribe => m.(kind := SubscribeAck)
    case _ => m.(kind := UnsubscribeAck)
  }

  /** The program survives the callback: noting a status looks through a null pointer when the session has no
      such message, and releasing an id ends the program when the bitset has no such index. */
  predicate Survives(c: Client, m: Msg) {
    if m.kind in {PublishReceived, PublishReleased} then Contains(c.session, m.id) else m.id < POOL_SIZE
  }

  /** The program survives the handling: the handler of a PUBREL notes a status, and those of acknowledgements
      release an id. */
  predicate Handleable(c: Client, m: Msg) {
    match m.kind
    case Publish => true
    case PublishReleased => Contains(c.session, m.id)
    case PublishReceived => m.failed ==> m.id < POOL_SIZE
    case _ => m.id < POOL_SIZE
  }

  /** When a step can happen in a connection that goes on. */
  predicate Enabled(s: Sys, step: Step) {
    match step
    case Publishes(qos, _, _, _) => 1 <= qos <= 2 && s.client.pool.CanGet()
    case PublishesQoS0(_, _) => true
    case Subscribes(_) => s.client.pool.CanGet()
    case Unsubscribes(_) => s.client.pool.CanGet()
    case Queues(job) => !Carries(job.kind, job.qos)
    case Scans(_, _) => true
    case Composes => !Compose(s.client.jobs, s.Starting()).failed
    case Transmits(m) => m in s.outbox && m.kind != PacketType.Disconnect
    case Fires(m, _, _) => m in s.unfired && Survives(s.client, m)
    case Repeats(m, _, _) => m in s.made && Survives(s.client, m)
    case BrokerTakes(m, _) => m in s.toBroker
    case BrokerPublishes(qos, id) => qos <= 2 && id < 0x1_0000 && (qos > 0 <==> id > 0)
    case Handles(m, topic, topicAlias, max, _, _, _) =>
      && m in s.toClient && m.id < 0x1_0000 && Handleable(s.client, m)
      && (m.kind == PacketType.Publish ==>
            && Legal(max, Published(topic, topicAlias))
            && (m.qos > 0 ==> s.receive.Take(m.id).0))
  }

  /** A retry of the message leaves its exchange with one packet: it sends nothing, or a QoS 0 echo of a received one. */
  predicate RetriedIdly(c: Client, m: Message) {
    m.status == NeedToSendPubComp || (m.status == WaitingForPubRec && m.id !in c.pool.used)
  }

  /** The two id spaces stay apart: the client takes no id for a request that an unfinished QoS 2 message of the
      broker has, and the broker takes none for a QoS 2 message that the client uses or that the session has;
      when the callback for a PUBCOMP is made again, nobody has taken its id since. And a scan for retries sends no
      second copy of a packet under way. */
  predicate Apart(s: Sys, step: Step)
    requires Enabled(s, step)
  {
    match step
    case Publishes(_, _, _, _) => !Contains(s.client.session, s.client.pool.Get().0)
    case Subscribes(_) => !Contains(s.client.session, s.client.pool.Get().0)
    case Unsubscribes(_) => !Contains(s.client.session, s.client.pool.Get().0)
    case Handles(m, _, _, _, _, _, _) =>
      m.kind == PacketType.Publish && m.qos == 2 ==> m.id !in s.client.pool.used && !Contains(s.client.session, m.id)
    case Repeats(m, _, _) =>
      m.kind !in {PublishReceived, PublishReleased} ==> m.id !in s.client.pool.used && !Contains(s.client.session, m.id)
    case Scans(now, _) => forall m :: m in Scan(s.client.session, now) ==> RetriedIdly(s.client, m)
    case _ => true
  }

  function Next(s: Sys, step: Step): Sys
    requires Enabled(s, step) && s.client.status.Connected?
  {
    match step
    case Publishes(qos, encoded, now, interval) =>
      Requested(s, s.client.Publish(qos, s.requests, encoded, now, interval).1)
    case PublishesQoS0(content, encoded) => s.(client := s.client.Publish(0, content, encoded, 0, 0).1)
    case Subscribes(encoded) =>
      Requested(s, s.client.Subscribe(1, 0, true, s.requests, encoded).1)
    case Unsubscribes(encoded) =>
      Requested(s, s.client.Unsubscribe(1, s.requests, encoded).1)
    case Queues(job) => s.(client := s.client.Queue(job))
    case Scans(now, encode) => s.(client := s.client.Retry(now, encode))
    case Composes => ComposedOnce(s)
    case Transmits(m) => Transmitted(s, m)
    case Fires(m, now, interval) => Fired(s, m, now, interval)
    case Repeats(m, now, interval) => s.(client := CalledBack(s.client, m, now, interval))
    case BrokerTakes(m, failed) => TakenByBroker(s, m, failed)
    case BrokerPublishes(qos, id) => Offered(s, qos, id)
    case Handles(m, topic, topicAlias, max, freed, now, interval) => Handled(s, m, topic, topicAlias, max, freed, now, interval)
  }

  /** A QoS 0 publish is a job in the queue and nothing else. */
  lemma QoS0IsQueued(s: Sys, step: Step)
    requires step.PublishesQoS0? && s.client.status.Connected?
    ensures Next(s, step) == s.(client := s.client.Queue(Job(PacketType.Publish, 0, 0, step.content, step.encoded)))
  {
  }

  function Requested(s: Sys, client: Client): Sys
    requires client.jobs != []
  {
    var m := JobMsg(client.jobs[|client.jobs| - 1]);
    s.(client := client, requests := s.requests + 1, exchanges := s.exchanges[Mine(m.id) := m],
       accepted := if m.kind == PacketType.Publish then s.accepted[m.content := m.id] else s.accepted)
  }

  function ComposedOnce(s: Sys): Sys {
    var c := Compose(s.client.jobs, s.Starting());
    s.(client := s.client.(jobs := c.delayed), outbox := s.outbox + Waiting(c.composed), receive := c.receive, send := c.send)
  }

  /** All bytes of a packet have been accepted. A PUBCOMP ends the exchange for the broker, but the client is
      through with it only at the callback. */
  function Transmitted(s: Sys, m: Msg): Sys {
    s.(outbox := s.outbox - multiset{m},
       toBroker := s.toBroker + multiset{if m.kind == PublishComplete then m.(live := false) else m},
       unfired := s.unfired + (if m.kind == PublishComplete then multiset{m}
                               else if m.kind in {PublishReceived, PublishReleased} then multiset{m.(live := false)}
                               else multiset{}))
  }

  function CalledBack(c: Client, m: Msg, now: nat, interval: nat): Client {
    match m.kind
    case PublishReceived => c.PubRecSent(m.id, now, interval)
    case PublishReleased => c.PubRelSent(m.id, now, interval)
    case _ => c.PubCompSent(m.id)
  }

  function Fired(s: Sys, m: Msg, now: nat, interval: nat): Sys {
    s.(unfired := s.unfired - multiset{m}, made := s.made + {m}, client := CalledBack(s.client, m, now, interval),
       exchanges := if m.kind in {PublishReceived, PublishReleased} then s.exchanges else s.exchanges - {KeyOf(m)})
  }

  function TakenByBroker(s: Sys, m: Msg, failed: bool): Sys {
    var taken := s.(toBroker := s.toBroker - multiset{m});
    if !m.live then taken
    else taken.(toClient := s.toClient + multiset{BrokerReply(m, failed)}, exchanges := s.exchanges[KeyOf(m) := BrokerReply(m, failed)])
  }

  function Offer(s: Sys, qos: nat, id: nat): Msg {
    Msg(PacketType.Publish, qos, id, s.requests, false, false, qos == 2)
  }

  function Offered(s: Sys, qos: nat, id: nat): Sys {
    var m := Offer(s, qos, id);
    s.(requests := s.requests + 1, toClient := s.toClient + multiset{m},
       exchanges := if qos == 2 then s.exchanges[KeyOf(m) := m] else s.exchanges)
  }

  function Handled(s: Sys, m: Msg, topic: string, topicAlias: Option<nat>, max: nat, freed: string, now: nat, interval: nat): Sys
    requires m.id < 0x1_0000
  {
    var rest := s.(toClient := s.toClient - multiset{m});
    match m.kind
    case Publish => PublishHandled(rest, m, topic, topicAlias, max, freed, now, interval)
    case PublishReleased => PubRelHandled(rest, m, now, interval)
    case PublishReceived => if m.failed then Finished(rest, m) else PubRecHandled(rest, m)
    case SubscribeAck => SubAckHandled(rest, m)
    case UnsubscribeAck => UnsubAckHandled(rest, m)
    case _ => Finished(rest, m)
  }

  function PublishHandled(s: Sys, m: Msg, topic: string, topicAlias: Option<nat>, max: nat, freed: string, now: nat, interval: nat): Sys
    requires m.id < 0x1_0000
  {
    s.(client := s.client.PublishReceived(m.qos, m.id, topic, topicAlias, m.content, max, freed, now, interval),
       receive := if m.qos > 0 then s.receive.Take(m.id).1 else s.receive,
       exchanges := if m.qos == 2 then s.exchanges[KeyOf(m) := JobMsg(Reply(PublishReceived, m.id, m.content))] else s.exchanges)
  }

  function PubRelHandled(s: Sys, m: Msg, now: nat, interval: nat): Sys
    requires m.id < 0x1_0000
  {
    s.(client := s.client.PublishRelReceived(m.id, m.content, now, interval),
       exchanges := s.exchanges[KeyOf(m) := JobMsg(Reply(PublishComplete, m.id, m.content))])
  }

  function PubRecHandled(s: Sys, m: Msg): Sys
    requires m.id < 0x1_0000
  {
    s.(client := s.client.PublishRecReceived(m.id, false, m.content),
       exchanges := s.exchanges[KeyOf(m) := JobMsg(Reply(PublishReleased, m.id, m.content))])
  }

  function SubAckHandled(s: Sys, m: Msg): Sys {
    s.(client := s.client.SubscribeAckReceived(m.id), exchanges := s.exchanges - {KeyOf(m)})
  }

  function UnsubAckHandled(s: Sys, m: Msg): Sys {
    s.(client := s.client.UnsubscribeAckReceived(m.id), exchanges := s.exchanges - {KeyOf(m)})
  }

  /** A PUBACK, a PUBCOMP or a failing PUBREC. */
  function Finished(s: Sys, m: Msg): Sys {
    s.(client := s.client.Forget(m.id), send := s.send.Give(m.id), exchanges := s.exchanges - {KeyOf(m)}, done := s.done + {m.content})
  }

  /** A run of a connection that goes on. */
  predicate Goes(s: Sys, steps: seq<Step>)
    decreases |steps|
  {
    steps == [] || (s.client.status.Connected? && Enabled(s, steps[0]) && Goes(Next(s, steps[0]), steps[1..]))
  }

  function Reached(s: Sys, steps: seq<Step>): Sys
    requires Goes(s, steps)
    decreases |steps|
  {
    if steps == [] then s else Reached(Next(s, steps[0]), steps[1..])
  }

  /** The two id spaces stay apart all along. */
  predicate KeptApart(s: Sys, steps: seq<Step>)
    requires Goes(s, steps)
    decreases |steps|
  {
    steps == [] || (Apart(s, steps[0]) && KeptApart(Next(s, steps[0]), steps[1..]))
  }

  /** A packet of the broker as the receive queue decodes it. */
  function Decoding(m: Msg, topic: string, topicAlias: Option<nat>): Inbound {
    match m.kind
    case Publish => Pub(m.qos, m.id, topic, topicAlias)
    case PublishAck => PubAck(m.id)
    case PublishReceived => PubRec(m.id, m.failed)
    case PublishReleased => PubRel(m.id)
    case PublishComplete => PubComp(m.id)
    case SubscribeAck => SubAck(m.id)
    case _ => UnsubAck(m.id)
  }

  /** Both windows move here as the receive queue moves them; it refuses only packets that end the connection. */
  lemma WindowsAsDispatched(s: Sys, step: Step)
    requires step.Handles? && Enabled(s, step) && s.client.status.Connected?
    requires step.m.kind in {PacketType.Publish, PublishAck, PublishReceived, PublishReleased, PublishComplete, SubscribeAck, UnsubscribeAck}
    ensures ReceiveQueues.Account(Decoding(step.m, step.topic, step.topicAlias), s.receive, s.send)
         == Some((Next(s, step).receive, Next(s, step).send))
  {
    hide Window.Take, Window.Give, Legal;
  }
}
