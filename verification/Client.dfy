/** The client's requests and its handlers of the QoS protocols: packet ids, session, pending lists, send jobs. */
module Clients {
  import opened Bytes
  import opened Packets
  import opened PacketIdPools
  import opened Sessions
  import opened TopicAliasMaps
  import opened SendPipes
  import opened SendQueues

  datatype ConnectionStatus = Disconnected | Connecting | Connected | Reconnecting

  datatype ClientErrorCode = NotConnected | InvalidArgument | SubscribeIdentifiersNotSupported

  datatype ReqResult = Done(id: nat) | Refused(error: ClientErrorCode)

  /** A SUBSCRIBE or UNSUBSCRIBE whose acknowledgement is awaited; `content` stands for its topics. */
  datatype Pending = Pending(id: nat, content: nat)

  function FindPending(pending: seq<Pending>, id: nat): (i: nat)
    ensures i <= |pending| && (i < |pending| ==> pending[i].id == id)
    ensures forall k :: 0 <= k < i ==> pending[k].id != id
  {
    if pending == [] || pending[0].id == id then 0 else FindPending(pending[1..], id) + 1
  }

  function ErasePending(pending: seq<Pending>, id: nat): seq<Pending> {
    var i := FindPending(pending, id);
    if i == |pending| then pending else pending[..i] + pending[i + 1..]
  }

  predicate IsReply(kind: PacketType) {
    kind in {PublishAck, PublishReceived, PublishReleased, PublishComplete}
  }

  function FirstByte(kind: PacketType): byte
    requires IsReply(kind)
  {
    match kind
    case PublishAck => 0x40
    case PublishReceived => 0x50
    case PublishReleased => 0x62
    case _ => 0x70
  }

  /** A reply with reason code success and no properties. Its `content` is a history value: the exchange it
      belongs to, which the source's job does not carry. */
  function Reply(kind: PacketType, id: uint16, content: nat): (job: Job)
    requires IsReply(kind)
    ensures SendPipes.Proper(job)
  {
    Job(kind, 0, id, content, Some([FirstByte(kind), 2] + U16Bytes(id)))
  }

  predicate HoldsId(job: Job) {
    job.kind in {PacketType.Publish, PacketType.Subscribe, PacketType.Unsubscribe}
  }

  /** Cancelling jobs gives the ids of requests back. */
  function Cancel(pool: Pool, jobs: seq<Job>): Pool
    decreases |jobs|
  {
    if jobs == [] then pool
    else Cancel(if HoldsId(jobs[0]) then pool.Release(jobs[0].id) else pool, jobs[1..])
  }

  function ReleasePending(pool: Pool, pending: seq<Pending>): Pool
    decreases |pending|
  {
    if pending == [] then pool else ReleasePending(pool.Release(pending[0].id), pending[1..])
  }

  /** The packet a retry sends, decided by the status alone. */
  function RetryJobs(m: Message, encoded: Option<seq<byte>>): seq<Job> {
    match m.status
    case WaitingForAck => [Job(PacketType.Publish, m.qos, m.id, m.content, encoded)]
    case WaitingForPubRec => [Job(PacketType.Publish, m.qos, m.id, m.content, encoded)]
    case WaitingForPubRel => if m.id < 0x1_0000 then [Reply(PublishReceived, m.id, m.content)] else []
    case WaitingForPubComp => if m.id < 0x1_0000 then [Reply(PublishReleased, m.id, m.content)] else []
    case NeedToSendPubComp => []
  }

  function RetryAll(due: Messages, encode: Message -> Option<seq<byte>>): seq<Job> {
    if due == [] then [] else RetryJobs(due[0], encode(due[0])) + RetryAll(due[1..], encode)
  }

  datatype Client = Client(status: ConnectionStatus, pool: Pool, session: Messages, subs: seq<Pending>,
                           unsubs: seq<Pending>, aliases: Entries<Name>, jobs: seq<Job>) {

    predicate CanRequest() {
      status.Connected? ==> pool.CanGet()
    }

    function Publish(qos: nat, content: nat, encoded: Option<seq<byte>>, now: nat, retryInterval: nat): (ReqResult, Client)
      requires qos >= 1 ==> CanRequest()
    {
      if !status.Connected? then (Refused(NotConnected), this)
      else if qos == 0 then (Done(0), this.(jobs := jobs + [Job(PacketType.Publish, 0, 0, content, encoded)]))
      else
        var (id, rest) := pool.Get();
        (Done(id), this.(pool := rest,
                         session := Add(session, id, content, qos, now, retryInterval),
                         jobs := jobs + [Job(PacketType.Publish, qos, id, content, encoded)]))
    }

    function Subscribe(topics: nat, identifier: nat, supported: bool, content: nat, encoded: Option<seq<byte>>): (ReqResult, Client)
      requires CanRequest()
    {
      if !status.Connected? then (Refused(NotConnected), this)
      else if topics == 0 then (Refused(InvalidArgument), this)
      else if !supported && identifier > 0 then (Refused(SubscribeIdentifiersNotSupported), this)
      else
        var (id, rest) := pool.Get();
        (Done(id), this.(pool := rest, subs := subs + [Pending(id, content)],
                         jobs := jobs + [Job(PacketType.Subscribe, 0, id, content, encoded)]))
    }

    function Unsubscribe(topics: nat, content: nat, encoded: Option<seq<byte>>): (ReqResult, Client)
      requires CanRequest()
    {
      if !status.Connected? then (Refused(NotConnected), this)
      else if topics == 0 then (Refused(InvalidArgument), this)
      else
        var (id, rest) := pool.Get();
        (Done(id), this.(pool := rest, unsubs := unsubs + [Pending(id, content)],
                         jobs := jobs + [Job(PacketType.Unsubscribe, 0, id, content, encoded)]))
    }

    function Queue(job: Job): Client {
      this.(jobs := jobs + [job])
    }

    /** The message is done: out of the session, its id given back. */
    function Forget(id: nat): Client {
      this.(session := Erase(session, id), pool := pool.Release(id))
    }

    function PublishRecReceived(id: uint16, failed: bool, content: nat): Client {
      if failed then Forget(id) else Queue(Reply(PublishReleased, id, content))
    }

    function PublishRelReceived(id: uint16, content: nat, now: nat, retryInterval: nat): Client {
      this.(session := Update(session, id, NeedToSendPubComp, now, retryInterval)).Queue(Reply(PublishComplete, id, content))
    }

    /** The id goes back whether or not a pending request was found for it. */
    function SubscribeAckReceived(id: nat): Client {
      this.(subs := ErasePending(subs, id), pool := pool.Release(id))
    }

    function UnsubscribeAckReceived(id: nat): Client {
      this.(unsubs := ErasePending(unsubs, id), pool := pool.Release(id))
    }

    /** A received QoS 2 message enters the session with default options, that is with QoS 0. `content` also
        stands for the packet's topic string, and `freed` is what a topic string that is gone reads as. */
    function PublishReceived(qos: nat, id: uint16, topic: string, topicAlias: Option<nat>, content: nat,
                             maximumTopicAliases: nat, freed: string, now: nat, retryInterval: nat): Client
    {
      var p := Published(topic, topicAlias);
      if !Legal(maximumTopicAliases, p) then InternalDisconnect(None, true)
      else
        var c := this.(aliases := PointersAfter(aliases, maximumTopicAliases, content, p, freed));
        if qos == 1 then c.Queue(Reply(PublishAck, id, content))
        else if qos == 2 then
          c.(session := Add(session, id, content, 0, now, retryInterval)).Queue(Reply(PacketType.PublishReceived, id, content))
        else c
    }

    function PubCompSent(id: nat): Client {
      Forget(id)
    }

    function PubRecSent(id: nat, now: nat, retryInterval: nat): Client {
      this.(session := Update(session, id, WaitingForPubRel, now, retryInterval))
    }

    function PubRelSent(id: nat, now: nat, retryInterval: nat): Client {
      this.(session := Update(session, id, WaitingForPubComp, now, retryInterval))
    }

    /** The DISCONNECT has been sent: the connection is over, and the jobs stay until the next batch cancels them. */
    function DisconnectSent(): Client {
      this.(status := Disconnected, pool := ReleasePending(pool, subs), subs := [], aliases := [])
    }

    function Retry(now: nat, encode: Message -> Option<seq<byte>>): Client {
      this.(jobs := jobs + RetryAll(Scan(session, now), encode))
    }

    /** Graceful: a DISCONNECT with these bytes is queued. Otherwise the pending subscriptions are dropped, and the
        jobs are cancelled if the queue is to be cleared. Session and pending unsubscriptions stay. */
    function InternalDisconnect(graceful: Option<Option<seq<byte>>>, clearQueue: bool): Client {
      if status.Disconnected? then this
      else if graceful.Some? then Queue(Job(PacketType.Disconnect, 0, 0, 0, graceful.value))
      else
        this.(status := Disconnected,
              pool := ReleasePending(if clearQueue then Cancel(pool, jobs) else pool, subs),
              subs := [], aliases := [], jobs := if clearQueue then [] else jobs)
    }
  }

  class MqttClientImpl {
    var connectionStatus: ConnectionStatus
    var pendingSubscriptions: seq<Pending>
    var pendingUnSubscriptions: seq<Pending>
    const packetIdPool: PacketIdPool
    const sessionState: SessionState
    const topicAliases: TopicAliases
    const sendQueue: SendQueue

    ghost predicate Valid()
      reads this, packetIdPool, packetIdPool.usedIds, sendQueue, sendQueue.sendBuffer
    {
      packetIdPool.Valid() && sendQueue.Valid()
    }

    function State(): Client
      reads this, packetIdPool, packetIdPool.usedIds, sessionState, topicAliases, sendQueue, sendQueue.sendBuffer
      requires Valid()
    {
      Client(connectionStatus, packetIdPool.State(), sessionState.messages, pendingSubscriptions,
             pendingUnSubscriptions, topicAliases.topicAliasToNameMap, sendQueue.Jobs())
    }

    constructor (packetIdPool: PacketIdPool, sessionState: SessionState, topicAliases: TopicAliases, sendQueue: SendQueue)
      requires packetIdPool.Valid() && sendQueue.Valid()
      ensures Valid() && this.packetIdPool == packetIdPool && this.sessionState == sessionState
      ensures this.topicAliases == topicAliases && this.sendQueue == sendQueue
      ensures State() == Client(Disconnected, packetIdPool.State(), sessionState.messages, [], [],
                                topicAliases.topicAliasToNameMap, sendQueue.Jobs())
    {
      connectionStatus := Disconnected;
      pendingSubscriptions, pendingUnSubscriptions := [], [];
      this.packetIdPool := packetIdPool;
      this.sessionState := sessionState;
      this.topicAliases := topicAliases;
      this.sendQueue := sendQueue;
    }

    method Publish(qos: nat, content: nat, encoded: Option<seq<byte>>, now: nat) returns (result: ReqResult)
      requires Valid() && (qos >= 1 ==> State().CanRequest())
      requires encoded.Some? ==> |encoded.value| >= 2
      requires qos >= 1 && connectionStatus.Connected? ==> !Contains(sessionState.messages, packetIdPool.State().Get().0)
      modifies packetIdPool, packetIdPool.usedIds, sessionState, sendQueue
      ensures Valid() && (result, State()) == old(State()).Publish(qos, content, encoded, now, sessionState.retryInterval)
    {
      if connectionStatus != Connected {
        return Refused(NotConnected);
      }
      var packetId := 0;
      if qos >= 1 {
        packetId := packetIdPool.GetId();
        sessionState.AddMessage(packetId, content, qos, now);
      }
      sendQueue.AddToQueue(Job(PacketType.Publish, qos, packetId, content, encoded));
      return Done(packetId);
    }

    method Subscribe(topics: nat, identifier: nat, supported: bool, content: nat, encoded: Option<seq<byte>>)
      returns (result: ReqResult)
      requires Valid() && State().CanRequest() && (encoded.Some? ==> |encoded.value| >= 2)
      modifies this`pendingSubscriptions, packetIdPool, packetIdPool.usedIds, sendQueue
      ensures Valid() && (result, State()) == old(State()).Subscribe(topics, identifier, supported, content, encoded)
    {
      if connectionStatus != Connected {
        return Refused(NotConnected);
      }
      if topics == 0 {
        return Refused(InvalidArgument);
      }
      if !supported && identifier > 0 {
        return Refused(SubscribeIdentifiersNotSupported);
      }
      var packetId := packetIdPool.GetId();
      pendingSubscriptions := pendingSubscriptions + [Pending(packetId, content)];
      sendQueue.AddToQueue(Job(PacketType.Subscribe, 0, packetId, content, encoded));
      return Done(packetId);
    }

    method UnSubscribe(topics: nat, content: nat, encoded: Option<seq<byte>>) returns (result: ReqResult)
      requires Valid() && State().CanRequest() && (encoded.Some? ==> |encoded.value| >= 2)
      modifies this`pendingUnSubscriptions, packetIdPool, packetIdPool.usedIds, sendQueue
      ensures Valid() && (result, State()) == old(State()).Unsubscribe(topics, content, encoded)
    {
      if connectionStatus != Connected {
        return Refused(NotConnected);
      }
      if topics == 0 {
        return Refused(InvalidArgument);
      }
      var packetId := packetIdPool.GetId();
      pendingUnSubscriptions := pendingUnSubscriptions + [Pending(packetId, content)];
      sendQueue.AddToQueue(Job(PacketType.Unsubscribe, 0, packetId, content, encoded));
      return Done(packetId);
    }

    method HandleReceivedPublishAck(id: uint16)
      requires Valid() && id < POOL_SIZE
      modifies packetIdPool, packetIdPool.usedIds, sessionState
      ensures Valid() && State() == old(State()).Forget(id)
    {
      sessionState.RemoveMessage(id);
      packetIdPool.ReleaseId(id);
    }

    method HandleReceivedPublishComp(id: uint16)
      requires Valid() && id < POOL_SIZE
      modifies packetIdPool, packetIdPool.usedIds, sessionState
      ensures Valid() && State() == old(State()).Forget(id)
    {
      sessionState.RemoveMessage(id);
      packetIdPool.ReleaseId(id);
    }

    method HandleReceivedPublishRec(id: uint16, failed: bool, content: nat)
      requires Valid() && (failed ==> id < POOL_SIZE)
      modifies packetIdPool, packetIdPool.usedIds, sessionState, sendQueue
      ensures Valid() && State() == old(State()).PublishRecReceived(id, failed, content)
    {
      if failed {
        sessionState.RemoveMessage(id);
        packetIdPool.ReleaseId(id);
      } else {
        sendQueue.AddToQueue(Reply(PublishReleased, id, content));
      }
    }

    method HandleReceivedPublishRel(id: uint16, content: nat, now: nat) returns (survived: bool)
      requires Valid()
      modifies sessionState, sendQueue
      ensures Valid() && survived == Contains(old(sessionState.messages), id)
      ensures State() == if survived then old(State()).PublishRelReceived(id, content, now, sessionState.retryInterval) else old(State())
    {
      hide Update;
      UpdateKeepsAbsent(sessionState.messages, id, NeedToSendPubComp, now, sessionState.retryInterval);
      survived := sessionState.UpdateMessage(id, NeedToSendPubComp, now);
      if survived {
        sendQueue.AddToQueue(Reply(PublishComplete, id, content));
      }
    }

    method HandleReceivedSubscribeAcknowledge(id: uint16) returns (found: bool)
      requires Valid() && id < POOL_SIZE
      modifies this`pendingSubscriptions, packetIdPool, packetIdPool.usedIds
      ensures Valid() && State() == old(State()).SubscribeAckReceived(id)
      ensures found <==> exists p :: p in old(pendingSubscriptions) && p.id == id
    {
      var i := 0;
      ghost var before := pendingSubscriptions;
      assert before[0..] == before;
      while i < |pendingSubscriptions| && pendingSubscriptions[i].id != id
        invariant i <= |pendingSubscriptions| && FindPending(before, id) == i + FindPending(before[i..], id)
      {
        assert before[i..][1..] == before[i + 1..];
        i := i + 1;
      }
      found := i < |pendingSubscriptions|;
      if found {
        pendingSubscriptions := pendingSubscriptions[..i] + pendingSubscriptions[i + 1..];
      }
      packetIdPool.ReleaseId(id);
    }

    method HandleReceivedUnSubscribeAcknowledge(id: uint16) returns (found: bool)
      requires Valid() && id < POOL_SIZE
      modifies this`pendingUnSubscriptions, packetIdPool, packetIdPool.usedIds
      ensures Valid() && State() == old(State()).UnsubscribeAckReceived(id)
      ensures found <==> exists p :: p in old(pendingUnSubscriptions) && p.id == id
    {
      var i := 0;
      ghost var before := pendingUnSubscriptions;
      assert before[0..] == before;
      while i < |pendingUnSubscriptions| && pendingUnSubscriptions[i].id != id
        invariant i <= |pendingUnSubscriptions| && FindPending(before, id) == i + FindPending(before[i..], id)
      {
        assert before[i..][1..] == before[i + 1..];
        i := i + 1;
      }
      found := i < |pendingUnSubscriptions|;
      if found {
        pendingUnSubscriptions := pendingUnSubscriptions[..i] + pendingUnSubscriptions[i + 1..];
      }
      packetIdPool.ReleaseId(id);
    }

    method FirePublishReceivedEvent(qos: nat, id: uint16, topic: string, topicAlias: Option<nat>, content: nat,
                                    maximumTopicAliases: nat, freed: string, now: nat)
      returns (delivered: Option<string>)
      requires Valid() && AllReleasable()
      requires qos == 2 ==> id != 0 && !Contains(sessionState.messages, id)
      modifies this, packetIdPool, packetIdPool.usedIds, sessionState, topicAliases, sendQueue
      ensures Valid()
      ensures State() == old(State()).PublishReceived(qos, id, topic, topicAlias, content, maximumTopicAliases, freed, now,
                                                      sessionState.retryInterval)
      ensures var r := Delivered(old(State()).aliases, maximumTopicAliases, content, Published(topic, topicAlias), freed);
              delivered == if r.Deliver? then Some(r.topic) else None
    {
      hide Find, Cancel, ReleasePending, BindPointer;
      delivered := None;
      var topicName := topic;
      if topicAlias.Some? {
        if maximumTopicAliases == 0 {
          HandleInternalDisconnect(None, true);
          return;
        }
        if topicAlias.value <= 0 || topicAlias.value > maximumTopicAliases {
          HandleInternalDisconnect(None, true);
          return;
        }
        if topicName == "" {
          BindsNothing(topicAliases.topicAliasToNameMap, content, topicAlias.value, freed);
          var found := topicAliases.TryFindTopicName(topicAlias.value);
          if found.Some? {
            topicName := Read(found.value, content, topic, freed);
          }
        } else {
          var added := topicAliases.TryAddTopicAlias(topicName, content, topicAlias.value, freed);
        }
      } else if topicName == "" {
        HandleInternalDisconnect(None, true);
        return;
      }
      delivered := Some(topicName);
      if qos == 1 {
        sendQueue.AddToQueue(Reply(PublishAck, id, content));
      } else if qos == 2 {
        sessionState.AddMessage(id, content, 0, now);
        sendQueue.AddToQueue(Reply(PublishReceived, id, content));
      }
    }

    method HandlePubCompSentEvent(id: uint16)
      requires Valid() && 0 < id < POOL_SIZE
      modifies packetIdPool, packetIdPool.usedIds, sessionState
      ensures Valid() && State() == old(State()).PubCompSent(id)
    {
      sessionState.RemoveMessage(id);
      packetIdPool.ReleaseId(id);
    }

    method HandlePubRecSentEvent(id: uint16, now: nat) returns (survived: bool)
      requires Valid() && id != 0
      modifies sessionState
      ensures Valid() && survived == Contains(old(sessionState.messages), id)
      ensures State() == old(State()).PubRecSent(id, now, sessionState.retryInterval)
    {
      survived := sessionState.UpdateMessage(id, WaitingForPubRel, now);
    }

    method HandlePubRelSentEvent(id: uint16, now: nat) returns (survived: bool)
      requires Valid() && id != 0
      modifies sessionState
      ensures Valid() && survived == Contains(old(sessionState.messages), id)
      ensures State() == old(State()).PubRelSent(id, now, sessionState.retryInterval)
    {
      survived := sessionState.UpdateMessage(id, WaitingForPubComp, now);
    }

    method TickPendingPublishMessageRetries(now: nat, encode: Message -> Option<seq<byte>>)
      requires Valid() && forall m :: encode(m).Some? ==> |encode(m).value| >= 2
      requires forall m :: m in sessionState.messages ==> m.id < 0x1_0000
      modifies sendQueue
      ensures Valid() && State() == old(State()).Retry(now, encode)
    {
      var i := 0;
      var msgs := sessionState.messages;
      ghost var before := sendQueue.Jobs();
      assert msgs[0..] == msgs;
      hide RetryJobs, RetryAll;
      while i < |msgs|
        invariant Valid() && i <= |msgs|
        invariant before + RetryAll(Scan(msgs, now), encode) == sendQueue.Jobs() + RetryAll(Scan(msgs[i..], now), encode)
        invariant sendQueue.sendBuffer == old(sendQueue.sendBuffer)
      {
        var msg := msgs[i];
        assert msgs[i..][1..] == msgs[i + 1..] && msg in sessionState.messages;
        if msg.nextRetryTime >= now {
          break;
        }
        RetryStep(sendQueue.Jobs(), msgs[i..], now, encode);
        QueueRetry(msg, encode(msg));
        i := i + 1;
      }
      NothingToRetry(sendQueue.Jobs(), msgs[i..], now, encode);
    }

    /** The body of the loop: the packet for one due message. */
    method QueueRetry(msg: Message, encoded: Option<seq<byte>>)
      requires Valid() && msg.id < 0x1_0000 && (encoded.Some? ==> |encoded.value| >= 2)
      modifies sendQueue
      ensures Valid() && sendQueue.Jobs() == old(sendQueue.Jobs()) + RetryJobs(msg, encoded)
      ensures sendQueue.sendBuffer == old(sendQueue.sendBuffer)
    {
      if msg.status == WaitingForAck || msg.status == WaitingForPubRec {
        sendQueue.AddToQueue(Job(PacketType.Publish, msg.qos, msg.id, msg.content, encoded));
      } else if msg.status == WaitingForPubRel {
        sendQueue.AddToQueue(Reply(PublishReceived, msg.id, msg.content));
      } else if msg.status == WaitingForPubComp {
        sendQueue.AddToQueue(Reply(PublishReleased, msg.id, msg.content));
      } else {
        assert sendQueue.Jobs() + [] == sendQueue.Jobs();
      }
    }

    /** The ids a disconnect may have to release lie within the bitset. */
    ghost predicate AllReleasable()
      reads this, sendQueue, sendQueue.sendBuffer
      requires sendQueue.Valid()
    {
      && (forall i :: 0 <= i < |sendQueue.Jobs()| && HoldsId(sendQueue.Jobs()[i]) ==> sendQueue.Jobs()[i].id < POOL_SIZE)
      && (forall i :: 0 <= i < |pendingSubscriptions| ==> pendingSubscriptions[i].id < POOL_SIZE)
    }

    method HandleInternalDisconnect(graceful: Option<Option<seq<byte>>>, clearQueue: bool)
      requires Valid() && AllReleasable()
      requires graceful.Some? && graceful.value.Some? ==> |graceful.value.value| >= 2
      modifies this, packetIdPool, packetIdPool.usedIds, topicAliases, sendQueue
      ensures Valid() && State() == old(State()).InternalDisconnect(graceful, clearQueue)
    {
      if connectionStatus == Disconnected {
        return;
      }
      if graceful.Some? {
        sendQueue.AddToQueue(Job(PacketType.Disconnect, 0, 0, 0, graceful.value));
        return;
      }
      if clearQueue {
        var cancelled := sendQueue.ClearQueue(false);
        CancelJobs(cancelled);
      }
      connectionStatus := Disconnected;
      ClearState();
    }

    method HandleDisconnectSentEvent()
      requires Valid() && AllReleasable()
      modifies this, packetIdPool, packetIdPool.usedIds, topicAliases, sendQueue
      ensures Valid() && State() == old(State()).DisconnectSent() && sendQueue.startGracefulClear
    {
      var cancelled := sendQueue.ClearQueue(true);
      connectionStatus := Disconnected;
      ClearState();
    }

    method CancelJobs(jobs: seq<Job>)
      requires packetIdPool.Valid() && forall i :: 0 <= i < |jobs| && HoldsId(jobs[i]) ==> jobs[i].id < POOL_SIZE
      modifies packetIdPool, packetIdPool.usedIds
      ensures packetIdPool.Valid() && packetIdPool.State() == Cancel(old(packetIdPool.State()), jobs)
    {
      ghost var before := packetIdPool.State();
      assert jobs[0..] == jobs;
      for i := 0 to |jobs|
        invariant packetIdPool.Valid() && Cancel(before, jobs) == Cancel(packetIdPool.State(), jobs[i..])
      {
        assert jobs[i..][1..] == jobs[i + 1..];
        if HoldsId(jobs[i]) {
          packetIdPool.ReleaseId(jobs[i].id);
        }
      }
    }

    method ClearState()
      requires packetIdPool.Valid()
      requires forall i :: 0 <= i < |pendingSubscriptions| ==> pendingSubscriptions[i].id < POOL_SIZE
      modifies this`pendingSubscriptions, packetIdPool, packetIdPool.usedIds, topicAliases
      ensures packetIdPool.Valid() && pendingSubscriptions == [] && topicAliases.topicAliasToNameMap == []
      ensures packetIdPool.State() == ReleasePending(old(packetIdPool.State()), old(pendingSubscriptions))
    {
      ghost var before := packetIdPool.State();
      var subs := pendingSubscriptions;
      assert subs[0..] == subs;
      for i := 0 to |subs|
        invariant packetIdPool.Valid() && ReleasePending(before, subs) == ReleasePending(packetIdPool.State(), subs[i..])
      {
        assert subs[i..][1..] == subs[i + 1..];
        packetIdPool.ReleaseId(subs[i].id);
      }
      topicAliases.Reset();
      pendingSubscriptions := [];
    }
  }

  lemma UpdateKeepsAbsent(ms: Messages, id: nat, newStatus: Status, now: nat, retryInterval: nat)
    ensures !Contains(ms, id) ==> Update(ms, id, newStatus, now, retryInterval) == ms
  {
  }

  lemma BindsNothing(entries: Entries<Name>, handled: nat, topicAlias: nat, freed: string)
    ensures BindPointer(entries, "", handled, topicAlias, freed) == entries
  {
  }

  lemma RetryStep(jobs: seq<Job>, ms: Messages, now: nat, encode: Message -> Option<seq<byte>>)
    requires ms != [] && ms[0].nextRetryTime < now
    ensures jobs + RetryAll(Scan(ms, now), encode) == jobs + RetryJobs(ms[0], encode(ms[0])) + RetryAll(Scan(ms[1..], now), encode)
  {
    var here, rest := RetryJobs(ms[0], encode(ms[0])), RetryAll(Scan(ms[1..], now), encode);
    hide RetryJobs;
    assert Scan(ms, now)[1..] == Scan(ms[1..], now);
    assert RetryAll(Scan(ms, now), encode) == here + rest;
    hide Scan, RetryAll;
    Reassociate(jobs, here, rest);
  }

  lemma Reassociate(a: seq<Job>, b: seq<Job>, c: seq<Job>)
    ensures a + (b + c) == a + b + c
  {
  }

  lemma NothingToRetry(jobs: seq<Job>, ms: Messages, now: nat, encode: Message -> Option<seq<byte>>)
    requires ms == [] || ms[0].nextRetryTime >= now
    ensures jobs + RetryAll(Scan(ms, now), encode) == jobs
  {
    assert Scan(ms, now) == [];
  }

  // ---------------------------------------------------------------- what a disconnect gives back

  lemma {:induction false} CancelReleases(pool: Pool, jobs: seq<Job>)
    requires pool.Valid()
    ensures Cancel(pool, jobs).Valid()
    ensures forall id :: id in Cancel(pool, jobs).used
                    <==> id in pool.used && !exists j :: j in jobs && HoldsId(j) && j.id == id
    decreases |jobs|
  {
    if jobs != [] {
      ReleaseKeepsValid(pool, jobs[0].id);
      CancelReleases(if HoldsId(jobs[0]) then pool.Release(jobs[0].id) else pool, jobs[1..]);
      assert forall j :: j in jobs <==> j == jobs[0] || j in jobs[1..];
    }
  }

  lemma {:induction false} PendingReleased(pool: Pool, pending: seq<Pending>)
    requires pool.Valid()
    ensures ReleasePending(pool, pending).Valid()
    ensures forall id :: id in ReleasePending(pool, pending).used
                    <==> id in pool.used && !exists p :: p in pending && p.id == id
    decreases |pending|
  {
    if pending != [] {
      ReleaseKeepsValid(pool, pending[0].id);
      PendingReleased(pool.Release(pending[0].id), pending[1..]);
      assert forall p :: p in pending <==> p == pending[0] || p in pending[1..];
    }
  }

  /** An immediate disconnect gives back exactly the ids of the pending subscriptions and, when it clears the
      queue, of the requests still queued. Every session message stays, even one whose id is given back because
      its PUBLISH was still queued; and so do the pending unsubscriptions, whose ids are given back only with
      their queued jobs. */
  lemma DisconnectReleasesExactly(c: Client, clearQueue: bool)
    requires c.pool.Valid() && !c.status.Disconnected?
    ensures var d := c.InternalDisconnect(None, clearQueue);
            && d.pool.Valid() && d.session == c.session && d.unsubs == c.unsubs
            && (forall id :: id in d.pool.used
                   <==> && id in c.pool.used
                        && (clearQueue ==> !exists j :: j in c.jobs && HoldsId(j) && j.id == id)
                        && (!exists p :: p in c.subs && p.id == id))
  {
    CancelReleases(c.pool, c.jobs);
    PendingReleased(Cancel(c.pool, c.jobs), c.subs);
    PendingReleased(c.pool, c.subs);
  }

  // ---------------------------------------------------------------- what one call leaves alone

  /** Everything under other ids is as before, what is queued stays queued, and the connection stays up. */
  ghost predicate OnlyId(c: Client, d: Client, id: nat) {
    && d.status == c.status && c.jobs <= d.jobs
    && (forall j :: |c.jobs| <= j < |d.jobs| ==> d.jobs[j].id == id)
    && (forall i :: i != id ==> (i in d.pool.used <==> i in c.pool.used))
    && (forall m :: m in c.session || m in d.session ==> m.id == id || (m in c.session && m in d.session))
    && (forall p :: p in c.subs || p in d.subs ==> p.id == id || (p in c.subs && p in d.subs))
    && (forall p :: p in c.unsubs || p in d.unsubs ==> p.id == id || (p in c.unsubs && p in d.unsubs))
  }

  lemma UpdateLeavesOthers(ms: Messages, id: nat, newStatus: Status, now: nat, retryInterval: nat)
    ensures var u := Update(ms, id, newStatus, now, retryInterval);
            forall m :: m in ms || m in u ==> m.id == id || (m in ms && m in u)
  {
    UpdateNeverMoves(ms, id, newStatus, now, retryInterval);
    var u := Update(ms, id, newStatus, now, retryInterval);
    hide Update;
    if Contains(ms, id) {
      var k := IndexOf(ms, id);
      forall m | m in ms || m in u ensures m.id == id || (m in ms && m in u) {
        var i :| 0 <= i < |ms| && (ms[i] == m || u[i] == m);
        assert i != k ==> u[i] == ms[i];
      }
    }
  }

  lemma EraseLeavesOthers(ms: Messages, id: nat)
    ensures forall m :: m in ms || m in Erase(ms, id) ==> m.id == id || (m in ms && m in Erase(ms, id))
  {
    EraseContents(ms, id);
  }

  lemma ErasePendingLeavesOthers(pending: seq<Pending>, id: nat)
    ensures forall p :: p in pending || p in ErasePending(pending, id) ==> p.id == id || (p in pending && p in ErasePending(pending, id))
  {
    var k, e := FindPending(pending, id), ErasePending(pending, id);
    if k < |pending| {
      assert pending == pending[..k] + [pending[k]] + pending[k + 1..];
    }
  }

  /** What ends a request or a message touches nothing but its own id. */
  lemma EndingsTouchOneId(c: Client, id: nat)
    requires c.pool.Valid()
    ensures OnlyId(c, c.Forget(id), id)
    ensures OnlyId(c, c.SubscribeAckReceived(id), id)
    ensures OnlyId(c, c.UnsubscribeAckReceived(id), id)
  {
    EraseLeavesOthers(c.session, id);
    ErasePendingLeavesOthers(c.subs, id);
    ErasePendingLeavesOthers(c.unsubs, id);
    ReleaseKeepsValid(c.pool, id);
    hide Erase, ErasePending, Pool.Release, Pool.Valid;
  }

  /** What moves a message on touches nothing but its own id, and gives no id back. */
  lemma MovesTouchOneId(c: Client, id: uint16, content: nat, now: nat, retryInterval: nat)
    ensures forall d :: d in [c.PublishRecReceived(id, false, content), c.PublishRelReceived(id, content, now, retryInterval),
                              c.PubRecSent(id, now, retryInterval), c.PubRelSent(id, now, retryInterval)] ==>
              OnlyId(c, d, id) && d.pool == c.pool
  {
    UpdateLeavesOthers(c.session, id, NeedToSendPubComp, now, retryInterval);
    UpdateLeavesOthers(c.session, id, WaitingForPubRel, now, retryInterval);
    UpdateLeavesOthers(c.session, id, WaitingForPubComp, now, retryInterval);
    hide Update;
  }

  /** A PUBLISH that arrives, other than one that ends the connection, touches nothing under any other id. */
  lemma ArrivalsTouchOneId(c: Client, qos: nat, id: uint16, topic: string, topicAlias: Option<nat>, content: nat,
                           maximumTopicAliases: nat, freed: string, now: nat, retryInterval: nat)
    requires Legal(maximumTopicAliases, Published(topic, topicAlias))
    ensures var d := c.PublishReceived(qos, id, topic, topicAlias, content, maximumTopicAliases, freed, now, retryInterval);
            OnlyId(c, d, id) && d.pool == c.pool
  {
    hide Legal, PointersAfter;
    var more := Add(c.session, id, content, 0, now, retryInterval);
    assert forall m :: m in more <==> m in c.session || m == more[|c.session|];
  }

  /** A request that is accepted with an id takes an unused one and touches nothing under any other id. */
  lemma RequestsTouchOneId(c: Client, topics: nat, identifier: nat, supported: bool, qos: nat, content: nat,
                           encoded: Option<seq<byte>>, now: nat, retryInterval: nat)
    requires c.pool.Valid() && c.CanRequest()
    ensures forall r, d :: qos >= 1 && (r, d) == c.Publish(qos, content, encoded, now, retryInterval) && r.Done? ==>
              r.id !in c.pool.used && d.pool.used == c.pool.used + {r.id} && OnlyId(c, d, r.id)
    ensures forall r, d :: (r, d) == c.Subscribe(topics, identifier, supported, content, encoded) && r.Done? ==>
              r.id !in c.pool.used && d.pool.used == c.pool.used + {r.id} && OnlyId(c, d, r.id)
    ensures forall r, d :: (r, d) == c.Unsubscribe(topics, content, encoded) && r.Done? ==>
              r.id !in c.pool.used && d.pool.used == c.pool.used + {r.id} && OnlyId(c, d, r.id)
  {
    if c.status.Connected? {
      GetKeepsValid(c.pool);
    }
    hide Pool.Get, Pool.Valid;
  }
}
