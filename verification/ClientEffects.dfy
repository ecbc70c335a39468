/** What each call of the client does, in full: when a request is refused, which one packet it or a received packet
    puts in the send queue, and what becomes of session, pending requests and ids. */
module ClientEffects {
  import opened Bytes
  import opened Packets
  import opened PacketIdPools
  import opened Sessions
  import opened TopicAliasMaps
  import opened SendPipes
  import opened Clients
  import VariableByteIntegers
  import BasePackets

  // ---------------------------------------------------------------- requests

  /** The id is new: in range, not in use before, the only one taken. */
  ghost predicate TakesId(c: Client, d: Client, id: nat) {
    1 <= id < POOL_SIZE && id !in c.pool.used && d.pool.used == c.pool.used + {id}
  }

  /** A publish is done if and only if the client is connected, and then one PUBLISH is queued, whatever the QoS.
      With QoS 1 or 2 it has a new id, under which the message is in the session; with QoS 0 it has none. */
  lemma PublishExactly(c: Client, qos: nat, content: nat, encoded: Option<seq<byte>>, now: nat, interval: nat)
    requires c.pool.Valid() && (qos >= 1 ==> c.CanRequest())
    ensures var (r, d) := c.Publish(qos, content, encoded, now, interval);
            && (r.Done? <==> c.status == Connected)
            && (r.Refused? ==> r.error == NotConnected && d == c)
            && (r.Done? ==>
                  && d.jobs == c.jobs + [Job(PacketType.Publish, qos, r.id, content, encoded)]
                  && (qos == 0 ==> r.id == 0 && d == c.(jobs := d.jobs))
                  && (qos >= 1 ==>
                        && TakesId(c, d, r.id) && d == c.(jobs := d.jobs, pool := d.pool, session := d.session)
                        && d.session == c.session + [Message(r.id, content, qos, if qos == 1 then WaitingForAck else WaitingForPubRec,
                                                             now + interval)]))
  {
    if qos >= 1 && c.status.Connected? {
      GetKeepsValid(c.pool);
    }
  }

  /** A subscribe is done if and only if the client is connected, there is a topic, and the broker supports
      subscription identifiers or none is given; a refusal names the first of these that fails. */
  lemma SubscribeExactly(c: Client, topics: nat, identifier: nat, supported: bool, content: nat, encoded: Option<seq<byte>>)
    requires c.pool.Valid() && c.CanRequest()
    ensures var (r, d) := c.Subscribe(topics, identifier, supported, content, encoded);
            && (r.Done? <==> c.status == Connected && topics > 0 && (supported || identifier == 0))
            && (r.Refused? ==>
                  && d == c
                  && r.error == if c.status != Connected then NotConnected else if topics == 0 then InvalidArgument
                                else SubscribeIdentifiersNotSupported)
            && (r.Done? ==>
                  && d.jobs == c.jobs + [Job(PacketType.Subscribe, 0, r.id, content, encoded)]
                  && TakesId(c, d, r.id) && d == c.(jobs := d.jobs, pool := d.pool, subs := c.subs + [Pending(r.id, content)]))
  {
    if c.status.Connected? {
      GetKeepsValid(c.pool);
    }
  }

  lemma UnsubscribeExactly(c: Client, topics: nat, content: nat, encoded: Option<seq<byte>>)
    requires c.pool.Valid() && c.CanRequest()
    ensures var (r, d) := c.Unsubscribe(topics, content, encoded);
            && (r.Done? <==> c.status == Connected && topics > 0)
            && (r.Refused? ==> d == c && r.error == if c.status != Connected then NotConnected else InvalidArgument)
            && (r.Done? ==>
                  && d.jobs == c.jobs + [Job(PacketType.Unsubscribe, 0, r.id, content, encoded)]
                  && TakesId(c, d, r.id) && d == c.(jobs := d.jobs, pool := d.pool, unsubs := c.unsubs + [Pending(r.id, content)]))
  {
    if c.status.Connected? {
      GetKeepsValid(c.pool);
    }
  }

  // ---------------------------------------------------------------- replies

  /** A reply of four bytes: first byte, remaining length 2, id. */
  function FourBytes(first: byte, id: uint16): Option<seq<byte>> {
    Some([first, 2, id / 256, id % 256])
  }

  lemma ReplyIs(kind: PacketType, id: uint16, content: nat)
    requires IsReply(kind)
    ensures var first := if kind == PublishAck then 0x40 else if kind == PacketType.PublishReceived then 0x50
                         else if kind == PublishReleased then 0x62 else 0x70;
            Reply(kind, id, content) == Job(kind, 0, id, content, FourBytes(first, id))
  {
    var first := FirstByte(kind);
    assert [first, 2] + U16Bytes(id) == [first, 2, id / 256, id % 256];
  }

  /** A received PUBLISH with a topic, or an alias within the maximum, is answered by exactly one PUBACK with QoS 1, by
      exactly one PUBREC with QoS 2, which enters the session too, and by nothing with QoS 0. Any other ends the
      connection and leaves the queue empty. */
  lemma PublishAnswered(c: Client, qos: nat, id: uint16, topic: string, topicAlias: Option<nat>, content: nat,
                        maximumTopicAliases: nat, freed: string, now: nat, interval: nat)
    requires c.status.Connected?
    ensures var d := c.PublishReceived(qos, id, topic, topicAlias, content, maximumTopicAliases, freed, now, interval);
            if if topicAlias.Some? then 1 <= topicAlias.value <= maximumTopicAliases else topic != "" then
              && d == c.(jobs := d.jobs, session := d.session, aliases := d.aliases)
              && d.aliases == PointersAfter(c.aliases, maximumTopicAliases, content, Published(topic, topicAlias), freed)
              && d.jobs == c.jobs + (if qos == 1 then [Job(PublishAck, 0, id, content, FourBytes(0x40, id))]
                                     else if qos == 2 then [Job(PacketType.PublishReceived, 0, id, content, FourBytes(0x50, id))]
                                     else [])
              && d.session == c.session + (if qos == 2 then [Message(id, content, 0, WaitingForPubRec, now + interval)] else [])
            else
              d == c.InternalDisconnect(None, true) && d.status.Disconnected? && d.jobs == [] && d.session == c.session
  {
    ReplyIs(PublishAck, id, content);
    ReplyIs(PacketType.PublishReceived, id, content);
    hide PointersAfter, Cancel, ReleasePending, Reply;
    assert c.jobs + [] == c.jobs && c.session + [] == c.session;
  }

  /** A PUBREC that does not fail is answered by exactly one PUBREL, a PUBREL by exactly one PUBCOMP; the latter
      notes that its message is about to send PUBCOMP. */
  lemma AcksAnswered(c: Client, id: uint16, content: nat, now: nat, interval: nat)
    ensures c.PublishRecReceived(id, false, content)
         == c.(jobs := c.jobs + [Job(PublishReleased, 0, id, content, FourBytes(0x62, id))])
    ensures var d := c.PublishRelReceived(id, content, now, interval);
            && d == c.(jobs := c.jobs + [Job(PublishComplete, 0, id, content, FourBytes(0x70, id))], session := d.session)
            && Renewed(c.session, d.session, id, NeedToSendPubComp, now + interval)
  {
    UpdateRenews(c.session, id, NeedToSendPubComp, now, interval);
    ReplyIs(PublishReleased, id, content);
    ReplyIs(PublishComplete, id, content);
    hide Update, Renewed, Reply;
  }

  lemma EncodedWithId(packetType: BasePackets.Nibble, flags: BasePackets.Nibble, id: uint16)
    ensures BasePackets.PacketBytes(packetType, flags, [BasePackets.EncodeHeader(2, U16Bytes(id))])
         == [packetType * 16 + flags, 2, id / 256, id % 256]
  {
    var headers := [BasePackets.EncodeHeader(2, U16Bytes(id))];
    assert headers[..0] == [] && U16Bytes(id) == [id / 256, id % 256];
    assert BasePackets.Announced(headers) == 2 && BasePackets.Body(headers) == [] + U16Bytes(id);
    assert VariableByteIntegers.Encoding(2) == [2];
    hide BasePackets.Announced, BasePackets.Body, VariableByteIntegers.Encoding, U16Bytes;
    var first: byte := packetType * 16 + flags;
    assert [first] + [2] + ([] + U16Bytes(id)) == [first, 2, id / 256, id % 256];
  }

  /** Those bytes are what the packets' encoder makes of type, flags and a header with the id. */
  lemma RepliesAreEncoded(id: uint16)
    ensures var headers := [BasePackets.EncodeHeader(2, U16Bytes(id))];
            && FourBytes(0x40, id) == Some(BasePackets.PacketBytes(4, 0, headers))
            && FourBytes(0x50, id) == Some(BasePackets.PacketBytes(5, 0, headers))
            && FourBytes(0x62, id) == Some(BasePackets.PacketBytes(6, 2, headers))
            && FourBytes(0x70, id) == Some(BasePackets.PacketBytes(7, 0, headers))
  {
    EncodedWithId(4, 0, id);
    EncodedWithId(5, 0, id);
    EncodedWithId(6, 2, id);
    EncodedWithId(7, 0, id);
    hide BasePackets.PacketBytes;
  }

  // ---------------------------------------------------------------- what becomes of messages and requests

  ghost predicate FirstMessage(ms: Messages, id: nat, k: int) {
    0 <= k < |ms| && ms[k].id == id && forall i :: 0 <= i < k ==> ms[i].id != id
  }

  ghost predicate FirstPending(ps: seq<Pending>, id: nat, k: int) {
    0 <= k < |ps| && ps[k].id == id && forall i :: 0 <= i < k ==> ps[i].id != id
  }

  /** The first message with the id, if there is one, has this status and time; nothing else is changed or moved. */
  ghost predicate Renewed(before: Messages, after: Messages, id: nat, status: Status, time: nat) {
    && (!Contains(before, id) ==> after == before)
    && (forall k :: FirstMessage(before, id, k) ==> after == before[k := before[k].(status := status, nextRetryTime := time)])
  }

  /** The first message with the id, if there is one, is taken out. */
  ghost predicate Dropped(before: Messages, after: Messages, id: nat) {
    && (!Contains(before, id) ==> after == before)
    && (forall k :: FirstMessage(before, id, k) ==> after == before[..k] + before[k + 1..])
  }

  ghost predicate DroppedPending(before: seq<Pending>, after: seq<Pending>, id: nat) {
    && ((forall p :: p in before ==> p.id != id) ==> after == before)
    && (forall k :: FirstPending(before, id, k) ==> after == before[..k] + before[k + 1..])
  }

  lemma {:induction false} FirstIsIndex(ms: Messages, id: nat, k: int)
    requires FirstMessage(ms, id, k)
    ensures Contains(ms, id) && IndexOf(ms, id) == k
  {
    if ms[0].id != id {
      assert ms[1..][k - 1] == ms[k];
      FirstIsIndex(ms[1..], id, k - 1);
    }
  }

  lemma UpdateRenews(ms: Messages, id: nat, status: Status, now: nat, interval: nat)
    ensures Renewed(ms, Update(ms, id, status, now, interval), id, status, now + interval)
  {
    UpdateNeverMoves(ms, id, status, now, interval);
    hide Update, IndexOf, Contains;
    forall k | FirstMessage(ms, id, k)
      ensures Update(ms, id, status, now, interval) == ms[k := ms[k].(status := status, nextRetryTime := now + interval)]
    {
      FirstIsIndex(ms, id, k);
    }
  }

  lemma EraseDrops(ms: Messages, id: nat)
    ensures Dropped(ms, Erase(ms, id), id)
  {
    hide IndexOf, Contains;
    forall k | FirstMessage(ms, id, k) ensures Erase(ms, id) == ms[..k] + ms[k + 1..] {
      FirstIsIndex(ms, id, k);
    }
  }

  lemma EraseDropsPending(ps: seq<Pending>, id: nat)
    ensures DroppedPending(ps, ErasePending(ps, id), id)
  {
    hide FindPending;
    var i := FindPending(ps, id);
    assert forall k :: FirstPending(ps, id, k) ==> k == i;
    assert i < |ps| ==> ps[i] in ps;
  }

  /** A final acknowledgement takes the message out of the session, a SUBACK or UNSUBACK the pending request out of its
      list, and each gives the id back; nothing else changes. */
  lemma EndingsExactly(c: Client, id: uint16, content: nat)
    requires c.pool.Valid()
    ensures var d := c.Forget(id);
            d == c.(session := d.session, pool := d.pool) && d.pool.used == c.pool.used - {id} && Dropped(c.session, d.session, id)
    ensures var d := c.SubscribeAckReceived(id);
            d == c.(subs := d.subs, pool := d.pool) && d.pool.used == c.pool.used - {id} && DroppedPending(c.subs, d.subs, id)
    ensures var d := c.UnsubscribeAckReceived(id);
            d == c.(unsubs := d.unsubs, pool := d.pool) && d.pool.used == c.pool.used - {id} && DroppedPending(c.unsubs, d.unsubs, id)
    ensures c.PublishRecReceived(id, true, content) == c.Forget(id) == c.PubCompSent(id)
  {
    EraseDrops(c.session, id);
    EraseDropsPending(c.subs, id);
    EraseDropsPending(c.unsubs, id);
    hide Erase, ErasePending, Dropped, DroppedPending;
  }

  /** A callback for a PUBREC makes its message wait for PUBREL, one for a PUBREL makes it wait for PUBCOMP, due an
      interval later; nothing else changes. */
  lemma CallbacksExactly(c: Client, id: nat, now: nat, interval: nat)
    ensures var d := c.PubRecSent(id, now, interval);
            d == c.(session := d.session) && Renewed(c.session, d.session, id, WaitingForPubRel, now + interval)
    ensures var d := c.PubRelSent(id, now, interval);
            d == c.(session := d.session) && Renewed(c.session, d.session, id, WaitingForPubComp, now + interval)
  {
    UpdateRenews(c.session, id, WaitingForPubRel, now, interval);
    UpdateRenews(c.session, id, WaitingForPubComp, now, interval);
    hide Update, Renewed;
  }

  // ---------------------------------------------------------------- retries

  /** The messages at the front of the list that are due, up to the first that is not, without those whose PUBCOMP
      is to come. */
  function Retried(ms: Messages, now: nat): Messages {
    if ms == [] || now <= ms[0].nextRetryTime then []
    else (if ms[0].status == NeedToSendPubComp then [] else [ms[0]]) + Retried(ms[1..], now)
  }

  /** The packet a message is retried with: its PUBLISH while it waits for PUBACK or PUBREC, its PUBREC while it waits
      for PUBREL, its PUBREL while it waits for PUBCOMP. */
  ghost predicate RetriedBy(m: Message, encoded: Option<seq<byte>>, job: Job)
    requires m.id < 0x1_0000
  {
    match m.status
    case WaitingForAck => job == Job(PacketType.Publish, m.qos, m.id, m.content, encoded)
    case WaitingForPubRec => job == Job(PacketType.Publish, m.qos, m.id, m.content, encoded)
    case WaitingForPubRel => job == Job(PacketType.PublishReceived, 0, m.id, m.content, FourBytes(0x50, m.id))
    case WaitingForPubComp => job == Job(PublishReleased, 0, m.id, m.content, FourBytes(0x62, m.id))
    case NeedToSendPubComp => false
  }

  ghost predicate AllRetriedBy(ms: Messages, encode: Message -> Option<seq<byte>>, jobs: seq<Job>) {
    |jobs| == |ms| && forall i :: 0 <= i < |ms| ==> ms[i].id < 0x1_0000 && RetriedBy(ms[i], encode(ms[i]), jobs[i])
  }

  lemma RetryOne(m: Message, encoded: Option<seq<byte>>)
    requires m.id < 0x1_0000
    ensures if m.status == NeedToSendPubComp then RetryJobs(m, encoded) == []
            else |RetryJobs(m, encoded)| == 1 && RetriedBy(m, encoded, RetryJobs(m, encoded)[0])
  {
    ReplyIs(PacketType.PublishReceived, m.id, m.content);
    ReplyIs(PublishReleased, m.id, m.content);
    hide Reply;
  }

  lemma {:induction false} RetriesInOrder(ms: Messages, now: nat, encode: Message -> Option<seq<byte>>)
    requires forall m :: m in ms ==> m.id < 0x1_0000
    ensures AllRetriedBy(Retried(ms, now), encode, RetryAll(Scan(ms, now), encode))
  {
    if ms != [] && ms[0].nextRetryTime < now {
      RetriesInOrder(ms[1..], now, encode);
      RetryOne(ms[0], encode(ms[0]));
      hide RetryJobs, RetriedBy;
      assert Scan(ms, now)[1..] == Scan(ms[1..], now);
      var rest, jobs := Retried(ms[1..], now), RetryAll(Scan(ms[1..], now), encode);
      if ms[0].status == NeedToSendPubComp {
        assert [] + rest == rest && [] + jobs == jobs;
      } else {
        var all, one := [ms[0]] + rest, RetryJobs(ms[0], encode(ms[0])) + jobs;
        assert forall i :: 1 <= i < |all| ==> all[i] == rest[i - 1] && one[i] == jobs[i - 1];
      }
    }
  }

  /** A scan queues, for the due messages up to the first that is not due, the packet each waits for an answer to, in
      order, and changes nothing else: no status, no time. */
  lemma RetryExactly(c: Client, now: nat, encode: Message -> Option<seq<byte>>)
    requires forall m :: m in c.session ==> m.id < 0x1_0000
    ensures var d := c.Retry(now, encode);
            && d == c.(jobs := d.jobs) && c.jobs <= d.jobs
            && AllRetriedBy(Retried(c.session, now), encode, d.jobs[|c.jobs|..])
  {
    RetriesInOrder(c.session, now, encode);
    hide Retried, AllRetriedBy, RetryAll, Scan;
    var more := RetryAll(Scan(c.session, now), encode);
    assert (c.jobs + more)[|c.jobs|..] == more;
  }

  // ---------------------------------------------------------------- disconnecting

  /** A disconnect does nothing when disconnected already. A graceful one queues one DISCONNECT with the bytes given and
      changes nothing else. An immediate one ends pending subscriptions and aliases, and all jobs if the queue is to
      be cleared; it gives back the ids of those subscriptions and of the queued PUBLISHes, SUBSCRIBEs and
      UNSUBSCRIBEs it clears, and no others, and keeps session and pending unsubscriptions. */
  lemma DisconnectExactly(c: Client, graceful: Option<Option<seq<byte>>>, clearQueue: bool)
    requires c.pool.Valid()
    ensures var d := c.InternalDisconnect(graceful, clearQueue);
            if c.status.Disconnected? then d == c
            else if graceful.Some? then d == c.(jobs := c.jobs + [Job(PacketType.Disconnect, 0, 0, 0, graceful.value)])
            else
              && d == Client(Disconnected, d.pool, c.session, [], c.unsubs, [], if clearQueue then [] else c.jobs)
              && d.pool.Valid()
              && (forall id :: id in d.pool.used
                    <==> && id in c.pool.used && (forall p :: p in c.subs ==> p.id != id)
                         && (clearQueue ==> forall j :: j in c.jobs && j.id == id ==>
                               j.kind != PacketType.Publish && j.kind != PacketType.Subscribe && j.kind != PacketType.Unsubscribe))
  {
    if !c.status.Disconnected? && graceful.None? {
      DisconnectReleasesExactly(c, clearQueue);
      hide Cancel, ReleasePending, Pool.Valid;
    }
  }

  /** Once its DISCONNECT has been sent the client is disconnected: it gives back exactly the ids of its pending
      subscriptions, which are gone with the aliases, and keeps session, pending unsubscriptions and jobs. */
  lemma DisconnectSentExactly(c: Client)
    requires c.pool.Valid()
    ensures var d := c.DisconnectSent();
            && d == Client(Disconnected, d.pool, c.session, [], c.unsubs, [], c.jobs) && d.pool.Valid()
            && (forall id :: id in d.pool.used <==> id in c.pool.used && forall p :: p in c.subs ==> p.id != id)
  {
    PendingReleased(c.pool, c.subs);
    hide ReleasePending, Pool.Valid;
  }

  // ---------------------------------------------------------------- topics

  /** What the application is handed: the packet's own topic if it has one, and a disconnect for the reason it gives
      if there is neither topic nor alias, or an alias that is not allowed or out of range. */
  lemma TopicDelivered(entries: Entries<Name>, max: nat, handled: nat, topic: string, topicAlias: Option<nat>, freed: string)
    ensures var r := Delivered(entries, max, handled, Published(topic, topicAlias), freed);
            && (r == NoTopic <==> topicAlias.None? && topic == "")
            && (r == AliasDisallowed <==> topicAlias.Some? && max == 0)
            && (r == AliasInvalid <==> topicAlias.Some? && max > 0 && !(1 <= topicAlias.value <= max))
            && (r.Deliver? && topic != "" ==> r.topic == topic)
  {
    hide Find, Read;
  }
}
