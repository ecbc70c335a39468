/** Where identifier safety ends: acknowledgements nobody waits for, retries, and crossing id spaces. */
module ProtocolLimits {
  import opened Bytes
  import opened Packets
  import opened PacketIdPools
  import opened Sessions
  import opened Clients
  import opened Protocol
  import opened ProtocolInvariant
  import opened ProtocolSafety
  import opened InboundQoS2
  import opened ProtocolSurvival

  // ---------------------------------------------------------------- acknowledgements nobody waits for

  /** A PUBACK, PUBCOMP or failing PUBREC that answers nothing on its way, such as one for a retried PUBLISH,
      is harmless if and only if its id is neither in use nor in the session; a SUBACK or UNSUBACK, for which
      the id is given back although no request is found, if and only if its id is not in use. */
  lemma StrayAckExactly(s: Sys, id: nat)
    requires Inv(s)
    ensures Inv(s.(client := s.client.Forget(id))) <==> id !in s.client.pool.used && !Contains(s.client.session, id)
    ensures Inv(s.(client := s.client.SubscribeAckReceived(id))) <==> id !in s.client.pool.used
    ensures Inv(s.(client := s.client.UnsubscribeAckReceived(id))) <==> id !in s.client.pool.used
  {
    var c := s.client;
    InvIf(s);
    StrayBooks(c, s.exchanges, id);
    OtherJobs(s, c.Forget(id));
    OtherJobs(s, c.SubscribeAckReceived(id));
    OtherJobs(s, c.UnsubscribeAckReceived(id));
    InvIf(s.(client := c.Forget(id)));
    InvIf(s.(client := c.SubscribeAckReceived(id)));
    InvIf(s.(client := c.UnsubscribeAckReceived(id)));
    hide Inv, Rest, Books, Contains, Client.Forget, Client.SubscribeAckReceived, Client.UnsubscribeAckReceived;
  }

  /** A SUBACK for the id of a publish under way: the next publish gets the same id. */
  lemma StraySubAckCounterexample(c: Client, qos: nat, content: nat, encoded: Option<seq<byte>>, now: nat, interval: nat)
    requires c.status.Connected? && c.pool.Valid() && c.pool.CanGet() && qos >= 1
    ensures var (first, d) := c.Publish(qos, content, encoded, now, interval);
            && first.Done? && Contains(d.session, first.id)
            && d.SubscribeAckReceived(first.id).pool.CanGet()
            && d.SubscribeAckReceived(first.id).Publish(qos, content, encoded, now, interval).0 == first
  {
    var (first, d) := c.Publish(qos, content, encoded, now, interval);
    GetKeepsValid(c.pool);
    ReleaseTwiceThenGet(d.pool, first.id);
    assert d.session[|c.session|].id == first.id;
  }

  /** A subscribe and a received QoS 2 message with the same id: when the PUBCOMP has been sent, the id of the
      pending subscribe is given back, and the next publish gets it. */
  lemma CrossedIdsCounterexample(c: Client, content: nat, encoded: Option<seq<byte>>, now: nat, interval: nat)
    requires c.status.Connected? && c.pool.Valid() && c.pool.CanGet()
    ensures var (asked, d) := c.Subscribe(1, 0, true, content, encoded);
            asked.Done? && asked.id < POOL_SIZE &&
            var arrived := d.PublishReceived(2, asked.id, "t", None, content, 0, "", now, interval);
            var closed := arrived.PubCompSent(asked.id);
            && closed.subs == c.subs + [Pending(asked.id, content)] && closed.pool.CanGet()
            && closed.Publish(1, content, encoded, now, interval).0 == asked
  {
    var (asked, d) := c.Subscribe(1, 0, true, content, encoded);
    GetKeepsValid(c.pool);
    ReleaseTwiceThenGet(d.pool, asked.id);
    hide Erase;
  }

  // ---------------------------------------------------------------- retries

  /** What a retry leads to within one connection: the second PUBLISH is acknowledged too, when its id has
      gone to another message, which is then forgotten though nobody acknowledged it. */
  lemma StaleAckCounterexample(c: Client, first: nat, second: nat, encoded: Option<seq<byte>>, now: nat, encode: Message -> Option<seq<byte>>)
    requires c == Client(Connected, NewPool, [], [], [], [], []) && now > 0
    ensures var published := c.Publish(1, first, encoded, 0, 0).1;
            var retried := published.Retry(now, encode);
            && |retried.jobs| == 2 && retried.jobs[0].id == retried.jobs[1].id == 1
            && retried.Forget(1).pool.CanGet()
            && var (r, reused) := retried.Forget(1).Publish(1, second, encoded, now, 0);
               && r == Done(1) && reused.session == [Message(1, second, 1, WaitingForAck, now)]
               && reused.Forget(1).session == []
  {
    assert c.CanRequest();
    hide Client.Publish, Client.Retry, Client.Forget, Client.CanRequest, Pool.Get, Pool.Release, Pool.CanGet;
    var published := c.Publish(1, first, encoded, 0, 0).1;
    var m := Message(1, first, 1, WaitingForAck, 0);
    PublishedFirst(c, first, encoded);
    RetryOfOne(published, m, now, encode);
    var retried := published.Retry(now, encode);
    ForgottenAndReused(retried, m, second, encoded, now);
  }

  lemma PublishedFirst(c: Client, content: nat, encoded: Option<seq<byte>>)
    requires c == Client(Connected, NewPool, [], [], [], [], [])
    ensures c.Publish(1, content, encoded, 0, 0).1
         == Client(Connected, NewPool.Get().1, [Message(1, content, 1, WaitingForAck, 0)], [], [], [], [Job(PacketType.Publish, 1, 1, content, encoded)])
  {
  }

  lemma ForgottenAndReused(c: Client, m: Message, content: nat, encoded: Option<seq<byte>>, now: nat)
    requires c.status.Connected? && c.session == [m] && m.id == 1 && c.pool == NewPool.Get().1
    ensures c.Forget(1).pool.CanGet()
    ensures var (r, reused) := c.Forget(1).Publish(1, content, encoded, now, 0);
            && r == Done(1) && reused.session == [Message(1, content, 1, WaitingForAck, now)] && reused.Forget(1).session == []
  {
    hide Erase;
    OnlyOneErased(m);
    OnlyOneErased(Message(1, content, 1, WaitingForAck, now));
    GetKeepsValid(NewPool);
    ReleaseTwiceThenGet(c.pool, 1);
    hide Pool.Release, Pool.Valid;
  }

  lemma RetryOfOne(c: Client, m: Message, now: nat, encode: Message -> Option<seq<byte>>)
    requires c.session == [m] && m.nextRetryTime < now && m.status == WaitingForAck
    ensures c.Retry(now, encode) == c.(jobs := c.jobs + [Job(PacketType.Publish, m.qos, m.id, m.content, encode(m))])
  {
    assert [m][1..] == [];
    assert Scan([m], now) == [m] + Scan([], now);
    assert RetryAll([m], encode) == RetryJobs(m, encode(m)) + RetryAll([], encode);
  }

  lemma OnlyOneErased(m: Message)
    ensures Erase([m], m.id) == []
  {
    assert [m][0].id == m.id;
  }

  /** The PUBLISH a retry sends for the message. */
  function Echo(m: Message, encode: Message -> Option<seq<byte>>): Job {
    Job(PacketType.Publish, m.qos, m.id, m.content, encode(m))
  }

  lemma {:induction false} EchoedFrom(due: Messages, encode: Message -> Option<seq<byte>>, id: nat)
    ensures (exists j :: j in RetryAll(due, encode) && j.kind == PacketType.Publish && j.id == id)
            <==> exists m :: m in due && m.id == id && m.status in {WaitingForAck, WaitingForPubRec}
    ensures forall m :: m in due && m.status in {WaitingForAck, WaitingForPubRec} ==> Echo(m, encode) in RetryAll(due, encode)
  {
    if due != [] {
      var here, rest := RetryJobs(due[0], encode(due[0])), RetryAll(due[1..], encode);
      EchoedFrom(due[1..], encode, id);
      assert forall j :: j in RetryAll(due, encode) <==> j in here || j in rest;
      assert forall m :: m in due <==> m == due[0] || m in due[1..];
      HereEchoed(due[0], encode, id);
      hide RetryJobs, Echo;
    }
  }

  lemma HereEchoed(m: Message, encode: Message -> Option<seq<byte>>, id: nat)
    ensures (exists j :: j in RetryJobs(m, encode(m)) && j.kind == PacketType.Publish && j.id == id)
            <==> m.id == id && m.status in {WaitingForAck, WaitingForPubRec}
    ensures m.status in {WaitingForAck, WaitingForPubRec} ==> Echo(m, encode) in RetryJobs(m, encode(m))
  {
    if m.status in {WaitingForAck, WaitingForPubRec} {
      assert Echo(m, encode) in RetryJobs(m, encode(m));
    }
  }

  /** A received QoS 2 message is sent back to the broker as a PUBLISH if and only if a scan reaches it while its
      PUBREC has not been announced; the PUBLISH then has QoS 0. */
  lemma EchoedExactly(s: Sys, now: nat, encode: Message -> Option<seq<byte>>, m: Message)
    requires Inv(s) && m in s.client.session && m.id !in s.client.pool.used
    ensures var jobs := RetryAll(Scan(s.client.session, now), encode);
            var echoed := m in Scan(s.client.session, now) && m.status == WaitingForPubRec;
            && ((exists j :: j in jobs && j.kind == PacketType.Publish && j.id == m.id) <==> echoed)
            && (echoed ==> Echo(m, encode) in jobs && Echo(m, encode).qos == 0)
  {
    var due := Scan(s.client.session, now);
    EchoedFrom(due, encode, m.id);
    ScanMembers(s.client.session, now);
    SessionMessage(s, m);
    forall n | n in due && n.id == m.id ensures n == m {
      OneOfId(s, m, n);
    }
    hide Inv, Scan, RetryAll;
  }

  lemma OneOfId(s: Sys, m: Message, n: Message)
    requires Inv(s) && m in s.client.session && n in s.client.session && n.id == m.id
    ensures n == m
  {
    ConnectedBooks(s);
    hide Inv, Books, Numbered, Remembered, Shapes;
  }

  /** A received QoS 2 message has the same first status as one of ours, so a scan that finds it due before
      its PUBREC is announced sends the broker a PUBLISH, of QoS 0 and without payload. */
  lemma EchoedPublishCounterexample(c: Client, id: uint16, content: nat, now: nat, encode: Message -> Option<seq<byte>>)
    requires c == Client(Connected, NewPool, [], [], [], [], []) && now > 0
    ensures var retried := c.PublishReceived(2, id, "t", None, content, 0, "", 0, 0).Retry(now, encode);
            |retried.jobs| == 2 && retried.jobs[1] == Job(PacketType.Publish, 0, id, content, encode(Message(id, content, 0, WaitingForPubRec, 0)))
  {
    var m := Message(id, content, 0, WaitingForPubRec, 0);
    var arrived := c.PublishReceived(2, id, "t", None, content, 0, "", 0, 0);
    assert arrived.session == [m] && |arrived.jobs| == 1 && [m][1..] == [];
    assert Scan([m], now) == [m] + Scan([], now);
    assert RetryAll([m], encode) == RetryJobs(m, encode(m)) + RetryAll([], encode);
    assert arrived.Retry(now, encode).jobs[1] == RetryJobs(m, encode(m))[0];
  }
}
