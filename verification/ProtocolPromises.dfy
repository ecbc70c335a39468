/** The promises of the client to its application and to the broker, over whole runs of one connection. */
module ProtocolPromises {
  import opened Bytes
  import opened Packets
  import opened ReceiveMaximum
  import opened PacketIdPools
  import opened Sessions
  import opened TopicAliasMaps
  import opened SendPipes
  import opened Clients
  import opened Protocol
  import opened ProtocolInvariant
  import opened ProtocolSafety

  // ---------------------------------------------------------------- runs

  lemma {:induction false} RunKeeps(s: Sys, steps: seq<Step>)
    requires Inv(s) && Goes(s, steps) && KeptApart(s, steps)
    ensures Inv(Reached(s, steps)) && Reached(s, steps).send.max == s.send.max
    decreases |steps|
  {
    if steps != [] {
      StepKeepsExactly(s, steps[0]);
      StepKeepsLimit(s, steps[0]);
      hide Inv, Enabled, Apart, Next;
      RunKeeps(Next(s, steps[0]), steps[1..]);
    }
  }

  lemma StepKeepsLimit(s: Sys, step: Step)
    requires Inv(s) && Enabled(s, step)
    ensures Next(s, step).send.max == s.send.max
  {
    hide Linked, DistinctIds, DistinctPending, Carried, Shapes, Numbered, Remembered;
    assert s.client.status.Connected? && s.send.Balanced();
    hide Inv, Compose, Legal, Client.Publish, Client.Subscribe, Client.Unsubscribe, Client.PublishReceived;
    if step == Composes {
      var c := ComposingFacts(s);
    }
  }

  // ---------------------------------------------------------------- identifier safety, section 2.2.1

  /** The requests the application waits for, by id. */
  predicate AwaitedAs(c: Client, kind: PacketType, id: nat, content: nat) {
    if PublishFlow(kind) then (id, content) in Held(c.session)
    else if SubscribeFlow(kind) then (id, content) in Awaited(c.subs)
    else (id, content) in Awaited(c.unsubs)
  }

  /** A packet of the client's own exchanges that carries an id. */
  predicate CarriesMyId(m: Msg) {
    m.mine && (PublishFlow(m.kind) || SubscribeFlow(m.kind) || UnsubscribeFlow(m.kind)) && (m.kind == PacketType.Publish ==> m.qos > 0)
  }

  /** My publishes are the session's messages whose id is in use; the others are the broker's. */
  predicate LivePublish(c: Client, id: nat) {
    id in c.pool.used && Contains(c.session, id)
  }

  /** Some request holds the id, so it is not lost to the pool. */
  ghost predicate Holder(c: Client, id: nat) {
    exists d: nat :: (id, d) in Held(c.session) || (id, d) in Awaited(c.subs) || (id, d) in Awaited(c.unsubs)
  }

  /** Pending publishes, subscribes and unsubscribes have pairwise distinct ids, and those in use are theirs. */
  ghost predicate IdsOk(c: Client) {
    && DistinctIds(c.session) && DistinctPending(c.subs) && DistinctPending(c.unsubs)
    && (forall id: nat, d: nat :: (id, d) in Awaited(c.subs) ==> id in c.pool.used && !Contains(c.session, id))
    && (forall id: nat, d: nat :: (id, d) in Awaited(c.unsubs) ==> id in c.pool.used && !Contains(c.session, id))
    && (forall id: nat, d: nat, e: nat :: (id, d) in Awaited(c.subs) ==> (id, e) !in Awaited(c.unsubs))
    && (forall id: nat :: id in c.pool.used ==> Holder(c, id))
  }

  ghost predicate IdsSafe(s: Sys) {
    var c := s.client;
    && IdsOk(c)
    && (forall m :: (m in Waiting(c.jobs) || m in s.outbox || m in s.toBroker || m in s.toClient) && CarriesMyId(m) ==>
          m.id in c.pool.used && AwaitedAs(c, m.kind, m.id, m.content))
  }

  lemma InvIdsOk(s: Sys)
    requires Inv(s)
    ensures IdsOk(s.client)
  {
    var c, x := s.client, s.exchanges;
    DistinctIsFunctional(c.session);
    hide Rest, DistinctIds, DistinctPending, Contains;
    forall id: nat, d: nat | (id, d) in Awaited(c.subs) || (id, d) in Awaited(c.unsubs)
      ensures id in c.pool.used && !Contains(c.session, id)
    {
      assert HoldsSubscribe(x, id, d) || HoldsUnsubscribe(x, id, d);
      forall e: nat ensures (id, e) !in Held(c.session) {
        assert !HoldsPublish(x, id, e) && !HoldsTheirs(x, id, e);
      }
    }
    forall id: nat, d: nat, e: nat | (id, d) in Awaited(c.subs) ensures (id, e) !in Awaited(c.unsubs) {
      assert HoldsSubscribe(x, id, d) && !HoldsUnsubscribe(x, id, e);
    }
    forall id: nat | id in c.pool.used ensures Holder(c, id) {
      var d := x[Mine(id)].content;
      assert Open(Mine(id), x[Mine(id)]);
      assert HoldsPublish(x, id, d) || HoldsSubscribe(x, id, d) || HoldsUnsubscribe(x, id, d);
      assert (id, d) in Held(c.session) || (id, d) in Awaited(c.subs) || (id, d) in Awaited(c.unsubs);
    }
  }

  lemma SafePacket(s: Sys, m: Msg)
    requires Inv(s) && CarriesMyId(m)
    requires m in Waiting(s.client.jobs) || m in s.outbox || m in s.toBroker || m in s.toClient
    ensures m.id in s.client.pool.used && AwaitedAs(s.client, m.kind, m.id, m.content)
    ensures m.live && s.All()[m] == 1 && forall n :: n in s.All() && n.live && n.mine && n.id == m.id ==> n == m
  {
    hide DistinctIds, DistinctPending, WindowOk, Remembered, Numbered;
    assert m.live by {
      ComposedShapes(s.client.jobs);
    }
    hide Shapes, Waiting;
    assert s.All()[m] > 0;
    hide Sys.All;
    assert Mine(m.id) in s.exchanges && s.exchanges[Mine(m.id)] == m;
    assert HoldsPublish(s.exchanges, m.id, m.content) || HoldsSubscribe(s.exchanges, m.id, m.content)
        || HoldsUnsubscribe(s.exchanges, m.id, m.content);
    forall n | n in s.All() && n.live && n.mine && n.id == m.id ensures n == m {
      assert s.All()[n] > 0;
    }
  }

  lemma InvIsSafe(s: Sys)
    requires Inv(s)
    ensures IdsSafe(s)
  {
    InvIdsOk(s);
    forall m | (m in Waiting(s.client.jobs) || m in s.outbox || m in s.toBroker || m in s.toClient) && CarriesMyId(m)
      ensures m.id in s.client.pool.used && AwaitedAs(s.client, m.kind, m.id, m.content)
    {
      SafePacket(s, m);
    }
    hide IdsOk, Rest, Linked, Held, Awaited, AwaitedAs, CarriesMyId, Holder;
  }

  // ---------------------------------------------------------------- accepted messages, sections 4.3.2 and 4.3.3

  /** Still in the session under its id, and the id in use. */
  predicate Kept(c: Client, id: nat, content: nat) {
    id in c.pool.used && exists m :: m in c.session && m.id == id && m.content == content
  }

  lemma InvRemembers(s: Sys)
    requires Inv(s)
    ensures forall r :: r in s.accepted ==> (Kept(s.client, s.accepted[r], r) <==> r !in s.done)
  {
    hide Carried, Shapes, WindowOk, Numbered;
    forall r | r in s.accepted ensures Kept(s.client, s.accepted[r], r) <==> r !in s.done {
      var id := s.accepted[r];
      assert Kept(s.client, id, r) <==> id in s.client.pool.used && (id, r) in Held(s.client.session);
      assert id in s.client.pool.used ==> !HoldsTheirs(s.exchanges, id, r);
    }
  }

  // ---------------------------------------------------------------- the send window, section 4.9

  /** A QoS 1 or 2 PUBLISH of the id is still queued. */
  predicate StillQueued(jobs: seq<Job>, id: nat) {
    exists i :: 0 <= i < |jobs| && IsCountedPublish(jobs[i]) && jobs[i].id == id
  }

  lemma QueuedIsCarried(s: Sys, id: nat)
    requires Inv(s)
    ensures StillQueued(s.client.jobs, id)
            <==> Mine(id) in s.exchanges && s.exchanges[Mine(id)].kind == PacketType.Publish && s.exchanges[Mine(id)] in Waiting(s.client.jobs)
  {
    var x, jobs := s.exchanges, s.client.jobs;
    hide DistinctIds, DistinctPending, WindowOk, Remembered, Numbered, Shapes, Waiting;
    if i :| 0 <= i < |jobs| && IsCountedPublish(jobs[i]) && jobs[i].id == id {
      var m := JobMsg(jobs[i]);
      WaitingMembers(jobs, m);
      assert s.All()[m] > 0;
      assert x[Mine(id)] == m;
    }
    if Mine(id) in x && x[Mine(id)].kind == PacketType.Publish && x[Mine(id)] in Waiting(jobs) {
      WaitingMembers(jobs, x[Mine(id)]);
      var i :| 0 <= i < |jobs| && JobMsg(jobs[i]) == x[Mine(id)];
      assert Open(Mine(id), x[Mine(id)]);
    }
  }

  lemma WindowCountsInFlight(s: Sys, id: nat)
    requires Inv(s)
    ensures id in s.send.ids <==> LivePublish(s.client, id) && !StillQueued(s.client.jobs, id)
  {
    var c, x := s.client, s.exchanges;
    QueuedIsCarried(s, id);
    DistinctIsFunctional(c.session);
    hide Carried, Shapes, Remembered, Numbered, DistinctIds, DistinctPending, StillQueued, Contains;
    if LivePublish(c, id) {
      var d: nat :| (id, d) in Held(c.session);
      assert HoldsPublish(x, id, d) || HoldsTheirs(x, id, d);
    }
    if Mine(id) in x && PublishFlow(x[Mine(id)].kind) {
      assert HoldsPublish(x, id, x[Mine(id)].content);
      assert (id, x[Mine(id)].content) in Held(c.session);
    }
  }

  // ---------------------------------------------------------------- all promises

  /** After any steps of a connection in which the id spaces stay apart:
      pending publishes, subscribes and unsubscribes have pairwise distinct ids, those in use are theirs and no
      others, and every packet and acknowledgement on its way, in either direction, has an id held by the very
      request it was sent for;
      every QoS 1 or 2 message `publish` accepted is in the session with its id in use until its PUBACK, PUBCOMP
      or failing PUBREC has arrived, and no longer;
      and the send window counts exactly the publishes sent and not finally acknowledged, at most the
      broker's Receive Maximum. */
  lemma ProtocolPromises(steps: seq<Step>, clientMaximum: nat, brokerMaximum: nat)
    requires Goes(NewSys(clientMaximum, brokerMaximum), steps) && KeptApart(NewSys(clientMaximum, brokerMaximum), steps)
    ensures var s := Reached(NewSys(clientMaximum, brokerMaximum), steps);
            && IdsSafe(s)
            && (forall r :: r in s.accepted ==> (Kept(s.client, s.accepted[r], r) <==> r !in s.done))
            && (forall id: nat :: id in s.send.ids <==> LivePublish(s.client, id) && !StillQueued(s.client.jobs, id))
            && |s.send.ids| + s.send.allowance == brokerMaximum
  {
    var start := NewSys(clientMaximum, brokerMaximum);
    NewInv(clientMaximum, brokerMaximum);
    RunKeeps(start, steps);
    var s := Reached(start, steps);
    InvIsSafe(s);
    InvRemembers(s);
    forall id: nat ensures id in s.send.ids <==> LivePublish(s.client, id) && !StillQueued(s.client.jobs, id) {
      WindowCountsInFlight(s, id);
    }
    hide IdsSafe, Kept, LivePublish, StillQueued, Books, Carried, Remembered, Shapes, Numbered;
  }
}
