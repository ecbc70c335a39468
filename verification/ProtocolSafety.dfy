/** Every step of client and broker keeps the invariant if and only if it keeps the two id spaces apart. */
module ProtocolSafety {
  import opened Bytes
  import opened Packets
  import opened ReceiveMaximum
  import opened PacketIdPools
  import opened Sessions
  import opened TopicAliasMaps
  import opened SendPipes
  import opened Clients
  import opened Protocol
  import opened ProtocolInvariant
  import SendPipeRuns

  // ---------------------------------------------------------------- requests

  /** A client's request: a new id from the pool, the request noted under it, the job queued. */
  ghost predicate Asks(c: Client, d: Client, m: Msg) {
    && c.pool.CanGet() && m.id == c.pool.Get().0 && m.mine && m.live && Open(KeyOf(m), m)
    && m.kind in {PacketType.Publish, PacketType.Subscribe, PacketType.Unsubscribe}
    && d.pool == c.pool.Get().1 && d.status == c.status && (m.kind == PacketType.Publish ==> m.qos > 0)
  }

  lemma AskedIdIsNew(c: Client, x: map<Key, Msg>)
    requires Books(c, x) && c.pool.CanGet()
    ensures var (id, rest) := c.pool.Get(); rest.Valid() && id !in c.pool.used && rest.used == c.pool.used + {id} && Mine(id) !in x && id < POOL_SIZE
    ensures forall c': nat :: (c.pool.Get().0, c') !in Awaited(c.subs) && (c.pool.Get().0, c') !in Awaited(c.unsubs)
    ensures !Contains(c.session, c.pool.Get().0) ==> forall c': nat :: (c.pool.Get().0, c') !in Held(c.session)
  {
    GetKeepsValid(c.pool);
    var id := c.pool.Get().0;
    forall c': nat ensures (id, c') !in Awaited(c.subs) && (id, c') !in Awaited(c.unsubs) {
      assert !HoldsSubscribe(x, id, c') && !HoldsUnsubscribe(x, id, c');
    }
    DistinctIsFunctional(c.session);
  }

  lemma AskingKeepsBooks(c: Client, x: map<Key, Msg>, d: Client, m: Msg, now: nat, interval: nat)
    requires Books(c, x) && Asks(c, d, m) && !Contains(c.session, m.id)
    requires d.session == if m.kind == PacketType.Publish then Add(c.session, m.id, m.content, m.qos, now, interval) else c.session
    requires d.subs == if m.kind == PacketType.Subscribe then c.subs + [Pending(m.id, m.content)] else c.subs
    requires d.unsubs == if m.kind == PacketType.Unsubscribe then c.unsubs + [Pending(m.id, m.content)] else c.unsubs
    ensures Books(d, x[KeyOf(m) := m])
  {
    AskedIdIsNew(c, x);
    LinkRequest(x, c.pool.used, Held(c.session), Awaited(c.subs), Awaited(c.unsubs), m);
    ToldAdd(c.session, c.pool.used, m.id, m.content, m.qos, now, interval);
    hide Linked, Pool.Valid, Pool.Get, Told;
    if m.kind == PacketType.Publish {
      AddHeld(c.session, m.id, m.content, m.qos, now, interval);
    } else if m.kind == PacketType.Subscribe {
      AddAwaited(c.subs, m.id, m.content);
    } else {
      AddAwaited(c.unsubs, m.id, m.content);
    }
    hide Held, Awaited, DistinctIds, DistinctPending, Add, Contains;
    assert forall a: set<(nat, nat)> :: a + {} == a;
  }

  lemma WindowAfterAsking(send: Window, x: map<Key, Msg>, queued: multiset<Msg>, m: Msg)
    requires WindowOk(send, x, queued) && KeyOf(m) !in x && m.mine && (PublishFlow(m.kind) ==> m.kind == PacketType.Publish)
    requires forall k :: k in x ==> KeyOf(x[k]) == k
    ensures WindowOk(send, x[KeyOf(m) := m], queued + multiset{m})
  {
    forall id: nat ensures InFlight(x[KeyOf(m) := m], queued + multiset{m}, id) <==> InFlight(x, queued, id) {
      assert Mine(id) in x ==> x[Mine(id)] != m;
    }
  }

  lemma OneMoreQueued(s: Sys, s': Sys, job: Job)
    requires s'.client.jobs == s.client.jobs + [job]
    requires s'.outbox == s.outbox && s'.toBroker == s.toBroker && s'.toClient == s.toClient && s'.unfired == s.unfired
    ensures s'.All() == s.All() + multiset{JobMsg(job)}
  {
    WaitingSnoc(s.client.jobs, job);
  }

  lemma RememberedAfterAsking(x: map<Key, Msg>, accepted: map<nat, nat>, done: set<nat>, m: Msg)
    requires Remembered(x, accepted, done) && KeyOf(m) !in x && m.mine && m.content !in done
    requires forall k :: k in x ==> x[k].content != m.content
    ensures !PublishFlow(m.kind) ==> Remembered(x[KeyOf(m) := m], accepted, done)
    ensures PublishFlow(m.kind) ==> Remembered(x[KeyOf(m) := m], accepted[m.content := m.id], done)
  {
    var y := x[KeyOf(m) := m];
    assert forall id: nat, c: nat :: HoldsPublish(y, id, c) <==> HoldsPublish(x, id, c) || (PublishFlow(m.kind) && (id, c) == (m.id, m.content));
    assert forall id: nat, c: nat :: HoldsPublish(x, id, c) ==> c != m.content;
  }

  /** What the three requests have in common. */
  lemma NextAsks(s: Sys, step: Step) returns (job: Job, m: Msg, now: nat, interval: nat)
    requires Enabled(s, step) && s.client.status.Connected? && (step.Publishes? || step.Subscribes? || step.Unsubscribes?)
    ensures var s', c := Next(s, step), s.client;
            var d := s'.client;
            && m == JobMsg(job) && Asks(c, d, m) && m.content == s.requests && d.jobs == c.jobs + [job]
            && d.session == (if m.kind == PacketType.Publish then Add(c.session, m.id, m.content, m.qos, now, interval) else c.session)
            && d.subs == (if m.kind == PacketType.Subscribe then c.subs + [Pending(m.id, m.content)] else c.subs)
            && d.unsubs == (if m.kind == PacketType.Unsubscribe then c.unsubs + [Pending(m.id, m.content)] else c.unsubs)
            && (Apart(s, step) <==> !Contains(c.session, m.id))
            && s' == s.(client := d, requests := s.requests + 1, exchanges := s.exchanges[KeyOf(m) := m], accepted := s'.accepted)
            && s'.accepted == if m.kind == PacketType.Publish then s.accepted[m.content := m.id] else s.accepted
  {
    var d := Next(s, step).client;
    job := d.jobs[|s.client.jobs|];
    m := JobMsg(job);
    now, interval := if step.Publishes? then step.now else 0, if step.Publishes? then step.interval else 0;
  }

  lemma ShapesSame(s: Sys, s': Sys)
    requires Shapes(s) && s'.outbox == s.outbox && s'.toBroker == s.toBroker && s'.toClient == s.toClient && s'.unfired == s.unfired
    ensures Shapes(s')
  {
  }

  lemma AskingKeepsRest(s: Sys, s': Sys, job: Job, m: Msg)
    requires Rest(s) && m == JobMsg(job) && m.mine && m.live && KeyOf(m) !in s.exchanges && m.content == s.requests && m.id < 0x1_0000
    requires PublishFlow(m.kind) ==> m.kind == PacketType.Publish
    requires forall k :: k in s.exchanges ==> KeyOf(s.exchanges[k]) == k
    requires s'.client.jobs == s.client.jobs + [job]
    requires s' == s.(client := s'.client, requests := s.requests + 1, exchanges := s.exchanges[KeyOf(m) := m], accepted := s'.accepted)
    requires s'.accepted == if m.kind == PacketType.Publish then s.accepted[m.content := m.id] else s.accepted
    ensures Rest(s')
  {
    hide Carried, Sys.All, WindowOk, Remembered, Shapes, Waiting, JobMsg;
    assert Numbered(s');
    assert m.content !in s.done && forall k :: k in s.exchanges ==> s.exchanges[k].content != m.content;
    hide Numbered;
    ShapesSame(s, s');
    OneMoreQueued(s, s', job);
    WaitingSnoc(s.client.jobs, job);
    CarryNew(s.exchanges, s.All(), s'.All(), m);
    WindowAfterAsking(s.send, s.exchanges, Waiting(s.client.jobs), m);
    RememberedAfterAsking(s.exchanges, s.accepted, s.done, m);
  }

  lemma AskingKeepsInv(s: Sys, step: Step)
    requires Inv(s) && Enabled(s, step) && (step.Publishes? || step.Subscribes? || step.Unsubscribes?)
    ensures Inv(Next(s, step)) <==> Apart(s, step)
  {
    hide Linked, DistinctIds, DistinctPending, Rest;
    assert s.client.status.Connected?;
    var job, m, now, interval := NextAsks(s, step);
    var s', c, x := Next(s, step), s.client, s.exchanges;
    hide Next, Apart, Enabled, JobMsg;
    AskedIdIsNew(c, x);
    OpenKeys(c, x);
    AskingKeepsRest(s, s', job, m);
    if !Contains(c.session, m.id) {
      hide Books;
      AskingKeepsBooks(c, x, s'.client, m, now, interval);
    } else {
      AskingCrossed(c, x, s'.client, m);
      if m.kind == PacketType.Publish {
        AddTwice(c.session, m.id, m.content, m.qos, now, interval);
      }
    }
  }

  lemma AskingCrossed(c: Client, x: map<Key, Msg>, d: Client, m: Msg)
    requires Books(c, x) && Asks(c, d, m) && Contains(c.session, m.id)
    ensures d.session == c.session ==> !Books(d, x[KeyOf(m) := m])
  {
    AskedIdIsNew(c, x);
    DistinctIsFunctional(c.session);
    var c': nat :| (m.id, c') in Held(c.session);
    assert HoldsTheirs(x, m.id, c') by {
      assert !HoldsPublish(x, m.id, c');
    }
    assert HoldsTheirs(x[KeyOf(m) := m], m.id, c');
  }

  // ---------------------------------------------------------------- the channels

  lemma OpenKeys(c: Client, x: map<Key, Msg>)
    requires Books(c, x)
    ensures forall k :: k in x ==> KeyOf(x[k]) == k && x[k].live
  {
  }

  lemma QueueingKeepsRest(s: Sys, job: Job)
    requires Rest(s) && !Carries(job.kind, job.qos) && forall k :: k in s.exchanges ==> s.exchanges[k].live
    ensures Rest(s.(client := s.client.Queue(job)))
  {
    var s' := s.(client := s.client.Queue(job));
    hide Carried, Remembered, WindowOk, Sys.All;
    assert Shapes(s') && Numbered(s');
    hide Shapes, Numbered;
    OneMoreQueued(s, s', job);
    WaitingSnoc(s.client.jobs, job);
    hide Waiting;
    assert SameLive(s.All(), s'.All()) && SameLive(Waiting(s.client.jobs), Waiting(s'.client.jobs));
    hide SameLive;
    CarrySame(s.exchanges, s.All(), s'.All());
    WindowSameLive(s.send, s.exchanges, Waiting(s.client.jobs), Waiting(s'.client.jobs));
  }

  lemma QueueingKeepsInv(s: Sys, job: Job)
    requires Inv(s) && !Carries(job.kind, job.qos)
    ensures Inv(s.(client := s.client.Queue(job)))
  {
    hide Linked, DistinctIds, DistinctPending, Rest;
    OpenKeys(s.client, s.exchanges);
    QueueingKeepsRest(s, job);
  }

  lemma WindowSameLive(send: Window, x: map<Key, Msg>, queued: multiset<Msg>, other: multiset<Msg>)
    requires WindowOk(send, x, queued) && SameLive(queued, other)
    requires forall k :: k in x ==> x[k].live
    ensures WindowOk(send, x, other)
  {
    forall id: nat ensures InFlight(x, queued, id) <==> InFlight(x, other, id) {
    }
  }

  lemma TransmitKeepsShapes(s: Sys, m: Msg)
    requires Shapes(s) && m in s.outbox
    ensures Shapes(Transmitted(s, m)) && (m.live <==> Carries(m.kind, m.qos))
  {
  }

  lemma TransmitSameLive(queued: multiset<Msg>, outbox: multiset<Msg>, toBroker: multiset<Msg>, toClient: multiset<Msg>,
                         unfired: multiset<Msg>, m: Msg, sent: Msg, noted: multiset<Msg>)
    requires m in outbox && SameLive(multiset{m}, multiset{sent} + noted)
    ensures SameLive(queued + outbox + toBroker + toClient + unfired,
                     queued + (outbox - multiset{m}) + (toBroker + multiset{sent}) + toClient + (unfired + noted))
  {
    forall t: Msg | t.live
      ensures (queued + (outbox - multiset{m}) + (toBroker + multiset{sent}) + toClient + (unfired + noted))[t]
           == (queued + outbox + toBroker + toClient + unfired)[t]
    {
      assert (multiset{sent} + noted)[t] == multiset{m}[t];
    }
  }

  lemma TransmitKeepsCarried(s: Sys, m: Msg)
    requires Carried(s.exchanges, s.All()) && m in s.outbox && Composed(m)
    ensures Carried(s.exchanges, Transmitted(s, m).All())
  {
    hide Carried;
    var sent := if m.kind == PublishComplete then m.(live := false) else m;
    var noted := if m.kind == PublishComplete then multiset{m}
                 else if m.kind in {PublishReceived, PublishReleased} then multiset{m.(live := false)}
                 else multiset{};
    TransmitSameLive(Waiting(s.client.jobs), s.outbox, s.toBroker, s.toClient, s.unfired, m, sent, noted);
    CarrySame(s.exchanges, s.All(), Transmitted(s, m).All());
  }

  lemma TransmitKeepsInv(s: Sys, m: Msg)
    requires Inv(s) && m in s.outbox
    ensures Inv(Transmitted(s, m))
  {
    hide Books, Remembered, WindowOk, Waiting, Carried, Sys.All;
    TransmitKeepsShapes(s, m);
    TransmitKeepsCarried(s, m);
    assert Numbered(Transmitted(s, m));
    hide Shapes, Numbered;
  }

  /** A live packet in one place is in no other. */
  lemma NotQueued(s: Sys, m: Msg)
    requires Carried(s.exchanges, s.All()) && m.live && (m in s.outbox || m in s.toBroker || m in s.toClient || m in s.unfired)
    ensures m !in Waiting(s.client.jobs)
  {
    assert s.All()[m] <= 1;
  }

  /** The publishes in flight stay the same when a packet past the queue gives way to another of its exchange. */
  lemma WindowMoved(send: Window, x: map<Key, Msg>, queued: multiset<Msg>, other: multiset<Msg>, m: Msg, n: Msg)
    requires WindowOk(send, x, queued) && KeyOf(m) in x && x[KeyOf(m)] == m && m !in queued
    requires forall t: Msg :: t != n ==> other[t] == queued[t]
    requires forall k :: k in x ==> KeyOf(x[k]) == k
    requires KeyOf(n) == KeyOf(m) && PublishFlow(n.kind) == PublishFlow(m.kind) && (n.mine ==> n.kind != PacketType.Publish)
    ensures WindowOk(send, x[KeyOf(m) := n], other)
  {
    forall id: nat ensures InFlight(x, queued, id) <==> InFlight(x[KeyOf(m) := n], other, id) {
      assert Mine(id) in x && Mine(id) != KeyOf(m) ==> x[Mine(id)] != n;
    }
  }

  lemma RememberedMoved(x: map<Key, Msg>, accepted: map<nat, nat>, done: set<nat>, m: Msg, n: Msg)
    requires Remembered(x, accepted, done) && KeyOf(m) in x && x[KeyOf(m)] == m
    requires KeyOf(n) == KeyOf(m) && n.content == m.content && PublishFlow(n.kind) == PublishFlow(m.kind)
    ensures Remembered(x[KeyOf(m) := n], accepted, done)
  {
    var y := x[KeyOf(m) := n];
    assert forall id: nat, c: nat :: HoldsPublish(y, id, c) <==> HoldsPublish(x, id, c);
  }

  /** Everything but the client's own books, when live packet `m` gives way to `n` of the same exchange. */
  lemma MoveKeepsRest(s: Sys, s': Sys, rest: multiset<Msg>, m: Msg, n: Msg)
    requires Rest(s) && Shapes(s') && m.live && n.live && m !in Waiting(s.client.jobs)
    requires forall k :: k in s.exchanges ==> KeyOf(s.exchanges[k]) == k
    requires s.All() == rest + multiset{m} && s'.All() == rest + multiset{n}
    requires forall t: Msg :: t != n ==> Waiting(s'.client.jobs)[t] == Waiting(s.client.jobs)[t]
    requires KeyOf(n) == KeyOf(m) && n.content == m.content && n.id == m.id && PublishFlow(n.kind) == PublishFlow(m.kind)
    requires n.mine ==> n.kind != PacketType.Publish
    requires s'.exchanges == s.exchanges[KeyOf(m) := n] && s'.send == s.send && s'.requests == s.requests
    requires s'.accepted == s.accepted && s'.done == s.done
    ensures KeyOf(m) in s.exchanges && s.exchanges[KeyOf(m)] == m && Rest(s')
  {
    hide Shapes, Sys.All, Waiting;
    CarryMove(s.exchanges, s.All(), rest, s'.All(), m, n);
    hide Carried;
    WindowMoved(s.send, s.exchanges, Waiting(s.client.jobs), Waiting(s'.client.jobs), m, n);
    hide WindowOk;
    RememberedMoved(s.exchanges, s.accepted, s.done, m, n);
  }

  lemma FewerGoing(toBroker: multiset<Msg>, m: Msg)
    requires m in toBroker && forall n :: n in toBroker ==> Going(n)
    ensures Going(m) && forall n :: n in toBroker - multiset{m} ==> Going(n)
  {
  }

  lemma MoreComing(toClient: multiset<Msg>, m: Msg)
    requires Coming(m) && forall n :: n in toClient ==> Coming(n)
    ensures forall n :: n in toClient + multiset{m} ==> Coming(n)
  {
  }

  lemma TakingKeepsShapes(s: Sys, m: Msg, failed: bool)
    requires Shapes(s) && m in s.toBroker
    ensures Shapes(TakenByBroker(s, m, failed)) && Going(m)
  {
    FewerGoing(s.toBroker, m);
    if m.live {
      assert Coming(BrokerReply(m, failed));
      MoreComing(s.toClient, BrokerReply(m, failed));
    }
    hide Composed, Coming, Announcing, BrokerReply, Going;
  }

  lemma TakenAll(queued: multiset<Msg>, outbox: multiset<Msg>, toBroker: multiset<Msg>, toClient: multiset<Msg>,
                 unfired: multiset<Msg>, m: Msg, reply: multiset<Msg>)
    requires m in toBroker
    ensures var rest := queued + outbox + (toBroker - multiset{m}) + toClient + unfired;
            && queued + outbox + toBroker + toClient + unfired == rest + multiset{m}
            && queued + outbox + (toBroker - multiset{m}) + (toClient + reply) + unfired == rest + reply
  {
    assert toBroker == toBroker - multiset{m} + multiset{m};
  }

  lemma TakingMoves(s: Sys, m: Msg, failed: bool) returns (rest: multiset<Msg>)
    requires m in s.toBroker
    ensures s.All() == rest + multiset{m}
    ensures TakenByBroker(s, m, failed).All() == if m.live then rest + multiset{BrokerReply(m, failed)} else rest
  {
    rest := Waiting(s.client.jobs) + s.outbox + (s.toBroker - multiset{m}) + s.toClient + s.unfired;
    TakenAll(Waiting(s.client.jobs), s.outbox, s.toBroker, s.toClient, s.unfired, m, multiset{BrokerReply(m, failed)});
  }

  lemma TakingKeepsRest(s: Sys, m: Msg, failed: bool)
    requires Rest(s) && m in s.toBroker && m.live
    requires forall k :: k in s.exchanges ==> KeyOf(s.exchanges[k]) == k
    ensures Rest(TakenByBroker(s, m, failed)) && KeyOf(m) in s.exchanges && s.exchanges[KeyOf(m)] == m && Going(m)
  {
    hide Carried, Sys.All, WindowOk, Remembered, Shapes, Numbered, Waiting;
    TakingKeepsShapes(s, m, failed);
    NotQueued(s, m);
    var rest := TakingMoves(s, m, failed);
    MoveKeepsRest(s, TakenByBroker(s, m, failed), rest, m, BrokerReply(m, failed));
  }

  lemma TakingDeadKeepsRest(s: Sys, m: Msg, failed: bool)
    requires Rest(s) && m in s.toBroker && !m.live
    ensures Rest(TakenByBroker(s, m, failed))
  {
    hide Carried, Sys.All, WindowOk, Remembered, Shapes, Numbered, Waiting;
    TakingKeepsShapes(s, m, failed);
    NumberedSame(s, TakenByBroker(s, m, failed));
    var rest := TakingMoves(s, m, failed);
    CarrySame(s.exchanges, s.All(), rest);
  }

  lemma TakingKeepsInv(s: Sys, m: Msg, failed: bool)
    requires Inv(s) && m in s.toBroker
    ensures Inv(TakenByBroker(s, m, failed))
  {
    OpenKeys(s.client, s.exchanges);
    hide Rest, Books;
    if m.live {
      TakingKeepsRest(s, m, failed);
      LinkTaken(s, m, BrokerReply(m, failed));
    } else {
      TakingDeadKeepsRest(s, m, failed);
    }
  }

  lemma LinkTaken(s: Sys, m: Msg, n: Msg)
    requires Books(s.client, s.exchanges) && KeyOf(m) in s.exchanges && s.exchanges[KeyOf(m)] == m && Going(m) && m.live
    requires n == BrokerReply(m, n.failed)
    ensures Books(s.client, s.exchanges[KeyOf(m) := n])
  {
    LinkMove(s.exchanges, s.client.pool.used, Held(s.client.session), Awaited(s.client.subs), Awaited(s.client.unsubs), m, n);
  }

  lemma OfferedAll(queued: multiset<Msg>, outbox: multiset<Msg>, toBroker: multiset<Msg>, toClient: multiset<Msg>,
                   unfired: multiset<Msg>, m: Msg)
    ensures queued + outbox + toBroker + (toClient + multiset{m}) + unfired
         == queued + outbox + toBroker + toClient + unfired + multiset{m}
  {
  }

  lemma OfferKeepsRest(s: Sys, qos: nat, id: nat)
    requires Rest(s) && id < 0x1_0000
    requires forall k :: k in s.exchanges ==> KeyOf(s.exchanges[k]) == k
    ensures Rest(Offered(s, qos, id)) && KeyOf(Offer(s, qos, id)) !in s.exchanges
  {
    hide Carried, WindowOk, Remembered, Waiting;
    var s', m, x := Offered(s, qos, id), Offer(s, qos, id), s.exchanges;
    assert s'.All() == s.All() + multiset{m} by {
      OfferedAll(Waiting(s.client.jobs), s.outbox, s.toBroker, s.toClient, s.unfired, m);
    }
    hide Sys.All;
    assert Shapes(s') by {
      hide Numbered;
    }
    hide Shapes;
    assert Numbered(s') && KeyOf(m) !in x;
    hide Numbered;
    if qos == 2 {
      CarryNew(x, s.All(), s'.All(), m);
      TheirsElsewhere(x, x[KeyOf(m) := m], s.send, Waiting(s.client.jobs), s.accepted, s.done);
    } else {
      CarrySame(x, s.All(), s'.All());
    }
  }

  lemma OfferKeepsInv(s: Sys, qos: nat, id: nat)
    requires Inv(s) && id < 0x1_0000
    ensures Inv(Offered(s, qos, id))
  {
    var m, c := Offer(s, qos, id), s.client;
    OpenKeys(c, s.exchanges);
    hide Rest, Linked;
    OfferKeepsRest(s, qos, id);
    if qos == 2 {
      LinkOffer(s.exchanges, c.pool.used, Held(c.session), Awaited(c.subs), Awaited(c.unsubs), m);
    }
  }

  /** The send window and the accepted publishes do not depend on the broker's exchanges. */
  lemma TheirsElsewhere(x: map<Key, Msg>, y: map<Key, Msg>, send: Window, queued: multiset<Msg>, accepted: map<nat, nat>, done: set<nat>)
    requires forall id: nat :: (Mine(id) in x <==> Mine(id) in y) && (Mine(id) in x ==> x[Mine(id)] == y[Mine(id)])
    ensures WindowOk(send, x, queued) ==> WindowOk(send, y, queued)
    ensures Remembered(x, accepted, done) ==> Remembered(y, accepted, done)
  {
    assert forall id: nat :: InFlight(x, queued, id) <==> InFlight(y, queued, id);
    assert forall id: nat, c: nat :: HoldsPublish(x, id, c) <==> HoldsPublish(y, id, c);
  }

  // ---------------------------------------------------------------- callbacks

  lemma UnfiredAll(before: multiset<Msg>, unfired: multiset<Msg>, m: Msg)
    requires m in unfired
    ensures before + unfired == before + (unfired - multiset{m}) + multiset{m}
  {
    assert unfired == unfired - multiset{m} + multiset{m};
  }

  lemma FiredMoves(s: Sys, m: Msg, now: nat, interval: nat)
    requires m in s.unfired
    ensures s.All() == Fired(s, m, now, interval).All() + multiset{m}
  {
    hide Waiting, Update, Erase, Pool.Release;
    UnfiredAll(Waiting(s.client.jobs) + s.outbox + s.toBroker + s.toClient, s.unfired, m);
  }

  /** A callback that notes a status changes nothing else. */
  lemma NotingKeepsBooks(c: Client, x: map<Key, Msg>, id: nat, status: Status, now: nat, interval: nat)
    requires Books(c, x) && status != WaitingForAck
    ensures Books(c.(session := Update(c.session, id, status, now, interval)), x)
  {
    UpdateHeld(c.session, id, status, now, interval);
    ToldUpdate(c.session, c.pool.used, id, status, now, interval);
    hide Told, Update, Linked, DistinctIds, DistinctPending, Held, Awaited;
  }

  /** The PUBCOMP callback removes the broker's message; its id is not one of mine, so the pool stays as it is. */
  lemma ClosingKeepsBooks(c: Client, x: map<Key, Msg>, m: Msg)
    requires Books(c, x) && KeyOf(m) in x && x[KeyOf(m)] == m && !m.mine && m.kind != PacketType.Publish
    ensures Books(c.Forget(m.id), x - {KeyOf(m)}) && c.Forget(m.id).pool == c.pool
  {
    DistinctIsFunctional(c.session);
    EraseHeld(c.session, m.id);
    ToldErase(c.session, c.pool.used, m.id);
    LinkEndTheirs(x, c.pool.used, Held(c.session), Awaited(c.subs), Awaited(c.unsubs), m, Held(Erase(c.session, m.id)));
    assert c.pool.used - {m.id} == c.pool.used;
    hide Told, Linked, DistinctIds, DistinctPending, Held, Awaited, Erase, Pool.Valid;
  }

  lemma FiringKeepsShapes(s: Sys, m: Msg, now: nat, interval: nat)
    requires Shapes(s) && m in s.unfired
    ensures Shapes(Fired(s, m, now, interval)) && Announcing(m)
  {
    hide Composed, Going, Coming, Announcing;
  }

  lemma ClosingKeepsRest(s: Sys, m: Msg, now: nat, interval: nat)
    requires Rest(s) && m in s.unfired && m.kind == PublishComplete
    ensures Rest(Fired(s, m, now, interval)) && KeyOf(m) in s.exchanges && s.exchanges[KeyOf(m)] == m && !m.mine
  {
    hide Carried, Sys.All, WindowOk, Remembered, Shapes, Waiting;
    var s', x := Fired(s, m, now, interval), s.exchanges;
    FiringKeepsShapes(s, m, now, interval);
    FiredMoves(s, m, now, interval);
    assert Numbered(s');
    CarryEnd(x, s.All(), s'.All(), m);
    TheirsElsewhere(x, x - {KeyOf(m)}, s.send, Waiting(s.client.jobs), s.accepted, s.done);
  }

  lemma NotingKeepsRest(s: Sys, m: Msg, now: nat, interval: nat)
    requires Rest(s) && m in s.unfired && m.kind != PublishComplete
    ensures Rest(Fired(s, m, now, interval))
  {
    hide Carried, Sys.All, WindowOk, Remembered, Shapes, Waiting;
    FiringKeepsShapes(s, m, now, interval);
    FiredMoves(s, m, now, interval);
    CarrySame(s.exchanges, s.All(), Fired(s, m, now, interval).All());
  }

  lemma FiringKeepsInv(s: Sys, m: Msg, now: nat, interval: nat)
    requires Inv(s) && m in s.unfired
    ensures Inv(Fired(s, m, now, interval))
  {
    FiringKeepsShapes(s, m, now, interval);
    hide Rest, Books, Shapes;
    if m.kind == PublishComplete {
      ClosingKeepsRest(s, m, now, interval);
      ClosingKeepsBooks(s.client, s.exchanges, m);
    } else {
      NotingKeepsRest(s, m, now, interval);
      NotingKeepsBooks(s.client, s.exchanges, m.id, if m.kind == PublishReceived then WaitingForPubRel else WaitingForPubComp, now, interval);
    }
  }

  // ---------------------------------------------------------------- callbacks made again

  lemma NoEntries(c: Client, x: map<Key, Msg>, id: nat)
    requires Books(c, x) && id !in c.pool.used
    ensures c.pool.Release(id) == c.pool && ErasePending(c.subs, id) == c.subs && ErasePending(c.unsubs, id) == c.unsubs
  {
    assert forall d: nat :: !HoldsSubscribe(x, id, d) && !HoldsUnsubscribe(x, id, d);
    assert forall d: nat :: (id, d) !in Awaited(c.subs) && (id, d) !in Awaited(c.unsubs);
    hide Linked;
    assert forall k :: 0 <= k < |c.subs| ==> (c.subs[k].id, c.subs[k].content) in Awaited(c.subs);
    assert forall k :: 0 <= k < |c.unsubs| ==> (c.unsubs[k].id, c.unsubs[k].content) in Awaited(c.unsubs);
  }

  lemma OtherJobs(s: Sys, c: Client)
    requires Rest(s) && c.jobs == s.client.jobs
    ensures Rest(s.(client := c))
  {
    hide Carried, Remembered, WindowOk, Waiting;
  }

  lemma StrayBooks(c: Client, x: map<Key, Msg>, id: nat)
    requires Books(c, x)
    ensures Books(c.Forget(id), x) <==> id !in c.pool.used && !Contains(c.session, id)
    ensures Books(c.SubscribeAckReceived(id), x) <==> id !in c.pool.used
    ensures Books(c.UnsubscribeAckReceived(id), x) <==> id !in c.pool.used
  {
    ReleaseKeepsValid(c.pool, id);
    if id in c.pool.used {
      assert Mine(id) in x && id !in c.pool.Release(id).used;
    } else {
      NoEntries(c, x, id);
      if Contains(c.session, id) {
        DistinctIsFunctional(c.session);
        EraseHeld(c.session, id);
        var d: nat :| (id, d) in Held(c.session);
        assert HoldsPublish(x, id, d) || HoldsTheirs(x, id, d);
        assert (id, d) !in Held(Erase(c.session, id));
      }
    }
  }

  /** A callback made again keeps the invariant, except that of a PUBCOMP when its id is held again. */
  lemma RepeatingKeepsExactly(s: Sys, m: Msg, now: nat, interval: nat)
    requires Inv(s)
    ensures Inv(s.(client := CalledBack(s.client, m, now, interval)))
       <==> (m.kind !in {PublishReceived, PublishReleased} ==> m.id !in s.client.pool.used && !Contains(s.client.session, m.id))
  {
    var c := s.client;
    InvIf(s);
    hide Inv, Rest, Books, Erase, Update, Contains, Pool.Release;
    OtherJobs(s, CalledBack(c, m, now, interval));
    if m.kind in {PublishReceived, PublishReleased} {
      NotingKeepsBooks(c, s.exchanges, m.id, if m.kind == PublishReceived then WaitingForPubRel else WaitingForPubComp, now, interval);
      InvIf(s.(client := CalledBack(c, m, now, interval)));
    } else {
      StrayBooks(c, s.exchanges, m.id);
      InvIf(s.(client := CalledBack(c, m, now, interval)));
    }
  }

  lemma InvIf(s: Sys)
    ensures Inv(s) <==> Books(s.client, s.exchanges) && Rest(s)
  {
  }

  // ---------------------------------------------------------------- what the broker sends

  lemma ArrivedAll(before: multiset<Msg>, toClient: multiset<Msg>, after: multiset<Msg>, m: Msg, more: multiset<Msg>)
    requires m in toClient
    ensures var rest := before + (toClient - multiset{m}) + after;
            && before + toClient + after == rest + multiset{m}
            && (before + more) + (toClient - multiset{m}) + after == rest + more
  {
    assert toClient == toClient - multiset{m} + multiset{m};
  }

  lemma QueuedFirst(queued: multiset<Msg>, outbox: multiset<Msg>, toBroker: multiset<Msg>, more: multiset<Msg>)
    ensures (queued + more) + outbox + toBroker == (queued + outbox + toBroker) + more
  {
  }

  /** The client takes a packet out of the channel and queues a job for it, or none. */
  lemma HandledMoves(s: Sys, s': Sys, m: Msg, jobs: seq<Job>) returns (rest: multiset<Msg>)
    requires m in s.toClient && s'.client.jobs == s.client.jobs + jobs && |jobs| <= 1
    requires s'.outbox == s.outbox && s'.toBroker == s.toBroker && s'.unfired == s.unfired && s'.toClient == s.toClient - multiset{m}
    ensures Waiting(s'.client.jobs) == Waiting(s.client.jobs) + Waiting(jobs)
    ensures s.All() == rest + multiset{m} && s'.All() == rest + Waiting(jobs)
  {
    if jobs == [] {
      assert s.client.jobs + jobs == s.client.jobs;
    } else {
      assert jobs == [jobs[0]];
      assert Waiting(jobs) == multiset{JobMsg(jobs[0])};
      WaitingSnoc(s.client.jobs, jobs[0]);
    }
    var q, before := Waiting(s.client.jobs), Waiting(s.client.jobs) + s.outbox + s.toBroker;
    hide Waiting, JobMsg;
    rest := before + (s.toClient - multiset{m}) + s.unfired;
    ArrivedAll(before, s.toClient, s.unfired, m, Waiting(jobs));
    QueuedFirst(q, s.outbox, s.toBroker, Waiting(jobs));
  }

  lemma HandlingKeepsShapes(s: Sys, s': Sys, m: Msg)
    requires Shapes(s) && m in s.toClient
    requires s'.outbox == s.outbox && s'.toBroker == s.toBroker && s'.unfired == s.unfired && s'.toClient == s.toClient - multiset{m}
    ensures Shapes(s') && Coming(m)
  {
    hide Composed, Going, Coming, Announcing;
  }

  /** A live packet is answered by a queued packet of its exchange. */
  lemma AnsweringKeepsRest(s: Sys, s': Sys, m: Msg, job: Job)
    requires Rest(s) && m in s.toClient && m.live && JobMsg(job).live && s'.client.jobs == s.client.jobs + [job]
    requires forall k :: k in s.exchanges ==> KeyOf(s.exchanges[k]) == k
    requires KeyOf(JobMsg(job)) == KeyOf(m) && job.content == m.content && job.id == m.id && PublishFlow(job.kind) == PublishFlow(m.kind)
    requires JobMsg(job).mine ==> job.kind != PacketType.Publish
    requires s'.outbox == s.outbox && s'.toBroker == s.toBroker && s'.unfired == s.unfired && s'.toClient == s.toClient - multiset{m}
    requires s'.exchanges == s.exchanges[KeyOf(m) := JobMsg(job)] && s'.send == s.send && s'.requests == s.requests
    requires s'.accepted == s.accepted && s'.done == s.done
    ensures KeyOf(m) in s.exchanges && s.exchanges[KeyOf(m)] == m && Rest(s')
  {
    hide Carried, Sys.All, WindowOk, Remembered, Shapes, Numbered;
    HandlingKeepsShapes(s, s', m);
    var rest := HandledMoves(s, s', m, [job]);
    assert Waiting([job]) == multiset{JobMsg(job)};
    hide Waiting;
    NotQueued(s, m);
    MoveKeepsRest(s, s', rest, m, JobMsg(job));
  }

  lemma AnsweringKeepsBooks(c: Client, x: map<Key, Msg>, m: Msg, n: Msg, job: Job)
    requires Books(c, x) && KeyOf(m) in x && x[KeyOf(m)] == m && Open(KeyOf(m), n)
    requires n.id == m.id && n.content == m.content && PublishFlow(n.kind) && PublishFlow(m.kind)
    requires m.kind != PacketType.Publish && n.kind != PacketType.Publish
    ensures Books(c.Queue(job), x[KeyOf(m) := n])
  {
    LinkMove(x, c.pool.used, Held(c.session), Awaited(c.subs), Awaited(c.unsubs), m, n);
    hide Linked, DistinctIds, DistinctPending, Held, Awaited;
  }

  lemma PubRecKeepsInv(s: Sys, out: Sys, m: Msg)
    requires Inv(s) && m in s.toClient && m.kind == PublishReceived && m.id < 0x1_0000
    requires out == s.(toClient := s.toClient - multiset{m})
    ensures Inv(PubRecHandled(out, m))
  {
    hide Linked, DistinctIds, DistinctPending, Carried, Sys.All, WindowOk, Remembered, Numbered, Waiting;
    OpenKeys(s.client, s.exchanges);
    HandlingKeepsShapes(s, PubRecHandled(out, m), m);
    hide Rest, Shapes, Books;
    var job := Reply(PublishReleased, m.id, m.content);
    AnsweringKeepsRest(s, PubRecHandled(out, m), m, job);
    AnsweringKeepsBooks(s.client, s.exchanges, m, JobMsg(job), job);
  }

  lemma PubRelKeepsBooks(c: Client, x: map<Key, Msg>, m: Msg, now: nat, interval: nat)
    requires Books(c, x) && KeyOf(m) in x && x[KeyOf(m)] == m && m.kind == PublishReleased && !m.mine && m.id < 0x1_0000
    ensures Books(c.PublishRelReceived(m.id, m.content, now, interval), x[KeyOf(m) := JobMsg(Reply(PublishComplete, m.id, m.content))])
  {
    NotingKeepsBooks(c, x, m.id, NeedToSendPubComp, now, interval);
    hide Books, Update;
    var job := Reply(PublishComplete, m.id, m.content);
    AnsweringKeepsBooks(c.(session := Update(c.session, m.id, NeedToSendPubComp, now, interval)), x, m, JobMsg(job), job);
  }

  lemma PubRelKeepsInv(s: Sys, out: Sys, m: Msg, now: nat, interval: nat)
    requires Inv(s) && m in s.toClient && m.kind == PublishReleased && m.id < 0x1_0000
    requires out == s.(toClient := s.toClient - multiset{m})
    ensures Inv(PubRelHandled(out, m, now, interval))
  {
    hide Linked, DistinctIds, DistinctPending, Carried, Sys.All, WindowOk, Remembered, Numbered, Waiting;
    OpenKeys(s.client, s.exchanges);
    HandlingKeepsShapes(s, PubRelHandled(out, m, now, interval), m);
    hide Rest, Shapes, Books, Update;
    AnsweringKeepsRest(s, PubRelHandled(out, m, now, interval), m, Reply(PublishComplete, m.id, m.content));
    PubRelKeepsBooks(s.client, s.exchanges, m, now, interval);
  }

  // ---------------------------------------------------------------- final acknowledgements

  lemma WindowAfterEnd(send: Window, x: map<Key, Msg>, queued: multiset<Msg>, m: Msg)
    requires WindowOk(send, x, queued) && m.mine && KeyOf(m) in x && x[KeyOf(m)] == m
    ensures PublishFlow(m.kind) ==> WindowOk(send.Give(m.id), x - {KeyOf(m)}, queued)
    ensures !PublishFlow(m.kind) ==> WindowOk(send, x - {KeyOf(m)}, queued)
  {
    GiveCloses(send, m.id);
    assert forall id: nat :: InFlight(x - {KeyOf(m)}, queued, id) <==> InFlight(x, queued, id) && id != m.id;
    assert !PublishFlow(m.kind) ==> !InFlight(x, queued, m.id);
  }

  lemma RememberedAfterEnd(x: map<Key, Msg>, accepted: map<nat, nat>, done: set<nat>, m: Msg)
    requires Remembered(x, accepted, done) && m.mine && KeyOf(m) in x && x[KeyOf(m)] == m
    ensures PublishFlow(m.kind) ==> Remembered(x - {KeyOf(m)}, accepted, done + {m.content})
    ensures !PublishFlow(m.kind) ==> Remembered(x - {KeyOf(m)}, accepted, done)
  {
    var y := x - {KeyOf(m)};
    assert PublishFlow(m.kind) ==> HoldsPublish(x, m.id, m.content);
    assert forall id: nat, c: nat :: HoldsPublish(x, id, c) <==>
        HoldsPublish(y, id, c) || (PublishFlow(m.kind) && (id, c) == (m.id, m.content));
  }

  lemma EndingKeepsRest(s: Sys, s': Sys, m: Msg)
    requires Rest(s) && m in s.toClient && m.live && m.mine
    requires s'.client.jobs == s.client.jobs
    requires s'.outbox == s.outbox && s'.toBroker == s.toBroker && s'.unfired == s.unfired && s'.toClient == s.toClient - multiset{m}
    requires s'.exchanges == s.exchanges - {KeyOf(m)} && s'.requests == s.requests && s'.accepted == s.accepted
    requires if PublishFlow(m.kind) then s'.send == s.send.Give(m.id) && s'.done == s.done + {m.content}
             else s'.send == s.send && s'.done == s.done
    ensures KeyOf(m) in s.exchanges && s.exchanges[KeyOf(m)] == m && Rest(s')
  {
    hide Carried, Sys.All, WindowOk, Remembered, Shapes;
    HandlingKeepsShapes(s, s', m);
    assert s'.client.jobs == s.client.jobs + [];
    var rest := HandledMoves(s, s', m, []);
    assert s'.All() == rest by {
      assert Waiting([]) == multiset{};
    }
    hide Waiting;
    CarryEnd(s.exchanges, s.All(), s'.All(), m);
    assert Numbered(s');
    WindowAfterEnd(s.send, s.exchanges, Waiting(s.client.jobs), m);
    RememberedAfterEnd(s.exchanges, s.accepted, s.done, m);
  }

  lemma EndingKeepsBooks(c: Client, x: map<Key, Msg>, m: Msg)
    requires Books(c, x) && m.mine && KeyOf(m) in x && x[KeyOf(m)] == m
    ensures PublishFlow(m.kind) ==> Books(c.Forget(m.id), x - {KeyOf(m)})
    ensures SubscribeFlow(m.kind) ==> Books(c.SubscribeAckReceived(m.id), x - {KeyOf(m)})
    ensures UnsubscribeFlow(m.kind) ==> Books(c.UnsubscribeAckReceived(m.id), x - {KeyOf(m)})
  {
    ReleaseKeepsValid(c.pool, m.id);
    EraseHeld(c.session, m.id);
    ToldErase(c.session, c.pool.used, m.id);
    if !PublishFlow(m.kind) {
      EndingIsNoMessage(c, x, m);
    }
    EraseAwaited(c.subs, m.id);
    EraseAwaited(c.unsubs, m.id);
    LinkEndMine(x, c.pool.used, Held(c.session), Awaited(c.subs), Awaited(c.unsubs), m,
                Held(if PublishFlow(m.kind) then Erase(c.session, m.id) else c.session),
                Awaited(if SubscribeFlow(m.kind) then ErasePending(c.subs, m.id) else c.subs),
                Awaited(if UnsubscribeFlow(m.kind) then ErasePending(c.unsubs, m.id) else c.unsubs));
    hide Told, Linked, DistinctIds, DistinctPending, Held, Awaited, Erase, ErasePending, Pool.Valid, Pool.Release, Contains;
  }

  /** A pending subscribe or unsubscribe shares its id with no message. */
  lemma EndingIsNoMessage(c: Client, x: map<Key, Msg>, m: Msg)
    requires Books(c, x) && m.mine && KeyOf(m) in x && x[KeyOf(m)] == m && !PublishFlow(m.kind)
    ensures !Contains(c.session, m.id)
  {
    DistinctIsFunctional(c.session);
    assert forall d: nat :: !HoldsPublish(x, m.id, d) && !HoldsTheirs(x, m.id, d);
    assert forall d: nat :: (m.id, d) !in Held(c.session);
  }

  lemma FinishKeepsInv(s: Sys, out: Sys, m: Msg)
    requires Inv(s) && m in s.toClient && m.kind in {PublishAck, PublishReceived, PublishComplete}
    requires out == s.(toClient := s.toClient - multiset{m})
    ensures Inv(Finished(out, m))
  {
    hide Linked, DistinctIds, DistinctPending, Carried, Sys.All, WindowOk, Remembered, Numbered, Waiting;
    HandlingKeepsShapes(s, out, m);
    hide Rest, Shapes, Books, Erase, Pool.Release, Window.Give;
    EndingKeepsRest(s, Finished(out, m), m);
    EndingKeepsBooks(s.client, s.exchanges, m);
  }

  lemma SubAckKeepsInv(s: Sys, out: Sys, m: Msg)
    requires Inv(s) && m in s.toClient && m.kind in {SubscribeAck, UnsubscribeAck}
    requires out == s.(toClient := s.toClient - multiset{m})
    ensures Inv(if m.kind == SubscribeAck then SubAckHandled(out, m) else UnsubAckHandled(out, m))
  {
    hide Linked, DistinctIds, DistinctPending, Carried, Sys.All, WindowOk, Remembered, Numbered, Waiting;
    HandlingKeepsShapes(s, out, m);
    hide Rest, Shapes, Books, ErasePending, Pool.Release;
    EndingKeepsRest(s, if m.kind == SubscribeAck then SubAckHandled(out, m) else UnsubAckHandled(out, m), m);
    EndingKeepsBooks(s.client, s.exchanges, m);
  }

  // ---------------------------------------------------------------- the broker's publishes

  lemma ArrivalKeepsBooks(c: Client, x: map<Key, Msg>, m: Msg, n: Msg, now: nat, interval: nat)
    requires Books(c, x) && KeyOf(m) in x && x[KeyOf(m)] == m && !m.mine && m.kind == PacketType.Publish
    requires Open(KeyOf(m), n) && n.kind == PublishReceived && !n.mine && n.id == m.id
    ensures var d := c.(session := Add(c.session, m.id, m.content, 0, now, interval));
            Books(d, x[KeyOf(m) := n]) <==> m.id !in c.pool.used && !Contains(c.session, m.id)
  {
    if Contains(c.session, m.id) {
      AddTwice(c.session, m.id, m.content, 0, now, interval);
    } else if m.id in c.pool.used {
      assert HoldsTheirs(x[KeyOf(m) := n], m.id, m.content);
    } else {
      AddHeld(c.session, m.id, m.content, 0, now, interval);
      ToldAdd(c.session, c.pool.used, m.id, m.content, 0, now, interval);
      LinkArrival(x, c.pool.used, Held(c.session), Awaited(c.subs), Awaited(c.unsubs), m, n);
      hide Told, Linked, DistinctIds, DistinctPending, Held, Awaited, Add, Contains;
    }
  }

  lemma QoS2KeepsInv(s: Sys, out: Sys, m: Msg, topic: string, topicAlias: Option<nat>, max: nat, freed: string, now: nat, interval: nat)
    requires Inv(s) && m in s.toClient && m.kind == PacketType.Publish && m.qos == 2 && m.id < 0x1_0000
    requires Legal(max, Published(topic, topicAlias)) && out == s.(toClient := s.toClient - multiset{m})
    ensures Inv(PublishHandled(out, m, topic, topicAlias, max, freed, now, interval))
            <==> m.id !in s.client.pool.used && !Contains(s.client.session, m.id)
  {
    hide Linked, DistinctIds, DistinctPending, Carried, Sys.All, WindowOk, Remembered, Numbered, Waiting;
    var s' := PublishHandled(out, m, topic, topicAlias, max, freed, now, interval);
    HandlingKeepsShapes(s, s', m);
    OpenKeys(s.client, s.exchanges);
    hide Shapes, PointersAfter, Legal;
    var job, named := Reply(PublishReceived, m.id, m.content), s.client.(aliases := s'.client.aliases);
    assert Books(named, s.exchanges);
    hide Rest, Books;
    AnsweringKeepsRest(s, s', m, job);
    ArrivalKeepsBooks(named, s.exchanges, m, JobMsg(job), now, interval);
    QueueingIsNoEntry(named.(session := Add(named.session, m.id, m.content, 0, now, interval)), s'.exchanges, job);
  }

  lemma PlainPublishKeepsInv(s: Sys, out: Sys, m: Msg, topic: string, topicAlias: Option<nat>, max: nat, freed: string, now: nat, interval: nat)
    requires Inv(s) && m in s.toClient && m.kind == PacketType.Publish && m.qos != 2 && m.id < 0x1_0000
    requires Legal(max, Published(topic, topicAlias)) && out == s.(toClient := s.toClient - multiset{m})
    ensures Inv(PublishHandled(out, m, topic, topicAlias, max, freed, now, interval))
  {
    hide Linked, DistinctIds, DistinctPending, Carried, Sys.All, WindowOk, Remembered, Numbered, Waiting;
    var s' := PublishHandled(out, m, topic, topicAlias, max, freed, now, interval);
    HandlingKeepsShapes(s, s', m);
    OpenKeys(s.client, s.exchanges);
    hide Shapes, PointersAfter, Legal, Rest, Linked;
    DeadPublishKeepsRest(s, s', m, if m.qos == 1 then [Reply(PublishAck, m.id, m.content)] else []);
  }

  lemma QueueingIsNoEntry(c: Client, x: map<Key, Msg>, job: Job)
    ensures Books(c.Queue(job), x) <==> Books(c, x)
  {
  }

  lemma NumberedSame(s: Sys, s': Sys)
    requires Numbered(s) && s'.exchanges == s.exchanges && s'.requests == s.requests && s'.accepted == s.accepted && s'.done == s.done
    ensures Numbered(s')
  {
  }

  lemma IdleMoves(all: multiset<Msg>, all': multiset<Msg>, rest: multiset<Msg>, queued: multiset<Msg>, queued': multiset<Msg>,
                  idle: multiset<Msg>, m: Msg)
    requires all == rest + multiset{m} && all' == rest + idle && queued' == queued + idle && !m.live && SameLive(multiset{}, idle)
    ensures SameLive(all, all') && SameLive(queued, queued')
  {
    forall t: Msg | t.live ensures all'[t] == all[t] && queued'[t] == queued[t] {
      assert idle[t] == multiset{}[t];
    }
  }

  lemma DeadPublishKeepsRest(s: Sys, s': Sys, m: Msg, jobs: seq<Job>)
    requires Rest(s) && m in s.toClient && !m.live && s'.client.jobs == s.client.jobs + jobs
    requires jobs == [] || (|jobs| == 1 && !JobMsg(jobs[0]).live)
    requires s'.outbox == s.outbox && s'.toBroker == s.toBroker && s'.unfired == s.unfired && s'.toClient == s.toClient - multiset{m}
    requires s'.exchanges == s.exchanges && s'.send == s.send && s'.requests == s.requests && s'.accepted == s.accepted && s'.done == s.done
    requires forall k :: k in s.exchanges ==> s.exchanges[k].live
    ensures Rest(s')
  {
    hide Carried, Sys.All, WindowOk, Remembered, Shapes, Numbered;
    HandlingKeepsShapes(s, s', m);
    NumberedSame(s, s');
    var rest := HandledMoves(s, s', m, jobs);
    assert SameLive(multiset{}, Waiting(jobs)) by {
      assert jobs != [] ==> Waiting(jobs) == multiset{JobMsg(jobs[0])} + Waiting([]);
    }
    hide Waiting;
    IdleMoves(s.All(), s'.All(), rest, Waiting(s.client.jobs), Waiting(s'.client.jobs), Waiting(jobs), m);
    hide SameLive;
    CarrySame(s.exchanges, s.All(), s'.All());
    WindowSameLive(s.send, s.exchanges, Waiting(s.client.jobs), Waiting(s'.client.jobs));
  }

  // ---------------------------------------------------------------- composing

  lemma ComposeOneSplits(job: Job, c: Composing)
    ensures var d := ComposeOne(job, c);
            d.failed || Waiting(d.composed) + Waiting(d.delayed) == Waiting(c.composed) + Waiting(c.delayed) + multiset{JobMsg(job)}
  {
    SendPipeRuns.ComposeOneCases(job, c);
    WaitingSnoc(c.composed, job);
    WaitingSnoc(c.delayed, job);
    hide ComposeOne, Waiting, JobMsg, IsCountedPublish;
  }

  /** Composing splits the queue: every job is composed or held back. */
  lemma {:induction false} ComposeSplits(jobs: seq<Job>, c: Composing)
    requires !Compose(jobs, c).failed
    ensures var r := Compose(jobs, c);
            Waiting(r.composed) + Waiting(r.delayed) == Waiting(c.composed) + Waiting(c.delayed) + Waiting(jobs)
  {
    if jobs == [] {
      assert Waiting(jobs) == multiset{};
    } else {
      var rest, d := jobs[1..], ComposeOne(jobs[0], c);
      assert !d.failed by {
        assert d.failed ==> Compose(rest, d) == d;
      }
      ComposeOneSplits(jobs[0], c);
      assert Waiting(jobs) == multiset{JobMsg(jobs[0])} + Waiting(rest);
      hide ComposeOne, Waiting, JobMsg;
      ComposeSplits(rest, d);
    }
  }

  lemma {:induction false} WaitingMembers(jobs: seq<Job>, m: Msg)
    ensures m in Waiting(jobs) <==> exists i :: 0 <= i < |jobs| && JobMsg(jobs[i]) == m
  {
    if jobs != [] {
      WaitingMembers(jobs[1..], m);
      if i :| 0 <= i < |jobs| && JobMsg(jobs[i]) == m {
        assert i > 0 ==> jobs[1..][i - 1] == jobs[i];
      }
      if m in Waiting(jobs[1..]) {
        var k :| 0 <= k < |jobs[1..]| && JobMsg(jobs[1..][k]) == m;
        assert jobs[k + 1] == jobs[1..][k];
      }
      assert JobMsg(jobs[0]) == m ==> exists i :: 0 <= i < |jobs| && JobMsg(jobs[i]) == m;
    }
  }

  /** Publishes composed are those that have a live PUBLISH among the composed packets. */
  lemma ComposedPublishes(composed: seq<Job>, id: nat)
    ensures id in SendPipeRuns.PublishIds(composed, 0)
            <==> exists m :: m in Waiting(composed) && m.live && m.mine && m.kind == PacketType.Publish && m.id == id
  {
    if id in SendPipeRuns.PublishIds(composed, 0) {
      var j :| 0 <= j < |composed| && IsCountedPublish(composed[j]) && composed[j].id == id;
      WaitingMembers(composed, JobMsg(composed[j]));
      assert JobMsg(composed[j]) in Waiting(composed);
    }
    if m :| m in Waiting(composed) && m.live && m.mine && m.kind == PacketType.Publish && m.id == id {
      WaitingMembers(composed, m);
      var i :| 0 <= i < |composed| && JobMsg(composed[i]) == m;
      assert IsCountedPublish(composed[i]);
    }
  }

  lemma ComposedShapes(composed: seq<Job>)
    ensures forall m :: m in Waiting(composed) ==> Composed(m)
  {
    forall m | m in Waiting(composed) ensures Composed(m) {
      WaitingMembers(composed, m);
    }
  }

  /** The window opens for exactly the publishes that leave the queue. */
  lemma WindowAfterComposing(s: Sys, c: Composing)
    requires WindowOk(s.send, s.exchanges, Waiting(s.client.jobs)) && Carried(s.exchanges, s.All())
    requires forall k :: k in s.exchanges ==> KeyOf(s.exchanges[k]) == k && s.exchanges[k].live
    requires c.send.Balanced() && c.send.ids == s.send.ids + SendPipeRuns.PublishIds(c.composed, 0)
    requires Waiting(c.composed) + Waiting(c.delayed) == Waiting(s.client.jobs)
    ensures WindowOk(c.send, s.exchanges, Waiting(c.delayed))
  {
    var x, queued := s.exchanges, Waiting(s.client.jobs);
    forall id: nat ensures id in c.send.ids <==> InFlight(x, Waiting(c.delayed), id) {
      ComposedPublishes(c.composed, id);
      if m :| m in Waiting(c.composed) && m.live && m.mine && m.kind == PacketType.Publish && m.id == id {
        ComposedOnceOnly(s, c, m);
      }
      if InFlight(x, Waiting(c.delayed), id) && !InFlight(x, queued, id) {
        assert x[Mine(id)] in Waiting(c.composed);
      }
    }
  }

  lemma ComposedOnceOnly(s: Sys, c: Composing, m: Msg)
    requires Carried(s.exchanges, s.All()) && m.live && m in Waiting(c.composed)
    requires Waiting(c.composed) + Waiting(c.delayed) == Waiting(s.client.jobs)
    ensures KeyOf(m) in s.exchanges && s.exchanges[KeyOf(m)] == m && m !in Waiting(c.delayed)
  {
    assert s.All()[m] == 1 by {
      assert s.All()[m] > 0;
    }
    assert Waiting(s.client.jobs)[m] <= 1;
  }

  lemma ComposedAll(composed: multiset<Msg>, delayed: multiset<Msg>, outbox: multiset<Msg>)
    ensures delayed + (outbox + composed) == (composed + delayed) + outbox
  {
  }

  lemma ComposingFacts(s: Sys) returns (c: Composing)
    requires !Compose(s.client.jobs, s.Starting()).failed && s.send.Balanced()
    ensures c == Compose(s.client.jobs, s.Starting())
    ensures Waiting(c.composed) + Waiting(c.delayed) == Waiting(s.client.jobs)
    ensures c.send.Balanced() && c.send.ids == s.send.ids + SendPipeRuns.PublishIds(c.composed, 0) && c.send.max == s.send.max
  {
    c := Compose(s.client.jobs, s.Starting());
    ComposeSplits(s.client.jobs, s.Starting());
    assert Waiting([]) == multiset{};
    hide Waiting, Compose;
    SendPipeRuns.NothingNew([]);
    ComposeOpens(s.client.jobs, s.Starting(), s.send);
  }

  lemma {:induction false} ComposeOpens(jobs: seq<Job>, c: Composing, send: Window)
    requires SendPipeRuns.Opening(c, 0, send)
    ensures SendPipeRuns.Opening(Compose(jobs, c), 0, send)
  {
    hide SendPipeRuns.Opening, ComposeOne;
    if jobs != [] && !c.failed {
      SendPipeRuns.ComposeOneOpens(jobs[0], c, 0, send);
      ComposeOpens(jobs[1..], ComposeOne(jobs[0], c), send);
    }
  }

  lemma ComposingKeepsRest(s: Sys)
    requires Rest(s) && !Compose(s.client.jobs, s.Starting()).failed
    requires forall k :: k in s.exchanges ==> KeyOf(s.exchanges[k]) == k && s.exchanges[k].live
    ensures Rest(ComposedOnce(s))
  {
    hide Carried, Remembered, Waiting, Compose;
    var s' := ComposedOnce(s);
    var c := ComposingFacts(s);
    WindowAfterComposing(s, c);
    hide WindowOk;
    ComposedShapes(c.composed);
    assert Numbered(s') && Shapes(s');
    hide Numbered, Shapes;
    ComposedAll(Waiting(c.composed), Waiting(c.delayed), s.outbox);
    assert s'.All() == s.All();
  }

  lemma ComposingKeepsInv(s: Sys)
    requires Inv(s) && !Compose(s.client.jobs, s.Starting()).failed
    ensures Inv(ComposedOnce(s))
  {
    OpenKeys(s.client, s.exchanges);
    hide Rest, Linked, Compose;
    ComposingKeepsRest(s);
  }

  // ---------------------------------------------------------------- retries

  /** The jobs carry no exchange. */
  predicate AllIdle(jobs: seq<Job>) {
    forall i :: 0 <= i < |jobs| ==> !Carries(jobs[i].kind, jobs[i].qos)
  }

  lemma {:induction false} IdleKeepsInv(s: Sys, more: seq<Job>)
    requires Inv(s) && AllIdle(more)
    ensures Inv(s.(client := s.client.(jobs := s.client.jobs + more)))
    decreases |more|
  {
    hide Inv;
    if more == [] {
      assert s.client.jobs + more == s.client.jobs;
    } else {
      var t := s.(client := s.client.Queue(more[0]));
      QueueingKeepsInv(s, more[0]);
      IdleKeepsInv(t, more[1..]);
      assert s.client.jobs + [more[0]] + more[1..] == s.client.jobs + more;
    }
  }

  /** A retry of the message queues nothing that carries an exchange. */
  predicate QueuesNothingLive(m: Message) {
    match m.status
    case NeedToSendPubComp => true
    case WaitingForAck => m.qos == 0
    case WaitingForPubRec => m.qos == 0
    case _ => m.id >= 0x1_0000
  }

  lemma IdleRetry(m: Message, encoded: Option<seq<byte>>)
    ensures AllIdle(RetryJobs(m, encoded)) <==> QueuesNothingLive(m)
  {
    var jobs := RetryJobs(m, encoded);
    if !QueuesNothingLive(m) {
      assert Carries(jobs[0].kind, jobs[0].qos);
    }
  }

  lemma {:induction false} IdleRetries(due: Messages, encode: Message -> Option<seq<byte>>)
    ensures AllIdle(RetryAll(due, encode)) <==> forall m :: m in due ==> QueuesNothingLive(m)
  {
    if due != [] {
      var here, rest := RetryJobs(due[0], encode(due[0])), RetryAll(due[1..], encode);
      IdleRetries(due[1..], encode);
      IdleRetry(due[0], encode(due[0]));
      IdleAppend(here, rest);
      assert forall m :: m in due <==> m == due[0] || m in due[1..];
      hide RetryJobs, AllIdle, QueuesNothingLive;
    }
  }

  lemma IdleAppend(a: seq<Job>, b: seq<Job>)
    ensures AllIdle(a + b) <==> AllIdle(a) && AllIdle(b)
  {
    var c := a + b;
    assert forall i :: 0 <= i < |a| ==> c[i] == a[i];
    assert forall i :: 0 <= i < |b| ==> c[|a| + i] == b[i];
  }

  lemma {:induction false} ScanMembers(ms: Messages, now: nat)
    ensures forall m :: m in Scan(ms, now) ==> m in ms
  {
    if ms != [] {
      ScanMembers(ms[1..], now);
    }
  }

  /** What holds of a message in the session: its id is the source's 16 bits, and it waits for a PUBACK or has a QoS
      of its own only if it is one of ours. */
  lemma SessionMessage(s: Sys, m: Message)
    requires Inv(s) && m in s.client.session
    ensures m.id < 0x1_0000 && (m.qos > 0 <==> m.id in s.client.pool.used) && (m.status == WaitingForAck ==> m.qos == 1)
  {
    assert (m.id, m.content) in Held(s.client.session);
    assert HoldsPublish(s.exchanges, m.id, m.content) || HoldsTheirs(s.exchanges, m.id, m.content);
    hide Carried, Shapes, WindowOk, Remembered, DistinctIds, DistinctPending, Awaited;
  }

  lemma ScanIsIdleExactly(s: Sys, now: nat, encode: Message -> Option<seq<byte>>)
    requires Inv(s)
    ensures AllIdle(RetryAll(Scan(s.client.session, now), encode))
       <==> forall m :: m in Scan(s.client.session, now) ==> RetriedIdly(s.client, m)
  {
    hide Inv, Scan, RetryAll, AllIdle, QueuesNothingLive, RetriedIdly;
    IdleRetries(Scan(s.client.session, now), encode);
    ScanMembers(s.client.session, now);
    forall m | m in Scan(s.client.session, now) ensures QueuesNothingLive(m) <==> RetriedIdly(s.client, m) {
      RetriesAlike(s, m);
    }
  }

  lemma RetriesAlike(s: Sys, m: Message)
    requires Inv(s) && m in s.client.session
    ensures QueuesNothingLive(m) <==> RetriedIdly(s.client, m)
  {
    hide Inv;
    SessionMessage(s, m);
  }

  /** A retry scan keeps every exchange with its one packet if and only if all messages it reaches are received ones
      whose PUBREC has not been announced, which it sends back as QoS 0 publishes, or about to send PUBCOMP. */
  lemma RetryKeepsExactly(s: Sys, now: nat, encode: Message -> Option<seq<byte>>)
    requires Inv(s)
    ensures Inv(s.(client := s.client.Retry(now, encode)))
       <==> forall m :: m in Scan(s.client.session, now) ==> RetriedIdly(s.client, m)
  {
    hide *;
    RetryKeepsIfIdle(s, now, encode);
    ScanIsIdleExactly(s, now, encode);
  }

  lemma RetryKeepsIfIdle(s: Sys, now: nat, encode: Message -> Option<seq<byte>>)
    requires Inv(s)
    ensures Inv(s.(client := s.client.Retry(now, encode))) <==> AllIdle(RetryAll(Scan(s.client.session, now), encode))
  {
    var more := RetryAll(Scan(s.client.session, now), encode);
    var s' := s.(client := s.client.Retry(now, encode));
    if AllIdle(more) {
      IdleKeepsInv(s, more);
    } else {
      var i :| 0 <= i < |more| && Carries(more[i].kind, more[i].qos);
      WaitingAppend(s.client.jobs, more);
      WaitingMembers(more, JobMsg(more[i]));
      InvIf(s);
      hide Books, Shapes, Numbered, WindowOk, Remembered, Waiting, RetryAll, Scan;
      MoreOfOne(s, s', JobMsg(more[i]));
    }
  }

  lemma MoreOfOne(s: Sys, s': Sys, t: Msg)
    requires Carried(s.exchanges, s.All()) && s'.exchanges == s.exchanges && t.live && s'.All()[t] > s.All()[t]
    ensures !Carried(s'.exchanges, s'.All())
  {
  }

  // ---------------------------------------------------------------- all steps

  lemma ComingIs(s: Sys, m: Msg)
    requires Inv(s) && m in s.toClient
    ensures m.kind == PacketType.Publish ==> !m.mine && m.live == (m.qos == 2)
    ensures m.kind == PublishReleased ==> !m.mine && m.live
    ensures m.kind != PacketType.Publish && m.kind != PublishReleased ==>
              m.mine && m.live && m.kind in {PublishAck, PublishReceived, PublishComplete, SubscribeAck, UnsubscribeAck}
  {
    hide Books, Carried, Numbered, WindowOk, Remembered, Sys.All;
    assert Coming(m);
  }

  lemma HandlingKeepsExactly(s: Sys, m: Msg, topic: string, topicAlias: Option<nat>, max: nat, freed: string, now: nat, interval: nat)
    requires Inv(s) && m in s.toClient && m.id < 0x1_0000
    requires m.kind == PacketType.Publish ==> Legal(max, Published(topic, topicAlias))
    ensures Inv(Handled(s, m, topic, topicAlias, max, freed, now, interval))
            <==> (m.kind == PacketType.Publish && m.qos == 2 ==> m.id !in s.client.pool.used && !Contains(s.client.session, m.id))
  {
    ComingIs(s, m);
    hide *;
    var out := s.(toClient := s.toClient - multiset{m});
    HandledBranches(s, m, topic, topicAlias, max, freed, now, interval);
    match m.kind
    case Publish =>
      if m.qos == 2 {
        QoS2KeepsInv(s, out, m, topic, topicAlias, max, freed, now, interval);
      } else {
        PlainPublishKeepsInv(s, out, m, topic, topicAlias, max, freed, now, interval);
      }
    case PublishReleased => PubRelKeepsInv(s, out, m, now, interval);
    case PublishReceived =>
      if m.failed {
        FinishKeepsInv(s, out, m);
      } else {
        PubRecKeepsInv(s, out, m);
      }
    case SubscribeAck => SubAckKeepsInv(s, out, m);
    case UnsubscribeAck => SubAckKeepsInv(s, out, m);
    case _ => FinishKeepsInv(s, out, m);
  }

  lemma HandledBranches(s: Sys, m: Msg, topic: string, topicAlias: Option<nat>, max: nat, freed: string, now: nat, interval: nat)
    requires m.id < 0x1_0000
    ensures var out := s.(toClient := s.toClient - multiset{m});
            Handled(s, m, topic, topicAlias, max, freed, now, interval)
            == match m.kind
               case Publish => PublishHandled(out, m, topic, topicAlias, max, freed, now, interval)
               case PublishReleased => PubRelHandled(out, m, now, interval)
               case PublishReceived => if m.failed then Finished(out, m) else PubRecHandled(out, m)
               case SubscribeAck => SubAckHandled(out, m)
               case UnsubscribeAck => UnsubAckHandled(out, m)
               case _ => Finished(out, m)
  {
    hide PublishHandled, PubRelHandled, PubRecHandled, SubAckHandled, UnsubAckHandled, Finished;
  }

  /** A step of a connection that goes on keeps the invariant if and only if it meets the guard. */
  lemma StepKeepsExactly(s: Sys, step: Step)
    requires Inv(s) && Enabled(s, step)
    ensures Inv(Next(s, step)) <==> Apart(s, step)
  {
    hide Linked, DistinctIds, DistinctPending, Rest;
    assert s.client.status.Connected?;
    hide Inv, Compose, Legal, Window.Take, RetriedIdly, Client.Retry, Handleable;
    match step
    case Publishes(_, _, _, _) => AskingKeepsInv(s, step);
    case Subscribes(_) => AskingKeepsInv(s, step);
    case Unsubscribes(_) => AskingKeepsInv(s, step);
    case PublishesQoS0(content, encoded) =>
      QoS0IsQueued(s, step);
      QueueingKeepsInv(s, Job(PacketType.Publish, 0, 0, content, encoded));
    case Queues(job) => QueueingKeepsInv(s, job);
    case Scans(now, encode) => RetryKeepsExactly(s, now, encode);
    case Composes => ComposingKeepsInv(s);
    case Transmits(m) => TransmitKeepsInv(s, m);
    case Fires(m, now, interval) => FiringKeepsInv(s, m, now, interval);
    case Repeats(m, now, interval) => RepeatingKeepsExactly(s, m, now, interval);
    case BrokerTakes(m, failed) => TakingKeepsInv(s, m, failed);
    case BrokerPublishes(qos, id) => OfferKeepsInv(s, qos, id);
    case Handles(m, topic, topicAlias, max, freed, now, interval) => HandlingKeepsExactly(s, m, topic, topicAlias, max, freed, now, interval);
  }
}
