/** The life of a received QoS 2 message: added, waiting for PUBREL, about to send PUBCOMP, removed. */
module InboundQoS2 {
  import opened Bytes
  import opened Packets
  import opened ReceiveMaximum
  import opened PacketIdPools
  import opened Sessions
  import opened TopicAliasMaps
  import opened SendPipes
  import opened Clients
  import opened Protocol
  import opened ProtocolInvariant
  import opened ProtocolSafety
  import opened ProtocolPromises

  // ---------------------------------------------------------------- entries with their status

  datatype Entry = Entry(id: nat, content: nat, status: Status)

  function View(session: Messages): set<Entry> {
    set m | m in session :: Entry(m.id, m.content, m.status)
  }

  lemma ViewOfAdd(session: Messages, id: nat, content: nat, qos: nat, now: nat, interval: nat)
    ensures View(Add(session, id, content, qos, now, interval))
         == View(session) + {Entry(id, content, FirstStatus(qos))}
  {
    var more := Add(session, id, content, qos, now, interval);
    assert more[|session|] in more;
    assert forall m :: m in more <==> m in session || m == more[|session|];
  }

  lemma ViewOfErase(session: Messages, id: nat)
    requires DistinctIds(session)
    ensures forall e :: e in View(Erase(session, id)) <==> e in View(session) && e.id != id
  {
    EraseContents(session, id);
    EraseHeld(session, id);
    forall e: Entry | e in View(Erase(session, id)) ensures e.id != id {
      assert (e.id, e.content) in Held(Erase(session, id));
    }
  }

  lemma ViewOfUpdate(session: Messages, id: nat, status: Status, now: nat, interval: nat)
    requires DistinctIds(session)
    ensures forall e :: e in View(Update(session, id, status, now, interval))
                    <==> if e.id == id then e.status == status && (id, e.content) in Held(session) else e in View(session)
  {
    UpdateNeverMoves(session, id, status, now, interval);
    UpdateHeld(session, id, status, now, interval);
    var u := Update(session, id, status, now, interval);
    hide Update;
    assert forall i :: 0 <= i < |session| ==> u[i].id == session[i].id && u[i].content == session[i].content
                                              && (u[i].id != id ==> u[i].status == session[i].status);
    assert forall i :: 0 <= i < |session| && session[i].id == id ==> u[i].status == status;
    forall e: Entry | e in View(u) ensures if e.id == id then e.status == status else e in View(session) {
      var i :| 0 <= i < |u| && Entry(u[i].id, u[i].content, u[i].status) == e;
      assert session[i] in session;
    }
    forall e: Entry | e.id != id && e in View(session) ensures e in View(u) {
      var i :| 0 <= i < |session| && Entry(session[i].id, session[i].content, session[i].status) == e;
      assert u[i] in u;
    }
    forall e: Entry | e.id == id && e.status == status && (id, e.content) in Held(session) ensures e in View(u) {
      var i :| 0 <= i < |session| && (session[i].id, session[i].content) == (id, e.content);
      assert u[i] in u;
    }
    assert forall e :: e in View(u) ==> (e.id, e.content) in Held(u);
  }

  // ---------------------------------------------------------------- where an exchange stands

  /** The PUBREC of a received message, and the note that it was sent. */
  function Rec(id: nat, content: nat): Msg {
    Msg(PublishReceived, 0, id, content, false, false, true)
  }

  function Noted(id: nat, content: nat): Msg {
    Rec(id, content).(live := false)
  }

  /** The open exchanges, the packets that have not left the client, and the callbacks to come. */
  datatype Scene = Scene(x: map<Key, Msg>, leaving: multiset<Msg>, unfired: multiset<Msg>)

  function Leaving(s: Sys): multiset<Msg> {
    Waiting(s.client.jobs) + s.outbox
  }

  function SceneOf(s: Sys): Scene {
    Scene(s.exchanges, Leaving(s), s.unfired)
  }

  /** The status a received message should have: until its PUBREC is sent and announced, until its PUBREL
      arrives, and until its PUBCOMP is sent and announced. */
  function Phase(t: Scene, id: nat, content: nat): Status
    requires Theirs(content) in t.x
  {
    if t.x[Theirs(content)].kind == PublishComplete then NeedToSendPubComp
    else if Rec(id, content) in t.leaving || Noted(id, content) in t.unfired then WaitingForPubRec
    else WaitingForPubRel
  }

  /** Every received message has the status of its phase. */
  ghost predicate Placed(view: set<Entry>, used: set<nat>, t: Scene) {
    forall e :: e in view && e.id !in used ==> HoldsTheirs(t.x, e.id, e.content) && e.status == Phase(t, e.id, e.content)
  }

  ghost predicate Statuses(s: Sys) {
    Placed(View(s.client.session), s.client.pool.used, SceneOf(s))
  }

  /** A PUBREC is noted once, when it has left; its exchange stays until the PUBCOMP has been called back. */
  ghost predicate Tidy(t: Scene) {
    && (forall c: nat :: Theirs(c) in t.x && t.x[Theirs(c)].kind == PublishReceived ==> t.x[Theirs(c)] == Rec(t.x[Theirs(c)].id, c))
    && (forall u :: u in t.unfired && u.kind == PublishReceived ==>
          && u == Noted(u.id, u.content) && t.unfired[u] == 1 && Rec(u.id, u.content) !in t.leaving
          && (Theirs(u.content) in t.x ==> HoldsTheirs(t.x, u.id, u.content)))
  }

  /** What the callbacks to come are about. */
  ghost predicate Recalled(unfired: multiset<Msg>, requests: nat, accepted: map<nat, nat>) {
    forall u :: u in unfired ==>
      && u.content < requests
      && (u.kind == PublishReleased ==> u.content in accepted && accepted[u.content] == u.id)
  }

  ghost predicate Settled(s: Sys) {
    Tidy(SceneOf(s)) && Recalled(s.unfired, s.requests, s.accepted)
  }

  /** A callback leaves the statuses right: that for a PUBREC while a received message with its id waits for
      PUBREL or will with this callback, that for a PUBREL while no received message has its id. `t` has only the
      other callbacks to come. */
  ghost predicate Harmless(t: Scene, m: Msg) {
    match m.kind
    case PublishReceived =>
      forall c: nat :: HoldsTheirs(t.x, m.id, c) ==>
        t.x[Theirs(c)].kind != PublishComplete && Rec(m.id, c) !in t.leaving && Noted(m.id, c) !in t.unfired
    case PublishReleased => forall c: nat :: !HoldsTheirs(t.x, m.id, c)
    case _ => true
  }

  ghost predicate Timely(s: Sys, step: Step) {
    match step
    case Fires(m, _, _) => Harmless(SceneOf(s).(unfired := s.unfired - multiset{m}), m)
    case Repeats(m, _, _) => Harmless(SceneOf(s), m)
    case _ => true
  }

  // ---------------------------------------------------------------- one step

  /** How a received message moves on: by the callback for its PUBREC, by its PUBREL, by the callback for its
      PUBCOMP, and by nothing else. */
  predicate Moves(t: Scene, t': Scene, step: Step, id: nat, c: nat)
    requires HoldsTheirs(t.x, id, c)
  {
    if step.Fires? && step.m.kind == PublishComplete && step.m.content == c then
      !HoldsTheirs(t'.x, id, c) && Phase(t, id, c) == NeedToSendPubComp
    else
      && HoldsTheirs(t'.x, id, c)
      && if step.Fires? && step.m == Noted(id, c) && Phase(t, id, c) != NeedToSendPubComp then
           Phase(t, id, c) == WaitingForPubRec && Phase(t', id, c) == WaitingForPubRel
         else if step.Handles? && step.m.kind == PublishReleased && step.m.content == c then
           && Phase(t', id, c) == NeedToSendPubComp
           && Phase(t, id, c) == if Noted(id, c) in t.unfired then WaitingForPubRec else WaitingForPubRel
         else Phase(t', id, c) == Phase(t, id, c)
  }

  ghost predicate Moving(t: Scene, t': Scene, step: Step) {
    forall id: nat, c: nat :: HoldsTheirs(t.x, id, c) ==> Moves(t, t', step, id, c)
  }

  /** All phases stay. */
  ghost predicate Still(t: Scene, t': Scene) {
    forall id: nat, c: nat :: HoldsTheirs(t.x, id, c) ==> HoldsTheirs(t'.x, id, c) && Phase(t', id, c) == Phase(t, id, c)
  }

  predicate Idle(step: Step) {
    !step.Fires? && (step.Handles? ==> step.m.kind != PublishReleased)
  }

  lemma StillMoves(t: Scene, t': Scene, step: Step)
    requires Still(t, t') && (Idle(step) || (step.Fires? && step.m.kind == PublishReleased))
    ensures Moving(t, t', step)
  {
    hide Phase;
  }

  /** Packets that leave are the same as far as PUBRECs go. */
  ghost predicate SameRecs(leaving: multiset<Msg>, leaving': multiset<Msg>) {
    forall id: nat, c: nat :: Rec(id, c) in leaving <==> Rec(id, c) in leaving'
  }

  /** Exchanges change only in ways no phase depends on; new ones have new numbers. */
  ghost predicate Quiet(x: map<Key, Msg>, x': map<Key, Msg>, requests: nat) {
    && (forall id: nat, c: nat :: HoldsTheirs(x, id, c) ==>
          HoldsTheirs(x', id, c) && (x'[Theirs(c)].kind == PublishComplete <==> x[Theirs(c)].kind == PublishComplete))
    && (forall c: nat :: Theirs(c) in x' && x'[Theirs(c)].kind == PublishReceived ==> Theirs(c) in x && x[Theirs(c)] == x'[Theirs(c)])
    && (forall c: nat :: Theirs(c) in x' && Theirs(c) !in x ==> c >= requests)
  }

  lemma QuietSteps(t: Scene, t': Scene, requests: nat, accepted: map<nat, nat>)
    requires Tidy(t) && Recalled(t.unfired, requests, accepted)
    requires Quiet(t.x, t'.x, requests) && SameRecs(t.leaving, t'.leaving) && t'.unfired == t.unfired
    ensures Tidy(t') && Still(t, t')
  {
  }

  /** The view of received messages stays. */
  ghost predicate SameView(view: set<Entry>, used: set<nat>, view': set<Entry>, used': set<nat>) {
    forall e :: e in view' && e.id !in used' ==> e in view && e.id !in used
  }

  lemma StillKeepsPlaced(view: set<Entry>, used: set<nat>, t: Scene, view': set<Entry>, used': set<nat>, t': Scene)
    requires Placed(view, used, t) && SameView(view, used, view', used') && Still(t, t')
    ensures Placed(view', used', t')
  {
    hide Phase;
  }

  /** What is recalled stays so while requests are only added. */
  predicate Grows(s: Sys, s': Sys) {
    s.requests <= s'.requests && forall r :: r in s.accepted ==> r in s'.accepted && s'.accepted[r] == s.accepted[r]
  }

  lemma StillRecalled(s: Sys, s': Sys)
    requires Recalled(s.unfired, s.requests, s.accepted) && Grows(s, s') && (forall u :: u in s'.unfired ==> u in s.unfired)
    ensures Recalled(s'.unfired, s'.requests, s'.accepted)
  {
  }

  /** A quiet step of the whole system. */
  lemma QuietLife(s: Sys, s': Sys, step: Step)
    requires Settled(s) && Idle(step) && Grows(s, s')
    requires Quiet(s.exchanges, s'.exchanges, s.requests) && SameRecs(Leaving(s), Leaving(s')) && s'.unfired == s.unfired
    requires SameView(View(s.client.session), s.client.pool.used, View(s'.client.session), s'.client.pool.used)
    ensures Settled(s') && (Statuses(s) ==> Statuses(s')) && Moving(SceneOf(s), SceneOf(s'), step)
  {
    hide Leaving, View, Tidy, Quiet, SameRecs, Still, Placed, SameView, Moving, Recalled, Grows;
    QuietSteps(SceneOf(s), SceneOf(s'), s.requests, s.accepted);
    StillRecalled(s, s');
    StillMoves(SceneOf(s), SceneOf(s'), step);
    if Statuses(s) {
      StillKeepsPlaced(View(s.client.session), s.client.pool.used, SceneOf(s),
                       View(s'.client.session), s'.client.pool.used, SceneOf(s'));
    }
  }

  // ---------------------------------------------------------------- quiet steps

  /** A live packet is the one its exchange is carried by. */
  lemma Carrier(s: Sys, m: Msg)
    requires Inv(s) && m.live && (m in s.outbox || m in s.toBroker || m in s.toClient || m in s.unfired)
    ensures KeyOf(m) in s.exchanges && s.exchanges[KeyOf(m)] == m
    ensures s.All()[m] == 1
  {
    hide Books, Shapes, Numbered, WindowOk, Remembered;
    assert s.All()[m] > 0;
  }

  lemma ConnectedBooks(s: Sys)
    requires Inv(s)
    ensures s.client.status.Connected? && Books(s.client, s.exchanges) && DistinctIds(s.client.session)
    ensures Numbered(s) && Remembered(s.exchanges, s.accepted, s.done) && Shapes(s)
    ensures forall k :: k in s.exchanges ==> Open(k, s.exchanges[k])
  {
    hide Carried, Remembered, WindowOk, Shapes, Numbered, Told, DistinctPending, Sys.All, Waiting;
  }

  lemma QuietSame(x: map<Key, Msg>, requests: nat)
    ensures Quiet(x, x, requests)
  {
  }

  lemma SameLeaving(s: Sys, s': Sys)
    requires s'.client.jobs == s.client.jobs && s'.outbox == s.outbox
    ensures Leaving(s') == Leaving(s) && SameRecs(Leaving(s), Leaving(s'))
  {
  }

  lemma OneMoreLeaves(s: Sys, s': Sys, job: Job)
    requires s'.client.jobs == s.client.jobs + [job] && s'.outbox == s.outbox
    ensures Leaving(s') == Leaving(s) + multiset{JobMsg(job)}
    ensures !(job.kind == PublishReceived && JobMsg(job).live) ==> SameRecs(Leaving(s), Leaving(s'))
  {
    WaitingSnoc(s.client.jobs, job);
    hide Waiting;
  }

  lemma AskingIsQuiet(s: Sys, s': Sys, m: Msg)
    requires m.mine && KeyOf(m) !in s.exchanges && s'.exchanges == s.exchanges[KeyOf(m) := m]
    ensures Quiet(s.exchanges, s'.exchanges, s.requests)
  {
  }

  lemma AskingGrows(s: Sys, s': Sys, m: Msg)
    requires Numbered(s) && m.content == s.requests && s'.requests == s.requests + 1
    requires s'.accepted == if m.kind == PacketType.Publish then s.accepted[m.content := m.id] else s.accepted
    ensures Grows(s, s')
  {
  }

  lemma AskingLife(s: Sys, step: Step)
    requires Inv(s) && Settled(s) && Enabled(s, step) && Apart(s, step)
    requires step.Publishes? || step.Subscribes? || step.Unsubscribes?
    ensures Settled(Next(s, step)) && (Statuses(s) ==> Statuses(Next(s, step))) && Moving(SceneOf(s), SceneOf(Next(s, step)), step)
  {
    hide Inv, Settled, Statuses, Moving, Quiet, Leaving, View, SameRecs, Grows, Linked, Told, DistinctIds, DistinctPending, Numbered, Remembered, Shapes;
    ConnectedBooks(s);
    var job, m, now, interval := NextAsks(s, step);
    var s', c := Next(s, step), s.client;
    assert s'.unfired == s.unfired && s'.outbox == s.outbox;
    hide Next, Enabled, Apart;
    AskedIdIsNew(c, s.exchanges);
    hide Books;
    AskingIsQuiet(s, s', m);
    AskingGrows(s, s', m);
    OneMoreLeaves(s, s', job);
    AskingView(c, s'.client, m, now, interval);
    hide *;
    QuietLife(s, s', step);
  }

  lemma AskingView(c: Client, d: Client, m: Msg, now: nat, interval: nat)
    requires d.pool.used == c.pool.used + {m.id}
    requires d.session == if m.kind == PacketType.Publish then Add(c.session, m.id, m.content, m.qos, now, interval) else c.session
    ensures SameView(View(c.session), c.pool.used, View(d.session), d.pool.used)
  {
    if m.kind == PacketType.Publish {
      ViewOfAdd(c.session, m.id, m.content, m.qos, now, interval);
    }
    hide View, Add;
  }

  lemma QueueingLife(s: Sys, job: Job, step: Step)
    requires Settled(s) && !Carries(job.kind, job.qos) && (step.Queues? || step.PublishesQoS0?)
    ensures var s' := s.(client := s.client.Queue(job));
            Settled(s') && (Statuses(s) ==> Statuses(s')) && Moving(SceneOf(s), SceneOf(s'), step)
  {
    var s' := s.(client := s.client.Queue(job));
    OneMoreLeaves(s, s', job);
    QuietSame(s.exchanges, s.requests);
    hide Settled, Statuses, Moving, Leaving, Quiet, SameRecs, View;
    QuietLife(s, s', step);
  }

  lemma QoS0Life(s: Sys, step: Step)
    requires Settled(s) && step.PublishesQoS0?
    ensures var s' := s.(client := s.client.Queue(Job(PacketType.Publish, 0, 0, step.content, step.encoded)));
            Settled(s') && (Statuses(s) ==> Statuses(s')) && Moving(SceneOf(s), SceneOf(s'), step)
  {
    hide Settled, Statuses, Moving;
    QueueingLife(s, Job(PacketType.Publish, 0, 0, step.content, step.encoded), step);
  }

  lemma IdleIsNoRec(more: seq<Job>)
    requires AllIdle(more)
    ensures forall id: nat, c: nat :: Rec(id, c) !in Waiting(more)
  {
    forall id: nat, c: nat ensures Rec(id, c) !in Waiting(more) {
      WaitingMembers(more, Rec(id, c));
    }
  }

  /** A scan that sends no second copy of a packet. */
  lemma ScanningLife(s: Sys, now: nat, encode: Message -> Option<seq<byte>>)
    requires Inv(s) && Settled(s) && Enabled(s, Scans(now, encode)) && Apart(s, Scans(now, encode))
    ensures var s' := s.(client := s.client.Retry(now, encode));
            Settled(s') && (Statuses(s) ==> Statuses(s')) && Moving(SceneOf(s), SceneOf(s'), Scans(now, encode))
  {
    hide Inv, Settled, Statuses, Moving, View, Waiting, RetryAll, Scan, AllIdle, RetriedIdly;
    var s', more := s.(client := s.client.Retry(now, encode)), RetryAll(Scan(s.client.session, now), encode);
    ScanIsIdleExactly(s, now, encode);
    IdleIsNoRec(more);
    WaitingAppend(s.client.jobs, more);
    assert SameRecs(Leaving(s), Leaving(s'));
    QuietSame(s.exchanges, s.requests);
    SameViewRefl(View(s.client.session), s.client.pool.used);
    QuietLife(s, s', Scans(now, encode));
  }

  lemma ComposingLife(s: Sys)
    requires Inv(s) && Settled(s) && !Compose(s.client.jobs, s.Starting()).failed
    ensures Settled(ComposedOnce(s)) && (Statuses(s) ==> Statuses(ComposedOnce(s))) && Moving(SceneOf(s), SceneOf(ComposedOnce(s)), Composes)
  {
    hide Settled, Statuses, Moving, Books, Carried, Shapes, Numbered, Remembered, Compose, Quiet, SameRecs, View, Waiting;
    var s' := ComposedOnce(s);
    var c := ComposingFacts(s);
    hide Inv, Rest;
    assert Leaving(s') == Leaving(s) by {
      ComposedAll(Waiting(c.composed), Waiting(c.delayed), s.outbox);
    }
    SameRecsRefl(Leaving(s));
    QuietSame(s.exchanges, s.requests);
    hide Leaving;
    QuietLife(s, s', Composes);
  }

  lemma SameRecsRefl(leaving: multiset<Msg>)
    ensures SameRecs(leaving, leaving)
  {
  }

  lemma TakingIsQuiet(s: Sys, m: Msg, failed: bool)
    requires Tidy(SceneOf(s)) && KeyOf(m) in s.exchanges && s.exchanges[KeyOf(m)] == m && Going(m) && m.live
    ensures Quiet(s.exchanges, s.exchanges[KeyOf(m) := BrokerReply(m, failed)], s.requests)
  {
    hide Leaving;
  }

  lemma TakingLife(s: Sys, m: Msg, failed: bool)
    requires Inv(s) && Settled(s) && m in s.toBroker
    ensures var s' := TakenByBroker(s, m, failed);
            Settled(s') && (Statuses(s) ==> Statuses(s')) && Moving(SceneOf(s), SceneOf(s'), BrokerTakes(m, failed))
  {
    hide Inv, Statuses, Moving, Quiet, SameRecs, View, Tidy, Recalled, BrokerReply;
    var s' := TakenByBroker(s, m, failed);
    ConnectedBooks(s);
    QuietSame(s.exchanges, s.requests);
    if m.live {
      Carrier(s, m);
      GoingOf(s, m);
      TakingIsQuiet(s, m, failed);
    }
    SameLeaving(s, s');
    hide Settled, Leaving, Shapes, Books, Numbered;
    QuietLife(s, s', BrokerTakes(m, failed));
  }

  lemma GoingOf(s: Sys, m: Msg)
    requires Inv(s) && m in s.toBroker
    ensures Going(m)
  {
    hide Books, Carried, Numbered, WindowOk, Remembered, Sys.All;
  }

  lemma OfferIsQuiet(s: Sys, qos: nat, id: nat)
    requires Numbered(s) && forall k :: k in s.exchanges ==> Open(k, s.exchanges[k])
    ensures Quiet(s.exchanges, Offered(s, qos, id).exchanges, s.requests) && Grows(s, Offered(s, qos, id))
  {
  }

  lemma OfferingLife(s: Sys, qos: nat, id: nat)
    requires Inv(s) && Settled(s)
    ensures Settled(Offered(s, qos, id)) && (Statuses(s) ==> Statuses(Offered(s, qos, id)))
    ensures Moving(SceneOf(s), SceneOf(Offered(s, qos, id)), BrokerPublishes(qos, id))
  {
    hide Inv, Settled, Statuses, Moving, Quiet, SameRecs, View, Grows, Numbered, Books, Shapes, Leaving;
    var s' := Offered(s, qos, id);
    ConnectedBooks(s);
    OfferIsQuiet(s, qos, id);
    SameLeaving(s, s');
    QuietLife(s, s', BrokerPublishes(qos, id));
  }

  // ---------------------------------------------------------------- final acknowledgements and PUBREC

  lemma EndingIsQuiet(s: Sys, s': Sys, m: Msg)
    requires m.mine && s'.exchanges == s.exchanges - {KeyOf(m)}
    ensures Quiet(s.exchanges, s'.exchanges, s.requests)
  {
  }

  /** An end of one of my exchanges leaves the broker's messages as they are. */
  lemma EndingViews(c: Client, x: map<Key, Msg>, m: Msg)
    requires Books(c, x) && m.mine && KeyOf(m) in x && x[KeyOf(m)] == m
    ensures PublishFlow(m.kind) ==> SameView(View(c.session), c.pool.used, View(c.Forget(m.id).session), c.Forget(m.id).pool.used)
    ensures !PublishFlow(m.kind) ==> SameView(View(c.session), c.pool.used, View(c.session), c.pool.Release(m.id).used)
  {
    ReleaseKeepsValid(c.pool, m.id);
    ViewOfErase(c.session, m.id);
    if !PublishFlow(m.kind) {
      forall e | e in View(c.session) ensures e.id != m.id {
        assert (e.id, e.content) in Held(c.session);
        assert !HoldsPublish(x, m.id, e.content) && !HoldsTheirs(x, m.id, e.content);
      }
    }
  }

  lemma EndingLife(s: Sys, s': Sys, step: Step)
    requires Inv(s) && Settled(s) && step.Handles? && step.m in s.toClient && step.m.mine && step.m.live
    requires step.m.kind != PublishReleased && s'.requests == s.requests && s'.accepted == s.accepted
    requires s'.exchanges == s.exchanges - {KeyOf(step.m)} && s'.unfired == s.unfired && s'.outbox == s.outbox && s'.client.jobs == s.client.jobs
    requires s'.client.pool == s.client.pool.Release(step.m.id)
    requires s'.client.session == if PublishFlow(step.m.kind) then Erase(s.client.session, step.m.id) else s.client.session
    ensures Settled(s') && (Statuses(s) ==> Statuses(s')) && Moving(SceneOf(s), SceneOf(s'), step)
  {
    hide Inv, Settled, Statuses, Moving, Quiet, SameRecs, View, Leaving, Erase, Pool.Release, SameView, Numbered, Shapes;
    ConnectedBooks(s);
    Carrier(s, step.m);
    EndingIsQuiet(s, s', step.m);
    EndingViews(s.client, s.exchanges, step.m);
    SameLeaving(s, s');
    hide Books;
    QuietLife(s, s', step);
  }

  lemma FinishLife(s: Sys, out: Sys, step: Step)
    requires Inv(s) && Settled(s) && step.Handles? && step.m in s.toClient && step.m.mine && step.m.live
    requires step.m.kind in {PublishAck, PublishReceived, PublishComplete} && out == s.(toClient := s.toClient - multiset{step.m})
    ensures var s' := Finished(out, step.m); Settled(s') && (Statuses(s) ==> Statuses(s')) && Moving(SceneOf(s), SceneOf(s'), step)
  {
    hide Inv, Settled, Statuses, Moving, SceneOf, Erase, Pool.Release;
    EndingLife(s, Finished(out, step.m), step);
  }

  lemma SubAckLife(s: Sys, out: Sys, step: Step)
    requires Inv(s) && Settled(s) && step.Handles? && step.m in s.toClient && step.m.mine && step.m.live
    requires step.m.kind in {SubscribeAck, UnsubscribeAck} && out == s.(toClient := s.toClient - multiset{step.m})
    ensures var s' := if step.m.kind == SubscribeAck then SubAckHandled(out, step.m) else UnsubAckHandled(out, step.m);
            Settled(s') && (Statuses(s) ==> Statuses(s')) && Moving(SceneOf(s), SceneOf(s'), step)
  {
    hide Inv, Settled, Statuses, Moving, SceneOf, ErasePending, Pool.Release;
    EndingLife(s, if step.m.kind == SubscribeAck then SubAckHandled(out, step.m) else UnsubAckHandled(out, step.m), step);
  }

  lemma RecIsQuiet(s: Sys, m: Msg, n: Msg)
    requires m.mine && n.mine && KeyOf(n) == KeyOf(m) && KeyOf(m) in s.exchanges
    ensures Quiet(s.exchanges, s.exchanges[KeyOf(m) := n], s.requests)
  {
  }

  lemma PubRecLife(s: Sys, out: Sys, step: Step)
    requires Inv(s) && Settled(s) && step.Handles? && step.m in s.toClient && step.m.kind == PublishReceived
    requires step.m.id < 0x1_0000 && step.m.mine && step.m.live && out == s.(toClient := s.toClient - multiset{step.m})
    ensures var s' := PubRecHandled(out, step.m); Settled(s') && (Statuses(s) ==> Statuses(s')) && Moving(SceneOf(s), SceneOf(s'), step)
  {
    hide Inv, Settled, Statuses, Moving, Quiet, SameRecs, Leaving, View;
    var m, s' := step.m, PubRecHandled(out, step.m);
    var job := Reply(PublishReleased, m.id, m.content);
    Carrier(s, m);
    RecIsQuiet(s, m, JobMsg(job));
    OneMoreLeaves(s, s', job);
    QuietLife(s, s', step);
  }

  // ---------------------------------------------------------------- the broker's publishes

  lemma PlainLife(s: Sys, out: Sys, step: Step)
    requires Settled(s) && step.Handles? && step.m in s.toClient && step.m.kind == PacketType.Publish && step.m.qos != 2
    requires step.m.id < 0x1_0000 && out == s.(toClient := s.toClient - multiset{step.m})
    requires Legal(step.maximumTopicAliases, Published(step.topic, step.topicAlias))
    ensures var s' := PublishHandled(out, step.m, step.topic, step.topicAlias, step.maximumTopicAliases, step.freed, step.now, step.interval);
            Settled(s') && (Statuses(s) ==> Statuses(s')) && Moving(SceneOf(s), SceneOf(s'), step)
  {
    hide Settled, Statuses, Moving, Legal, PointersAfter, Quiet, Leaving, View;
    var s' := PublishHandled(out, step.m, step.topic, step.topicAlias, step.maximumTopicAliases, step.freed, step.now, step.interval);
    QuietSame(s.exchanges, s.requests);
    if step.m.qos == 1 {
      OneMoreLeaves(s, s', Reply(PublishAck, step.m.id, step.m.content));
    } else {
      SameLeaving(s, s');
    }
    hide SameRecs;
    QuietLife(s, s', step);
  }

  function Arrived(t: Scene, m: Msg): Scene {
    Scene(t.x[KeyOf(m) := Rec(m.id, m.content)], t.leaving + multiset{Rec(m.id, m.content)}, t.unfired)
  }

  lemma ArrivalTidy(t: Scene, m: Msg)
    requires Tidy(t) && KeyOf(m) in t.x && t.x[KeyOf(m)] == m && !m.mine && m.kind == PacketType.Publish
    requires forall k :: k in t.x ==> KeyOf(t.x[k]) == k
    ensures Tidy(Arrived(t, m)) && Noted(m.id, m.content) !in t.unfired
  {
    assert !HoldsTheirs(t.x, m.id, m.content);
    assert forall u: Msg :: u != Rec(m.id, m.content) ==> (t.leaving + multiset{Rec(m.id, m.content)})[u] == t.leaving[u];
  }

  lemma ArrivalPhases(t: Scene, m: Msg)
    requires KeyOf(m) in t.x && t.x[KeyOf(m)] == m && !m.mine && m.kind == PacketType.Publish
    ensures HoldsTheirs(Arrived(t, m).x, m.id, m.content) && Phase(Arrived(t, m), m.id, m.content) == WaitingForPubRec
    ensures Still(t, Arrived(t, m))
  {
    assert forall id: nat, c: nat :: Rec(id, c) != Rec(m.id, m.content) ==>
        (Rec(id, c) in t.leaving + multiset{Rec(m.id, m.content)} <==> Rec(id, c) in t.leaving);
  }

  /** A QoS 2 message arrives: it starts out waiting for its PUBREC to be sent. */
  lemma ArrivalPlaced(t: Scene, m: Msg, view: set<Entry>, used: set<nat>)
    requires Placed(view, used, t) && Still(t, Arrived(t, m))
    requires HoldsTheirs(Arrived(t, m).x, m.id, m.content) && Phase(Arrived(t, m), m.id, m.content) == WaitingForPubRec
    ensures Placed(view + {Entry(m.id, m.content, WaitingForPubRec)}, used, Arrived(t, m))
  {
    hide Phase, Arrived;
  }

  lemma ArrivalLife(s: Sys, out: Sys, step: Step)
    requires Inv(s) && Settled(s) && step.Handles? && step.m in s.toClient && step.m.kind == PacketType.Publish && step.m.qos == 2
    requires step.m.id < 0x1_0000 && !step.m.mine && step.m.live && out == s.(toClient := s.toClient - multiset{step.m})
    requires Legal(step.maximumTopicAliases, Published(step.topic, step.topicAlias))
    ensures var s' := PublishHandled(out, step.m, step.topic, step.topicAlias, step.maximumTopicAliases, step.freed, step.now, step.interval);
            Settled(s') && (Statuses(s) ==> Statuses(s')) && Moving(SceneOf(s), SceneOf(s'), step)
  {
    hide Inv, Legal, PointersAfter, Tidy, Placed, Recalled, Moving, Still, Phase, Arrived, Leaving, View, Books, Numbered, Shapes;
    var m, c := step.m, s.client;
    var s' := PublishHandled(out, step.m, step.topic, step.topicAlias, step.maximumTopicAliases, step.freed, step.now, step.interval);
    ConnectedBooks(s);
    Carrier(s, m);
    OneMoreLeaves(s, s', Reply(PublishReceived, m.id, m.content));
    ArrivedScene(s, s', m);
    ViewOfAdd(c.session, m.id, m.content, 0, step.now, step.interval);
    ArrivalTidy(SceneOf(s), m);
    ArrivalPhases(SceneOf(s), m);
    if Statuses(s) {
      ArrivalPlaced(SceneOf(s), m, View(c.session), c.pool.used);
    }
    StillMoves(SceneOf(s), SceneOf(s'), step);
  }

  lemma ArrivedScene(s: Sys, s': Sys, m: Msg)
    requires m.id < 0x1_0000 && s'.exchanges == s.exchanges[KeyOf(m) := JobMsg(Reply(PublishReceived, m.id, m.content))]
    requires s'.unfired == s.unfired && Leaving(s') == Leaving(s) + multiset{JobMsg(Reply(PublishReceived, m.id, m.content))}
    ensures SceneOf(s') == Arrived(SceneOf(s), m)
  {
    hide Leaving;
  }

  // ---------------------------------------------------------------- sending

  lemma RecLeaves(t: Scene, m: Msg)
    requires Tidy(t) && m.kind == PublishReceived && t.leaving[m] == 1 && !m.mine && KeyOf(m) in t.x && t.x[KeyOf(m)] == m
    ensures var t' := Scene(t.x, t.leaving - multiset{m}, t.unfired + multiset{m.(live := false)}); Tidy(t') && Still(t, t')
  {
    var n := m.(live := false);
    assert m == Rec(m.id, m.content) && n == Noted(m.id, m.content);
    assert n !in t.unfired && (t.unfired + multiset{n})[n] == 1;
    assert m !in t.leaving - multiset{m};
    assert forall u: Msg :: u != m ==> (t.leaving - multiset{m})[u] == t.leaving[u];
    assert forall u: Msg :: u != n ==> (t.unfired + multiset{n})[u] == t.unfired[u];
  }

  /** Scenes alike as far as PUBRECs go. */
  lemma SameRecords(t: Scene, t': Scene)
    requires Tidy(t) && t'.x == t.x
    requires forall m: Msg :: m.kind == PublishReceived ==> t'.leaving[m] == t.leaving[m] && t'.unfired[m] == t.unfired[m]
    ensures Tidy(t') && Still(t, t')
  {
    forall id: nat, c: nat | HoldsTheirs(t.x, id, c) ensures Phase(t', id, c) == Phase(t, id, c) {
      assert t'.leaving[Rec(id, c)] == t.leaving[Rec(id, c)] && t'.unfired[Noted(id, c)] == t.unfired[Noted(id, c)];
    }
    forall u | u in t'.unfired && u.kind == PublishReceived ensures u in t.unfired && t'.leaving[Rec(u.id, u.content)] == t.leaving[Rec(u.id, u.content)] {
      assert t'.unfired[u] == t.unfired[u];
    }
  }

  lemma OtherLeaves(t: Scene, m: Msg, noted: multiset<Msg>)
    requires Tidy(t) && m.kind != PublishReceived && forall n :: n in noted ==> n.kind != PublishReceived
    ensures var t' := Scene(t.x, t.leaving - multiset{m}, t.unfired + noted); Tidy(t') && Still(t, t')
  {
    hide Tidy, Still;
    var t' := Scene(t.x, t.leaving - multiset{m}, t.unfired + noted);
    forall n: Msg | n.kind == PublishReceived ensures t'.leaving[n] == t.leaving[n] && t'.unfired[n] == t.unfired[n] {
      assert n !in noted;
    }
    SameRecords(t, t');
  }

  lemma ComposedOf(s: Sys, m: Msg)
    requires Inv(s) && m in s.outbox
    ensures Composed(m)
  {
    hide Books, Carried, Numbered, WindowOk, Remembered, Sys.All;
  }

  lemma LeavingOnce(s: Sys, m: Msg)
    requires m in s.outbox
    ensures Leaving(Transmitted(s, m)) == Leaving(s) - multiset{m} && 0 < Leaving(s)[m] <= s.All()[m]
  {
    hide Waiting;
  }

  lemma TransmitRecalls(s: Sys, m: Msg)
    requires Inv(s) && Recalled(s.unfired, s.requests, s.accepted) && m in s.outbox && Composed(m)
    ensures Recalled(Transmitted(s, m).unfired, s.requests, s.accepted)
  {
    hide Inv, Books, Shapes, Recalled;
    ConnectedBooks(s);
    var s' := Transmitted(s, m);
    if m.kind in {PublishComplete, PublishReceived, PublishReleased} {
      Carrier(s, m);
      assert m.kind == PublishReleased ==> HoldsPublish(s.exchanges, m.id, m.content);
      assert m.content < s.requests && (m.kind == PublishReleased ==> m.content in s.accepted && s.accepted[m.content] == m.id);
      OneMoreRecalled(s.unfired, if m.kind == PublishComplete then m else m.(live := false), s.requests, s.accepted);
    } else {
      assert s'.unfired == s.unfired;
    }
  }

  lemma OneMoreRecalled(unfired: multiset<Msg>, n: Msg, requests: nat, accepted: map<nat, nat>)
    requires Recalled(unfired, requests, accepted) && n.content < requests
    requires n.kind == PublishReleased ==> n.content in accepted && accepted[n.content] == n.id
    ensures Recalled(unfired + multiset{n}, requests, accepted)
  {
  }

  lemma TransmitTidy(s: Sys, m: Msg)
    requires Inv(s) && Tidy(SceneOf(s)) && m in s.outbox && Composed(m)
    ensures Tidy(SceneOf(Transmitted(s, m))) && Still(SceneOf(s), SceneOf(Transmitted(s, m)))
  {
    hide Inv, Tidy, Still;
    var s' := Transmitted(s, m);
    LeavingOnce(s, m);
    if m.live {
      Carrier(s, m);
    }
    hide Leaving, Sys.All;
    if m.kind == PublishReceived {
      RecLeaves(SceneOf(s), m);
    } else {
      var noted := if m.kind == PublishComplete then multiset{m}
                   else if m.kind == PublishReleased then multiset{m.(live := false)} else multiset{};
      OtherLeaves(SceneOf(s), m, noted);
    }
  }

  lemma TransmitLife(s: Sys, m: Msg)
    requires Inv(s) && Settled(s) && m in s.outbox
    ensures var s' := Transmitted(s, m); Settled(s') && (Statuses(s) ==> Statuses(s')) && Moving(SceneOf(s), SceneOf(s'), Transmits(m))
  {
    hide Inv, Tidy, Recalled, Placed, Moving, Still, View, Leaving;
    var s' := Transmitted(s, m);
    ComposedOf(s, m);
    TransmitTidy(s, m);
    TransmitRecalls(s, m);
    StillMoves(SceneOf(s), SceneOf(s'), Transmits(m));
    SameViewRefl(View(s.client.session), s.client.pool.used);
    hide SameView;
    if Statuses(s) {
      StillKeepsPlaced(View(s.client.session), s.client.pool.used, SceneOf(s),
                       View(s'.client.session), s'.client.pool.used, SceneOf(s'));
    }
  }

  lemma SameViewRefl(view: set<Entry>, used: set<nat>)
    ensures SameView(view, used, view, used)
  {
  }

  // ---------------------------------------------------------------- callbacks

  /** A received message is the only one in the session with its id. */
  lemma OnlyEntry(s: Sys, id: nat, c: nat)
    requires Inv(s) && HoldsTheirs(s.exchanges, id, c)
    ensures id !in s.client.pool.used && DistinctIds(s.client.session)
    ensures forall d: nat :: (id, d) in Held(s.client.session) <==> d == c
  {
    hide Rest;
    DistinctIsFunctional(s.client.session);
    assert (id, c) in Held(s.client.session);
  }

  /** What is held by the broker's messages, in terms of the exchanges. */
  lemma HeldTheirs(s: Sys)
    requires Inv(s)
    ensures forall id: nat, c: nat :: id !in s.client.pool.used ==> ((id, c) in Held(s.client.session) <==> HoldsTheirs(s.exchanges, id, c))
    ensures forall id: nat, c: nat :: HoldsTheirs(s.exchanges, id, c) ==> id !in s.client.pool.used
    ensures forall id: nat, c: nat, d: nat :: HoldsTheirs(s.exchanges, id, c) && HoldsTheirs(s.exchanges, id, d) ==> c == d
  {
    hide Rest;
    DistinctIsFunctional(s.client.session);
    assert forall id: nat, c: nat :: HoldsPublish(s.exchanges, id, c) ==> id in s.client.pool.used;
    assert forall id: nat, c: nat :: HoldsTheirs(s.exchanges, id, c) ==> (id, c) in Held(s.client.session);
  }

  lemma ViewIsHeld(session: Messages)
    ensures forall e :: e in View(session) ==> (e.id, e.content) in Held(session)
    ensures forall p: (nat, nat) :: p in Held(session) ==> exists e :: e in View(session) && e.id == p.0 && e.content == p.1
  {
    forall p: (nat, nat) | p in Held(session) ensures exists e :: e in View(session) && e.id == p.0 && e.content == p.1 {
      var m :| m in session && (m.id, m.content) == p;
      assert Entry(m.id, m.content, m.status) in View(session);
    }
  }

  /** The view after a status was noted under an id. */
  ghost predicate NotedView(view: set<Entry>, held: set<(nat, nat)>, view': set<Entry>, id: nat, status: Status) {
    forall e :: e in view' <==> if e.id == id then e.status == status && (id, e.content) in held else e in view
  }

  /** Noting a status leaves every received message in its phase if and only if it is the phase of the one that
      has the id, once all other phases are unchanged. */
  lemma NotingPlacedExactly(view: set<Entry>, held: set<(nat, nat)>, used: set<nat>, t: Scene, t': Scene, view': set<Entry>, id: nat, status: Status)
    requires Placed(view, used, t) && NotedView(view, held, view', id, status) && t'.x == t.x
    requires forall i: nat, c: nat :: i !in used ==> ((i, c) in held <==> HoldsTheirs(t.x, i, c))
    requires forall i: nat, c: nat :: HoldsTheirs(t.x, i, c) ==> i !in used
    requires forall i: nat, c: nat :: HoldsTheirs(t.x, i, c) && i != id ==> Phase(t', i, c) == Phase(t, i, c)
    ensures Placed(view', used, t') <==> forall c: nat :: HoldsTheirs(t.x, id, c) ==> Phase(t', id, c) == status
  {
    hide Phase;
    if c: nat :| HoldsTheirs(t.x, id, c) && Phase(t', id, c) != status {
      assert Entry(id, c, status) in view';
    }
  }

  lemma HarmlessIsPhase(t: Scene, m: Msg)
    requires m.kind in {PublishReceived, PublishReleased}
    ensures Harmless(t, m) <==>
              forall c: nat :: HoldsTheirs(t.x, m.id, c) ==>
                Phase(t, m.id, c) == if m.kind == PublishReceived then WaitingForPubRel else WaitingForPubComp
  {
  }

  /** The callback for a PUBREC or PUBREL, made for the first time or again. */
  lemma NotingLife(s: Sys, s': Sys, m: Msg, now: nat, interval: nat)
    requires Inv(s) && Settled(s) && m.kind in {PublishReceived, PublishReleased}
    requires s'.client == CalledBack(s.client, m, now, interval) && s'.exchanges == s.exchanges && s'.outbox == s.outbox
    requires s'.unfired == s.unfired || s'.unfired == s.unfired - multiset{m}
    ensures Statuses(s) ==> (Statuses(s') <==> Harmless(SceneOf(s'), m))
  {
    hide Inv, Settled, Placed, Harmless, View, Held, Leaving, NotedView, Update, Phase, Books, Numbered, Shapes, DistinctIds;
    ConnectedBooks(s);
    HeldTheirs(s);
    var status := if m.kind == PublishReceived then WaitingForPubRel else WaitingForPubComp;
    NotedViewOf(s.client.session, m.id, status, now, interval);
    SameLeaving(s, s');
    HarmlessIsPhase(SceneOf(s'), m);
    OtherPhases(s, s', m);
    if Statuses(s) {
      NotingPlacedExactly(View(s.client.session), Held(s.client.session), s.client.pool.used, SceneOf(s), SceneOf(s'),
                          View(s'.client.session), m.id, status);
    }
  }

  lemma NotedViewOf(session: Messages, id: nat, status: Status, now: nat, interval: nat)
    requires DistinctIds(session)
    ensures NotedView(View(session), Held(session), View(Update(session, id, status, now, interval)), id, status)
  {
    ViewOfUpdate(session, id, status, now, interval);
    hide View, Held, Update;
  }

  /** A callback that is out of the way changes no phase of a message with another id. */
  lemma OtherPhases(s: Sys, s': Sys, m: Msg)
    requires s'.exchanges == s.exchanges && Leaving(s') == Leaving(s) && (s'.unfired == s.unfired || s'.unfired == s.unfired - multiset{m})
    ensures forall id: nat, c: nat :: HoldsTheirs(s.exchanges, id, c) && id != m.id ==> Phase(SceneOf(s'), id, c) == Phase(SceneOf(s), id, c)
  {
    hide Leaving;
    assert forall u: Msg :: u != m ==> s'.unfired[u] == s.unfired[u];
  }

  /** The first callback for a PUBREC. */
  lemma RecSentTidy(t: Scene, m: Msg)
    requires Tidy(t) && m in t.unfired && m.kind == PublishReceived
    ensures var t' := t.(unfired := t.unfired - multiset{m});
            Tidy(t') && m == Noted(m.id, m.content)
            && (Harmless(t', m) ==> forall id: nat, c: nat :: HoldsTheirs(t.x, id, c) ==>
                  if m == Noted(id, c) then Phase(t, id, c) == WaitingForPubRec && Phase(t', id, c) == WaitingForPubRel
                  else Phase(t', id, c) == Phase(t, id, c))
  {
    assert t.unfired[m] == 1 && (t.unfired - multiset{m})[m] == 0;
    assert forall u: Msg :: u != m ==> (t.unfired - multiset{m})[u] == t.unfired[u];
  }

  lemma FewerRecalled(s: Sys, s': Sys, m: Msg)
    requires Recalled(s.unfired, s.requests, s.accepted) && s'.unfired == s.unfired - multiset{m}
    requires s'.requests == s.requests && s'.accepted == s.accepted
    ensures Recalled(s'.unfired, s'.requests, s'.accepted)
  {
  }

  lemma RecSentLife(s: Sys, m: Msg, now: nat, interval: nat)
    requires Inv(s) && Settled(s) && m in s.unfired && m.kind == PublishReceived
    ensures var s', step := Fired(s, m, now, interval), Fires(m, now, interval);
            && Settled(s') && (Statuses(s) ==> (Statuses(s') <==> Timely(s, step)))
            && (Timely(s, step) ==> Moving(SceneOf(s), SceneOf(s'), step))
  {
    hide Inv, Statuses, Tidy, Recalled, Harmless, Phase, Leaving, Update;
    var s' := Fired(s, m, now, interval);
    SameLeaving(s, s');
    FewerRecalled(s, s', m);
    RecSentTidy(SceneOf(s), m);
    NotingLife(s, s', m, now, interval);
  }

  lemma RelSentTidy(t: Scene, m: Msg)
    requires Tidy(t) && m.kind == PublishReleased
    ensures var t' := t.(unfired := t.unfired - multiset{m}); Tidy(t') && Still(t, t')
  {
    hide Tidy, Still;
    var t' := t.(unfired := t.unfired - multiset{m});
    assert forall n: Msg :: n.kind == PublishReceived ==> t'.leaving[n] == t.leaving[n] && t'.unfired[n] == t.unfired[n];
    SameRecords(t, t');
  }

  lemma RelSentLife(s: Sys, m: Msg, now: nat, interval: nat)
    requires Inv(s) && Settled(s) && m in s.unfired && m.kind == PublishReleased
    ensures var s', step := Fired(s, m, now, interval), Fires(m, now, interval);
            && Settled(s') && (Statuses(s) ==> (Statuses(s') <==> Timely(s, step))) && Moving(SceneOf(s), SceneOf(s'), step)
  {
    hide Inv, Statuses, Tidy, Recalled, Harmless, Still, Moving, Leaving, Update;
    var s' := Fired(s, m, now, interval);
    SameLeaving(s, s');
    FewerRecalled(s, s', m);
    RelSentTidy(SceneOf(s), m);
    StillMoves(SceneOf(s), SceneOf(s'), Fires(m, now, interval));
    NotingLife(s, s', m, now, interval);
  }

  /** A callback made again. */
  lemma RepeatLife(s: Sys, m: Msg, now: nat, interval: nat)
    requires Inv(s) && Settled(s) && Enabled(s, Repeats(m, now, interval)) && Apart(s, Repeats(m, now, interval))
    ensures var s', step := s.(client := CalledBack(s.client, m, now, interval)), Repeats(m, now, interval);
            && Settled(s') && (Statuses(s) ==> (Statuses(s') <==> Timely(s, step))) && Moving(SceneOf(s), SceneOf(s'), step)
  {
    hide Inv, Statuses, Tidy, Recalled, Harmless, Still, Moving, Leaving, Update, Erase, Contains, Pool.Release;
    var s' := s.(client := CalledBack(s.client, m, now, interval));
    SameLeaving(s, s');
    StillRefl(SceneOf(s));
    StillMoves(SceneOf(s), SceneOf(s'), Repeats(m, now, interval));
    if m.kind in {PublishReceived, PublishReleased} {
      NotingLife(s, s', m, now, interval);
    } else {
      NothingToForget(s.client, m.id);
      assert s'.client == s.client;
      assert Timely(s, Repeats(m, now, interval)) by {
        HarmlessOtherwise(SceneOf(s), m);
      }
    }
  }

  lemma HarmlessOtherwise(t: Scene, m: Msg)
    requires m.kind !in {PublishReceived, PublishReleased}
    ensures Harmless(t, m)
  {
  }

  lemma NothingToForget(c: Client, id: nat)
    requires id !in c.pool.used && !Contains(c.session, id)
    ensures c.Forget(id) == c
  {
  }

  lemma StillRefl(t: Scene)
    ensures Still(t, t)
  {
  }

  lemma ClosingParts(t: Scene, m: Msg)
    requires Tidy(t) && m in t.unfired && m.kind == PublishComplete && !m.mine && KeyOf(m) in t.x && t.x[KeyOf(m)] == m
    ensures var t' := Scene(t.x - {KeyOf(m)}, t.leaving, t.unfired - multiset{m});
            && Tidy(t')
            && HoldsTheirs(t.x, m.id, m.content) && Phase(t, m.id, m.content) == NeedToSendPubComp
            && forall i: nat, d: nat :: HoldsTheirs(t.x, i, d) && d != m.content ==> HoldsTheirs(t'.x, i, d) && Phase(t', i, d) == Phase(t, i, d)
  {
    assert forall u: Msg :: u != m ==> (t.unfired - multiset{m})[u] == t.unfired[u];
  }

  lemma CompSentLife(s: Sys, m: Msg, now: nat, interval: nat)
    requires Inv(s) && Settled(s) && m in s.unfired && m.kind == PublishComplete && m.live && !m.mine
    ensures var s', step := Fired(s, m, now, interval), Fires(m, now, interval);
            Settled(s') && (Statuses(s) ==> Statuses(s')) && Timely(s, step) && Moving(SceneOf(s), SceneOf(s'), step)
  {
    hide Inv, View, Tidy, Phase, Recalled, Leaving, Erase, Held, DistinctIds, Pool.Release;
    var s' := Fired(s, m, now, interval);
    Carrier(s, m);
    SameLeaving(s, s');
    ClosingParts(SceneOf(s), m);
    FewerRecalled(s, s', m);
    OnlyEntry(s, m.id, m.content);
    ViewOfErase(s.client.session, m.id);
    ViewIsHeld(s.client.session);
    assert s'.client.pool.used == s.client.pool.used by {
      UnusedRelease(s.client.pool, m.id);
    }
  }

  lemma UnusedRelease(p: Pool, id: nat)
    requires id !in p.used
    ensures p.Release(id) == p
  {
  }

  // ---------------------------------------------------------------- PUBREL

  function Released(t: Scene, m: Msg, n: Msg): Scene {
    Scene(t.x[KeyOf(m) := n], t.leaving + multiset{n}, t.unfired)
  }

  lemma ReleaseTidy(t: Scene, m: Msg, n: Msg)
    requires Tidy(t) && !m.mine && KeyOf(m) in t.x && t.x[KeyOf(m)] == m && m.kind == PublishReleased
    requires n.kind == PublishComplete && !n.mine && n.id == m.id && n.content == m.content
    ensures Tidy(Released(t, m, n))
  {
    assert forall u: Msg :: u != n ==> (t.leaving + multiset{n})[u] == t.leaving[u];
  }

  lemma ReleaseParts(t: Scene, m: Msg, n: Msg)
    requires Tidy(t) && m.kind == PublishReleased && !m.mine && KeyOf(m) in t.x && t.x[KeyOf(m)] == m
    requires n.kind == PublishComplete && !n.mine && n.id == m.id && n.content == m.content && Rec(m.id, m.content) !in t.leaving
    ensures Tidy(Released(t, m, n)) && HoldsTheirs(t.x, m.id, m.content) && HoldsTheirs(Released(t, m, n).x, m.id, m.content)
    ensures Phase(t, m.id, m.content) == if Noted(m.id, m.content) in t.unfired then WaitingForPubRec else WaitingForPubRel
    ensures Phase(Released(t, m, n), m.id, m.content) == NeedToSendPubComp
    ensures forall i: nat, d: nat :: HoldsTheirs(t.x, i, d) && d != m.content ==>
              HoldsTheirs(Released(t, m, n).x, i, d) && Phase(Released(t, m, n), i, d) == Phase(t, i, d)
  {
    hide Tidy;
    ReleaseTidy(t, m, n);
    assert forall u: Msg :: u != n ==> (t.leaving + multiset{n})[u] == t.leaving[u];
  }

  lemma NoRecLeaving(s: Sys, m: Msg)
    requires Inv(s) && m in s.toClient && m.kind == PublishReleased && m.live && !m.mine
    ensures Rec(m.id, m.content) !in Leaving(s)
  {
    Carrier(s, m);
    hide Books, Shapes, Numbered, WindowOk, Remembered, Waiting;
    assert s.All()[Rec(m.id, m.content)] == 0;
  }

  lemma ReleasedPlaced(view: set<Entry>, held: set<(nat, nat)>, used: set<nat>, t: Scene, t': Scene, view': set<Entry>, id: nat, c: nat)
    requires Placed(view, used, t) && NotedView(view, held, view', id, NeedToSendPubComp)
    requires forall d: nat :: (id, d) in held <==> d == c
    requires HoldsTheirs(t'.x, id, c) && Phase(t', id, c) == NeedToSendPubComp
    requires forall i: nat, d: nat :: HoldsTheirs(t.x, i, d) && d != c ==> HoldsTheirs(t'.x, i, d) && Phase(t', i, d) == Phase(t, i, d)
    requires HoldsTheirs(t.x, id, c)
    ensures Placed(view', used, t')
  {
    hide Phase;
    forall e | e in view' && e.id !in used ensures HoldsTheirs(t'.x, e.id, e.content) && e.status == Phase(t', e.id, e.content) {
      if e.id != id {
        assert HoldsTheirs(t.x, e.id, e.content);
      }
    }
  }

  lemma PubRelMoves(t: Scene, t': Scene, step: Step, id: nat, c: nat)
    requires step.Handles? && step.m.kind == PublishReleased && step.m.content == c && step.m.id == id
    requires HoldsTheirs(t.x, id, c) && HoldsTheirs(t'.x, id, c) && Phase(t', id, c) == NeedToSendPubComp
    requires Phase(t, id, c) == if Noted(id, c) in t.unfired then WaitingForPubRec else WaitingForPubRel
    requires forall i: nat, d: nat :: HoldsTheirs(t.x, i, d) && d != c ==> HoldsTheirs(t'.x, i, d) && Phase(t', i, d) == Phase(t, i, d)
    ensures Moving(t, t', step)
  {
    hide Phase;
  }

  lemma PubRelLife(s: Sys, out: Sys, step: Step)
    requires Inv(s) && Settled(s) && step.Handles? && step.m in s.toClient && step.m.kind == PublishReleased
    requires step.m.id < 0x1_0000 && !step.m.mine && step.m.live && out == s.(toClient := s.toClient - multiset{step.m})
    ensures var s' := PubRelHandled(out, step.m, step.now, step.interval);
            Settled(s') && (Statuses(s) ==> Statuses(s')) && Moving(SceneOf(s), SceneOf(s'), step)
  {
    hide Inv, View, Tidy, Phase, Placed, Moving, Leaving, Recalled, Update, Held, NotedView, DistinctIds, Released;
    var m, c := step.m, s.client;
    var s', job := PubRelHandled(out, m, step.now, step.interval), Reply(PublishComplete, m.id, m.content);
    var n := JobMsg(job);
    Carrier(s, m);
    NoRecLeaving(s, m);
    OneMoreLeaves(s, s', job);
    ReleaseParts(SceneOf(s), m, n);
    assert SceneOf(s') == Released(SceneOf(s), m, n) by {
      ReleasedScene(s, s', m, n);
    }
    OnlyEntry(s, m.id, m.content);
    NotedViewOf(c.session, m.id, NeedToSendPubComp, step.now, step.interval);
    if Statuses(s) {
      ReleasedPlaced(View(c.session), Held(c.session), c.pool.used, SceneOf(s), SceneOf(s'), View(s'.client.session), m.id, m.content);
    }
    PubRelMoves(SceneOf(s), SceneOf(s'), step, m.id, m.content);
  }

  lemma ReleasedScene(s: Sys, s': Sys, m: Msg, n: Msg)
    requires s'.exchanges == s.exchanges[KeyOf(m) := n] && s'.unfired == s.unfired && Leaving(s') == Leaving(s) + multiset{n}
    ensures SceneOf(s') == Released(SceneOf(s), m, n)
  {
    hide Leaving;
  }

  // ---------------------------------------------------------------- all steps

  lemma HandlingLife(s: Sys, step: Step)
    requires Inv(s) && Settled(s) && step.Handles? && step.m in s.toClient && step.m.id < 0x1_0000
    requires step.m.kind == PacketType.Publish ==> Legal(step.maximumTopicAliases, Published(step.topic, step.topicAlias))
    ensures var s' := Handled(s, step.m, step.topic, step.topicAlias, step.maximumTopicAliases, step.freed, step.now, step.interval);
            Settled(s') && (Statuses(s) ==> Statuses(s')) && Moving(SceneOf(s), SceneOf(s'), step)
  {
    var m, out := step.m, s.(toClient := s.toClient - multiset{step.m});
    hide *;
    ComingIs(s, m);
    HandledBranches(s, m, step.topic, step.topicAlias, step.maximumTopicAliases, step.freed, step.now, step.interval);
    if m.kind == PacketType.Publish {
      if m.qos == 2 {
        ArrivalLife(s, out, step);
      } else {
        PlainLife(s, out, step);
      }
    } else if m.kind == PublishReleased {
      PubRelLife(s, out, step);
    } else {
      MineLife(s, out, step);
    }
  }

  lemma MineLife(s: Sys, out: Sys, step: Step)
    requires Inv(s) && Settled(s) && step.Handles? && step.m in s.toClient && step.m.id < 0x1_0000
    requires step.m.mine && step.m.live && out == s.(toClient := s.toClient - multiset{step.m})
    requires step.m.kind in {PublishAck, PublishReceived, PublishComplete, SubscribeAck, UnsubscribeAck}
    ensures var s' := Handled(s, step.m, step.topic, step.topicAlias, step.maximumTopicAliases, step.freed, step.now, step.interval);
            Settled(s') && (Statuses(s) ==> Statuses(s')) && Moving(SceneOf(s), SceneOf(s'), step)
  {
    var m := step.m;
    hide *;
    HandledBranches(s, m, step.topic, step.topicAlias, step.maximumTopicAliases, step.freed, step.now, step.interval);
    match m.kind
    case PublishReceived =>
      if m.failed {
        FinishLife(s, out, step);
      } else {
        PubRecLife(s, out, step);
      }
    case SubscribeAck => SubAckLife(s, out, step);
    case UnsubscribeAck => SubAckLife(s, out, step);
    case _ => FinishLife(s, out, step);
  }

  lemma AnnouncingIs(s: Sys, m: Msg)
    requires Inv(s) && m in s.unfired
    ensures m.kind in {PublishReceived, PublishReleased, PublishComplete} && m.live == (m.kind == PublishComplete) && m.mine == (m.kind == PublishReleased)
  {
    hide Books, Carried, Numbered, WindowOk, Remembered, Sys.All;
    assert Announcing(m);
  }

  lemma FiringLife(s: Sys, m: Msg, now: nat, interval: nat)
    requires Inv(s) && Settled(s) && m in s.unfired
    ensures var s', step := Fired(s, m, now, interval), Fires(m, now, interval);
            && Settled(s') && (Statuses(s) ==> (Statuses(s') <==> Timely(s, step)))
            && (Timely(s, step) ==> Moving(SceneOf(s), SceneOf(s'), step))
  {
    hide *;
    AnnouncingIs(s, m);
    if m.kind == PublishReceived {
      RecSentLife(s, m, now, interval);
    } else if m.kind == PublishReleased {
      RelSentLife(s, m, now, interval);
    } else {
      CompSentLife(s, m, now, interval);
    }
  }

  lemma TimelyOtherwise(s: Sys, step: Step)
    requires !step.Fires? && !step.Repeats?
    ensures Timely(s, step)
  {
  }

  lemma FiresStep(s: Sys, step: Step)
    requires Inv(s) && Settled(s) && Enabled(s, step) && s.client.status.Connected? && step.Fires?
    ensures Settled(Next(s, step)) && (Statuses(s) ==> (Statuses(Next(s, step)) <==> Timely(s, step)))
    ensures Timely(s, step) ==> Moving(SceneOf(s), SceneOf(Next(s, step)), step)
  {
    hide Inv, Settled, Statuses, Timely, Moving, SceneOf, Fired, Survives;
    FiringLife(s, step.m, step.now, step.interval);
  }

  lemma RepeatsStep(s: Sys, step: Step)
    requires Inv(s) && Settled(s) && Enabled(s, step) && Apart(s, step) && s.client.status.Connected? && step.Repeats?
    ensures Settled(Next(s, step)) && (Statuses(s) ==> (Statuses(Next(s, step)) <==> Timely(s, step)))
    ensures Moving(SceneOf(s), SceneOf(Next(s, step)), step)
  {
    hide Inv, Settled, Statuses, Timely, Moving, SceneOf, CalledBack, Survives, Contains;
    RepeatLife(s, step.m, step.now, step.interval);
  }

  lemma OtherStep(s: Sys, step: Step)
    requires Inv(s) && Settled(s) && Enabled(s, step) && Apart(s, step) && s.client.status.Connected? && !step.Fires? && !step.Repeats?
    ensures Settled(Next(s, step)) && (Statuses(s) ==> Statuses(Next(s, step))) && Moving(SceneOf(s), SceneOf(Next(s, step)), step)
  {
    hide Inv, Settled, Statuses, Moving, SceneOf, Compose, ComposedOnce, Transmitted, TakenByBroker, Offered, Handled, Legal, Contains,
      Client.Publish, Client.Subscribe, Client.Unsubscribe, Client.Retry, Window.Take, Carries, RetriedIdly, Handleable;
    match step
    case Queues(job) => QueueingLife(s, job, step);
    case PublishesQoS0(content, encoded) =>
      QoS0IsQueued(s, step);
      QoS0Life(s, step);
    case Scans(now, encode) => ScanningLife(s, now, encode);
    case Composes => ComposingLife(s);
    case Transmits(m) => TransmitLife(s, m);
    case BrokerTakes(m, failed) => TakingLife(s, m, failed);
    case BrokerPublishes(qos, id) => OfferingLife(s, qos, id);
    case Handles(m, topic, topicAlias, max, freed, now, interval) => HandlingLife(s, step);
    case _ => AskingLife(s, step);
  }

  /** A step that keeps the id spaces apart keeps every received message's status at the phase of its exchange if
      and only if it is no late callback: one for a PUBREC whose message, or the message that has its id by now, is
      past its PUBREL or not announced itself; or one for a PUBREL whose id a received message has. And then
      messages move on in order. */
  lemma StepKeepsStatusesExactly(s: Sys, step: Step)
    requires Inv(s) && Settled(s) && Enabled(s, step) && Apart(s, step)
    ensures s.client.status.Connected? && Settled(Next(s, step))
    ensures Statuses(s) ==> (Statuses(Next(s, step)) <==> Timely(s, step))
    ensures Timely(s, step) ==> Moving(SceneOf(s), SceneOf(Next(s, step)), step)
  {
    hide *;
    ConnectedBooks(s);
    if step.Fires? {
      FiresStep(s, step);
    } else if step.Repeats? {
      RepeatsStep(s, step);
    } else {
      OtherStep(s, step);
      TimelyOtherwise(s, step);
    }
  }

  // ---------------------------------------------------------------- whole runs

  /** The statuses are right after every step. */
  ghost predicate AlwaysRight(s: Sys, steps: seq<Step>)
    requires Goes(s, steps)
    decreases |steps|
  {
    Statuses(s) && (steps == [] || AlwaysRight(Next(s, steps[0]), steps[1..]))
  }

  ghost predicate AllTimely(s: Sys, steps: seq<Step>)
    requires Goes(s, steps)
    decreases |steps|
  {
    steps == [] || (Timely(s, steps[0]) && AllTimely(Next(s, steps[0]), steps[1..]))
  }

  lemma {:induction false} RunKeepsStatusesExactly(s: Sys, steps: seq<Step>)
    requires Inv(s) && Settled(s) && Statuses(s) && Goes(s, steps) && KeptApart(s, steps)
    ensures AlwaysRight(s, steps) <==> AllTimely(s, steps)
    ensures AllTimely(s, steps) ==> Inv(Reached(s, steps)) && Settled(Reached(s, steps)) && Statuses(Reached(s, steps))
    decreases |steps|
  {
    if steps != [] {
      var s' := Next(s, steps[0]);
      StepKeepsExactly(s, steps[0]);
      StepKeepsStatusesExactly(s, steps[0]);
      hide Inv, Settled, Statuses, Enabled, Apart, Next, Timely;
      if Statuses(s') {
        RunKeepsStatusesExactly(s', steps[1..]);
      } else {
        assert !AlwaysRight(s', steps[1..]);
      }
    }
  }

  lemma NewStatuses(clientMaximum: nat, brokerMaximum: nat)
    ensures Settled(NewSys(clientMaximum, brokerMaximum)) && Statuses(NewSys(clientMaximum, brokerMaximum))
  {
  }

  /** Over whole runs of a connection in which the id spaces stay apart: every received QoS 2 message has at all
      times exactly the status of its exchange - waiting for PUBREC until the PUBREC has been sent in full and
      called back, about to send PUBCOMP once the PUBREL has come, waiting for PUBREL in between - if and only if
      no callback comes late. */
  lemma InboundLifecycle(steps: seq<Step>, clientMaximum: nat, brokerMaximum: nat)
    requires Goes(NewSys(clientMaximum, brokerMaximum), steps) && KeptApart(NewSys(clientMaximum, brokerMaximum), steps)
    ensures AlwaysRight(NewSys(clientMaximum, brokerMaximum), steps) <==> AllTimely(NewSys(clientMaximum, brokerMaximum), steps)
  {
    hide Inv, Settled, Statuses, AlwaysRight, AllTimely, Goes, KeptApart;
    NewInv(clientMaximum, brokerMaximum);
    NewStatuses(clientMaximum, brokerMaximum);
    RunKeepsStatusesExactly(NewSys(clientMaximum, brokerMaximum), steps);
  }

  predicate Present(session: Messages, id: nat, content: nat, status: Status) {
    exists m :: m in session && m.id == id && m.content == content && m.status == status
  }

  lemma PlacedMessage(s: Sys, m: Message)
    requires Statuses(s) && m in s.client.session && m.id !in s.client.pool.used
    ensures HoldsTheirs(s.exchanges, m.id, m.content) && m.status == Phase(SceneOf(s), m.id, m.content)
  {
    hide Leaving, Phase;
    assert Entry(m.id, m.content, m.status) in View(s.client.session);
  }

  lemma TheirsPresent(s: Sys, id: nat, c: nat)
    requires Inv(s) && Statuses(s) && HoldsTheirs(s.exchanges, id, c)
    ensures Present(s.client.session, id, c, Phase(SceneOf(s), id, c))
  {
    hide Inv, Statuses;
    OnlyEntry(s, id, c);
    assert (id, c) in Held(s.client.session);
    var m :| m in s.client.session && (m.id, m.content) == (id, c);
    PlacedMessage(s, m);
    hide Phase, Leaving;
  }

  lemma TheirsGone(s: Sys, s': Sys, step: Step, m: Message)
    requires Inv(s) && Enabled(s, step) && s.client.status.Connected? && s' == Next(s, step)
    requires step.Fires? && step.m.kind == PublishComplete && step.m.content == m.content && HoldsTheirs(s.exchanges, m.id, m.content)
    ensures !Contains(s'.client.session, m.id)
  {
    hide Inv;
    AnnouncingIs(s, step.m);
    Carrier(s, step.m);
    OnlyEntry(s, m.id, m.content);
    EraseHeld(s.client.session, m.id);
    DistinctIsFunctional(s'.client.session);
    hide Erase, Held, DistinctIds, Contains;
  }

  lemma MovedMessage(s: Sys, s': Sys, step: Step, m: Message)
    requires Statuses(s) && Inv(s') && Statuses(s') && Moving(SceneOf(s), SceneOf(s'), step)
    requires m in s.client.session && m.id !in s.client.pool.used
    ensures if step.Fires? && step.m.kind == PublishComplete && step.m.content == m.content then m.status == NeedToSendPubComp
            else if step.Fires? && step.m == Noted(m.id, m.content) && m.status != NeedToSendPubComp then
              m.status == WaitingForPubRec && Present(s'.client.session, m.id, m.content, WaitingForPubRel)
            else if step.Handles? && step.m.kind == PublishReleased && step.m.content == m.content then
              && Present(s'.client.session, m.id, m.content, NeedToSendPubComp)
              && m.status == if Noted(m.id, m.content) in s.unfired then WaitingForPubRec else WaitingForPubRel
            else Present(s'.client.session, m.id, m.content, m.status)
  {
    hide Inv, Statuses;
    PlacedMessage(s, m);
    assert Moves(SceneOf(s), SceneOf(s'), step, m.id, m.content);
    hide Moving, Leaving, Phase;
    if HoldsTheirs(s'.exchanges, m.id, m.content) {
      TheirsPresent(s', m.id, m.content);
    }
  }

  /** A received QoS 2 message after one more step that is no late callback: it stays as it is; or the callback for
      its PUBREC takes it from waiting for PUBREC to waiting for PUBREL; or its PUBREL takes it on to the PUBCOMP,
      past waiting for PUBREL exactly when the callback has not come yet; or the callback for its PUBCOMP removes
      it, from nowhere else. */
  lemma MessageMovesOn(s: Sys, step: Step, m: Message)
    requires Inv(s) && Settled(s) && Statuses(s) && Enabled(s, step) && Apart(s, step) && Timely(s, step)
    requires m in s.client.session && m.id !in s.client.pool.used
    ensures s.client.status.Connected?
    ensures var session' := Next(s, step).client.session;
            if step.Fires? && step.m.kind == PublishComplete && step.m.content == m.content then
              m.status == NeedToSendPubComp && !Contains(session', m.id)
            else if step.Fires? && step.m == Noted(m.id, m.content) && m.status != NeedToSendPubComp then
              m.status == WaitingForPubRec && Present(session', m.id, m.content, WaitingForPubRel)
            else if step.Handles? && step.m.kind == PublishReleased && step.m.content == m.content then
              && Present(session', m.id, m.content, NeedToSendPubComp)
              && m.status == if Noted(m.id, m.content) in s.unfired then WaitingForPubRec else WaitingForPubRel
            else Present(session', m.id, m.content, m.status)
  {
    StepKeepsExactly(s, step);
    StepKeepsStatusesExactly(s, step);
    var s' := Next(s, step);
    if step.Fires? && step.m.kind == PublishComplete && step.m.content == m.content {
      PlacedMessage(s, m);
      TheirsGone(s, s', step, m);
    }
    hide *;
    MovedMessage(s, s', step, m);
  }

  /** Where it goes wrong: the PUBREL is handled before the callback for the PUBREC, which then takes the
      message back to waiting for PUBREL, although its PUBCOMP is queued. */
  lemma LateCallbackCounterexample(c: Client, id: uint16, content: nat, now: nat, interval: nat)
    requires DistinctIds(c.session) && !Contains(c.session, id)
    ensures var arrived := c.(session := Add(c.session, id, content, 0, now, interval));
            var released := arrived.PublishRelReceived(id, content, now, interval);
            && Present(released.session, id, content, NeedToSendPubComp)
            && Present(released.PubRecSent(id, now, interval).session, id, content, WaitingForPubRel)
  {
    var arrived := Add(c.session, id, content, 0, now, interval);
    AddHeld(c.session, id, content, 0, now, interval);
    UpdateHeld(arrived, id, NeedToSendPubComp, now, interval);
    ViewOfUpdate(arrived, id, NeedToSendPubComp, now, interval);
    var released := Update(arrived, id, NeedToSendPubComp, now, interval);
    ViewOfUpdate(released, id, WaitingForPubRel, now, interval);
    hide Update, Add, DistinctIds, Held;
    assert Entry(id, content, NeedToSendPubComp) in View(released);
    assert Entry(id, content, WaitingForPubRel) in View(Update(released, id, WaitingForPubRel, now, interval));
  }
}
