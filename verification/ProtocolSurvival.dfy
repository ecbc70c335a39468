/** When a callback finds the message it is about, and over which runs the program survives every callback. */
module ProtocolSurvival {
  import opened Bytes
  import opened Packets
  import opened ReceiveMaximum
  import opened PacketIdPools
  import opened Sessions
  import opened TopicAliasMaps
  import opened SendPipes
  import opened Clients
  import opened Protocol
  import opened ProtocolInvariant
  import opened ProtocolSafety
  import opened ProtocolPromises
  import opened InboundQoS2

  // ---------------------------------------------------------------- one callback

  predicate Notes(u: Msg) {
    u.kind in {PublishReceived, PublishReleased}
  }

  /** The message the callback is about is in the session: an accepted one of ours, or a received one. */
  predicate Finds(c: Client, u: Msg) {
    if u.kind == PublishReleased then Kept(c, u.id, u.content)
    else u.id !in c.pool.used && (u.id, u.content) in Held(c.session)
  }

  /** The callback for a PUBREL finds its message exactly until the final acknowledgement has arrived, that for a
      PUBREC exactly while the exchange is open, that for a PUBCOMP always. The program survives a callback that
      notes a status exactly when some open exchange has its id, the one it is about or one that got the id
      since, and the callback for a PUBCOMP exactly when its id lies within the bitset. */
  lemma CallbackFindsExactly(s: Sys, u: Msg)
    requires Inv(s) && Settled(s) && u in s.unfired
    ensures Finds(s.client, u) <==> match u.kind
                                    case PublishReleased => u.content !in s.done
                                    case PublishReceived => Theirs(u.content) in s.exchanges
                                    case _ => true
    ensures Survives(s.client, u)
            <==> if Notes(u) then exists c: nat :: HoldsPublish(s.exchanges, u.id, c) || HoldsTheirs(s.exchanges, u.id, c)
                 else u.id < POOL_SIZE
  {
    hide Inv, Settled, Contains, Finds, Survives;
    AnnouncingIs(s, u);
    FindsExactly(s, u);
    SurvivesExactly(s, u);
  }

  lemma FindsExactly(s: Sys, u: Msg)
    requires Inv(s) && Settled(s) && u in s.unfired && u.kind in {PublishReceived, PublishReleased, PublishComplete}
    ensures Finds(s.client, u) <==> match u.kind
                                    case PublishReleased => u.content !in s.done
                                    case PublishReceived => Theirs(u.content) in s.exchanges
                                    case _ => true
  {
    hide Inv, Held, Kept, Contains, Leaving;
    match u.kind
    case PublishReleased =>
      InvRemembers(s);
      assert u.content in s.accepted && s.accepted[u.content] == u.id;
    case PublishReceived =>
      HeldTheirs(s);
      assert Theirs(u.content) in s.exchanges ==> HoldsTheirs(s.exchanges, u.id, u.content);
    case PublishComplete =>
      HeldTheirs(s);
      AnnouncingIs(s, u);
      Carrier(s, u);
      assert HoldsTheirs(s.exchanges, u.id, u.content);
    case _ =>
  }

  lemma SurvivesExactly(s: Sys, u: Msg)
    requires Inv(s)
    ensures Survives(s.client, u)
            <==> if Notes(u) then exists c: nat :: HoldsPublish(s.exchanges, u.id, c) || HoldsTheirs(s.exchanges, u.id, c)
                 else u.id < POOL_SIZE
  {
    hide Inv, Contains;
    HeldOf(s);
  }

  /** What the session holds, in terms of the exchanges. */
  lemma HeldOf(s: Sys)
    requires Inv(s)
    ensures forall id: nat :: Contains(s.client.session, id)
                              <==> exists c: nat :: HoldsPublish(s.exchanges, id, c) || HoldsTheirs(s.exchanges, id, c)
    ensures forall id: nat, c: nat :: (id, c) in Held(s.client.session) <==> HoldsPublish(s.exchanges, id, c) || HoldsTheirs(s.exchanges, id, c)
  {
    hide Rest;
    DistinctIsFunctional(s.client.session);
    hide DistinctIds, DistinctPending, Contains, Held, Awaited;
  }

  /** Handling a packet never looks for a message in vain and never releases an id outside the bitset. */
  lemma HandlingSurvives(s: Sys, m: Msg)
    requires Inv(s) && m in s.toClient
    ensures Handleable(s.client, m)
    ensures m.kind != PublishReleased && m.kind != PacketType.Publish ==> 0 < m.id < POOL_SIZE
  {
    ComingIs(s, m);
    HeldOf(s);
    if m.live {
      Carrier(s, m);
    }
    if m.kind == PublishReleased {
      hide Inv, Contains;
      assert HoldsTheirs(s.exchanges, m.id, m.content);
    } else if m.kind != PacketType.Publish {
      hide Rest, DistinctIds, DistinctPending, Told, Contains;
      assert Mine(m.id) in s.exchanges && m.id in s.client.pool.used;
    }
  }

  // ---------------------------------------------------------------- every callback to come

  ghost predicate AllSurvive(c: Client, unfired: multiset<Msg>) {
    forall u :: u in unfired ==> Survives(c, u)
  }

  /** A packet that ends a message of ours. */
  predicate Ends(m: Msg) {
    match m.kind
    case Publish => false
    case PublishReleased => false
    case SubscribeAck => false
    case UnsubscribeAck => false
    case PublishReceived => m.failed
    case _ => true
  }

  /** No callback that notes a status under the id is still to come. */
  ghost predicate NoneFor(unfired: multiset<Msg>, id: nat) {
    forall u :: u in unfired && Notes(u) ==> u.id != id
  }

  /** A message is not forgotten before the callbacks that look for its id, and no PUBCOMP leaves for the one id
      the bitset has no place for. */
  ghost predicate Spares(s: Sys, step: Step) {
    match step
    case Handles(m, _, _, _, _, _, _) => Ends(m) ==> NoneFor(s.unfired, m.id)
    case Fires(m, _, _) => m.kind == PublishComplete ==> NoneFor(s.unfired, m.id)
    case Transmits(m) => m.kind == PublishComplete ==> m.id < POOL_SIZE
    case _ => true
  }

  ghost predicate KeepsIds(session: Messages, session': Messages) {
    forall id: nat :: Contains(session, id) ==> Contains(session', id)
  }

  lemma UpdateKeepsIds(session: Messages, id: nat, status: Status, now: nat, interval: nat)
    ensures KeepsIds(session, Update(session, id, status, now, interval))
  {
    UpdateNeverMoves(session, id, status, now, interval);
    var u := Update(session, id, status, now, interval);
    hide Update;
    assert forall i :: 0 <= i < |session| ==> u[i].id == session[i].id;
  }

  lemma AddKeepsIds(session: Messages, id: nat, content: nat, qos: nat, now: nat, interval: nat)
    ensures KeepsIds(session, Add(session, id, content, qos, now, interval))
  {
    var more := Add(session, id, content, qos, now, interval);
    assert forall i :: 0 <= i < |session| ==> more[i] == session[i];
  }

  lemma KeptIdsSurvive(c: Client, unfired: multiset<Msg>, c': Client, unfired': multiset<Msg>)
    requires AllSurvive(c, unfired) && KeepsIds(c.session, c'.session) && forall u :: u in unfired' ==> u in unfired
    ensures AllSurvive(c', unfired')
  {
    hide Contains;
  }

  /** Forgetting a message keeps all callbacks alive exactly when none still looks for its id. */
  lemma ForgettingSurvivesExactly(c: Client, unfired: multiset<Msg>, id: nat, unfired': multiset<Msg>)
    requires AllSurvive(c, unfired) && DistinctIds(c.session) && forall u :: u in unfired' ==> u in unfired
    ensures AllSurvive(c.Forget(id), unfired') <==> NoneFor(unfired', id)
  {
    EraseHeld(c.session, id);
    DistinctIsFunctional(c.session);
    DistinctIsFunctional(Erase(c.session, id));
    hide Erase, Held, DistinctIds, Contains, Pool.Release;
    assert forall i: nat :: Contains(Erase(c.session, id), i) <==> Contains(c.session, i) && i != id;
  }

  lemma TransmitSurvivesExactly(s: Sys, m: Msg)
    requires Inv(s) && m in s.outbox && AllSurvive(s.client, s.unfired)
    ensures AllSurvive(s.client, Transmitted(s, m).unfired) <==> (m.kind == PublishComplete ==> m.id < POOL_SIZE)
  {
    ComposedOf(s, m);
    HeldOf(s);
    if m.live {
      Carrier(s, m);
    }
    hide Inv, Contains;
    if m.kind in {PublishReceived, PublishReleased} {
      assert HoldsPublish(s.exchanges, m.id, m.content) || HoldsTheirs(s.exchanges, m.id, m.content);
    } else if m.kind == PublishComplete {
      assert m in Transmitted(s, m).unfired;
    }
  }

  // ---------------------------------------------------------------- one step

  lemma AskingSurvives(s: Sys, step: Step)
    requires Enabled(s, step) && s.client.status.Connected? && AllSurvive(s.client, s.unfired)
    requires step.Publishes? || step.Subscribes? || step.Unsubscribes?
    ensures AllSurvive(Next(s, step).client, Next(s, step).unfired)
  {
    hide AllSurvive, KeepsIds;
    var job, m, now, interval := NextAsks(s, step);
    AddKeepsIds(s.client.session, m.id, m.content, m.qos, now, interval);
    SameIds(s.client.session);
    hide Next, Enabled, Add, Apart, Asks;
    KeptIdsSurvive(s.client, s.unfired, Next(s, step).client, s.unfired);
  }

  lemma SameIds(session: Messages)
    ensures KeepsIds(session, session)
  {
  }

  lemma HandlingSurvivesExactly(s: Sys, step: Step)
    requires Inv(s) && Enabled(s, step) && step.Handles? && AllSurvive(s.client, s.unfired)
    ensures AllSurvive(Handled(s, step.m, step.topic, step.topicAlias, step.maximumTopicAliases, step.freed, step.now, step.interval).client, s.unfired)
            <==> Spares(s, step)
  {
    hide *;
    var m, c := step.m, s.client;
    ConnectedBooks(s);
    HandledClient(s, step);
    if Ends(m) {
      ForgettingSurvivesExactly(c, s.unfired, m.id, s.unfired);
      SparesEnding(s, step);
    } else {
      SparesOther(s, step);
      KeptIdsSurvive(c, s.unfired, Handled(s, m, step.topic, step.topicAlias, step.maximumTopicAliases, step.freed, step.now, step.interval).client, s.unfired);
    }
  }

  lemma SparesEnding(s: Sys, step: Step)
    requires step.Handles? && Ends(step.m)
    ensures Spares(s, step) <==> NoneFor(s.unfired, step.m.id)
  {
  }

  lemma SparesOther(s: Sys, step: Step)
    requires step.Handles? && !Ends(step.m)
    ensures Spares(s, step)
  {
  }

  lemma HandledClient(s: Sys, step: Step)
    requires Enabled(s, step) && step.Handles?
    ensures step.m.id < 0x1_0000
    ensures var m, c := step.m, s.client;
            var c' := Handled(s, m, step.topic, step.topicAlias, step.maximumTopicAliases, step.freed, step.now, step.interval).client;
            if Ends(m) then c' == c.Forget(m.id) else KeepsIds(c.session, c'.session)
  {
    hide Add, Update, KeepsIds, Contains, Erase, Pool.Release, ErasePending, Reply, JobMsg, PointersAfter, Window.Take, Window.Give;
    var m, session := step.m, s.client.session;
    SameIds(session);
    match m.kind
    case Publish => AddKeepsIds(session, m.id, m.content, 0, step.now, step.interval);
    case PublishReleased => UpdateKeepsIds(session, m.id, NeedToSendPubComp, step.now, step.interval);
    case _ =>
  }

  lemma FiringSurvivesExactly(s: Sys, step: Step)
    requires Inv(s) && Enabled(s, step) && step.Fires? && AllSurvive(s.client, s.unfired)
    ensures AllSurvive(CalledBack(s.client, step.m, step.now, step.interval), s.unfired - multiset{step.m}) <==> Spares(s, step)
  {
    hide Inv, Books, AllSurvive, KeepsIds, NoneFor, Update, Erase, Pool.Release, DistinctIds, Numbered, Remembered, Shapes, Survives, Contains;
    var m, c, rest := step.m, s.client, s.unfired - multiset{step.m};
    assert m in s.unfired;
    ConnectedBooks(s);
    AnnouncingIs(s, m);
    if m.kind == PublishComplete {
      ForgettingSurvivesExactly(c, s.unfired, m.id, rest);
      FewerLooking(s.unfired, m);
    } else {
      UpdateKeepsIds(c.session, m.id, if m.kind == PublishReceived then WaitingForPubRel else WaitingForPubComp, step.now, step.interval);
      KeptIdsSurvive(c, s.unfired, CalledBack(c, m, step.now, step.interval), rest);
    }
  }

  lemma FewerLooking(unfired: multiset<Msg>, m: Msg)
    requires m.kind == PublishComplete
    ensures NoneFor(unfired - multiset{m}, m.id) <==> NoneFor(unfired, m.id)
  {
    assert forall u :: Notes(u) ==> (u in unfired - multiset{m} <==> u in unfired);
  }

  lemma RepeatingSurvives(s: Sys, step: Step)
    requires step.Repeats? && Enabled(s, step) && Apart(s, step) && AllSurvive(s.client, s.unfired)
    ensures AllSurvive(CalledBack(s.client, step.m, step.now, step.interval), s.unfired)
  {
    var m, c := step.m, s.client;
    hide AllSurvive, KeepsIds, Update, Erase, Pool.Release, Contains;
    if m.kind in {PublishReceived, PublishReleased} {
      UpdateKeepsIds(c.session, m.id, if m.kind == PublishReceived then WaitingForPubRel else WaitingForPubComp, step.now, step.interval);
    } else {
      NothingToForget(c, m.id);
      SameIds(c.session);
    }
    KeptIdsSurvive(c, s.unfired, CalledBack(c, m, step.now, step.interval), s.unfired);
  }

  /** A step after which the program survives every callback to come is one that spares the messages they look
      for, and no other. */
  lemma StepSurvivesExactly(s: Sys, step: Step)
    requires Inv(s) && Enabled(s, step) && Apart(s, step) && AllSurvive(s.client, s.unfired)
    ensures s.client.status.Connected?
    ensures AllSurvive(Next(s, step).client, Next(s, step).unfired) <==> Spares(s, step)
  {
    hide Inv, Books, AllSurvive, Compose, Legal, Contains, NoneFor, DistinctIds, Numbered, Remembered, Shapes, Handled, Survives,
      Handleable, RetriedIdly, Client.Retry, Client.Publish, Client.Subscribe, Client.Unsubscribe, Window.Take, CalledBack;
    ConnectedBooks(s);
    match step
    case Publishes(_, _, _, _) => AskingSurvives(s, step);
    case Subscribes(_) => AskingSurvives(s, step);
    case Unsubscribes(_) => AskingSurvives(s, step);
    case Transmits(m) => TransmitSurvivesExactly(s, m);
    case Fires(m, now, interval) => FiringSurvivesExactly(s, step);
    case Repeats(m, now, interval) => RepeatingSurvives(s, step);
    case Handles(m, topic, topicAlias, max, freed, now, interval) =>
      HandlingSurvivesExactly(s, step);
      HandledUnfired(s, step);
    case _ => OtherSurvives(s, step);
  }

  lemma HandledUnfired(s: Sys, step: Step)
    requires Enabled(s, step) && step.Handles?
    ensures Handled(s, step.m, step.topic, step.topicAlias, step.maximumTopicAliases, step.freed, step.now, step.interval).unfired == s.unfired
  {
  }

  lemma OtherSurvives(s: Sys, step: Step)
    requires Enabled(s, step) && s.client.status.Connected? && AllSurvive(s.client, s.unfired)
    requires step.Queues? || step.PublishesQoS0? || step.Scans? || step.Composes? || step.BrokerTakes? || step.BrokerPublishes?
    ensures AllSurvive(Next(s, step).client, Next(s, step).unfired)
  {
    hide AllSurvive, KeepsIds, Compose;
    SameIds(s.client.session);
    KeptIdsSurvive(s.client, s.unfired, Next(s, step).client, Next(s, step).unfired);
  }

  // ---------------------------------------------------------------- whole runs

  ghost predicate AlwaysSurvives(s: Sys, steps: seq<Step>)
    requires Goes(s, steps)
    decreases |steps|
  {
    AllSurvive(s.client, s.unfired) && (steps == [] || AlwaysSurvives(Next(s, steps[0]), steps[1..]))
  }

  ghost predicate AllSpare(s: Sys, steps: seq<Step>)
    requires Goes(s, steps)
    decreases |steps|
  {
    steps == [] || (Spares(s, steps[0]) && AllSpare(Next(s, steps[0]), steps[1..]))
  }

  lemma {:induction false} RunSurvivesExactly(s: Sys, steps: seq<Step>)
    requires Inv(s) && AllSurvive(s.client, s.unfired) && Goes(s, steps) && KeptApart(s, steps)
    ensures AlwaysSurvives(s, steps) <==> AllSpare(s, steps)
    decreases |steps|
  {
    if steps != [] {
      var s' := Next(s, steps[0]);
      StepKeepsExactly(s, steps[0]);
      StepSurvivesExactly(s, steps[0]);
      hide Inv, AllSurvive, Enabled, Apart, Next, Spares;
      if AllSurvive(s'.client, s'.unfired) {
        RunSurvivesExactly(s', steps[1..]);
      } else {
        assert !AlwaysSurvives(s', steps[1..]);
      }
    }
  }

  /** Over whole runs in which the id spaces stay apart: at no time is a callback to come that would end the
      program, if and only if no step forgets a message before the callbacks that look for its id and no PUBCOMP
      leaves for id 65535. */
  lemma ProgramSurvivesExactly(steps: seq<Step>, clientMaximum: nat, brokerMaximum: nat)
    requires Goes(NewSys(clientMaximum, brokerMaximum), steps) && KeptApart(NewSys(clientMaximum, brokerMaximum), steps)
    ensures AlwaysSurvives(NewSys(clientMaximum, brokerMaximum), steps) <==> AllSpare(NewSys(clientMaximum, brokerMaximum), steps)
  {
    NewInv(clientMaximum, brokerMaximum);
    assert AllSurvive(NewSys(clientMaximum, brokerMaximum).client, multiset{});
    hide Inv, AllSurvive, AlwaysSurvives, AllSpare, Goes, KeptApart;
    RunSurvivesExactly(NewSys(clientMaximum, brokerMaximum), steps);
  }

  /** Where it goes wrong, in every state with a PUBCOMP of ours arrived and the callback for its PUBREL still to
      come: once the PUBCOMP is handled the callback looks for a message that is gone. */
  lemma EarlyPubCompEndsProgram(s: Sys, m: Msg, u: Msg, step: Step)
    requires Inv(s) && Enabled(s, step) && step.Handles? && step.m == m
    requires m.kind == PublishComplete && u in s.unfired && u.kind == PublishReleased && u.id == m.id
    ensures s.client.status.Connected? && u in Next(s, step).unfired && !Survives(Next(s, step).client, u)
  {
    hide Inv, Books, Erase, DistinctIds, Numbered, Remembered, Shapes, Contains, Pool.Release, Handled, Legal, Window.Take;
    ConnectedBooks(s);
    HandledClient(s, step);
    HandledUnfired(s, step);
    ErasedIsGone(s.client.session, m.id);
  }

  lemma ErasedIsGone(session: Messages, id: nat)
    requires DistinctIds(session)
    ensures !Contains(Erase(session, id), id)
  {
    EraseHeld(session, id);
    DistinctIsFunctional(Erase(session, id));
    hide Erase, Held;
  }
}
