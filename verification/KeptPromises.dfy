/** What the client holds, and exactly which steps make it lose something nobody answered: over all runs, with retried
    copies of packets, repeated callbacks and crossing id spaces. */
module KeptPromises {
  import opened Bytes
  import opened Packets
  import opened PacketIdPools
  import opened Sessions
  import opened TopicAliasMaps
  import opened SendPipes
  import opened Clients
  import opened Protocol
  import opened ProtocolInvariant
  import opened ProtocolSafety
  import opened ProtocolPromises
  import opened InboundQoS2
  import opened ProtocolSurvival
  import ReceiveMaximum
  import SendPipeRuns

  // ---------------------------------------------------------------- what the client holds

  /** A publish of ours or a received QoS 2 message in the session, or a pending subscribe or unsubscribe; what is ours
      only with its id in use. */
  datatype Thing = Own(id: nat, content: nat) | Other(id: nat, content: nat) | Asked(id: nat, content: nat) | Unasked(id: nat, content: nat)

  predicate Has(c: Client, t: Thing) {
    match t
    case Own(id, d) => id in c.pool.used && (id, d) in Held(c.session)
    case Other(id, d) => id !in c.pool.used && (id, d) in Held(c.session)
    case Asked(id, d) => id in c.pool.used && (id, d) in Awaited(c.subs)
    case Unasked(id, d) => id in c.pool.used && (id, d) in Awaited(c.unsubs)
  }

  /** Nothing is lost but the thing that was answered. */
  ghost predicate Spared(c: Client, d: Client, answered: Option<Thing>) {
    forall t: Thing :: Has(c, t) && answered != Some(t) ==> Has(d, t)
  }

  /** What a step answers: the publish of a PUBACK, PUBCOMP or failing PUBREC, the request of a SUBACK or UNSUBACK, and the
      received message of the callback for a PUBCOMP, when it is made for the first time. */
  function Answered(step: Step): Option<Thing> {
    match step
    case Handles(m, _, _, _, _, _, _) =>
      if Ends(m) then Some(Own(m.id, m.content))
      else if m.kind == SubscribeAck then Some(Asked(m.id, m.content))
      else if m.kind == UnsubscribeAck then Some(Unasked(m.id, m.content))
      else None
    case Fires(m, _, _) => if Notes(m) then None else Some(Other(m.id, m.content))
    case _ => None
  }

  /** Nothing but the thing itself has its id. */
  predicate Free(c: Client, t: Thing) {
    Has(c, t) || (t.id !in c.pool.used && (t.Own? || t.Other? ==> !Contains(c.session, t.id)))
  }

  /** The guard, to be looked at before the step: a request takes no id of a received message, a received QoS 2 message
      brings no id in use or in the session, an answer comes for the thing that holds its id or for an id nothing
      holds, and a callback for a PUBCOMP is made again for an id nothing holds. A scan for retries always meets it. */
  predicate Safe(s: Sys, step: Step)
    requires Enabled(s, step)
  {
    match step
    case Publishes(_, _, _, _) => !Contains(s.client.session, s.client.pool.Get().0)
    case Subscribes(_) => !Contains(s.client.session, s.client.pool.Get().0)
    case Unsubscribes(_) => !Contains(s.client.session, s.client.pool.Get().0)
    case Handles(m, _, _, _, _, _, _) =>
      && (m.kind == PacketType.Publish && m.qos == 2 ==> m.id !in s.client.pool.used && !Contains(s.client.session, m.id))
      && (Answered(step).Some? ==> Free(s.client, Answered(step).value))
    case Fires(m, _, _) => Notes(m) || Free(s.client, Other(m.id, m.content))
    case Repeats(m, _, _) => Notes(m) || (m.id !in s.client.pool.used && !Contains(s.client.session, m.id))
    case _ => true
  }

  /** The promises after a step: the ids are in order, and accepted messages are in the session, with their id in use,
      exactly until they are finally acknowledged. */
  ghost predicate Promised(s: Sys) {
    IdsOk(s.client) && forall r :: r in s.accepted ==> (Has(s.client, Own(s.accepted[r], r)) <==> r !in s.done)
  }

  ghost predicate StepKept(s: Sys, step: Step)
    requires Enabled(s, step) && s.client.status.Connected?
  {
    Spared(s.client, Next(s, step).client, Answered(step)) && Promised(Next(s, step))
  }

  // ---------------------------------------------------------------- an invariant that allows copies

  /** A packet's number, if it is that of an accepted publish, goes with the publish's id. */
  predicate Consistent(id: nat, content: nat, requests: nat, accepted: map<nat, nat>) {
    content < requests && (content in accepted ==> accepted[content] == id)
  }

  ghost predicate Accounted(c: Client, requests: nat, accepted: map<nat, nat>, done: set<nat>) {
    && (forall r :: r in accepted ==> r < requests && (r in done || Has(c, Own(accepted[r], r))))
    && (forall r :: r in done ==> r < requests)
    && (forall id: nat, d: nat :: (id, d) in Held(c.session) ==> Consistent(id, d, requests, accepted))
    && (forall id: nat, d: nat :: Has(c, Own(id, d)) ==> d in accepted && d !in done)
  }

  function UnderWay(s: Sys): multiset<Msg> {
    Waiting(s.client.jobs) + s.outbox + s.toBroker + s.toClient
  }

  /** Live packets, any number of copies of each; and what the broker sends is live but for the publishes that end with
      their arrival. */
  ghost predicate PacketsOk(all: multiset<Msg>, toClient: multiset<Msg>, requests: nat, accepted: map<nat, nat>) {
    && (forall m :: m in all && m.live ==> Consistent(m.id, m.content, requests, accepted))
    && (forall m :: m in toClient ==> m.live || (m.kind == PacketType.Publish && m.qos != 2))
  }

  ghost predicate Sound(s: Sys) {
    && s.client.status.Connected? && s.client.pool.Valid() && IdsOk(s.client)
    && Accounted(s.client, s.requests, s.accepted, s.done)
    && PacketsOk(UnderWay(s), s.toClient, s.requests, s.accepted)
  }

  lemma NewSound(clientMaximum: nat, brokerMaximum: nat)
    ensures Sound(NewSys(clientMaximum, brokerMaximum))
  {
  }

  lemma SoundPromises(s: Sys)
    requires Sound(s)
    ensures Promised(s)
  {
    hide IdsOk, PacketsOk, Pool.Valid, Consistent;
  }

  // ---------------------------------------------------------------- answers

  /** What a call did to the four lists, as far as an id is concerned: gone from one of them, and released. */
  ghost predicate Taken(c: Client, d: Client, id: nat, session: bool, subs: bool, unsubs: bool) {
    && (forall i: nat :: i in d.pool.used <==> i in c.pool.used && i != id)
    && (forall p :: p in Held(d.session) <==> p in Held(c.session) && (session ==> p.0 != id))
    && (forall p :: p in Awaited(d.subs) <==> p in Awaited(c.subs) && (subs ==> p.0 != id))
    && (forall p :: p in Awaited(d.unsubs) <==> p in Awaited(c.unsubs) && (unsubs ==> p.0 != id))
    && DistinctIds(d.session) && DistinctPending(d.subs) && DistinctPending(d.unsubs) && d.pool.Valid() && d.status == c.status
  }

  lemma ForgetTakes(c: Client, id: nat)
    requires c.pool.Valid() && IdsOk(c)
    ensures Taken(c, c.Forget(id), id, true, false, false)
  {
    hide Erase, Held, Awaited, DistinctIds, DistinctPending, Pool.Valid, Pool.Release, Holder, Contains;
    EraseHeld(c.session, id);
    ReleaseKeepsValid(c.pool, id);
  }

  lemma AcksTake(c: Client, id: nat)
    requires c.pool.Valid() && IdsOk(c)
    ensures Taken(c, c.SubscribeAckReceived(id), id, false, true, false)
    ensures Taken(c, c.UnsubscribeAckReceived(id), id, false, false, true)
  {
    hide ErasePending, Held, Awaited, DistinctIds, DistinctPending, Pool.Valid, Pool.Release, Holder, Contains;
    EraseAwaited(c.subs, id);
    EraseAwaited(c.unsubs, id);
    ReleaseKeepsValid(c.pool, id);
  }

  /** Whoever holds an id in use. */
  lemma HolderHas(c: Client, id: nat) returns (t: Thing)
    requires IdsOk(c) && id in c.pool.used
    ensures Has(c, t) && t.id == id && !t.Other?
  {
    hide DistinctIds, DistinctPending, Contains, Held, Awaited;
    var d: nat :| (id, d) in Held(c.session) || (id, d) in Awaited(c.subs) || (id, d) in Awaited(c.unsubs);
    t := if (id, d) in Held(c.session) then Own(id, d) else if (id, d) in Awaited(c.subs) then Asked(id, d) else Unasked(id, d);
  }

  /** No id has two holders. */
  lemma OneHolder(c: Client, t: Thing, u: Thing)
    requires IdsOk(c) && Has(c, t) && Has(c, u) && t.id == u.id
    ensures t == u
  {
    DistinctIsFunctional(c.session);
    PendingIsFunctional(c.subs);
    PendingIsFunctional(c.unsubs);
    hide DistinctIds, DistinctPending, Held, Awaited, Holder, Contains;
  }

  lemma PendingIsFunctional(pending: seq<Pending>)
    requires DistinctPending(pending)
    ensures Functional(Awaited(pending))
  {
    forall id: nat, c: nat, d: nat | (id, c) in Awaited(pending) && (id, d) in Awaited(pending) ensures c == d {
      var m :| m in pending && (m.id, m.content) == (id, c);
      var n :| n in pending && (n.id, n.content) == (id, d);
    }
  }

  lemma OtherOf(c: Client, id: nat) returns (d: nat)
    requires IdsOk(c) && Contains(c.session, id)
    ensures (id, d) in Held(c.session)
  {
    DistinctIsFunctional(c.session);
    d :| (id, d) in Held(c.session);
  }

  /** Forgetting a message spares everything but the thing answered if and only if that thing holds the id or nothing
      does. */
  lemma ForgettingSparesExactly(c: Client, t: Thing)
    requires c.pool.Valid() && IdsOk(c) && (t.Own? || t.Other?)
    ensures Spared(c, c.Forget(t.id), Some(t)) <==> Free(c, t)
    ensures Spared(c, c.Forget(t.id), None) <==> t.id !in c.pool.used && !Contains(c.session, t.id)
  {
    var d := c.Forget(t.id);
    ForgetTakes(c, t.id);
    hide IdsOk, Contains, Client.Forget, DistinctIds, DistinctPending, Pool.Valid;
    if t.id in c.pool.used {
      var u := HolderHas(c, t.id);
      assert !Has(d, u);
      if Has(c, t) {
        OneHolder(c, t, u);
        SparesOthers(c, d, t);
      }
    } else if Contains(c.session, t.id) {
      var e := OtherOf(c, t.id);
      var u := Other(t.id, e);
      assert Has(c, u) && !Has(d, u);
      if Has(c, t) {
        SparesOthers(c, d, t);
      }
    } else {
      NotHeld(c, t.id);
      SparesOthers(c, d, t);
      assert !Has(c, t);
      assert Spared(c, d, None) by {
        forall u: Thing | Has(c, u) ensures Has(d, u) {
        }
      }
    }
  }

  lemma NotHeld(c: Client, id: nat)
    requires IdsOk(c) && !Contains(c.session, id)
    ensures forall d: nat :: (id, d) !in Held(c.session)
  {
    DistinctIsFunctional(c.session);
  }

  /** A call that takes what an id has, where only the thing answered has it, or nothing. */
  lemma SparesOthers(c: Client, d: Client, t: Thing)
    requires IdsOk(c) && (t.Own? || t.Other?) && Taken(c, d, t.id, true, false, false) && Free(c, t)
    ensures Spared(c, d, Some(t))
  {
    forall u: Thing | Has(c, u) && u != t ensures Has(d, u) {
      if u.id == t.id {
        if Has(c, t) {
          OneHolder(c, t, u);
        } else {
          NotHeld(c, t.id);
        }
      }
    }
  }

  /** The same for the acknowledgement of a subscribe or an unsubscribe. */
  lemma AcknowledgingSparesExactly(c: Client, id: nat, content: nat)
    requires c.pool.Valid() && IdsOk(c)
    ensures Spared(c, c.SubscribeAckReceived(id), Some(Asked(id, content))) <==> Free(c, Asked(id, content))
    ensures Spared(c, c.UnsubscribeAckReceived(id), Some(Unasked(id, content))) <==> Free(c, Unasked(id, content))
  {
    AcksTake(c, id);
    hide Client.SubscribeAckReceived, Client.UnsubscribeAckReceived, DistinctIds, DistinctPending, Pool.Valid, Contains;
    AckSpares(c, c.SubscribeAckReceived(id), Asked(id, content), true);
    AckSpares(c, c.UnsubscribeAckReceived(id), Unasked(id, content), false);
  }

  lemma AckSpares(c: Client, d: Client, t: Thing, subs: bool)
    requires IdsOk(c) && Taken(c, d, t.id, false, subs, !subs) && (if subs then t.Asked? else t.Unasked?)
    ensures Spared(c, d, Some(t)) <==> Free(c, t)
  {
    if t.id in c.pool.used {
      var u := HolderHas(c, t.id);
      assert !Has(d, u);
      forall v: Thing | Has(c, v) && v != t && Has(c, t) ensures Has(d, v) {
        if v.id == t.id {
          OneHolder(c, t, v);
        }
      }
    } else {
      forall v: Thing | Has(c, v) ensures Has(d, v) {
        PendingsInUse(c);
      }
    }
  }

  lemma PendingsInUse(c: Client)
    requires IdsOk(c)
    ensures forall p :: p in Awaited(c.subs) || p in Awaited(c.unsubs) ==> p.0 in c.pool.used
  {
    hide DistinctIds, DistinctPending, Contains, Held, Awaited, Holder;
    forall p | p in Awaited(c.subs) || p in Awaited(c.unsubs) ensures p.0 in c.pool.used {
      assert p == (p.0, p.1);
    }
  }

  /** The call takes the answered thing out of its list. */
  predicate TakesOut(t: Thing, session: bool, subs: bool, unsubs: bool) {
    match t
    case Own(_, _) => session
    case Other(_, _) => session
    case Asked(_, _) => subs
    case Unasked(_, _) => unsubs
  }

  /** What is still pending afterwards has another id. */
  lemma PendingElsewhere(c: Client, d: Client, t: Thing, session: bool, subs: bool, unsubs: bool, u: Thing)
    requires IdsOk(c) && Taken(c, d, t.id, session, subs, unsubs) && TakesOut(t, session, subs, unsubs)
    requires Has(c, t) || t.id !in c.pool.used
    requires (u.Asked? && (u.id, u.content) in Awaited(d.subs)) || (u.Unasked? && (u.id, u.content) in Awaited(d.unsubs))
    ensures u.id != t.id && u.id in d.pool.used
    ensures forall e: nat :: (u.id, e) !in Held(c.session)
    ensures u.Asked? ==> forall e: nat :: (u.id, e) !in Awaited(c.unsubs)
  {
    PendingsInUse(c);
    hide IdsOk, DistinctIds, DistinctPending, Held, Awaited, Pool.Valid;
    assert u.Asked? ==> (u.id, u.content) in Awaited(c.subs);
    assert u.Unasked? ==> (u.id, u.content) in Awaited(c.unsubs);
    assert u.id in c.pool.used && Has(c, u);
    if u.id == t.id && Has(c, t) {
      OneHolder(c, t, u);
    }
    forall e: nat ensures (u.id, e) !in Held(c.session) {
      if (u.id, e) in Held(c.session) {
        OneHolder(c, Own(u.id, e), u);
      }
    }
    forall e: nat ensures u.Asked? ==> (u.id, e) !in Awaited(c.unsubs) {
      if u.Asked? && (u.id, e) in Awaited(c.unsubs) {
        OneHolder(c, Unasked(u.id, e), u);
      }
    }
  }

  lemma NothingHeld(c: Client, id: nat)
    requires DistinctIds(c.session) && forall e: nat :: (id, e) !in Held(c.session)
    ensures !Contains(c.session, id)
  {
    DistinctIsFunctional(c.session);
  }

  lemma UsedHasHolder(c: Client, d: Client, t: Thing, id: nat)
    requires IdsOk(c) && Spared(c, d, Some(t)) && id in c.pool.used && id != t.id
    ensures Holder(d, id)
  {
    hide IdsOk, Held, Awaited;
    var u := HolderHas(c, id);
    assert Has(d, u);
    assert (id, u.content) in Held(d.session) || (id, u.content) in Awaited(d.subs) || (id, u.content) in Awaited(d.unsubs);
  }

  /** An answer that comes for the thing that holds its id, or for an id nothing holds, leaves the ids in order. */
  lemma AnswerKeepsIdsOk(c: Client, d: Client, t: Thing, session: bool, subs: bool, unsubs: bool)
    requires IdsOk(c) && Taken(c, d, t.id, session, subs, unsubs) && TakesOut(t, session, subs, unsubs) && Spared(c, d, Some(t))
    requires Has(c, t) || t.id !in c.pool.used
    ensures IdsOk(d)
  {
    hide DistinctIds, DistinctPending, Contains, Held, Awaited, Pool.Valid, Spared, Has, Holder, TakesOut;
    forall id: nat | id in d.pool.used ensures Holder(d, id) {
      UsedHasHolder(c, d, t, id);
    }
    forall id: nat, e: nat | (id, e) in Awaited(d.subs)
      ensures id in d.pool.used && !Contains(d.session, id) && forall f: nat :: (id, f) !in Awaited(d.unsubs)
    {
      PendingElsewhere(c, d, t, session, subs, unsubs, Asked(id, e));
      NothingHeld(d, id);
    }
    forall id: nat, e: nat | (id, e) in Awaited(d.unsubs) ensures id in d.pool.used && !Contains(d.session, id) {
      PendingElsewhere(c, d, t, session, subs, unsubs, Unasked(id, e));
      NothingHeld(d, id);
    }
  }

  /** The guard in words: nothing but the thing answered holds its id by then. */
  lemma FreeExactly(c: Client, t: Thing)
    requires IdsOk(c)
    ensures t.Own? || t.Other? ==> (Free(c, t) <==> forall u: Thing :: Has(c, u) && u.id == t.id ==> u == t)
    ensures t.Asked? || t.Unasked? ==> (Free(c, t) <==> forall u: Thing :: Has(c, u) && u.id == t.id && !u.Other? ==> u == t)
  {
    forall u: Thing | Has(c, t) && Has(c, u) && u.id == t.id ensures u == t {
      OneHolder(c, t, u);
    }
    if t.id in c.pool.used {
      var u := HolderHas(c, t.id);
    } else {
      if Contains(c.session, t.id) {
        var d := OtherOf(c, t.id);
        assert Has(c, Other(t.id, d));
      } else {
        NotHeld(c, t.id);
      }
      PendingsInUse(c);
    }
    hide IdsOk, Held, Awaited, Contains;
  }

  /** A final acknowledgement keeps all accepted messages but the one it answers in the session, and all pending
      subscribes and unsubscribes with their ids in use, if and only if its id is not in use or that message has it. */
  lemma AckKeepsOursExactly(c: Client, id: nat, content: nat)
    requires c.pool.Valid() && IdsOk(c)
    ensures (forall t: Thing :: !t.Other? && Has(c, t) && t != Own(id, content) ==> Has(c.Forget(id), t))
       <==> id !in c.pool.used || Has(c, Own(id, content))
  {
    var d, own := c.Forget(id), Own(id, content);
    ForgetTakes(c, id);
    hide IdsOk, Contains, Client.Forget, DistinctIds, DistinctPending, Pool.Valid;
    if id in c.pool.used {
      var u := HolderHas(c, id);
      assert !Has(d, u);
      if Has(c, own) {
        SparesOthers(c, d, own);
      }
    }
  }

  // ---------------------------------------------------------------- calls that take nothing

  ghost predicate SameHoldings(c: Client, d: Client) {
    && d.pool == c.pool && d.status == c.status && Held(d.session) == Held(c.session) && DistinctIds(d.session)
    && d.subs == c.subs && d.unsubs == c.unsubs
  }

  lemma SameHoldingsSound(c: Client, d: Client, requests: nat, accepted: map<nat, nat>, done: set<nat>)
    requires IdsOk(c) && SameHoldings(c, d) && Accounted(c, requests, accepted, done)
    ensures IdsOk(d) && Accounted(d, requests, accepted, done) && forall answered :: Spared(c, d, answered)
  {
    SameIdsOk(c, d);
    hide IdsOk, DistinctIds, DistinctPending, Consistent, Held, Awaited;
    assert forall t: Thing :: Has(c, t) <==> Has(d, t);
  }

  lemma SameIdsOk(c: Client, d: Client)
    requires IdsOk(c) && SameHoldings(c, d)
    ensures IdsOk(d)
  {
    DistinctIsFunctional(c.session);
    DistinctIsFunctional(d.session);
    hide DistinctIds, DistinctPending, Held, Awaited, Contains;
    assert forall id: nat :: Contains(d.session, id) <==> Contains(c.session, id);
    assert forall id: nat :: Holder(c, id) ==> Holder(d, id);
  }

  // ---------------------------------------------------------------- packets

  /** More requests and accepted publishes, all of them new. */
  predicate Extends(requests: nat, accepted: map<nat, nat>, requests': nat, accepted': map<nat, nat>) {
    && requests <= requests'
    && (forall r :: r in accepted ==> r in accepted' && accepted'[r] == accepted[r])
    && (forall r :: r in accepted' && r !in accepted ==> r >= requests)
  }

  /** Live packets under way afterwards are ones from before or consistent ones. */
  lemma PacketsStay(s: Sys, s': Sys)
    requires PacketsOk(UnderWay(s), s.toClient, s.requests, s.accepted) && Extends(s.requests, s.accepted, s'.requests, s'.accepted)
    requires forall m :: m in UnderWay(s') && m.live ==>
               m in UnderWay(s) || (exists n :: n in UnderWay(s) && n.live && n.id == m.id && n.content == m.content)
               || Consistent(m.id, m.content, s'.requests, s'.accepted)
    requires forall m :: m in s'.toClient ==> m in s.toClient || m.live || (m.kind == PacketType.Publish && m.qos != 2)
    ensures PacketsOk(UnderWay(s'), s'.toClient, s'.requests, s'.accepted)
  {
    hide UnderWay;
  }

  lemma NothingNew(s: Sys)
    ensures Extends(s.requests, s.accepted, s.requests, s.accepted)
  {
  }

  /** The queue grows by jobs, and nothing else under way but a packet handled changes. */
  lemma QueueGrows(s: Sys, s': Sys, more: seq<Job>)
    requires s'.client.jobs == s.client.jobs + more && s'.outbox == s.outbox && s'.toBroker == s.toBroker
    requires forall m :: m in s'.toClient ==> m in s.toClient
    ensures forall m :: m in UnderWay(s') ==> m in UnderWay(s) || m in Waiting(more)
  {
    WaitingAppend(s.client.jobs, more);
    hide Waiting;
  }

  lemma WaitingOne(job: Job)
    ensures Waiting([job]) == multiset{JobMsg(job)}
  {
    assert [job][1..] == [];
    assert Waiting([]) == multiset{};
  }

  /** One more job, of a packet with a given number. */
  lemma OneMoreJob(s: Sys, s': Sys, job: Job)
    requires PacketsOk(UnderWay(s), s.toClient, s.requests, s.accepted) && Extends(s.requests, s.accepted, s'.requests, s'.accepted)
    requires s'.client.jobs == s.client.jobs + [job] && s'.outbox == s.outbox && s'.toBroker == s.toBroker
    requires forall m :: m in s'.toClient ==> m in s.toClient
    requires JobMsg(job).live ==> Consistent(job.id, job.content, s'.requests, s'.accepted)
    ensures PacketsOk(UnderWay(s'), s'.toClient, s'.requests, s'.accepted)
  {
    hide UnderWay, Waiting, PacketsOk, Consistent, Carries, OfMine, Extends;
    QueueGrows(s, s', [job]);
    WaitingOne(job);
    PacketsStay(s, s');
  }

  lemma QueueingSound(s: Sys, job: Job)
    requires Sound(s) && !Carries(job.kind, job.qos)
    ensures Sound(s.(client := s.client.Queue(job))) && Spared(s.client, s.client.Queue(job), None)
  {
    hide IdsOk, Accounted, PacketsOk, UnderWay, Pool.Valid, Spared;
    var s' := s.(client := s.client.Queue(job));
    assert DistinctIds(s.client.session) by { DistinctOf(s.client); }
    SameHoldingsSound(s.client, s'.client, s.requests, s.accepted, s.done);
    NothingNew(s);
    OneMoreJob(s, s', job);
  }

  lemma DistinctOf(c: Client)
    requires IdsOk(c)
    ensures DistinctIds(c.session)
  {
  }

  lemma {:induction false} RetryContents(due: Messages, encode: Message -> Option<seq<byte>>)
    ensures forall j :: j in RetryAll(due, encode) ==> exists m :: m in due && m.id == j.id && m.content == j.content
  {
    if due != [] {
      RetryContents(due[1..], encode);
      RetryContent(due[0], encode(due[0]));
      var here, rest := RetryJobs(due[0], encode(due[0])), RetryAll(due[1..], encode);
      hide RetryJobs;
      forall j: Job | j in here + rest ensures exists m :: m in due && m.id == j.id && m.content == j.content {
        if j in here {
          assert due[0] in due;
        } else {
          var m :| m in due[1..] && m.id == j.id && m.content == j.content;
          assert m in due;
        }
      }
    }
  }

  lemma RetryContent(m: Message, encoded: Option<seq<byte>>)
    ensures forall j :: j in RetryJobs(m, encoded) ==> j.id == m.id && j.content == m.content
  {
  }

  /** A scan sends copies of packets, whose numbers are those of the messages. */
  lemma ScanningSound(s: Sys, now: nat, encode: Message -> Option<seq<byte>>)
    requires Sound(s)
    ensures Sound(s.(client := s.client.Retry(now, encode))) && Spared(s.client, s.client.Retry(now, encode), None)
  {
    hide IdsOk, PacketsOk, UnderWay, Pool.Valid, Spared, Waiting, RetryAll, Scan, Consistent, Held, DistinctIds;
    var s', more := s.(client := s.client.Retry(now, encode)), RetryAll(Scan(s.client.session, now), encode);
    DistinctOf(s.client);
    SameHoldingsSound(s.client, s'.client, s.requests, s.accepted, s.done);
    NothingNew(s);
    QueueGrows(s, s', more);
    forall m | m in Waiting(more) && m.live ensures Consistent(m.id, m.content, s.requests, s.accepted) {
      ScannedIsConsistent(s, now, encode, m);
    }
    PacketsStay(s, s');
  }

  lemma ScannedIsConsistent(s: Sys, now: nat, encode: Message -> Option<seq<byte>>, m: Msg)
    requires Sound(s) && m in Waiting(RetryAll(Scan(s.client.session, now), encode))
    ensures Consistent(m.id, m.content, s.requests, s.accepted)
  {
    hide IdsOk, PacketsOk, UnderWay, Pool.Valid, Waiting, RetryAll, Scan, Consistent;
    var more := RetryAll(Scan(s.client.session, now), encode);
    WaitingMembers(more, m);
    var i :| 0 <= i < |more| && JobMsg(more[i]) == m;
    RetryContents(Scan(s.client.session, now), encode);
    ScanMembers(s.client.session, now);
    assert more[i] in more;
    var n :| n in Scan(s.client.session, now) && n.id == more[i].id && n.content == more[i].content;
    assert (n.id, n.content) in Held(s.client.session);
  }

  // ---------------------------------------------------------------- requests and arrivals

  /** One thing more, under an id nothing had. */
  ghost predicate Gains(c: Client, d: Client, t: Thing) {
    && d.pool.Valid() && d.status == c.status && DistinctIds(d.session) && DistinctPending(d.subs) && DistinctPending(d.unsubs)
    && d.pool.used == c.pool.used + (if t.Other? then {} else {t.id})
    && Held(d.session) == Held(c.session) + (if t.Own? || t.Other? then {(t.id, t.content)} else {})
    && Awaited(d.subs) == Awaited(c.subs) + (if t.Asked? then {(t.id, t.content)} else {})
    && Awaited(d.unsubs) == Awaited(c.unsubs) + (if t.Unasked? then {(t.id, t.content)} else {})
  }

  lemma GainingSpares(c: Client, d: Client, t: Thing)
    requires IdsOk(c) && Gains(c, d, t) && t.id !in c.pool.used && !Contains(c.session, t.id)
    ensures forall u: Thing :: Has(d, u) <==> Has(c, u) || u == t
  {
    NotHeld(c, t.id);
    PendingsInUse(c);
    hide IdsOk, DistinctIds, DistinctPending, Held, Awaited, Pool.Valid, Contains;
    forall u: Thing ensures Has(d, u) <==> Has(c, u) || u == t {
      assert u.Asked? && Has(c, u) ==> (u.id, u.content) in Awaited(c.subs);
    }
  }

  lemma GainingIdsOk(c: Client, d: Client, t: Thing)
    requires IdsOk(c) && Gains(c, d, t) && t.id !in c.pool.used && !Contains(c.session, t.id)
    ensures IdsOk(d)
  {
    GainingSpares(c, d, t);
    NotHeld(c, t.id);
    PendingsInUse(c);
    DistinctIsFunctional(c.session);
    DistinctIsFunctional(d.session);
    hide DistinctIds, DistinctPending, Held, Awaited, Pool.Valid, Contains;
    forall id: nat | id in d.pool.used ensures Holder(d, id) {
      if id == t.id {
        assert (id, t.content) in Held(d.session) || (id, t.content) in Awaited(d.subs) || (id, t.content) in Awaited(d.unsubs);
      } else {
        var u := HolderHas(c, id);
        assert (id, u.content) in Held(d.session) || (id, u.content) in Awaited(d.subs) || (id, u.content) in Awaited(d.unsubs);
      }
    }
    forall id: nat ensures Contains(d.session, id) <==> Contains(c.session, id) || ((t.Own? || t.Other?) && id == t.id) {
      assert Contains(c.session, id) <==> exists e: nat :: (id, e) in Held(c.session);
      assert Contains(d.session, id) <==> exists e: nat :: (id, e) in Held(d.session);
      if (t.Own? || t.Other?) && id == t.id {
        assert (id, t.content) in Held(d.session);
      }
    }
  }

  lemma GainingAccounted(c: Client, d: Client, t: Thing, requests: nat, accepted: map<nat, nat>, done: set<nat>, requests': nat, accepted': map<nat, nat>)
    requires IdsOk(c) && Gains(c, d, t) && t.id !in c.pool.used && !Contains(c.session, t.id) && Accounted(c, requests, accepted, done)
    requires Extends(requests, accepted, requests', accepted') && Consistent(t.id, t.content, requests', accepted')
    requires forall r :: r in accepted' && r !in accepted ==> t == Own(accepted'[r], r) && r < requests'
    requires t.Own? ==> t.content in accepted' && t.content >= requests
    ensures Accounted(d, requests', accepted', done)
  {
    hide IdsOk, DistinctIds, DistinctPending, Held, Awaited, Pool.Valid, Contains, Has;
    GainingSpares(c, d, t);
    assert forall id: nat, e: nat :: (id, e) in Held(d.session) <==> (id, e) in Held(c.session) || ((t.Own? || t.Other?) && (id, e) == (t.id, t.content));
  }

  lemma AskingGains(s: Sys, step: Step) returns (t: Thing, job: Job)
    requires Sound(s) && Enabled(s, step) && (step.Publishes? || step.Subscribes? || step.Unsubscribes?)
    ensures t.id == s.client.pool.Get().0 && t.id !in s.client.pool.used && t.content == s.requests && !t.Other? && (t.Own? <==> step.Publishes?)
    ensures var s' := Next(s, step);
            && s'.client.jobs == s.client.jobs + [job] && job.id == t.id && job.content == t.content
            && s'.outbox == s.outbox && s'.toBroker == s.toBroker && s'.toClient == s.toClient && s'.requests == s.requests + 1 && s'.done == s.done
            && s'.accepted == (if t.Own? then s.accepted[t.content := t.id] else s.accepted)
            && s'.client.pool.used == s.client.pool.used + {t.id} && s'.client.status.Connected?
            && (!Contains(s.client.session, t.id) ==> Gains(s.client, s'.client, t))
  {
    assert s.client.pool.CanGet();
    hide Sound, Pool.Get, Contains, Gains, Enabled, Add;
    SoundParts(s);
    GetKeepsValid(s.client.pool);
    var j, m, now, interval := NextAsks(s, step);
    NextRequests(s, step);
    job := j;
    t := ThingOf(m);
    if !Contains(s.client.session, m.id) {
      AskedGains(s.client, Next(s, step).client, m, now, interval);
    }
  }

  function ThingOf(m: Msg): Thing {
    if m.kind == PacketType.Publish then Own(m.id, m.content) else if m.kind == PacketType.Subscribe then Asked(m.id, m.content) else Unasked(m.id, m.content)
  }

  lemma SoundParts(s: Sys)
    requires Sound(s)
    ensures s.client.status.Connected? && s.client.pool.Valid() && IdsOk(s.client)
  {
  }

  lemma NextRequests(s: Sys, step: Step)
    requires Enabled(s, step) && s.client.status.Connected? && (step.Publishes? || step.Subscribes? || step.Unsubscribes?)
    ensures var s' := Next(s, step);
            && (|s'.client.jobs| > 0 && s'.client.jobs[|s'.client.jobs| - 1].kind == PacketType.Publish <==> step.Publishes?)
            && s'.client.status.Connected?
            && s'.outbox == s.outbox && s'.toBroker == s.toBroker && s'.toClient == s.toClient && s'.done == s.done
  {
    hide Pool.Get, Add, Contains;
  }

  lemma AskedGains(c: Client, d: Client, m: Msg, now: nat, interval: nat)
    requires IdsOk(c) && c.pool.Valid() && Asks(c, d, m) && !Contains(c.session, m.id)
    requires d.session == if m.kind == PacketType.Publish then Add(c.session, m.id, m.content, m.qos, now, interval) else c.session
    requires d.subs == if m.kind == PacketType.Subscribe then c.subs + [Pending(m.id, m.content)] else c.subs
    requires d.unsubs == if m.kind == PacketType.Unsubscribe then c.unsubs + [Pending(m.id, m.content)] else c.unsubs
    ensures Gains(c, d, ThingOf(m))
  {
    hide Pool.Get, Pool.Valid, Held, Awaited, DistinctIds, DistinctPending, Contains, Add;
    GetKeepsValid(c.pool);
    PendingsInUse(c);
    DistinctOf(c);
    assert DistinctPending(c.subs) && DistinctPending(c.unsubs);
    AddHeld(c.session, m.id, m.content, m.qos, now, interval);
    AddAwaited(c.subs, m.id, m.content);
    AddAwaited(c.unsubs, m.id, m.content);
    assert forall a: set<(nat, nat)> :: a + {} == a;
  }

  lemma AskingSound(s: Sys, step: Step)
    requires Sound(s) && Enabled(s, step) && (step.Publishes? || step.Subscribes? || step.Unsubscribes?) && Safe(s, step)
    ensures Sound(Next(s, step)) && Spared(s.client, Next(s, step).client, None)
  {
    assert s.client.status.Connected?;
    var t, job := AskingGains(s, step);
    var s' := Next(s, step);
    assert !Contains(s.client.session, t.id);
    hide IdsOk, Accounted, PacketsOk, UnderWay, Next, Enabled, Safe, Contains, DistinctIds, DistinctPending, Held, Awaited, Pool.Get;
    GainingSpares(s.client, s'.client, t);
    GainingIdsOk(s.client, s'.client, t);
    AskingExtends(s, s', t);
    GainingAccounted(s.client, s'.client, t, s.requests, s.accepted, s.done, s'.requests, s'.accepted);
    OneMoreJob(s, s', job);
  }

  lemma AskingExtends(s: Sys, s': Sys, t: Thing)
    requires Accounted(s.client, s.requests, s.accepted, s.done) && t.content == s.requests && s'.requests == s.requests + 1
    requires s'.accepted == if t.Own? then s.accepted[t.content := t.id] else s.accepted
    ensures Extends(s.requests, s.accepted, s'.requests, s'.accepted) && Consistent(t.id, t.content, s'.requests, s'.accepted)
  {
    hide Has;
  }

  /** A request with the id of a received message: the message passes for one of ours. */
  lemma AskingCrosses(s: Sys, step: Step)
    requires Sound(s) && Enabled(s, step) && (step.Publishes? || step.Subscribes? || step.Unsubscribes?) && !Safe(s, step)
    ensures !Spared(s.client, Next(s, step).client, None)
  {
    assert s.client.status.Connected?;
    var t, job := AskingGains(s, step);
    assert Contains(s.client.session, t.id);
    hide Accounted, PacketsOk, UnderWay, Next, Enabled, Safe, Contains, DistinctIds, DistinctPending, Held, Awaited, Pool.Get, Gains;
    var d := OtherOf(s.client, t.id);
    assert Has(s.client, Other(t.id, d)) && !Has(Next(s, step).client, Other(t.id, d));
  }

  // ---------------------------------------------------------------- packets handled

  /** A step by which a packet leaves the channel, a job is queued in answer, and the client holds what it held. */
  lemma AnsweringSound(s: Sys, s': Sys, m: Msg, job: Job)
    requires Sound(s) && m in s.toClient && SameHoldings(s.client, s'.client)
    requires s'.client.jobs == s.client.jobs + [job] && s'.outbox == s.outbox && s'.toBroker == s.toBroker && s'.toClient == s.toClient - multiset{m}
    requires s'.requests == s.requests && s'.accepted == s.accepted && s'.done == s.done
    requires JobMsg(job).live ==> m.live && job.id == m.id && job.content == m.content
    ensures Sound(s') && Spared(s.client, s'.client, None)
  {
    hide IdsOk, Accounted, Pool.Valid, Spared, Consistent, Waiting, JobMsg, DistinctIds, Held;
    SameHoldingsSound(s.client, s'.client, s.requests, s.accepted, s.done);
    NothingNew(s);
    assert m in UnderWay(s);
    OneMoreJob(s, s', job);
  }

  /** The same without an answer. */
  lemma SilentSound(s: Sys, s': Sys)
    requires Sound(s) && SameHoldings(s.client, s'.client) && s'.client.jobs == s.client.jobs
    requires s'.outbox == s.outbox && s'.toBroker == s.toBroker && forall m :: m in s'.toClient ==> m in s.toClient
    requires s'.requests == s.requests && s'.accepted == s.accepted && s'.done == s.done
    ensures Sound(s') && Spared(s.client, s'.client, None)
  {
    hide IdsOk, Accounted, Pool.Valid, Spared, Consistent, Waiting, DistinctIds, Held;
    SameHoldingsSound(s.client, s'.client, s.requests, s.accepted, s.done);
    NothingNew(s);
    PacketsStay(s, s');
  }

  lemma SameClient(c: Client, d: Client)
    requires IdsOk(c) && d.pool == c.pool && d.status == c.status && d.session == c.session && d.subs == c.subs && d.unsubs == c.unsubs
    ensures SameHoldings(c, d)
  {
  }

  lemma NotedClient(c: Client, id: nat, status: Status, now: nat, interval: nat)
    requires IdsOk(c)
    ensures SameHoldings(c, c.(session := Update(c.session, id, status, now, interval)))
  {
    hide Update, Held;
    DistinctOf(c);
    hide DistinctIds, IdsOk;
    UpdateHeld(c.session, id, status, now, interval);
  }

  /** A QoS 2 PUBLISH enters the session. */
  lemma ArrivalSound(s: Sys, s': Sys, m: Msg, now: nat, interval: nat)
    requires Sound(s) && m in s.toClient && m.live && m.id < 0x1_0000 && m.id !in s.client.pool.used && !Contains(s.client.session, m.id)
    requires s'.client.session == Add(s.client.session, m.id, m.content, 0, now, interval) && s'.client.pool == s.client.pool
    requires s'.client.subs == s.client.subs && s'.client.unsubs == s.client.unsubs && s'.client.status == s.client.status
    requires s'.client.jobs == s.client.jobs + [Reply(PublishReceived, m.id, m.content)]
    requires s'.outbox == s.outbox && s'.toBroker == s.toBroker && s'.toClient == s.toClient - multiset{m}
    requires s'.requests == s.requests && s'.accepted == s.accepted && s'.done == s.done
    ensures Sound(s') && Spared(s.client, s'.client, None)
  {
    var t, job := Other(m.id, m.content), Reply(PublishReceived, m.id, m.content);
    hide Accounted, Pool.Valid, Consistent, Waiting, DistinctIds, DistinctPending, Held, Awaited, Contains, Add, Reply;
    ArrivalGains(s.client, s'.client, m, now, interval);
    hide IdsOk, Gains;
    NothingNew(s);
    assert m in UnderWay(s);
    GainingSpares(s.client, s'.client, t);
    GainingIdsOk(s.client, s'.client, t);
    GainingAccounted(s.client, s'.client, t, s.requests, s.accepted, s.done, s.requests, s.accepted);
    hide UnderWay, PacketsOk;
    ReplyOf(m.id, m.content);
    OneMoreJob(s, s', job);
    GainedValid(s.client, s'.client, t);
  }

  lemma ReplyOf(id: uint16, content: nat)
    ensures Reply(PublishReceived, id, content).id == id && Reply(PublishReceived, id, content).content == content
  {
  }

  lemma GainedValid(c: Client, d: Client, t: Thing)
    requires Gains(c, d, t)
    ensures d.pool.Valid() && d.status == c.status
  {
  }

  lemma ArrivalGains(c: Client, d: Client, m: Msg, now: nat, interval: nat)
    requires IdsOk(c) && c.pool.Valid() && m.id !in c.pool.used && !Contains(c.session, m.id)
    requires d.session == Add(c.session, m.id, m.content, 0, now, interval) && d.pool == c.pool
    requires d.subs == c.subs && d.unsubs == c.unsubs && d.status == c.status
    ensures Gains(c, d, Other(m.id, m.content))
  {
    hide Pool.Valid, Held, Awaited, DistinctIds, DistinctPending, Contains, Add;
    DistinctOf(c);
    AddHeld(c.session, m.id, m.content, 0, now, interval);
    assert forall a: set<(nat, nat)> :: a + {} == a;
    assert c.pool.used + {} == c.pool.used;
  }

  /** A QoS 2 PUBLISH with an id in use or in the session puts the ids out of order. */
  lemma ArrivalCrosses(c: Client, d: Client, m: Msg, now: nat, interval: nat)
    requires IdsOk(c) && (m.id in c.pool.used || Contains(c.session, m.id))
    requires d.session == Add(c.session, m.id, m.content, 0, now, interval) && d.pool == c.pool && d.subs == c.subs && d.unsubs == c.unsubs
    ensures !IdsOk(d)
  {
    if Contains(c.session, m.id) {
      AddTwice(c.session, m.id, m.content, 0, now, interval);
    } else {
      var t := HolderHas(c, m.id);
      NotHeld(c, m.id);
      hide DistinctIds, DistinctPending, Held, Awaited, Holder;
      assert Contains(d.session, m.id) by {
        assert d.session[|c.session|].id == m.id;
      }
      assert (t.id, t.content) in Awaited(d.subs) || (t.id, t.content) in Awaited(d.unsubs);
    }
  }

  // ---------------------------------------------------------------- answers, in the whole system

  /** What an answer leaves behind, once it took no more than what it answers. */
  lemma TakenAccounted(c: Client, d: Client, t: Thing, session: bool, subs: bool, unsubs: bool, requests: nat, accepted: map<nat, nat>,
                       done: set<nat>, done': set<nat>)
    requires IdsOk(c) && Accounted(c, requests, accepted, done) && Spared(c, d, Some(t)) && Free(c, t)
    requires Taken(c, d, t.id, session, subs, unsubs) && TakesOut(t, session, subs, unsubs)
    requires done' == if t.Own? then done + {t.content} else done
    requires t.Own? ==> Consistent(t.id, t.content, requests, accepted)
    ensures Accounted(d, requests, accepted, done')
  {
    hide IdsOk, DistinctIds, DistinctPending, Held, Awaited, Pool.Valid;
    forall id: nat, e: nat | Has(d, Own(id, e)) ensures e in accepted && e !in done' {
      assert Has(c, Own(id, e));
    }
    forall r | r in accepted ensures r < requests && (r in done' || Has(d, Own(accepted[r], r))) {
      if r !in done {
        assert Has(c, Own(accepted[r], r));
      }
    }
  }

  /** A final acknowledgement of a publish. */
  lemma FinishSoundExactly(s: Sys, out: Sys, m: Msg)
    requires Sound(s) && m in s.toClient && m.kind != PacketType.Publish && out == s.(toClient := s.toClient - multiset{m})
    ensures var s', t := Finished(out, m), Own(m.id, m.content);
            && (Spared(s.client, s'.client, Some(t)) <==> Free(s.client, t))
            && (Free(s.client, t) ==> Sound(s'))
  {
    var c, t, s' := s.client, Own(m.id, m.content), Finished(out, m);
    ForgettingSparesExactly(c, t);
    ForgetTakes(c, m.id);
    if Free(c, t) {
      assert m in UnderWay(s);
      hide Held, Awaited, DistinctIds, DistinctPending, Pool.Valid, Client.Forget, Contains, Taken, Waiting;
      AnswerKeepsIdsOk(c, c.Forget(m.id), t, true, false, false);
      TakenAccounted(c, c.Forget(m.id), t, true, false, false, s.requests, s.accepted, s.done, s'.done);
      ForgottenRest(c, m.id);
      NothingNew(s);
      PacketsStay(s, s');
    }
  }

  lemma ForgottenRest(c: Client, id: nat)
    requires IdsOk(c) && c.pool.Valid()
    ensures c.Forget(id).pool.Valid() && c.Forget(id).status == c.status && c.Forget(id).jobs == c.jobs
  {
    ForgetTakes(c, id);
    hide IdsOk, Erase, Pool.Release, Pool.Valid;
  }

  /** The acknowledgement of a subscribe or an unsubscribe. */
  lemma SubAckSoundExactly(s: Sys, out: Sys, m: Msg, subs: bool)
    requires Sound(s) && m in s.toClient && m.kind != PacketType.Publish && out == s.(toClient := s.toClient - multiset{m})
    ensures var s', t := if subs then SubAckHandled(out, m) else UnsubAckHandled(out, m),
                         if subs then Asked(m.id, m.content) else Unasked(m.id, m.content);
            && (Spared(s.client, s'.client, Some(t)) <==> Free(s.client, t))
            && (Free(s.client, t) ==> Sound(s'))
  {
    var c, t := s.client, if subs then Asked(m.id, m.content) else Unasked(m.id, m.content);
    var s' := if subs then SubAckHandled(out, m) else UnsubAckHandled(out, m);
    var d := if subs then c.SubscribeAckReceived(m.id) else c.UnsubscribeAckReceived(m.id);
    hide Held, Awaited, DistinctIds, DistinctPending, Pool.Valid, Contains, Taken, Waiting, ErasePending, Pool.Release, IdsOk, Spared, Has, Accounted;
    AcknowledgingSparesExactly(c, m.id, m.content);
    AcksTake(c, m.id);
    if Free(c, t) {
      AnswerKeepsIdsOk(c, d, t, false, subs, !subs);
      TakenAccounted(c, d, t, false, subs, !subs, s.requests, s.accepted, s.done, s.done);
      TakenValid(c, d, t.id, false, subs, !subs);
      NothingNew(s);
      PacketsStay(s, s');
    }
  }

  lemma TakenValid(c: Client, d: Client, id: nat, session: bool, subs: bool, unsubs: bool)
    requires Taken(c, d, id, session, subs, unsubs)
    ensures d.pool.Valid() && d.status == c.status
  {
  }

  /** The callback for a PUBCOMP, made for the first time or again. */
  lemma ClosingSoundExactly(s: Sys, s': Sys, t: Thing)
    requires Sound(s) && t.Other? && s'.client == s.client.Forget(t.id)
    requires s'.outbox == s.outbox && s'.toBroker == s.toBroker && s'.toClient == s.toClient
    requires s'.requests == s.requests && s'.accepted == s.accepted && s'.done == s.done
    ensures Spared(s.client, s'.client, Some(t)) <==> Free(s.client, t)
    ensures Spared(s.client, s'.client, None) <==> t.id !in s.client.pool.used && !Contains(s.client.session, t.id)
    ensures Free(s.client, t) ==> Sound(s')
  {
    var c := s.client;
    ForgettingSparesExactly(c, t);
    ForgetTakes(c, t.id);
    if Free(c, t) {
      hide Held, Awaited, DistinctIds, DistinctPending, Pool.Valid, Client.Forget, Contains, Taken, Waiting;
      AnswerKeepsIdsOk(c, c.Forget(t.id), t, true, false, false);
      TakenAccounted(c, c.Forget(t.id), t, true, false, false, s.requests, s.accepted, s.done, s.done);
      ForgottenRest(c, t.id);
      NothingNew(s);
      PacketsStay(s, s');
    }
  }

  // ---------------------------------------------------------------- the rest of the system

  lemma TakingSound(s: Sys, m: Msg, failed: bool)
    requires Sound(s) && m in s.toBroker
    ensures Sound(TakenByBroker(s, m, failed)) && Spared(s.client, TakenByBroker(s, m, failed).client, None)
  {
    hide IdsOk, Accounted, Pool.Valid, Consistent, Waiting;
    var s' := TakenByBroker(s, m, failed);
    NothingNew(s);
    ReplyKeeps(m, failed);
    assert m in UnderWay(s);
    hide BrokerReply;
    PacketsStay(s, s');
    NothingSpared(s.client);
  }

  lemma ReplyKeeps(m: Msg, failed: bool)
    ensures var n := BrokerReply(m, failed); n.live == m.live && n.id == m.id && n.content == m.content
  {
  }

  lemma NothingSpared(c: Client)
    ensures Spared(c, c, None)
  {
    hide Has;
  }

  /** A new packet of the broker's. */
  lemma OfferedPackets(s: Sys, s': Sys, m: Msg)
    requires PacketsOk(UnderWay(s), s.toClient, s.requests, s.accepted) && UnderWay(s') == UnderWay(s) + multiset{m}
    requires s'.toClient == s.toClient + multiset{m} && s'.requests == s.requests + 1 && s'.accepted == s.accepted
    requires Consistent(m.id, m.content, s'.requests, s'.accepted) && (m.live || (m.kind == PacketType.Publish && m.qos != 2))
    ensures PacketsOk(UnderWay(s'), s'.toClient, s'.requests, s'.accepted)
  {
    hide UnderWay, Consistent;
    assert Extends(s.requests, s.accepted, s'.requests, s'.accepted);
    PacketsStay(s, s');
  }

  lemma OfferingSound(s: Sys, qos: nat, id: nat)
    requires Sound(s) && qos <= 2
    ensures Sound(Offered(s, qos, id)) && Spared(s.client, Offered(s, qos, id).client, None)
  {
    hide IdsOk, Pool.Valid, Waiting, PacketsOk, Accounted, Consistent, Spared;
    var s', m := Offered(s, qos, id), Offer(s, qos, id);
    OfferAccounted(s.client, s.requests, s.accepted, s.done);
    OfferIsNew(s, qos, id);
    assert UnderWay(s') == UnderWay(s) + multiset{m};
    OfferedPackets(s, s', m);
    NothingSpared(s.client);
  }

  lemma OfferAccounted(c: Client, requests: nat, accepted: map<nat, nat>, done: set<nat>)
    requires Accounted(c, requests, accepted, done)
    ensures Accounted(c, requests + 1, accepted, done)
  {
    hide Has, Held;
  }

  lemma OfferIsNew(s: Sys, qos: nat, id: nat)
    requires Accounted(s.client, s.requests, s.accepted, s.done)
    ensures Consistent(id, s.requests, s.requests + 1, s.accepted)
  {
    hide Has, Held;
  }

  lemma TransmittingSound(s: Sys, m: Msg)
    requires Sound(s) && m in s.outbox
    ensures Sound(Transmitted(s, m)) && Spared(s.client, Transmitted(s, m).client, None)
  {
    hide IdsOk, Accounted, Pool.Valid, Consistent, Waiting;
    var s' := Transmitted(s, m);
    NothingNew(s);
    assert m in UnderWay(s);
    PacketsStay(s, s');
    NothingSpared(s.client);
  }

  lemma ComposingSound(s: Sys)
    requires Sound(s) && !Compose(s.client.jobs, s.Starting()).failed
    ensures Sound(ComposedOnce(s)) && Spared(s.client, ComposedOnce(s).client, None)
  {
    hide Accounted, Pool.Valid, Consistent, Waiting, Compose, Held, DistinctIds, DistinctPending, Awaited;
    var s', c := ComposedOnce(s), Compose(s.client.jobs, s.Starting());
    ComposeSplits(s.client.jobs, s.Starting());
    assert Waiting([]) == multiset{} by { NoneWaiting(); }
    ComposedAll(Waiting(c.composed), Waiting(c.delayed), s.outbox);
    assert UnderWay(s') == UnderWay(s);
    SameClient(s.client, s'.client);
    SameHoldingsSound(s.client, s'.client, s.requests, s.accepted, s.done);
  }

  lemma NoneWaiting()
    ensures Waiting([]) == multiset{}
  {
  }

  // ---------------------------------------------------------------- one step

  /** The step spares what it does not answer and leaves the ids in order. */
  ghost predicate Honoured(s: Sys, t: Sys, step: Step) {
    Spared(s.client, t.client, Answered(step)) && IdsOk(t.client)
  }

  lemma SoundIds(s: Sys)
    requires Sound(s)
    ensures IdsOk(s.client)
  {
  }

  lemma AskingExactly(s: Sys, step: Step)
    requires Sound(s) && Enabled(s, step) && (step.Publishes? || step.Subscribes? || step.Unsubscribes?)
    ensures s.client.status.Connected? && (Honoured(s, Next(s, step), step) <==> Safe(s, step)) && (Safe(s, step) ==> Sound(Next(s, step)))
  {
    SoundParts(s);
    hide Sound, Spared, IdsOk, Next, Enabled, Safe;
    assert Answered(step) == None;
    if Safe(s, step) {
      AskingSound(s, step);
      SoundIds(Next(s, step));
    } else {
      AskingCrosses(s, step);
    }
  }

  lemma PublishHandledSound(s: Sys, out: Sys, step: Step)
    requires Sound(s) && step.Handles? && step.m in s.toClient && step.m.kind == PacketType.Publish && step.m.id < 0x1_0000
    requires Legal(step.maximumTopicAliases, Published(step.topic, step.topicAlias)) && out == s.(toClient := s.toClient - multiset{step.m})
    ensures var m, c := step.m, s.client;
            var s' := PublishHandled(out, m, step.topic, step.topicAlias, step.maximumTopicAliases, step.freed, step.now, step.interval);
            var ok := m.qos == 2 ==> m.id !in c.pool.used && !Contains(c.session, m.id);
            && (Spared(c, s'.client, None) && IdsOk(s'.client) <==> ok) && (ok ==> Sound(s'))
  {
    var m, c := step.m, s.client;
    var s' := PublishHandled(out, m, step.topic, step.topicAlias, step.maximumTopicAliases, step.freed, step.now, step.interval);
    SoundParts(s);
    SoundLive(s, m);
    hide Sound, IdsOk, Legal, PointersAfter, Spared, Contains, Add, ReceiveMaximum.Window.Take, Reply;
    if m.qos == 2 {
      if m.id !in c.pool.used && !Contains(c.session, m.id) {
        ArrivalSound(s, s', m, step.now, step.interval);
        SoundIds(s');
      } else {
        ArrivalCrosses(c, s'.client, m, step.now, step.interval);
      }
    } else if m.qos == 1 {
      SameClient(c, s'.client);
      DeadReply(m.id, m.content);
      AnsweringSound(s, s', m, Reply(PublishAck, m.id, m.content));
      SoundIds(s');
    } else {
      SameClient(c, s'.client);
      SilentSound(s, s');
      SoundIds(s');
    }
  }

  lemma SoundLive(s: Sys, m: Msg)
    requires Sound(s) && m in s.toClient
    ensures m.live || (m.kind == PacketType.Publish && m.qos != 2)
  {
    hide IdsOk, Accounted, UnderWay, Pool.Valid;
  }

  lemma DeadReply(id: uint16, content: nat)
    ensures !JobMsg(Reply(PublishAck, id, content)).live
  {
  }

  lemma ReplyIs(kind: PacketType, id: uint16, content: nat)
    requires IsReply(kind)
    ensures Reply(kind, id, content).id == id && Reply(kind, id, content).content == content
  {
  }

  lemma MovingSound(s: Sys, out: Sys, step: Step)
    requires Sound(s) && step.Handles? && step.m in s.toClient && step.m.id < 0x1_0000 && out == s.(toClient := s.toClient - multiset{step.m})
    ensures step.m.kind == PublishReleased ==>
              var s' := PubRelHandled(out, step.m, step.now, step.interval); Sound(s') && Spared(s.client, s'.client, None)
    ensures step.m.kind == PublishReceived ==>
              var s' := PubRecHandled(out, step.m); Sound(s') && Spared(s.client, s'.client, None)
  {
    var m, c := step.m, s.client;
    SoundParts(s);
    SoundLive(s, m);
    hide Sound, IdsOk, Spared, Update, Reply;
    if m.kind == PublishReleased {
      NotedClient(c, m.id, NeedToSendPubComp, step.now, step.interval);
      ReplyIs(PublishComplete, m.id, m.content);
      AnsweringSound(s, PubRelHandled(out, m, step.now, step.interval), m, Reply(PublishComplete, m.id, m.content));
    } else if m.kind == PublishReceived {
      DistinctOf(c);
      ReplyIs(PublishReleased, m.id, m.content);
      AnsweringSound(s, PubRecHandled(out, m), m, Reply(PublishReleased, m.id, m.content));
    }
  }

  lemma HandlingExactly(s: Sys, step: Step)
    requires Sound(s) && Enabled(s, step) && step.Handles? && s.client.status.Connected?
    ensures (Honoured(s, Next(s, step), step) <==> Safe(s, step)) && (Safe(s, step) ==> Sound(Next(s, step)))
  {
    hide Sound, IdsOk, Spared, Legal, ReceiveMaximum.Window.Take, Free, Contains, Handled, PublishHandled, PubRelHandled, PubRecHandled,
      SubAckHandled, UnsubAckHandled, Finished, Handleable;
    var m := step.m;
    var out := s.(toClient := s.toClient - multiset{m});
    HandledBranches(s, m, step.topic, step.topicAlias, step.maximumTopicAliases, step.freed, step.now, step.interval);
    if m.kind == PacketType.Publish {
      PublishHandledSound(s, out, step);
    } else if Ends(m) {
      EndingExactly(s, out, step);
    } else if m.kind == SubscribeAck {
      SubAckSoundExactly(s, out, m, true);
      if Free(s.client, Asked(m.id, m.content)) {
        SoundIds(SubAckHandled(out, m));
      }
    } else if m.kind == UnsubscribeAck {
      SubAckSoundExactly(s, out, m, false);
      if Free(s.client, Unasked(m.id, m.content)) {
        SoundIds(UnsubAckHandled(out, m));
      }
    } else {
      MovingSound(s, out, step);
      SoundIds(Next(s, step));
    }
  }

  lemma EndingExactly(s: Sys, out: Sys, step: Step)
    requires Sound(s) && step.Handles? && step.m in s.toClient && step.m.kind != PacketType.Publish && Ends(step.m)
    requires out == s.(toClient := s.toClient - multiset{step.m})
    ensures var s', t := Finished(out, step.m), Own(step.m.id, step.m.content);
            && (Spared(s.client, s'.client, Some(t)) && IdsOk(s'.client) <==> Free(s.client, t))
            && (Free(s.client, t) ==> Sound(s'))
  {
    hide Sound, IdsOk, Spared, Free, Finished;
    FinishSoundExactly(s, out, step.m);
    if Free(s.client, Own(step.m.id, step.m.content)) {
      SoundIds(Finished(out, step.m));
    }
  }

  lemma CallingExactly(s: Sys, step: Step)
    requires Sound(s) && Enabled(s, step) && (step.Fires? || step.Repeats?) && s.client.status.Connected?
    ensures (Honoured(s, Next(s, step), step) <==> Safe(s, step)) && (Safe(s, step) ==> Sound(Next(s, step)))
  {
    var m, s' := step.m, Next(s, step);
    SoundParts(s);
    hide Sound, IdsOk, Spared, Free, Contains, Client.Forget, Update, Survives;
    assert s'.client == CalledBack(s.client, m, step.now, step.interval);
    if Notes(m) {
      NotedClient(s.client, m.id, if m.kind == PublishReceived then WaitingForPubRel else WaitingForPubComp, step.now, step.interval);
      SilentSound(s, s');
      SoundIds(s');
    } else {
      ClosingSoundExactly(s, s', Other(m.id, m.content));
      FreeOther(s.client, m);
      if Free(s.client, Other(m.id, m.content)) {
        SoundIds(s');
      }
    }
  }

  lemma FreeOther(c: Client, m: Msg)
    ensures m.id !in c.pool.used && !Contains(c.session, m.id) ==> Free(c, Other(m.id, m.content))
  {
  }

  lemma RestSound(s: Sys, step: Step)
    requires Sound(s) && Enabled(s, step) && s.client.status.Connected?
    requires step.Queues? || step.PublishesQoS0? || step.Scans? || step.Composes? || step.Transmits? || step.BrokerTakes? || step.BrokerPublishes?
    ensures Sound(Next(s, step)) && Spared(s.client, Next(s, step).client, None)
  {
    hide Sound, Spared, Compose, ComposedOnce, Transmitted, TakenByBroker, Offered, Client.Retry;
    match step
    case Queues(job) => QueueingSound(s, job);
    case PublishesQoS0(content, encoded) =>
      QoS0IsQueued(s, step);
      QueueingSound(s, Job(PacketType.Publish, 0, 0, content, encoded));
    case Scans(now, encode) => ScanningSound(s, now, encode);
    case Composes => ComposingSound(s);
    case Transmits(m) => TransmittingSound(s, m);
    case BrokerTakes(m, failed) => TakingSound(s, m, failed);
    case BrokerPublishes(qos, id) => OfferingSound(s, qos, id);
  }

  lemma RestExactly(s: Sys, step: Step)
    requires Sound(s) && Enabled(s, step) && s.client.status.Connected?
    requires step.Queues? || step.PublishesQoS0? || step.Scans? || step.Composes? || step.Transmits? || step.BrokerTakes? || step.BrokerPublishes?
    ensures Safe(s, step) && Honoured(s, Next(s, step), step) && Sound(Next(s, step))
  {
    RestSound(s, step);
    hide Sound, Spared, IdsOk, Next, Enabled;
    SoundIds(Next(s, step));
  }

  /** A step, of any kind, keeps the promises if and only if it meets the guard: nothing is lost but what it answers,
      the ids stay in order, and accepted messages stay until they are finally acknowledged. Retried copies under way
      make no difference to that until they are answered. */
  lemma StepKeepsPromisesExactly(s: Sys, step: Step)
    requires Sound(s) && Enabled(s, step)
    ensures s.client.status.Connected?
    ensures StepKept(s, step) <==> Safe(s, step)
    ensures Safe(s, step) ==> Sound(Next(s, step))
  {
    SoundParts(s);
    hide Sound, Spared, IdsOk, Next, Enabled, Safe;
    if step.Publishes? || step.Subscribes? || step.Unsubscribes? {
      AskingExactly(s, step);
    } else if step.Handles? {
      HandlingExactly(s, step);
    } else if step.Fires? || step.Repeats? {
      CallingExactly(s, step);
    } else {
      RestExactly(s, step);
    }
    if Safe(s, step) {
      SoundPromises(Next(s, step));
    }
  }

  // ---------------------------------------------------------------- whole runs

  ghost predicate AlwaysKept(s: Sys, steps: seq<Step>)
    requires Goes(s, steps)
    decreases |steps|
  {
    steps == [] || (StepKept(s, steps[0]) && AlwaysKept(Next(s, steps[0]), steps[1..]))
  }

  ghost predicate AllSafe(s: Sys, steps: seq<Step>)
    requires Goes(s, steps)
    decreases |steps|
  {
    steps == [] || (Safe(s, steps[0]) && AllSafe(Next(s, steps[0]), steps[1..]))
  }

  lemma {:induction false} RunKeepsPromisesExactly(s: Sys, steps: seq<Step>)
    requires Sound(s) && Goes(s, steps)
    ensures AlwaysKept(s, steps) <==> AllSafe(s, steps)
    ensures AllSafe(s, steps) ==> Sound(Reached(s, steps))
    decreases |steps|
  {
    if steps != [] {
      StepKeepsPromisesExactly(s, steps[0]);
      hide Sound, StepKept, Enabled, Next, Safe;
      if Safe(s, steps[0]) {
        RunKeepsPromisesExactly(Next(s, steps[0]), steps[1..]);
      }
    }
  }

  /** Over all runs of a connection that goes on, with scans for retries at any time: after every step nothing that the
      client holds is lost but by its own answer, the ids are in order and every accepted message is in the session
      with its id in use exactly until it is finally acknowledged, if and only if no request or received QoS 2 message
      takes an id across, no answer comes whose id something else holds by then, and no callback for a PUBCOMP is
      repeated for an id that is held again. */
  lemma PromisesKeptExactly(steps: seq<Step>, clientMaximum: nat, brokerMaximum: nat)
    requires Goes(NewSys(clientMaximum, brokerMaximum), steps)
    ensures AlwaysKept(NewSys(clientMaximum, brokerMaximum), steps) <==> AllSafe(NewSys(clientMaximum, brokerMaximum), steps)
    ensures AllSafe(NewSys(clientMaximum, brokerMaximum), steps) ==> Promised(Reached(NewSys(clientMaximum, brokerMaximum), steps))
  {
    hide Sound, AlwaysKept, AllSafe, Goes, Reached, Promised, NewSys;
    NewSound(clientMaximum, brokerMaximum);
    RunKeepsPromisesExactly(NewSys(clientMaximum, brokerMaximum), steps);
    if AllSafe(NewSys(clientMaximum, brokerMaximum), steps) {
      SoundPromises(Reached(NewSys(clientMaximum, brokerMaximum), steps));
    }
  }

  // ---------------------------------------------------------------- runs without retried copies

  /** In the invariant of runs without copies, an acknowledgement under way answers what holds its id, and so does the
      callback for a PUBCOMP. */
  lemma AnswersAreFree(s: Sys, step: Step)
    requires Inv(s) && Enabled(s, step) && (step.Handles? || step.Fires?) && Answered(step).Some?
    ensures Has(s.client, Answered(step).value)
  {
    hide Inv, Has, Legal, Survives, Handleable, ReceiveMaximum.Window.Take;
    var m := step.m;
    assert m in s.toClient || m in s.unfired;
    if step.Handles? {
      ComingIs(s, m);
      Carrier(s, m);
      AckIsHeld(s, m);
    } else {
      AnnouncingIs(s, m);
      Carrier(s, m);
      CompIsHeld(s, m);
    }
  }

  lemma AckIsHeld(s: Sys, m: Msg)
    requires Inv(s) && KeyOf(m) in s.exchanges && s.exchanges[KeyOf(m)] == m && m.mine
    requires m.kind in {PublishAck, PublishReceived, PublishComplete, SubscribeAck, UnsubscribeAck}
    ensures Has(s.client, if m.kind == SubscribeAck then Asked(m.id, m.content)
                          else if m.kind == UnsubscribeAck then Unasked(m.id, m.content) else Own(m.id, m.content))
  {
    hide Inv, Held, Awaited, Contains;
    HeldOf(s);
    PendingOf(s);
    match m.kind
    case SubscribeAck => assert HoldsSubscribe(s.exchanges, m.id, m.content);
    case UnsubscribeAck => assert HoldsUnsubscribe(s.exchanges, m.id, m.content);
    case PublishAck => assert HoldsPublish(s.exchanges, m.id, m.content);
    case PublishReceived => assert HoldsPublish(s.exchanges, m.id, m.content);
    case PublishComplete => assert HoldsPublish(s.exchanges, m.id, m.content);
    case _ =>
  }

  lemma CompIsHeld(s: Sys, m: Msg)
    requires Inv(s) && KeyOf(m) in s.exchanges && s.exchanges[KeyOf(m)] == m && !m.mine && m.kind == PublishComplete
    ensures Has(s.client, Other(m.id, m.content))
  {
    hide Inv, Held, Awaited, Contains;
    HeldOf(s);
    PendingOf(s);
    assert HoldsTheirs(s.exchanges, m.id, m.content);
  }

  lemma PendingOf(s: Sys)
    requires Inv(s)
    ensures forall id: nat, c: nat :: (id, c) in Awaited(s.client.subs) <==> HoldsSubscribe(s.exchanges, id, c)
    ensures forall id: nat, c: nat :: (id, c) in Awaited(s.client.unsubs) <==> HoldsUnsubscribe(s.exchanges, id, c)
    ensures forall id: nat :: id in s.client.pool.used <==> Mine(id) in s.exchanges
    ensures forall id: nat, c: nat :: HoldsTheirs(s.exchanges, id, c) ==> id !in s.client.pool.used
  {
    hide Rest, DistinctIds, DistinctPending, Held, Awaited, Told;
  }

  /** So there the guard of the invariant is the guard of the promises, for every step but a scan. */
  lemma ApartIsSafe(s: Sys, step: Step)
    requires Inv(s) && Enabled(s, step) && (step.Scans? ==> Apart(s, step))
    ensures Apart(s, step) <==> Safe(s, step)
  {
    if (step.Handles? || step.Fires?) && Answered(step).Some? {
      AnswersAreFree(s, step);
    }
    hide Inv, Contains, Legal, Survives, Handleable, Has, Compose, ReceiveMaximum.Window.Take;
  }

  /** A request or a PUBLISH that does not keep the id spaces apart breaks identifier safety at once. */
  lemma CrossingBreaksIds(s: Sys, step: Step)
    requires Inv(s) && Enabled(s, step) && !Apart(s, step)
    requires step.Publishes? || step.Subscribes? || step.Unsubscribes? || step.Handles?
    ensures s.client.status.Connected? && !IdsSafe(Next(s, step))
  {
    ConnectedBooks(s);
    InvIdsOk(s);
    hide Inv, IdsOk, Linked, Books, Numbered, Remembered, Shapes, Contains, DistinctIds;
    if step.Handles? {
      CrossedArrival(s, step);
    } else {
      CrossedRequest(s, step);
    }
  }

  lemma CrossedArrival(s: Sys, step: Step)
    requires IdsOk(s.client) && s.client.status.Connected? && step.Handles? && Enabled(s, step) && !Apart(s, step)
    ensures !IdsOk(Next(s, step).client)
  {
    hide IdsOk, Contains, Legal, PointersAfter, Add, Reply, ReceiveMaximum.Window.Take;
    ArrivalCrosses(s.client, Next(s, step).client, step.m, step.now, step.interval);
  }

  lemma CrossedRequest(s: Sys, step: Step)
    requires IdsOk(s.client) && s.client.status.Connected? && Enabled(s, step) && !Apart(s, step)
    requires step.Publishes? || step.Subscribes? || step.Unsubscribes?
    ensures !IdsOk(Next(s, step).client)
  {
    hide IdsOk, Contains, Pool.Get, Add;
    var job, m, now, interval := NextAsks(s, step);
    var d := Next(s, step).client;
    hide Next, Enabled, Apart;
    if m.kind == PacketType.Publish {
      AddTwice(s.client.session, m.id, m.content, m.qos, now, interval);
      NotDistinct(d);
    } else {
      PendingCrossed(d, m);
    }
  }

  lemma NotDistinct(d: Client)
    requires !DistinctIds(d.session)
    ensures !IdsOk(d)
  {
  }

  lemma PendingCrossed(d: Client, m: Msg)
    requires Contains(d.session, m.id)
    requires Pending(m.id, m.content) in d.subs || Pending(m.id, m.content) in d.unsubs
    ensures !IdsOk(d)
  {
    assert (m.id, m.content) in Awaited(d.subs) || (m.id, m.content) in Awaited(d.unsubs);
  }

  /** A callback for a PUBCOMP made again for an id that is held takes what holds it: a publish out of the session, a
      pending request its id, a received message out of the session. */
  lemma RepeatTakes(s: Sys, step: Step)
    requires Inv(s) && Enabled(s, step) && step.Repeats? && !Apart(s, step)
    ensures s.client.status.Connected?
    ensures exists t: Thing :: t.id == step.m.id && Has(s.client, t) && !Has(Next(s, step).client, t)
  {
    assert s.client.pool.Valid();
    hide Inv, IdsOk, Books, Numbered, Remembered, Shapes, Contains, DistinctIds, DistinctPending, Held, Awaited, Client.Forget, Survives;
    ConnectedBooks(s);
    InvIdsOk(s);
    var c, id := s.client, step.m.id;
    ForgetTakes(c, id);
    assert Next(s, step).client == c.Forget(id);
    if id in c.pool.used {
      var t := HolderHas(c, id);
      assert !Has(c.Forget(id), t);
    } else {
      var e := OtherOf(c, id);
      assert Has(c, Other(id, e)) && !Has(c.Forget(id), Other(id, e));
    }
  }

  /** The scans of a run send no second copy of a packet. */
  ghost predicate ScansIdle(s: Sys, steps: seq<Step>)
    requires Goes(s, steps)
    decreases |steps|
  {
    steps == [] || ((steps[0].Scans? ==> Apart(s, steps[0])) && ScansIdle(Next(s, steps[0]), steps[1..]))
  }

  lemma {:induction false} ApartRunExactly(s: Sys, steps: seq<Step>)
    requires Inv(s) && Sound(s) && Goes(s, steps) && ScansIdle(s, steps)
    ensures AlwaysKept(s, steps) <==> KeptApart(s, steps)
    decreases |steps|
  {
    if steps != [] {
      StepKeepsPromisesExactly(s, steps[0]);
      StepKeepsExactly(s, steps[0]);
      ApartIsSafe(s, steps[0]);
      hide Inv, Sound, StepKept, Enabled, Next, Safe, Apart;
      if Apart(s, steps[0]) {
        ApartRunExactly(Next(s, steps[0]), steps[1..]);
      }
    }
  }

  /** Over all runs whose scans send no second copy of a packet, the promises hold after every step if and only if the
      run keeps the id spaces apart. */
  lemma ApartKeepsPromisesExactly(steps: seq<Step>, clientMaximum: nat, brokerMaximum: nat)
    requires Goes(NewSys(clientMaximum, brokerMaximum), steps) && ScansIdle(NewSys(clientMaximum, brokerMaximum), steps)
    ensures AlwaysKept(NewSys(clientMaximum, brokerMaximum), steps) <==> KeptApart(NewSys(clientMaximum, brokerMaximum), steps)
  {
    hide Inv, Sound, AlwaysKept, KeptApart, Goes, ScansIdle, NewSys;
    NewSound(clientMaximum, brokerMaximum);
    NewInv(clientMaximum, brokerMaximum);
    ApartRunExactly(NewSys(clientMaximum, brokerMaximum), steps);
  }
}
