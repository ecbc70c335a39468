/** The invariant of client and broker: which packet carries which exchange, and what the client holds for it. */
module ProtocolInvariant {
  import opened Bytes
  import opened Packets
  import opened ReceiveMaximum
  import opened PacketIdPools
  import opened Sessions
  import opened Clients
  import opened Protocol

  // ---------------------------------------------------------------- packets under way

  /** Every open exchange is carried by exactly one live packet, and no other live packet is about. */
  ghost predicate Carried(exchanges: map<Key, Msg>, all: multiset<Msg>) {
    forall t: Msg :: t.live ==> all[t] == if KeyOf(t) in exchanges && exchanges[KeyOf(t)] == t then 1 else 0
  }

  lemma CarryNew(x: map<Key, Msg>, all: multiset<Msg>, more: multiset<Msg>, m: Msg)
    requires Carried(x, all) && m.live && KeyOf(m) !in x && more == all + multiset{m}
    ensures Carried(x[KeyOf(m) := m], more)
  {
  }

  lemma CarryMove(x: map<Key, Msg>, all: multiset<Msg>, rest: multiset<Msg>, moved: multiset<Msg>, m: Msg, n: Msg)
    requires Carried(x, all) && m.live && n.live && KeyOf(m) == KeyOf(n)
    requires all == rest + multiset{m} && moved == rest + multiset{n}
    ensures KeyOf(m) in x && x[KeyOf(m)] == m
    ensures Carried(x[KeyOf(m) := n], moved)
  {
    assert all[m] > 0;
  }

  lemma CarryEnd(x: map<Key, Msg>, all: multiset<Msg>, rest: multiset<Msg>, m: Msg)
    requires Carried(x, all) && m.live && all == rest + multiset{m}
    ensures KeyOf(m) in x && x[KeyOf(m)] == m
    ensures Carried(x - {KeyOf(m)}, rest)
  {
    assert all[m] > 0;
  }

  ghost predicate SameLive(all: multiset<Msg>, other: multiset<Msg>) {
    forall t: Msg :: t.live ==> other[t] == all[t]
  }

  lemma CarrySame(x: map<Key, Msg>, all: multiset<Msg>, other: multiset<Msg>)
    requires Carried(x, all) && SameLive(all, other)
    ensures Carried(x, other)
  {
  }

  // ---------------------------------------------------------------- what the client holds

  function Held(session: Messages): set<(nat, nat)> {
    set m | m in session :: (m.id, m.content)
  }

  function Awaited(pending: seq<Pending>): set<(nat, nat)> {
    set p | p in pending :: (p.id, p.content)
  }

  ghost predicate DistinctIds(session: Messages) {
    forall i, j :: 0 <= i < j < |session| ==> session[i].id != session[j].id
  }

  ghost predicate DistinctPending(pending: seq<Pending>) {
    forall i, j :: 0 <= i < j < |pending| ==> pending[i].id != pending[j].id
  }

  ghost predicate Functional(pairs: set<(nat, nat)>) {
    forall id: nat, c: nat, d: nat :: (id, c) in pairs && (id, d) in pairs ==> c == d
  }

  lemma DistinctIsFunctional(session: Messages)
    requires DistinctIds(session)
    ensures Functional(Held(session))
    ensures forall id: nat :: Contains(session, id) <==> exists c: nat :: (id, c) in Held(session)
  {
    forall id: nat, c: nat, d: nat | (id, c) in Held(session) && (id, d) in Held(session) ensures c == d {
      var m :| m in session && (m.id, m.content) == (id, c);
      var n :| n in session && (n.id, n.content) == (id, d);
    }
    forall id: nat ensures Contains(session, id) <==> exists c: nat :: (id, c) in Held(session) {
      if Contains(session, id) {
        var i :| 0 <= i < |session| && session[i].id == id;
        assert session[i] in session;
        assert (id, session[i].content) in Held(session);
      }
    }
  }

  lemma AddHeld(session: Messages, id: nat, content: nat, qos: nat, now: nat, interval: nat)
    requires DistinctIds(session) && !Contains(session, id)
    ensures DistinctIds(Add(session, id, content, qos, now, interval))
    ensures Held(Add(session, id, content, qos, now, interval)) == Held(session) + {(id, content)}
  {
    var more := Add(session, id, content, qos, now, interval);
    assert more[|session|] in more;
    assert forall m :: m in more <==> m in session || m == more[|session|];
  }

  lemma AddTwice(session: Messages, id: nat, content: nat, qos: nat, now: nat, interval: nat)
    requires Contains(session, id)
    ensures !DistinctIds(Add(session, id, content, qos, now, interval))
  {
    var more := Add(session, id, content, qos, now, interval);
    var i :| 0 <= i < |session| && session[i].id == id;
    assert more[i].id == more[|session|].id;
  }

  lemma WithoutHeld(session: Messages, k: nat)
    requires DistinctIds(session) && k < |session|
    ensures var e := session[..k] + session[k + 1..];
            DistinctIds(e) && forall p :: p in Held(e) <==> p in Held(session) && p.0 != session[k].id
  {
    WithoutOne(session, k);
    var e := session[..k] + session[k + 1..];
    forall m | m in e ensures m.id != session[k].id {
      var i :| 0 <= i < |e| && e[i] == m;
    }
  }

  lemma EraseHeld(session: Messages, id: nat)
    requires DistinctIds(session)
    ensures DistinctIds(Erase(session, id))
    ensures forall p :: p in Held(Erase(session, id)) <==> p in Held(session) && p.0 != id
  {
    hide IndexOf, DistinctIds;
    if Contains(session, id) {
      WithoutHeld(session, IndexOf(session, id));
    } else {
      assert forall m :: m in session ==> m.id != id;
    }
  }

  lemma UpdateHeld(session: Messages, id: nat, status: Status, now: nat, interval: nat)
    requires DistinctIds(session)
    ensures DistinctIds(Update(session, id, status, now, interval))
    ensures Held(Update(session, id, status, now, interval)) == Held(session)
  {
    UpdateNeverMoves(session, id, status, now, interval);
    var u := Update(session, id, status, now, interval);
    hide Update;
    assert forall i :: 0 <= i < |session| ==> u[i].id == session[i].id && u[i].content == session[i].content;
    forall p | p in Held(u) ensures p in Held(session) {
      var m :| m in u && (m.id, m.content) == p;
      var i :| 0 <= i < |u| && u[i] == m;
      assert session[i] in session;
    }
    forall p | p in Held(session) ensures p in Held(u) {
      var m :| m in session && (m.id, m.content) == p;
      var i :| 0 <= i < |session| && session[i] == m;
      assert u[i] in u;
    }
  }

  lemma AddAwaited(pending: seq<Pending>, id: nat, content: nat)
    requires DistinctPending(pending) && forall c :: (id, c) !in Awaited(pending)
    ensures DistinctPending(pending + [Pending(id, content)])
    ensures Awaited(pending + [Pending(id, content)]) == Awaited(pending) + {(id, content)}
  {
    var more := pending + [Pending(id, content)];
    assert forall i :: 0 <= i < |pending| ==> (pending[i].id, pending[i].content) in Awaited(pending);
    assert more[|pending|] in more;
    assert forall p :: p in more <==> p in pending || p == more[|pending|];
  }

  lemma EraseAwaited(pending: seq<Pending>, id: nat)
    requires DistinctPending(pending)
    ensures DistinctPending(ErasePending(pending, id))
    ensures forall p :: p in Awaited(ErasePending(pending, id)) <==> p in Awaited(pending) && p.0 != id
  {
    var k := FindPending(pending, id);
    var e := ErasePending(pending, id);
    hide FindPending;
    if k < |pending| {
      assert forall i :: 0 <= i < |e| ==> e[i] == pending[if i < k then i else i + 1];
      assert pending == pending[..k] + [pending[k]] + pending[k + 1..];
      assert forall p :: p in e <==> p in pending && p.id != id;
    } else {
      assert forall p :: p in pending ==> p.id != id;
    }
  }

  // ---------------------------------------------------------------- exchanges, ids, and what is held

  predicate HoldsPublish(x: map<Key, Msg>, id: nat, c: nat) {
    Mine(id) in x && PublishFlow(x[Mine(id)].kind) && x[Mine(id)].content == c
  }

  predicate HoldsSubscribe(x: map<Key, Msg>, id: nat, c: nat) {
    Mine(id) in x && SubscribeFlow(x[Mine(id)].kind) && x[Mine(id)].content == c
  }

  predicate HoldsUnsubscribe(x: map<Key, Msg>, id: nat, c: nat) {
    Mine(id) in x && UnsubscribeFlow(x[Mine(id)].kind) && x[Mine(id)].content == c
  }

  /** A QoS 2 message of the broker that has arrived. */
  predicate HoldsTheirs(x: map<Key, Msg>, id: nat, c: nat) {
    Theirs(c) in x && x[Theirs(c)].kind != PacketType.Publish && x[Theirs(c)].id == id
  }

  /** An open exchange as it stands in the history. */
  predicate Open(k: Key, m: Msg) {
    && KeyOf(m) == k && m.live
    && (if m.mine then PublishFlow(m.kind) || SubscribeFlow(m.kind) || UnsubscribeFlow(m.kind)
        else m.kind in {PacketType.Publish, PublishReceived, PublishReleased, PublishComplete})
  }

  /** The ids in use are those of my open exchanges. The session holds my publishes and the broker's QoS 2
      messages that have arrived, the pending lists hold my subscribes and unsubscribes. No id is held on both sides. */
  ghost predicate Linked(x: map<Key, Msg>, used: set<nat>, session: set<(nat, nat)>, subs: set<(nat, nat)>, unsubs: set<(nat, nat)>) {
    && (forall k :: k in x ==> Open(k, x[k]))
    && (forall id: nat :: id in used <==> Mine(id) in x)
    && (forall id: nat, c: nat :: (id, c) in session <==> HoldsPublish(x, id, c) || HoldsTheirs(x, id, c))
    && (forall id: nat, c: nat :: (id, c) in subs <==> HoldsSubscribe(x, id, c))
    && (forall id: nat, c: nat :: (id, c) in unsubs <==> HoldsUnsubscribe(x, id, c))
    && (forall id: nat, c: nat :: HoldsTheirs(x, id, c) ==> id !in used)
  }

  function If(b: bool, p: (nat, nat)): set<(nat, nat)> {
    if b then {p} else {}
  }

  lemma LinkRequest(x: map<Key, Msg>, used: set<nat>, session: set<(nat, nat)>, subs: set<(nat, nat)>, unsubs: set<(nat, nat)>, m: Msg)
    requires Linked(x, used, session, subs, unsubs) && m.mine && Open(KeyOf(m), m) && m.id !in used
    requires forall c: nat :: (m.id, c) !in session
    ensures Linked(x[KeyOf(m) := m], used + {m.id}, session + If(PublishFlow(m.kind), (m.id, m.content)),
                   subs + If(SubscribeFlow(m.kind), (m.id, m.content)), unsubs + If(UnsubscribeFlow(m.kind), (m.id, m.content)))
  {
    var y := x[KeyOf(m) := m];
    assert forall id: nat, c: nat :: HoldsTheirs(y, id, c) <==> HoldsTheirs(x, id, c);
    assert forall id: nat, c: nat :: HoldsTheirs(x, id, c) ==> (id, c) in session;
    assert forall id: nat, c: nat :: HoldsPublish(y, id, c) <==> HoldsPublish(x, id, c) || (PublishFlow(m.kind) && (id, c) == (m.id, m.content));
  }

  /** A packet of the same exchange takes over. */
  lemma LinkMove(x: map<Key, Msg>, used: set<nat>, session: set<(nat, nat)>, subs: set<(nat, nat)>, unsubs: set<(nat, nat)>, m: Msg, n: Msg)
    requires Linked(x, used, session, subs, unsubs) && KeyOf(m) in x && x[KeyOf(m)] == m && Open(KeyOf(m), n)
    requires n.id == m.id && n.content == m.content && PublishFlow(n.kind) == PublishFlow(m.kind)
    requires SubscribeFlow(n.kind) == SubscribeFlow(m.kind)
    requires !m.mine ==> m.kind != PacketType.Publish && n.kind != PacketType.Publish
    ensures Linked(x[KeyOf(m) := n], used, session, subs, unsubs)
  {
    var y := x[KeyOf(m) := n];
    assert forall id: nat, c: nat :: HoldsTheirs(y, id, c) <==> HoldsTheirs(x, id, c);
    assert forall id: nat, c: nat :: HoldsPublish(y, id, c) <==> HoldsPublish(x, id, c);
  }

  lemma LinkOffer(x: map<Key, Msg>, used: set<nat>, session: set<(nat, nat)>, subs: set<(nat, nat)>, unsubs: set<(nat, nat)>, m: Msg)
    requires Linked(x, used, session, subs, unsubs) && !m.mine && Open(KeyOf(m), m) && KeyOf(m) !in x && m.kind == PacketType.Publish
    ensures Linked(x[KeyOf(m) := m], used, session, subs, unsubs)
  {
    var y := x[KeyOf(m) := m];
    assert forall id: nat, c: nat :: HoldsTheirs(y, id, c) <==> HoldsTheirs(x, id, c);
    assert forall id: nat, c: nat :: HoldsPublish(y, id, c) <==> HoldsPublish(x, id, c);
  }

  lemma LinkArrival(x: map<Key, Msg>, used: set<nat>, session: set<(nat, nat)>, subs: set<(nat, nat)>, unsubs: set<(nat, nat)>, m: Msg, n: Msg)
    requires Linked(x, used, session, subs, unsubs) && KeyOf(m) in x && x[KeyOf(m)] == m && !m.mine && m.kind == PacketType.Publish
    requires Open(KeyOf(m), n) && n.kind != PacketType.Publish && !n.mine && n.id == m.id && n.id !in used
    ensures Linked(x[KeyOf(m) := n], used, session + {(m.id, m.content)}, subs, unsubs)
  {
    var y := x[KeyOf(m) := n];
    assert forall id: nat, c: nat :: HoldsTheirs(y, id, c) <==> HoldsTheirs(x, id, c) || (id, c) == (m.id, m.content);
    assert forall id: nat, c: nat :: HoldsPublish(y, id, c) <==> HoldsPublish(x, id, c);
  }

  /** What is left of held things when an id's are gone. */
  ghost predicate Without(rest: set<(nat, nat)>, pairs: set<(nat, nat)>, id: nat) {
    forall p :: p in rest <==> p in pairs && p.0 != id
  }

  lemma LinkEndMine(x: map<Key, Msg>, used: set<nat>, session: set<(nat, nat)>, subs: set<(nat, nat)>, unsubs: set<(nat, nat)>,
                    m: Msg, session': set<(nat, nat)>, subs': set<(nat, nat)>, unsubs': set<(nat, nat)>)
    requires Linked(x, used, session, subs, unsubs) && m.mine && KeyOf(m) in x && x[KeyOf(m)] == m
    requires if PublishFlow(m.kind) then Without(session', session, m.id) else session' == session
    requires if SubscribeFlow(m.kind) then Without(subs', subs, m.id) else subs' == subs
    requires if UnsubscribeFlow(m.kind) then Without(unsubs', unsubs, m.id) else unsubs' == unsubs
    ensures Linked(x - {KeyOf(m)}, used - {m.id}, session', subs', unsubs')
  {
    var y := x - {KeyOf(m)};
    assert forall id: nat, c: nat :: HoldsTheirs(y, id, c) <==> HoldsTheirs(x, id, c);
    assert forall id: nat, c: nat :: HoldsPublish(y, id, c) <==> HoldsPublish(x, id, c) && id != m.id;
  }

  lemma LinkEndTheirs(x: map<Key, Msg>, used: set<nat>, session: set<(nat, nat)>, subs: set<(nat, nat)>, unsubs: set<(nat, nat)>,
                      m: Msg, session': set<(nat, nat)>)
    requires Linked(x, used, session, subs, unsubs) && !m.mine && KeyOf(m) in x && x[KeyOf(m)] == m && m.kind != PacketType.Publish
    requires Functional(session) && Without(session', session, m.id)
    ensures m.id !in used && Linked(x - {KeyOf(m)}, used, session', subs, unsubs)
  {
    var y := x - {KeyOf(m)};
    assert HoldsTheirs(x, m.id, m.content) && (m.id, m.content) in session;
    assert forall id: nat, c: nat :: HoldsTheirs(y, id, c) <==> HoldsTheirs(x, id, c) && c != m.content;
    assert forall id: nat, c: nat :: HoldsPublish(y, id, c) <==> HoldsPublish(x, id, c);
  }

  // ---------------------------------------------------------------- the invariant

  /** What the client composes. */
  predicate Composed(m: Msg) {
    m.mine == OfMine(m.kind) && m.live == Carries(m.kind, m.qos)
  }

  /** What goes to the broker: a PUBCOMP no longer carries its exchange. */
  predicate Going(m: Msg) {
    if m.kind == PublishComplete then !m.live && !m.mine else Composed(m)
  }

  /** What the broker sends. */
  predicate Coming(m: Msg) {
    if m.kind == PacketType.Publish then !m.mine && m.live == (m.qos == 2)
    else m.live && m.kind in (if m.mine then {PublishAck, PublishReceived, PublishComplete, SubscribeAck, UnsubscribeAck} else {PublishReleased})
  }

  /** A callback to come: the one for a PUBCOMP closes the exchange, the others only note a status. */
  predicate Announcing(m: Msg) {
    m.kind in {PublishReceived, PublishReleased, PublishComplete} && m.live == (m.kind == PublishComplete) && m.mine == (m.kind == PublishReleased)
  }

  ghost predicate Shapes(s: Sys) {
    && (forall m :: m in s.outbox ==> Composed(m))
    && (forall m :: m in s.toBroker ==> Going(m))
    && (forall m :: m in s.toClient ==> Coming(m))
    && (forall m :: m in s.unfired ==> Announcing(m))
  }

  ghost predicate Numbered(s: Sys) {
    && (forall k :: k in s.exchanges ==> s.exchanges[k].content < s.requests && s.exchanges[k].id < 0x1_0000)
    && (forall r :: r in s.accepted || r in s.done ==> r < s.requests)
  }

  /** My publish that has left the queue and is not finally acknowledged. */
  predicate InFlight(x: map<Key, Msg>, queued: multiset<Msg>, id: nat) {
    Mine(id) in x && PublishFlow(x[Mine(id)].kind) && !(x[Mine(id)].kind == PacketType.Publish && x[Mine(id)] in queued)
  }

  ghost predicate WindowOk(send: Window, x: map<Key, Msg>, queued: multiset<Msg>) {
    send.Balanced() && forall id: nat :: id in send.ids <==> InFlight(x, queued, id)
  }

  /** Accepted publishes are open until they are done, each under one id. */
  ghost predicate Remembered(x: map<Key, Msg>, accepted: map<nat, nat>, done: set<nat>) {
    && (forall r :: r in accepted ==> r in done || HoldsPublish(x, accepted[r], r))
    && (forall id: nat, c: nat :: HoldsPublish(x, id, c) ==> c !in done)
    && (forall id: nat, c: nat :: HoldsPublish(x, id, c) ==> c in accepted && accepted[c] == id)
  }

  /** The messages of ours are those with a QoS of their own, and those with QoS 1 alone wait for a PUBACK. */
  ghost predicate Told(session: Messages, used: set<nat>) {
    forall m :: m in session ==> (m.qos > 0 <==> m.id in used) && (m.status == WaitingForAck ==> m.qos == 1)
  }

  ghost predicate Books(c: Client, x: map<Key, Msg>) {
    && c.status.Connected? && c.pool.Valid() && Told(c.session, c.pool.used)
    && DistinctIds(c.session) && DistinctPending(c.subs) && DistinctPending(c.unsubs)
    && Linked(x, c.pool.used, Held(c.session), Awaited(c.subs), Awaited(c.unsubs))
  }

  ghost predicate Rest(s: Sys) {
    && Carried(s.exchanges, s.All())
    && Shapes(s) && Numbered(s)
    && WindowOk(s.send, s.exchanges, Waiting(s.client.jobs))
    && Remembered(s.exchanges, s.accepted, s.done)
  }

  ghost predicate Inv(s: Sys) {
    Books(s.client, s.exchanges) && Rest(s)
  }

  lemma ToldAdd(session: Messages, used: set<nat>, id: nat, content: nat, qos: nat, now: nat, interval: nat)
    requires Told(session, used) && !Contains(session, id)
    ensures qos > 0 ==> Told(Add(session, id, content, qos, now, interval), used + {id})
    ensures qos == 0 && id !in used ==> Told(Add(session, id, content, qos, now, interval), used)
    ensures Told(session, used + {id})
  {
    assert forall m :: m in session ==> m.id != id by {
      forall m | m in session ensures m.id != id {
        var i :| 0 <= i < |session| && session[i] == m;
      }
    }
  }

  lemma ToldErase(session: Messages, used: set<nat>, id: nat)
    requires Told(session, used) && DistinctIds(session)
    ensures Told(Erase(session, id), used - {id})
    ensures !Contains(session, id) ==> Told(session, used - {id})
  {
    EraseContents(session, id);
    EraseHeld(session, id);
    forall m | m in Erase(session, id) ensures m.id != id {
      assert (m.id, m.content) in Held(Erase(session, id));
    }
    hide Erase;
    if !Contains(session, id) {
      assert forall m :: m in session ==> m.id != id by {
        forall m | m in session ensures m.id != id {
          var i :| 0 <= i < |session| && session[i] == m;
        }
      }
    }
  }

  lemma ToldUpdate(session: Messages, used: set<nat>, id: nat, status: Status, now: nat, interval: nat)
    requires Told(session, used) && status != WaitingForAck
    ensures Told(Update(session, id, status, now, interval), used)
  {
    UpdateNeverMoves(session, id, status, now, interval);
    var u := Update(session, id, status, now, interval);
    hide Update;
    forall m | m in u ensures (m.qos > 0 <==> m.id in used) && (m.status == WaitingForAck ==> m.qos == 1) {
      var i :| 0 <= i < |u| && u[i] == m;
      assert session[i] in session;
    }
  }

  lemma NewInv(clientMaximum: nat, brokerMaximum: nat)
    ensures Inv(NewSys(clientMaximum, brokerMaximum))
  {
  }

  lemma {:induction false} WaitingSnoc(jobs: seq<Job>, job: Job)
    ensures Waiting(jobs + [job]) == Waiting(jobs) + multiset{JobMsg(job)}
  {
    if jobs == [] {
      assert jobs + [job] == [job];
    } else {
      assert (jobs + [job])[1..] == jobs[1..] + [job];
      WaitingSnoc(jobs[1..], job);
    }
  }

  lemma {:induction false} WaitingAppend(jobs: seq<Job>, more: seq<Job>)
    ensures Waiting(jobs + more) == Waiting(jobs) + Waiting(more)
  {
    if jobs == [] {
      assert jobs + more == more;
    } else {
      assert (jobs + more)[1..] == jobs[1..] + more;
      WaitingAppend(jobs[1..], more);
    }
  }
}
