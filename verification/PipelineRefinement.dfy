/** The outbound pipeline carries out the protocol's steps: a batch of the send queue is one `Composes`, then in
    each turn a `Transmits` for every packet the turn completes and a callback for every packet it announces. */
module PipelineRefinement {
  import opened Bytes
  import opened Packets
  import opened ReceiveMaximum
  import opened PacketIdPools
  import opened Sessions
  import opened SendPipes
  import opened SendPipeProperties
  import opened Clients
  import opened Protocol
  import opened ProtocolInvariant
  import SendPipeRuns

  // ---------------------------------------------------------------- packets accepted whole

  /** How many of the composed packets lie within the first `n` bytes of the stream. */
  function Whole(composed: seq<Job>, n: nat): (w: nat)
    ensures w <= |composed|
  {
    if composed == [] || |Stream(composed)| <= n then |composed| else Whole(composed[..|composed| - 1], n)
  }

  lemma {:induction false} WholeExactly(composed: seq<Job>, n: nat)
    ensures forall j :: 0 <= j < |composed| ==> (EndOf(composed, j) <= n <==> j < Whole(composed, n))
  {
    if composed != [] {
      var front := composed[..|composed| - 1];
      if |Stream(composed)| <= n {
        forall j | 0 <= j < |composed| ensures EndOf(composed, j) <= n {
          EndOfBound(composed, j);
        }
      } else {
        WholeExactly(front, n);
        forall j | 0 <= j < |front| ensures EndOf(composed, j) == EndOf(front, j) {
          EndOfPrefix(front, composed, j);
        }
        assert composed[..|front| + 1] == composed;
      }
    }
  }

  lemma WholeGrows(composed: seq<Job>, n: nat, later: nat)
    requires n <= later
    ensures Whole(composed, n) <= Whole(composed, later)
  {
    WholeExactly(composed, n);
    WholeExactly(composed, later);
    var w := Whole(composed, n);
    hide Whole;
    if w > 0 {
      assert EndOf(composed, w - 1) <= n;
    }
  }

  predicate NoneEmpty(jobs: seq<Job>) {
    forall i :: 0 <= i < |jobs| ==> EncodedBytes(jobs[i]) != []
  }

  lemma EndOfNew(composed: seq<Job>, more: seq<Job>, j: nat)
    requires composed <= more && |composed| <= j < |more| && EncodedBytes(more[j]) != []
    ensures EndOf(more, j) > |Stream(composed)|
  {
    assert more[..j + 1][..j] == more[..j];
    assert composed + more[|composed|..j] == more[..j];
    StreamAppend(composed, more[|composed|..j]);
  }

  /** Composing completes no packet. */
  lemma WholeOfMore(composed: seq<Job>, more: seq<Job>, n: nat)
    requires composed <= more && n <= |Stream(composed)| && NoneEmpty(more[|composed|..])
    ensures Whole(more, n) == Whole(composed, n)
  {
    WholeExactly(composed, n);
    WholeExactly(more, n);
    var w, v := Whole(composed, n), Whole(more, n);
    hide Whole, EndOf, EncodedBytes;
    if v < w {
      EndOfPrefix(composed, more, v);
    } else if w < v && w < |composed| {
      EndOfPrefix(composed, more, w);
    } else if w < v {
      assert more[|composed|..][0] == more[w];
      EndOfNew(composed, more, w);
    }
  }

  // ---------------------------------------------------------------- packets leaving

  /** What the callback for a packet is about, and what the broker gets of a packet. */
  function Note(job: Job): Msg {
    if job.kind == PublishComplete then JobMsg(job) else JobMsg(job).(live := false)
  }

  function Delivery(job: Job): Msg {
    if job.kind == PublishComplete then JobMsg(job).(live := false) else JobMsg(job)
  }

  function Deliveries(jobs: seq<Job>): multiset<Msg> {
    if jobs == [] then multiset{} else multiset{Delivery(jobs[0])} + Deliveries(jobs[1..])
  }

  /** The callback to come for packet `i`, unless it has been made. */
  function Owed(composed: seq<Job>, i: nat, fired: set<nat>): multiset<Msg>
    requires i < |composed|
  {
    if Announced(composed[i].kind) && i !in fired then multiset{Note(composed[i])} else multiset{}
  }

  /** The callbacks to come for the first `whole` packets, those for the jobs in `fired` having been made. */
  function Unfired(composed: seq<Job>, whole: nat, fired: set<nat>): multiset<Msg>
    requires whole <= |composed|
  {
    if whole == 0 then multiset{} else Unfired(composed, whole - 1, fired) + Owed(composed, whole - 1, fired)
  }

  predicate NoDisconnect(jobs: seq<Job>) {
    forall i :: 0 <= i < |jobs| ==> jobs[i].kind != PacketType.Disconnect
  }

  lemma {:induction false} GoesOn(s: Sys, a: seq<Step>, b: seq<Step>)
    requires Goes(s, a) && Goes(Reached(s, a), b)
    ensures Goes(s, a + b) && Reached(s, a + b) == Reached(Reached(s, a), b)
    decreases |a|
  {
    hide Enabled, Next;
    if a == [] {
      assert a + b == b;
    } else {
      assert (a + b)[1..] == a[1..] + b;
      GoesOn(Next(s, a[0]), a[1..], b);
    }
  }

  lemma OneStep(s: Sys, step: Step)
    requires s.client.status.Connected? && Enabled(s, step)
    ensures Goes(s, [step]) && Reached(s, [step]) == Next(s, step)
  {
    hide Enabled, Next;
    assert [step][1..] == [];
    assert Goes(Next(s, step), []);
  }

  /** Where a run leads from which state. */
  predicate Leads(s: Sys, steps: seq<Step>, t: Sys) {
    Goes(s, steps) && Reached(s, steps) == t
  }

  lemma LeadsOn(s: Sys, a: seq<Step>, t: Sys, b: seq<Step>, u: Sys)
    requires Leads(s, a, t) && Leads(t, b, u)
    ensures Leads(s, a + b, u)
  {
    hide Goes, Reached;
    GoesOn(s, a, b);
  }

  function Left(s: Sys, composed: seq<Job>, whole: nat, fired: set<nat>, delivered: multiset<Msg>): Sys
    requires whole <= |composed|
  {
    s.(outbox := Waiting(composed[whole..]), unfired := Unfired(composed, whole, fired), toBroker := s.toBroker + delivered)
  }

  lemma TransmittedIs(s: Sys, job: Job)
    requires job.kind != PacketType.Disconnect
    ensures Transmitted(s, JobMsg(job))
         == s.(outbox := s.outbox - multiset{JobMsg(job)}, toBroker := s.toBroker + multiset{Delivery(job)},
               unfired := s.unfired + if Announced(job.kind) then multiset{Note(job)} else multiset{})
  {
    hide Carries, OfMine;
  }

  lemma TransmitOne(s: Sys, composed: seq<Job>, w: nat, fired: set<nat>)
    requires w < |composed| && s.client.status.Connected? && NoDisconnect(composed) && w !in fired
    requires s.outbox == Waiting(composed[w..]) && s.unfired == Unfired(composed, w, fired)
    ensures Leads(s, [Transmits(JobMsg(composed[w]))], Left(s, composed, w + 1, fired, multiset{Delivery(composed[w])}))
  {
    hide Waiting, Unfired, JobMsg, Transmitted, Note, Delivery, Announced, Goes, Reached;
    var m, rest := JobMsg(composed[w]), Waiting(composed[w + 1..]);
    FirstWaiting(composed, w);
    UnfiredStep(composed, w, fired);
    TransmittedIs(s, composed[w]);
    assert m.kind == composed[w].kind by { KindOf(composed[w]); }
    OneStep(s, Transmits(m));
    FirstLess(m, rest);
  }

  lemma KindOf(job: Job)
    ensures JobMsg(job).kind == job.kind
  {
  }

  lemma FirstLess(m: Msg, a: multiset<Msg>)
    ensures m in multiset{m} + a && multiset{m} + a - multiset{m} == a
  {
  }

  lemma FirstWaiting(composed: seq<Job>, w: nat)
    requires w < |composed|
    ensures Waiting(composed[w..]) == multiset{JobMsg(composed[w])} + Waiting(composed[w + 1..])
    ensures w < |composed| ==> JobMsg(composed[w]) in Waiting(composed[w..])
  {
    assert composed[w..][1..] == composed[w + 1..];
    hide JobMsg;
  }

  lemma UnfiredStep(composed: seq<Job>, w: nat, fired: set<nat>)
    requires w < |composed| && w !in fired
    ensures Unfired(composed, w + 1, fired)
         == Unfired(composed, w, fired) + if Announced(composed[w].kind) then multiset{Note(composed[w])} else multiset{}
  {
  }

  predicate AllTransmits(steps: seq<Step>) {
    forall i :: 0 <= i < |steps| ==> steps[i].Transmits?
  }

  function TransmitsOf(composed: seq<Job>, w: nat, v: nat): seq<Step>
    requires w <= v <= |composed|
    decreases v - w
  {
    if w == v then [] else [Transmits(JobMsg(composed[w]))] + TransmitsOf(composed, w + 1, v)
  }

  /** The packets from number `w` up to `v` leave one after the other. */
  lemma {:induction false} TransmitMany(s: Sys, composed: seq<Job>, w: nat, v: nat, fired: set<nat>)
    requires w <= v <= |composed| && s.client.status.Connected? && NoDisconnect(composed) && forall j :: j in fired ==> j < w
    requires s.outbox == Waiting(composed[w..]) && s.unfired == Unfired(composed, w, fired)
    ensures Leads(s, TransmitsOf(composed, w, v), Left(s, composed, v, fired, Deliveries(composed[w..v])))
    ensures AllTransmits(TransmitsOf(composed, w, v))
    decreases v - w
  {
    hide Waiting, Unfired, Leads, Delivery, Deliveries;
    if w == v {
      NothingLeft(s, composed, w, fired);
    } else {
      TransmitOne(s, composed, w, fired);
      var t := Left(s, composed, w + 1, fired, multiset{Delivery(composed[w])});
      FirstDelivery(composed, w, v);
      TransmitMany(t, composed, w + 1, v, fired);
      var rest := TransmitsOf(composed, w + 1, v);
      LeadsOn(s, [Transmits(JobMsg(composed[w]))], t, rest, Left(t, composed, v, fired, Deliveries(composed[w + 1..v])));
      Reassociated(s.toBroker, multiset{Delivery(composed[w])}, Deliveries(composed[w + 1..v]));
    }
  }

  lemma NothingLeft(s: Sys, composed: seq<Job>, w: nat, fired: set<nat>)
    requires w <= |composed| && s.outbox == Waiting(composed[w..]) && s.unfired == Unfired(composed, w, fired)
    ensures Leads(s, [], Left(s, composed, w, fired, Deliveries(composed[w..w])))
  {
    hide Waiting, Unfired;
  }

  lemma FirstDelivery(composed: seq<Job>, w: nat, v: nat)
    requires w < v <= |composed|
    ensures Deliveries(composed[w..v]) == multiset{Delivery(composed[w])} + Deliveries(composed[w + 1..v])
  {
    assert composed[w..v][1..] == composed[w + 1..v];
    hide Delivery;
  }

  lemma Reassociated(a: multiset<Msg>, b: multiset<Msg>, c: multiset<Msg>)
    ensures a + b + c == a + (b + c)
  {
  }

  // ---------------------------------------------------------------- callbacks

  /** All a callback is told: the packet's type and id. */
  function Reported(t: Tracked): Msg {
    Msg(t.kind, 0, t.id, 0, false, false, false)
  }

  /** The client after the callbacks, in order; the `k`-th of the connection is made at `clock(k)`. */
  function AllCalledBack(c: Client, more: seq<Firing>, clock: nat -> nat, interval: nat, k: nat): Client
    decreases |more|
  {
    if more == [] then c
    else AllCalledBack(CalledBack(c, Reported(more[0].packet), clock(k), interval), more[1..], clock, interval, k + 1)
  }

  /** The program survives each of them. */
  predicate AllSurvived(c: Client, more: seq<Firing>, clock: nat -> nat, interval: nat, k: nat)
    decreases |more|
  {
    more == []
    || (Survives(c, Reported(more[0].packet))
        && AllSurvived(CalledBack(c, Reported(more[0].packet), clock(k), interval), more[1..], clock, interval, k + 1))
  }

  function Jobs(fired: seq<Firing>): set<nat> {
    set i | 0 <= i < |fired| :: fired[i].packet.job
  }

  /** The callback belongs to one of the first `whole` packets, and says what it is. */
  predicate Belongs(composed: seq<Job>, whole: nat, t: Tracked)
    requires whole <= |composed|
  {
    t.job < whole && Announced(composed[t.job].kind) && t.kind == composed[t.job].kind && t.id == composed[t.job].id
  }

  predicate AllBelong(composed: seq<Job>, whole: nat, more: seq<Firing>)
    requires whole <= |composed|
  {
    forall i :: 0 <= i < |more| ==> Belongs(composed, whole, more[i].packet)
  }

  /** The callbacks made, and the exchanges closed by those for a PUBCOMP made for the first time. */
  function Made(composed: seq<Job>, more: seq<Firing>): set<Msg> {
    set i | 0 <= i < |more| && more[i].packet.job < |composed| :: Note(composed[more[i].packet.job])
  }

  function Closed(composed: seq<Job>, fired: set<nat>, more: seq<Firing>): set<Key> {
    set i | 0 <= i < |more| && more[i].packet.job < |composed| && more[i].packet.job !in fired
            && composed[more[i].packet.job].kind == PublishComplete :: KeyOf(Note(composed[more[i].packet.job]))
  }

  predicate Once(fired: seq<Firing>) {
    forall i, j :: 0 <= i < j < |fired| ==> fired[i].packet.job != fired[j].packet.job
  }

  /** Callbacks to come turn into callbacks made, and the client takes note. */
  function WithCallbacks(s: Sys, composed: seq<Job>, whole: nat, fired: seq<Firing>, more: seq<Firing>, clock: nat -> nat, interval: nat): Sys
    requires whole <= |composed|
  {
    s.(unfired := Unfired(composed, whole, Jobs(fired + more)), made := s.made + Made(composed, more),
       client := AllCalledBack(s.client, more, clock, interval, |fired|), exchanges := s.exchanges - Closed(composed, Jobs(fired), more))
  }

  predicate CallbackSteps(steps: seq<Step>, once: bool) {
    forall i :: 0 <= i < |steps| ==> steps[i].Fires? || (steps[i].Repeats? && !once)
  }

  lemma OwedOnce(composed: seq<Job>, i: nat, fired: set<nat>, j: nat)
    requires i < |composed| && (i == j ==> Announced(composed[j].kind) && j !in fired)
    ensures i != j ==> Owed(composed, i, fired + {j}) == Owed(composed, i, fired)
    ensures i == j ==> Owed(composed, i, fired) == multiset{Note(composed[j])} && Owed(composed, i, fired + {j}) == multiset{}
  {
    hide Note, Announced;
  }

  lemma {:induction false} UnfiredFires(composed: seq<Job>, whole: nat, fired: set<nat>, j: nat)
    requires j < whole <= |composed| && Announced(composed[j].kind) && j !in fired
    ensures Note(composed[j]) in Unfired(composed, whole, fired)
    ensures Unfired(composed, whole, fired + {j}) == Unfired(composed, whole, fired) - multiset{Note(composed[j])}
  {
    hide Note, Announced, Owed;
    OwedOnce(composed, whole - 1, fired, j);
    if j < whole - 1 {
      UnfiredFires(composed, whole - 1, fired, j);
      LessOf(Unfired(composed, whole - 1, fired), Note(composed[j]), Owed(composed, whole - 1, fired));
    } else {
      UnfiredBeyond(composed, whole - 1, fired, j);
      MoreLess(Unfired(composed, whole - 1, fired), Note(composed[j]));
    }
  }

  lemma LessOf(a: multiset<Msg>, m: Msg, b: multiset<Msg>)
    requires m in a
    ensures m in a + b && a - multiset{m} + b == a + b - multiset{m}
  {
  }

  lemma MoreLess(a: multiset<Msg>, m: Msg)
    ensures m in a + multiset{m} && a + multiset{m} - multiset{m} == a + multiset{} == a
  {
  }

  lemma {:induction false} UnfiredBeyond(composed: seq<Job>, whole: nat, fired: set<nat>, j: nat)
    requires whole <= j && whole <= |composed|
    ensures Unfired(composed, whole, fired + {j}) == Unfired(composed, whole, fired)
  {
    hide Owed, Announced;
    if whole > 0 {
      UnfiredBeyond(composed, whole - 1, fired, j);
      OwedOnce(composed, whole - 1, fired, j);
    }
  }

  /** What a callback does to the client depends on the packet's type and id only. */
  lemma ReportIsEnough(c: Client, t: Tracked, job: Job, now: nat, interval: nat)
    requires t.kind == job.kind && t.id == job.id
    ensures CalledBack(c, Note(job), now, interval) == CalledBack(c, Reported(t), now, interval)
    ensures Survives(c, Note(job)) == Survives(c, Reported(t))
    ensures CalledBack(c, Reported(t), now, interval).status == c.status
  {
  }

  lemma JobsSnoc(fired: seq<Firing>, f: Firing)
    ensures Jobs(fired + [f]) == Jobs(fired) + {f.packet.job}
  {
    var more := fired + [f];
    assert forall i :: 0 <= i < |fired| ==> more[i] == fired[i];
    assert more[|fired|] == f;
  }

  lemma MadeSteps(composed: seq<Job>, fired: set<nat>, more: seq<Firing>)
    requires more != [] && more[0].packet.job < |composed|
    ensures var job := composed[more[0].packet.job];
            && Made(composed, more) == {Note(job)} + Made(composed, more[1..])
            && Closed(composed, fired, more)
               == (if job.kind == PublishComplete && more[0].packet.job !in fired then {KeyOf(Note(job))} else {})
                  + Closed(composed, fired + {more[0].packet.job}, more[1..])
  {
    var rest := more[1..];
    hide Note, KeyOf;
    assert forall i :: 0 <= i < |rest| ==> rest[i] == more[i + 1];
    assert forall i :: 1 <= i < |more| ==> more[i] == rest[i - 1];
  }

  lemma OneCallback(s: Sys, composed: seq<Job>, whole: nat, fired: seq<Firing>, f: Firing, clock: nat -> nat, interval: nat)
    requires whole <= |composed| && f.packet.job < |composed|
    ensures var j := f.packet.job;
            WithCallbacks(s, composed, whole, fired, [f], clock, interval)
            == s.(unfired := Unfired(composed, whole, Jobs(fired) + {j}), made := s.made + {Note(composed[j])},
                  client := CalledBack(s.client, Reported(f.packet), clock(|fired|), interval),
                  exchanges := s.exchanges - if composed[j].kind == PublishComplete && j !in Jobs(fired) then {KeyOf(Note(composed[j]))} else {})
  {
    hide CalledBack, Jobs, Made, Closed, Unfired, Note, KeyOf, Reported;
    var j := f.packet.job;
    JobsSnoc(fired, f);
    MadeSteps(composed, Jobs(fired), [f]);
    NothingMade(composed, Jobs(fired) + {j});
    assert [f][1..] == [];
    assert AllCalledBack(CalledBack(s.client, Reported(f.packet), clock(|fired|), interval), [], clock, interval, |fired| + 1)
        == CalledBack(s.client, Reported(f.packet), clock(|fired|), interval);
  }

  lemma FiredIs(s: Sys, job: Job, now: nat, interval: nat)
    requires Announced(job.kind) && job.kind != PacketType.Disconnect
    ensures Fired(s, Note(job), now, interval)
         == s.(unfired := s.unfired - multiset{Note(job)}, made := s.made + {Note(job)}, client := CalledBack(s.client, Note(job), now, interval),
               exchanges := s.exchanges - if job.kind == PublishComplete then {KeyOf(Note(job))} else {})
  {
    hide CalledBack;
    assert s.exchanges - {} == s.exchanges;
  }

  /** A packet is announced for the first time. */
  lemma FireOne(s: Sys, composed: seq<Job>, whole: nat, fired: seq<Firing>, f: Firing, clock: nat -> nat, interval: nat)
    requires whole <= |composed| && s.client.status.Connected? && s.unfired == Unfired(composed, whole, Jobs(fired))
    requires Belongs(composed, whole, f.packet) && f.packet.kind != PacketType.Disconnect && Survives(s.client, Reported(f.packet))
    requires f.packet.job !in Jobs(fired)
    ensures Leads(s, [Fires(Note(composed[f.packet.job]), clock(|fired|), interval)],
                  WithCallbacks(s, composed, whole, fired, [f], clock, interval))
  {
    hide CalledBack, Survives, Jobs, Unfired, Note, Fired, WithCallbacks, Goes, Reached, Reported, KeyOf;
    var j, now := f.packet.job, clock(|fired|);
    ReportIsEnough(s.client, f.packet, composed[j], now, interval);
    OneCallback(s, composed, whole, fired, f, clock, interval);
    UnfiredFires(composed, whole, Jobs(fired), j);
    FiredIs(s, composed[j], now, interval);
    OneStep(s, Fires(Note(composed[j]), now, interval));
  }

  /** A packet is announced again. */
  lemma RepeatOne(s: Sys, composed: seq<Job>, whole: nat, fired: seq<Firing>, f: Firing, clock: nat -> nat, interval: nat)
    requires whole <= |composed| && s.client.status.Connected? && s.unfired == Unfired(composed, whole, Jobs(fired))
    requires Belongs(composed, whole, f.packet) && Survives(s.client, Reported(f.packet))
    requires f.packet.job in Jobs(fired) && Note(composed[f.packet.job]) in s.made
    ensures Leads(s, [Repeats(Note(composed[f.packet.job]), clock(|fired|), interval)],
                  WithCallbacks(s, composed, whole, fired, [f], clock, interval))
  {
    hide CalledBack, Survives, Jobs, Unfired, Note, WithCallbacks, Goes, Reached, Reported, KeyOf;
    var j, now := f.packet.job, clock(|fired|);
    ReportIsEnough(s.client, f.packet, composed[j], now, interval);
    OneCallback(s, composed, whole, fired, f, clock, interval);
    assert Jobs(fired) + {j} == Jobs(fired) && s.made + {Note(composed[j])} == s.made && s.exchanges - {} == s.exchanges;
    OneStep(s, Repeats(Note(composed[j]), now, interval));
  }

  lemma NothingMade(composed: seq<Job>, fired: set<nat>)
    ensures Made(composed, []) == {} && Closed(composed, fired, []) == {}
  {
  }

  // ---------------------------------------------------------------- callbacks one after the other

  lemma {:induction false} CalledBackAppend(c: Client, a: seq<Firing>, b: seq<Firing>, clock: nat -> nat, interval: nat, k: nat)
    ensures AllCalledBack(c, a + b, clock, interval, k) == AllCalledBack(AllCalledBack(c, a, clock, interval, k), b, clock, interval, k + |a|)
    ensures AllSurvived(c, a + b, clock, interval, k)
       <==> AllSurvived(c, a, clock, interval, k) && AllSurvived(AllCalledBack(c, a, clock, interval, k), b, clock, interval, k + |a|)
    decreases |a|
  {
    hide CalledBack, Survives;
    if a == [] {
      assert a + b == b;
    } else {
      assert (a + b)[1..] == a[1..] + b;
      CalledBackAppend(CalledBack(c, Reported(a[0].packet), clock(k), interval), a[1..], b, clock, interval, k + 1);
    }
  }

  lemma {:induction false} StaysConnected(c: Client, more: seq<Firing>, clock: nat -> nat, interval: nat, k: nat)
    ensures AllCalledBack(c, more, clock, interval, k).status == c.status
    ensures AllCalledBack(c, more, clock, interval, k).jobs == c.jobs
    decreases |more|
  {
    if more != [] {
      var d := CalledBack(c, Reported(more[0].packet), clock(k), interval);
      assert d.status == c.status && d.jobs == c.jobs;
      hide CalledBack;
      StaysConnected(d, more[1..], clock, interval, k + 1);
    }
  }

  lemma JobsAppend(a: seq<Firing>, b: seq<Firing>)
    ensures Jobs(a + b) == Jobs(a) + Jobs(b)
  {
    var c := a + b;
    assert forall i :: 0 <= i < |a| ==> c[i] == a[i];
    assert forall i :: 0 <= i < |b| ==> c[|a| + i] == b[i];
    assert forall i :: |a| <= i < |c| ==> c[i] == b[i - |a|];
  }

  lemma MadeAppend(composed: seq<Job>, a: seq<Firing>, b: seq<Firing>)
    ensures Made(composed, a + b) == Made(composed, a) + Made(composed, b)
  {
    hide Note;
    var c := a + b;
    assert forall i :: 0 <= i < |a| ==> c[i] == a[i];
    assert forall i :: 0 <= i < |b| ==> c[|a| + i] == b[i];
    assert forall i :: |a| <= i < |c| ==> c[i] == b[i - |a|];
  }

  lemma ClosedAppend(composed: seq<Job>, fired: set<nat>, a: seq<Firing>, b: seq<Firing>)
    ensures Closed(composed, fired, a + b) == Closed(composed, fired, a) + Closed(composed, fired + Jobs(a), b)
  {
    hide Note, KeyOf;
    var c := a + b;
    assert forall i :: 0 <= i < |a| ==> c[i] == a[i];
    assert forall i :: 0 <= i < |b| ==> c[|a| + i] == b[i];
    assert forall i :: |a| <= i < |c| ==> c[i] == b[i - |a|];
  }

  /** What has left and been announced so far, and the client connected. */
  ghost predicate Ready(s: Sys, composed: seq<Job>, whole: nat, fired: seq<Firing>)
    requires whole <= |composed|
  {
    && s.client.status.Connected?
    && s.outbox == Waiting(composed[whole..]) && s.unfired == Unfired(composed, whole, Jobs(fired))
    && forall j :: j in Jobs(fired) ==> j < whole && Note(composed[j]) in s.made
  }

  lemma CallbacksKeepReady(s: Sys, composed: seq<Job>, whole: nat, fired: seq<Firing>, more: seq<Firing>, clock: nat -> nat, interval: nat)
    requires whole <= |composed| && Ready(s, composed, whole, fired) && AllBelong(composed, whole, more)
    ensures Ready(WithCallbacks(s, composed, whole, fired, more, clock, interval), composed, whole, fired + more)
  {
    hide Waiting, Unfired, Note, AllCalledBack, Closed;
    StaysConnected(s.client, more, clock, interval, |fired|);
    JobsAppend(fired, more);
    forall j | j in Jobs(more) ensures j < whole && Note(composed[j]) in Made(composed, more) {
      var i :| 0 <= i < |more| && more[i].packet.job == j;
      assert Belongs(composed, whole, more[i].packet);
    }
  }

  lemma CallbacksJoin(s: Sys, composed: seq<Job>, whole: nat, fired: seq<Firing>, a: seq<Firing>, b: seq<Firing>, clock: nat -> nat, interval: nat)
    requires whole <= |composed|
    ensures WithCallbacks(WithCallbacks(s, composed, whole, fired, a, clock, interval), composed, whole, fired + a, b, clock, interval)
         == WithCallbacks(s, composed, whole, fired, a + b, clock, interval)
  {
    hide AllCalledBack, AllSurvived, Made, Closed, Unfired, Jobs;
    CalledBackAppend(s.client, a, b, clock, interval, |fired|);
    MadeAppend(composed, a, b);
    ClosedAppend(composed, Jobs(fired), a, b);
    JobsAppend(fired, a);
    assert fired + a + b == fired + (a + b);
    Joined(s.made, Made(composed, a), Made(composed, b));
    TakenAway(s.exchanges, Closed(composed, Jobs(fired), a), Closed(composed, Jobs(fired) + Jobs(a), b));
  }

  lemma Joined(a: set<Msg>, b: set<Msg>, c: set<Msg>)
    ensures a + b + c == a + (b + c)
  {
  }

  lemma TakenAway(x: map<Key, Msg>, a: set<Key>, b: set<Key>)
    ensures x - a - b == x - (a + b)
  {
  }

  lemma NoCallbacks(s: Sys, composed: seq<Job>, whole: nat, fired: seq<Firing>, clock: nat -> nat, interval: nat)
    requires whole <= |composed| && s.unfired == Unfired(composed, whole, Jobs(fired))
    ensures Leads(s, [], WithCallbacks(s, composed, whole, fired, [], clock, interval))
  {
    assert fired + [] == fired;
    NothingMade(composed, Jobs(fired));
    hide Unfired, Jobs, Made, Closed;
    assert s.made + {} == s.made && s.exchanges - {} == s.exchanges;
  }

  lemma OneOfMany(composed: seq<Job>, whole: nat, fired: seq<Firing>, more: seq<Firing>)
    requires whole <= |composed| && more != [] && AllBelong(composed, whole, more) && NoDisconnect(composed)
    ensures Belongs(composed, whole, more[0].packet) && more[0].packet.kind != PacketType.Disconnect
    ensures AllBelong(composed, whole, [more[0]]) && AllBelong(composed, whole, more[1..])
    ensures [more[0]] + more[1..] == more && fired + [more[0]] + more[1..] == fired + more
    ensures more[0].packet.job in Jobs(fired) ==> !Once(fired + more)
  {
    hide Announced;
    if more[0].packet.job in Jobs(fired) {
      var i :| 0 <= i < |fired| && fired[i].packet.job == more[0].packet.job;
      assert (fired + more)[i] == fired[i] && (fired + more)[|fired|] == more[0];
    }
  }

  /** The callback as a step: for a packet announced for the first time, or again. */
  function CallbackOf(composed: seq<Job>, fired: seq<Firing>, f: Firing, clock: nat -> nat, interval: nat): Step
    requires f.packet.job < |composed|
  {
    var m := Note(composed[f.packet.job]);
    if f.packet.job in Jobs(fired) then Repeats(m, clock(|fired|), interval) else Fires(m, clock(|fired|), interval)
  }

  /** The steps of callbacks made in order, of packets that have been composed. */
  function CallbacksOf(composed: seq<Job>, fired: seq<Firing>, more: seq<Firing>, clock: nat -> nat, interval: nat): seq<Step>
    decreases |more|
  {
    if more == [] || more[0].packet.job >= |composed| then []
    else [CallbackOf(composed, fired, more[0], clock, interval)] + CallbacksOf(composed, fired + [more[0]], more[1..], clock, interval)
  }

  /** Callbacks made in order are so many steps, none of them a repetition if each packet has only one. */
  lemma {:induction false} CallBackMany(s: Sys, composed: seq<Job>, whole: nat, fired: seq<Firing>, more: seq<Firing>, clock: nat -> nat, interval: nat)
    requires whole <= |composed| && Ready(s, composed, whole, fired) && NoDisconnect(composed)
    requires AllBelong(composed, whole, more) && AllSurvived(s.client, more, clock, interval, |fired|)
    ensures Leads(s, CallbacksOf(composed, fired, more, clock, interval), WithCallbacks(s, composed, whole, fired, more, clock, interval))
    ensures CallbackSteps(CallbacksOf(composed, fired, more, clock, interval), Once(fired + more))
    decreases |more|
  {
    hide Waiting, Unfired, Note, AllCalledBack, Survives, CalledBack, Leads, WithCallbacks, AllBelong, Belongs, Made, Closed, Jobs, NoDisconnect, Once, CallbackOf;
    if more == [] {
      NoCallbacks(s, composed, whole, fired, clock, interval);
    } else {
      var f, rest := more[0], more[1..];
      OneOfMany(composed, whole, fired, more);
      CalledBackAppend(s.client, [f], rest, clock, interval, |fired|);
      FirstSurvived(s.client, more, clock, interval, |fired|);
      assert f.packet.job < |composed| by { BelongsToOne(composed, whole, f.packet); }
      var first := CallbackOf(composed, fired, f, clock, interval);
      OneStepOf(s, composed, whole, fired, f, clock, interval);
      var t := WithCallbacks(s, composed, whole, fired, [f], clock, interval);
      CallbacksKeepReady(s, composed, whole, fired, [f], clock, interval);
      CallbacksJoin(s, composed, whole, fired, [f], rest, clock, interval);
      ClientAfter(s, composed, whole, fired, [f], clock, interval);
      CallBackMany(t, composed, whole, fired + [f], rest, clock, interval);
      var others := CallbacksOf(composed, fired + [f], rest, clock, interval);
      LeadsOn(s, [first], t, others, WithCallbacks(t, composed, whole, fired + [f], rest, clock, interval));
    }
  }

  lemma ClientAfter(s: Sys, composed: seq<Job>, whole: nat, fired: seq<Firing>, more: seq<Firing>, clock: nat -> nat, interval: nat)
    requires whole <= |composed|
    ensures WithCallbacks(s, composed, whole, fired, more, clock, interval).client == AllCalledBack(s.client, more, clock, interval, |fired|)
  {
  }

  lemma FirstSurvived(c: Client, more: seq<Firing>, clock: nat -> nat, interval: nat, k: nat)
    requires more != [] && AllSurvived(c, more, clock, interval, k)
    ensures Survives(c, Reported(more[0].packet))
  {
  }

  lemma BelongsToOne(composed: seq<Job>, whole: nat, t: Tracked)
    requires whole <= |composed| && Belongs(composed, whole, t)
    ensures t.job < |composed|
  {
  }

  lemma OneStepOf(s: Sys, composed: seq<Job>, whole: nat, fired: seq<Firing>, f: Firing, clock: nat -> nat, interval: nat)
    requires whole <= |composed| && Ready(s, composed, whole, fired) && f.packet.job < |composed|
    requires Belongs(composed, whole, f.packet) && f.packet.kind != PacketType.Disconnect && Survives(s.client, Reported(f.packet))
    ensures var step := CallbackOf(composed, fired, f, clock, interval);
            && Leads(s, [step], WithCallbacks(s, composed, whole, fired, [f], clock, interval))
            && (step.Fires? || (step.Repeats? && f.packet.job in Jobs(fired)))
  {
    hide Leads, WithCallbacks, Survives;
    if f.packet.job in Jobs(fired) {
      RepeatOne(s, composed, whole, fired, f, clock, interval);
    } else {
      FireOne(s, composed, whole, fired, f, clock, interval);
    }
  }

  // ---------------------------------------------------------------- one turn

  predicate SendSteps(steps: seq<Step>, once: bool) {
    forall i :: 0 <= i < |steps| ==> steps[i].Transmits? || steps[i].Fires? || (steps[i].Repeats? && !once)
  }

  /** The packets from `w` up to `v` have left, and then the callbacks were made. */
  function Turned(s: Sys, composed: seq<Job>, w: nat, v: nat, fired: seq<Firing>, more: seq<Firing>, clock: nat -> nat, interval: nat): Sys
    requires w <= v <= |composed|
  {
    WithCallbacks(Left(s, composed, v, Jobs(fired), Deliveries(composed[w..v])), composed, v, fired, more, clock, interval)
  }

  lemma LeavingKeepsReady(s: Sys, composed: seq<Job>, w: nat, v: nat, fired: seq<Firing>)
    requires w <= v <= |composed| && Ready(s, composed, w, fired)
    ensures Ready(Left(s, composed, v, Jobs(fired), Deliveries(composed[w..v])), composed, v, fired)
  {
    hide Waiting, Unfired, Jobs, Deliveries, Note;
  }

  function TurnOf(composed: seq<Job>, w: nat, v: nat, fired: seq<Firing>, more: seq<Firing>, clock: nat -> nat, interval: nat): seq<Step>
    requires w <= v <= |composed|
  {
    TransmitsOf(composed, w, v) + CallbacksOf(composed, fired, more, clock, interval)
  }

  lemma TurnSteps(s: Sys, composed: seq<Job>, w: nat, v: nat, fired: seq<Firing>, more: seq<Firing>, clock: nat -> nat, interval: nat)
    requires w <= v <= |composed| && Ready(s, composed, w, fired) && NoDisconnect(composed)
    requires AllBelong(composed, v, more) && AllSurvived(s.client, more, clock, interval, |fired|)
    ensures Leads(s, TurnOf(composed, w, v, fired, more, clock, interval), Turned(s, composed, w, v, fired, more, clock, interval))
    ensures Ready(Turned(s, composed, w, v, fired, more, clock, interval), composed, v, fired + more)
    ensures SendSteps(TurnOf(composed, w, v, fired, more, clock, interval), Once(fired + more))
  {
    hide Waiting, Unfired, Note, AllCalledBack, AllSurvived, Leads, WithCallbacks, AllBelong, Belongs, Made, Closed, Jobs, NoDisconnect, Once, Deliveries, TransmitsOf, CallbacksOf;
    var leaving, calling := TransmitsOf(composed, w, v), CallbacksOf(composed, fired, more, clock, interval);
    TransmitMany(s, composed, w, v, Jobs(fired));
    var t := Left(s, composed, v, Jobs(fired), Deliveries(composed[w..v]));
    LeavingKeepsReady(s, composed, w, v, fired);
    CallBackMany(t, composed, v, fired, more, clock, interval);
    CallbacksKeepReady(t, composed, v, fired, more, clock, interval);
    LeadsOn(s, leaving, t, calling, WithCallbacks(t, composed, v, fired, more, clock, interval));
  }

  lemma {:induction false} DeliveriesAppend(a: seq<Job>, b: seq<Job>)
    ensures Deliveries(a + b) == Deliveries(a) + Deliveries(b)
  {
    hide Delivery;
    if a == [] {
      assert a + b == b;
    } else {
      assert (a + b)[1..] == a[1..] + b;
      DeliveriesAppend(a[1..], b);
    }
  }

  lemma TurnsJoin(s: Sys, composed: seq<Job>, w: nat, v: nat, u: nat, fired: seq<Firing>, a: seq<Firing>, b: seq<Firing>, clock: nat -> nat, interval: nat)
    requires w <= v <= u <= |composed|
    ensures Turned(Turned(s, composed, w, v, fired, a, clock, interval), composed, v, u, fired + a, b, clock, interval)
         == Turned(s, composed, w, u, fired, a + b, clock, interval)
  {
    hide AllCalledBack, AllSurvived, Made, Closed, Unfired, Jobs, Deliveries, Waiting;
    CalledBackAppend(s.client, a, b, clock, interval, |fired|);
    MadeAppend(composed, a, b);
    ClosedAppend(composed, Jobs(fired), a, b);
    JobsAppend(fired, a);
    assert fired + a + b == fired + (a + b);
    Joined(s.made, Made(composed, a), Made(composed, b));
    TakenAway(s.exchanges, Closed(composed, Jobs(fired), a), Closed(composed, Jobs(fired) + Jobs(a), b));
    assert composed[w..v] + composed[v..u] == composed[w..u];
    DeliveriesAppend(composed[w..v], composed[v..u]);
    Reassociated(s.toBroker, Deliveries(composed[w..v]), Deliveries(composed[v..u]));
  }

  // ---------------------------------------------------------------- the send loop

  /** Tracked packets are of the types that are announced. */
  predicate Marked(ms: seq<Tracked>) {
    forall i :: 0 <= i < |ms| ==> Announced(ms[i].kind)
  }

  /** What was added to a list. */
  function Since(before: seq<Firing>, after: seq<Firing>): seq<Firing> {
    if |before| <= |after| then after[|before|..] else []
  }

  predicate Among(more: seq<Firing>, ms: seq<Tracked>) {
    forall i :: 0 <= i < |more| ==> more[i].packet in ms
  }

  lemma TurnShape(ping: Option<Tracked>, x: Transit)
    ensures var y := SendOnce(ping, x);
            && x.fired <= y.fired && Among(Since(x.fired, y.fired), x.tracked)
            && x.accepted <= y.accepted && (forall t :: t in y.tracked ==> t in x.tracked)
  {
    var z := Answered(x);
    assert z.fired == x.fired && z.tracked == x.tracked && x.accepted <= z.accepted;
    hide SendData, Taken, RestOf, Pass, KeepsToFront, Answered;
  }

  lemma TurnBelongs(composed: seq<Job>, ping: Option<Tracked>, x: Transit)
    requires TransitOk(composed, ping, x) && Marked(x.tracked)
    ensures var y := SendOnce(ping, x);
            && x.fired <= y.fired && |x.accepted| <= |y.accepted| && Marked(y.tracked)
            && AllBelong(composed, Whole(composed, |y.accepted|), Since(x.fired, y.fired))
  {
    var y := SendOnce(ping, x);
    TurnShape(ping, x);
    SendOnceKeeps(composed, ping, x);
    WholeExactly(composed, |y.accepted|);
    hide SendOnce, Announced, Callbacks, Stream, Truthful, Whole, EndOf;
    var more := Since(x.fired, y.fired);
    forall i | 0 <= i < |more| ensures Belongs(composed, Whole(composed, |y.accepted|), more[i].packet) {
      var k :| 0 <= k < |x.tracked| && x.tracked[k] == more[i].packet;
      assert Describes(composed, x.tracked[k], |x.accepted|);
      assert y.fired[|x.fired| + i] == more[i] && NotEarly(composed, y.fired[|x.fired| + i], |y.accepted|);
    }
    forall k | 0 <= k < |y.tracked| ensures Announced(y.tracked[k].kind) {
      assert y.tracked[k] in x.tracked;
    }
  }

  lemma {:induction false} LoopShape(ping: Option<Tracked>, x: Transit, turns: nat)
    ensures x.fired <= SendLoop(ping, x, turns).fired && x.accepted <= SendLoop(ping, x, turns).accepted
    decreases 4 - turns
  {
    hide SendOnce;
    if turns < 4 && x.progress == Running {
      TurnShape(ping, x);
      LoopShape(ping, SendOnce(ping, x), turns + 1);
    }
  }

  lemma SinceJoin(a: seq<Firing>, b: seq<Firing>, c: seq<Firing>)
    requires a <= b <= c
    ensures a + Since(a, b) == b && Since(a, b) + Since(b, c) == Since(a, c) && (Once(c) ==> Once(b))
  {
    assert c == b + c[|b|..] && b == a + b[|a|..];
    if Once(c) {
      assert forall i :: 0 <= i < |b| ==> b[i] == c[i];
    }
  }

  lemma LoopEnds(s: Sys, composed: seq<Job>, w: nat, fired: seq<Firing>, clock: nat -> nat, interval: nat)
    requires w <= |composed| && Ready(s, composed, w, fired)
    ensures Leads(s, [], Turned(s, composed, w, w, fired, Since(fired, fired), clock, interval))
    ensures Ready(Turned(s, composed, w, w, fired, Since(fired, fired), clock, interval), composed, w, fired)
  {
    hide Waiting, Unfired, Jobs, Deliveries, Note, WithCallbacks, Leads;
    NothingLeft(s, composed, w, Jobs(fired));
    LeavingKeepsReady(s, composed, w, w, fired);
    var t := Left(s, composed, w, Jobs(fired), Deliveries(composed[w..w]));
    assert Since(fired, fired) == [] && fired + [] == fired;
    NoCallbacks(t, composed, w, fired, clock, interval);
    var none: seq<Step> := [];
    LeadsOn(s, none, t, none, WithCallbacks(t, composed, w, fired, [], clock, interval));
    assert none + none == none;
    CallbacksKeepReady(t, composed, w, fired, [], clock, interval);
  }

  /** The steps of a send loop: in each turn the packets it completes leave, and the callbacks it makes. */
  function LoopOf(composed: seq<Job>, ping: Option<Tracked>, x: Transit, turns: nat, clock: nat -> nat, interval: nat): seq<Step>
    decreases 4 - turns
  {
    if turns >= 4 || x.progress != Running then []
    else
      var y := SendOnce(ping, x);
      TurnShape(ping, x);
      WholeGrows(composed, |x.accepted|, |y.accepted|);
      TurnOf(composed, Whole(composed, |x.accepted|), Whole(composed, |y.accepted|), x.fired, Since(x.fired, y.fired), clock, interval)
      + LoopOf(composed, ping, y, turns + 1, clock, interval)
  }

  lemma LoopOfCases(composed: seq<Job>, ping: Option<Tracked>, x: Transit, turns: nat, clock: nat -> nat, interval: nat)
    ensures turns >= 4 || x.progress != Running ==> LoopOf(composed, ping, x, turns, clock, interval) == []
    ensures var w, v := Whole(composed, |x.accepted|), Whole(composed, |SendOnce(ping, x).accepted|);
            turns < 4 && x.progress == Running && w <= v ==>
              LoopOf(composed, ping, x, turns, clock, interval)
              == TurnOf(composed, w, v, x.fired, Since(x.fired, SendOnce(ping, x).fired), clock, interval)
                 + LoopOf(composed, ping, SendOnce(ping, x), turns + 1, clock, interval)
  {
    hide SendOnce, Whole, TurnOf, Since;
  }

  /** A send loop is so many steps: in each turn packets leave and callbacks are made. */
  lemma {:induction false} LoopSteps(s: Sys, composed: seq<Job>, ping: Option<Tracked>, x: Transit, turns: nat, clock: nat -> nat, interval: nat)
    requires TransitOk(composed, ping, x) && Marked(x.tracked) && NoDisconnect(composed)
    requires Ready(s, composed, Whole(composed, |x.accepted|), x.fired)
    requires AllSurvived(s.client, Since(x.fired, SendLoop(ping, x, turns).fired), clock, interval, |x.fired|)
    ensures var z := SendLoop(ping, x, turns);
            var w, v := Whole(composed, |x.accepted|), Whole(composed, |z.accepted|);
            && w <= v && Marked(z.tracked) && SendSteps(LoopOf(composed, ping, x, turns, clock, interval), Once(z.fired))
            && Leads(s, LoopOf(composed, ping, x, turns, clock, interval), Turned(s, composed, w, v, x.fired, Since(x.fired, z.fired), clock, interval))
            && Ready(Turned(s, composed, w, v, x.fired, Since(x.fired, z.fired), clock, interval), composed, v, z.fired)
    decreases 4 - turns
  {
    hide *;
    LoopCases(ping, x, turns);
    LoopOfCases(composed, ping, x, turns, clock, interval);
    if turns >= 4 || x.progress != Running {
      LoopEnds(s, composed, Whole(composed, |x.accepted|), x.fired, clock, interval);
      NoSteps(Once(x.fired));
    } else {
      var y, z := SendOnce(ping, x), SendLoop(ping, x, turns);
      TurnBelongs(composed, ping, x);
      SendOnceKeeps(composed, ping, x);
      LoopShape(ping, y, turns + 1);
      WholeGrows(composed, |x.accepted|, |y.accepted|);
      var w, v, u := Whole(composed, |x.accepted|), Whole(composed, |y.accepted|), Whole(composed, |z.accepted|);
      var a, b := Since(x.fired, y.fired), Since(y.fired, z.fired);
      SinceJoin(x.fired, y.fired, z.fired);
      CalledBackAppend(s.client, a, b, clock, interval, |x.fired|);
      TurnSteps(s, composed, w, v, x.fired, a, clock, interval);
      var first := TurnOf(composed, w, v, x.fired, a, clock, interval);
      var t := Turned(s, composed, w, v, x.fired, a, clock, interval);
      TurnClient(s, composed, w, v, x.fired, a, clock, interval);
      LoopSteps(t, composed, ping, y, turns + 1, clock, interval);
      var rest := LoopOf(composed, ping, y, turns + 1, clock, interval);
      LeadsOn(s, first, t, rest, Turned(t, composed, v, u, y.fired, b, clock, interval));
      TurnsJoin(s, composed, w, v, u, x.fired, a, b, clock, interval);
      MoreSteps(first, Once(y.fired), rest, Once(z.fired));
    }
  }

  lemma LoopCases(ping: Option<Tracked>, x: Transit, turns: nat)
    ensures SendLoop(ping, x, turns)
         == if turns >= 4 || x.progress != Running then x else SendLoop(ping, SendOnce(ping, x), turns + 1)
  {
    hide SendOnce;
  }

  lemma NoSteps(once: bool)
    ensures SendSteps([], once)
  {
  }

  lemma MoreSteps(a: seq<Step>, before: bool, b: seq<Step>, once: bool)
    requires SendSteps(a, before) && SendSteps(b, once) && (once ==> before)
    ensures SendSteps(a + b, once)
  {
  }

  lemma TurnClient(s: Sys, composed: seq<Job>, w: nat, v: nat, fired: seq<Firing>, more: seq<Firing>, clock: nat -> nat, interval: nat)
    requires w <= v <= |composed|
    ensures Turned(s, composed, w, v, fired, more, clock, interval).client == AllCalledBack(s.client, more, clock, interval, |fired|)
    ensures |fired + more| == |fired| + |more|
  {
  }

  // ---------------------------------------------------------------- composing

  /** Composing with the buffer's history and composing without it differ only in that history. */
  predicate Alike(before: seq<Job>, c: Composing, d: Composing) {
    c.composed == before + d.composed && c.delayed == d.delayed && c.receive == d.receive && c.send == d.send && c.failed == d.failed
  }

  lemma ComposeOneAlike(job: Job, before: seq<Job>, c: Composing, d: Composing)
    requires Alike(before, c, d)
    ensures Alike(before, ComposeOne(job, c), ComposeOne(job, d))
  {
    hide Window.Take, Window.Give;
    assert before + d.composed + [job] == before + (d.composed + [job]);
  }

  lemma {:induction false} ComposeAlike(jobs: seq<Job>, before: seq<Job>, c: Composing, d: Composing)
    requires Alike(before, c, d)
    ensures Alike(before, Compose(jobs, c), Compose(jobs, d))
  {
    hide ComposeOne;
    if jobs != [] && !c.failed {
      ComposeOneAlike(jobs[0], before, c, d);
      ComposeAlike(jobs[1..], before, ComposeOne(jobs[0], c), ComposeOne(jobs[0], d));
    }
  }

  lemma {:induction false} ComposeMarks(jobs: seq<Job>, c: Composing)
    requires Marked(c.tracked) && NoneEmpty(c.composed) && AllProper(jobs)
    ensures Marked(Compose(jobs, c).tracked) && NoneEmpty(Compose(jobs, c).composed)
  {
    if jobs != [] && !c.failed {
      ComposeOneMarks(jobs[0], c);
      hide ComposeOne, Marked, NoneEmpty;
      ComposeMarks(jobs[1..], ComposeOne(jobs[0], c));
    }
  }

  lemma ComposeOneMarks(job: Job, c: Composing)
    requires Marked(c.tracked) && NoneEmpty(c.composed) && Proper(job)
    ensures Marked(ComposeOne(job, c).tracked) && NoneEmpty(ComposeOne(job, c).composed)
  {
    hide Window.Take, Window.Give;
  }

  // ---------------------------------------------------------------- the client with its pipeline

  /** The client as it runs, with its real pipeline, and the rest of the system: the channels and the history. */
  datatype Node = Node(client: Client, pipe: Pipe, toBroker: multiset<Msg>, toClient: multiset<Msg>, made: set<Msg>,
                       requests: nat, exchanges: map<Key, Msg>, accepted: map<nat, nat>, done: set<nat>)

  function Gone(p: Pipe): nat {
    Whole(p.composed, |p.accepted|)
  }

  /** The protocol's view of it: composed packets with a byte not accepted yet, and packets accepted whole whose
      callback has not been made. */
  function Abs(n: Node): Sys {
    Sys(n.client, n.pipe.receive, n.pipe.send, Waiting(n.pipe.composed[Gone(n.pipe)..]), n.toBroker, n.toClient,
        Unfired(n.pipe.composed, Gone(n.pipe), Jobs(n.pipe.fired)), n.made, n.requests, n.exchanges, n.accepted, n.done)
  }

  ghost predicate NodeOk(n: Node) {
    && SendPipeRuns.PipeOk(n.pipe) && n.client.jobs == n.pipe.jobs && n.client.status.Connected?
    && Marked(n.pipe.tracked) && NoDisconnect(n.pipe.composed)
    && forall j :: j in Jobs(n.pipe.fired) ==> j < Gone(n.pipe) && Note(n.pipe.composed[j]) in n.made
  }

  /** A batch: the pipe sends, the broker gets the packets that are through, and the client is called back for the
      packets announced, in order. */
  function Ticked(n: Node, script: seq<Answer>, clock: nat -> nat, interval: nat): Node {
    var p, q := n.pipe, TryBatch(n.pipe, script).1;
    var more := Since(p.fired, q.fired);
    n.(client := AllCalledBack(n.client.(jobs := q.jobs), more, clock, interval, |p.fired|), pipe := q,
       toBroker := n.toBroker + if Gone(p) <= Gone(q) then Deliveries(q.composed[Gone(p)..Gone(q)]) else multiset{},
       made := n.made + Made(q.composed, more), exchanges := n.exchanges - Closed(q.composed, Jobs(p.fired), more))
  }

  /** The connection goes on over the batch: the socket does not fail with a positive last error, everything can be
      encoded, no DISCONNECT is sent, and the program survives the callbacks. */
  predicate BatchGoesOn(n: Node, script: seq<Answer>, clock: nat -> nat, interval: nat) {
    var (outcome, q, _) := TryBatch(n.pipe, script);
    && Truthful(script) && outcome != EncodeError && NoDisconnect(q.composed)
    && AllSurvived(n.client.(jobs := q.jobs), Since(n.pipe.fired, q.fired), clock, interval, |n.pipe.fired|)
  }

  /** The steps of a batch: no callback is a repetition if each packet has only one. */
  predicate BatchSteps(steps: seq<Step>, once: bool) {
    steps == [] || (steps[0].Composes? && SendSteps(steps[1..], once))
  }

  lemma {:induction false} UnfiredPrefix(composed: seq<Job>, more: seq<Job>, whole: nat, fired: set<nat>)
    requires whole <= |composed| && composed <= more
    ensures Unfired(more, whole, fired) == Unfired(composed, whole, fired)
  {
    hide Note, Announced;
    if whole > 0 {
      UnfiredPrefix(composed, more, whole - 1, fired);
      assert more[whole - 1] == composed[whole - 1];
    }
  }

  lemma ComposedReady(n: Node, c: Composing, d: Composing)
    requires NodeOk(n) && n.pipe.jobs != [] && !c.failed && Alike(n.pipe.composed, c, d) && NoneEmpty(d.composed)
    requires d == Compose(n.client.jobs, Abs(n).Starting())
    ensures Whole(c.composed, |n.pipe.accepted|) == Gone(n.pipe)
    ensures Ready(ComposedOnce(Abs(n)), c.composed, Gone(n.pipe), n.pipe.fired)
  {
    hide Compose, Waiting, Unfired, Note, AllDescribe, NoneEarly, Callbacks, Stream, AllProper, Whole, Jobs, Marked, NoDisconnect;
    var p := n.pipe;
    assert |p.accepted| <= |Stream(p.composed)|;
    assert c.composed[|p.composed|..] == d.composed;
    WholeOfMore(p.composed, c.composed, |p.accepted|);
    var w := Gone(p);
    assert c.composed[w..] == p.composed[w..] + d.composed;
    WaitingAppend(p.composed[w..], d.composed);
    UnfiredPrefix(p.composed, c.composed, w, Jobs(p.fired));
  }

  /** The batch's parts: composing, and the loop over the transit it leaves. */
  lemma BatchIs(p: Pipe, script: seq<Answer>) returns (c: Composing, x: Transit)
    requires p.jobs != [] && TryBatch(p, script).0 != EncodeError && SendPipeRuns.PipeOk(p) && Truthful(script)
    ensures c == Compose(p.jobs, p.Start()) && !c.failed && p.composed <= c.composed
    ensures x == p.Sending(c, script)
    ensures x.accepted == p.accepted && x.fired == p.fired && x.tracked == c.tracked && x.orderly == p.orderly
    ensures TransitOk(c.composed, c.ping, x)
    ensures var z := SendLoop(c.ping, x, 0);
            && TryBatch(p, script).1 == Pipe(c.delayed, z.buffer, z.tracked, c.receive, c.send, c.composed, z.accepted, z.fired, z.pings, z.orderly)
  {
    c := Compose(p.jobs, p.Start());
    ComposeExtends(p.jobs, p.Start());
    x := p.Sending(c, script);
    hide SendLoop, Compose, AllDescribe, NoneEarly, Callbacks, Stream;
    SendPipeRuns.StartOk(p);
    ComposeKeeps(p.jobs, p.Start(), p.fired, p.orderly, |p.accepted|);
    SendPipeRuns.SendingOk(p, c, script);
  }

  lemma StartsAlike(n: Node)
    requires NodeOk(n)
    ensures Alike(n.pipe.composed, Compose(n.pipe.jobs, n.pipe.Start()), Compose(n.client.jobs, Abs(n).Starting()))
    ensures Marked(Compose(n.pipe.jobs, n.pipe.Start()).tracked) && NoneEmpty(Compose(n.client.jobs, Abs(n).Starting()).composed)
  {
    hide Compose, Waiting, Unfired, AllDescribe, NoneEarly, Callbacks, Stream, Jobs, NoDisconnect, Whole;
    assert n.pipe.composed + [] == n.pipe.composed;
    ComposeAlike(n.pipe.jobs, n.pipe.composed, n.pipe.Start(), Abs(n).Starting());
    MarksApart(n.pipe.jobs, n.pipe.Start());
    ComposeMarks(n.client.jobs, Abs(n).Starting());
  }

  /** Marking does not depend on what was composed before. */
  lemma {:induction false} MarksApart(jobs: seq<Job>, c: Composing)
    requires Marked(c.tracked)
    ensures Marked(Compose(jobs, c).tracked)
  {
    if jobs != [] && !c.failed {
      OneMarkedMore(jobs[0], c);
      hide ComposeOne, Marked;
      MarksApart(jobs[1..], ComposeOne(jobs[0], c));
    }
  }

  lemma OneMarkedMore(job: Job, c: Composing)
    requires Marked(c.tracked)
    ensures Marked(ComposeOne(job, c).tracked)
  {
    hide Window.Take, Window.Give;
  }

  /** After the batch the protocol's view is where the last turn left it. */
  lemma TickedIs(n: Node, script: seq<Answer>, clock: nat -> nat, interval: nat, c: Composing, d: Composing, z: Transit)
    requires var q := TryBatch(n.pipe, script).1;
             q == Pipe(c.delayed, z.buffer, z.tracked, c.receive, c.send, c.composed, z.accepted, z.fired, z.pings, z.orderly)
    requires Alike(n.pipe.composed, c, d) && d == Compose(n.client.jobs, Abs(n).Starting()) && n.pipe.fired <= z.fired
    requires Gone(n.pipe) <= Whole(c.composed, |z.accepted|) <= |c.composed|
    ensures Abs(Ticked(n, script, clock, interval))
         == Turned(ComposedOnce(Abs(n)), c.composed, Gone(n.pipe), Whole(c.composed, |z.accepted|), n.pipe.fired, Since(n.pipe.fired, z.fired), clock, interval)
  {
    hide Compose, TryBatch, Waiting, Unfired, Jobs, Made, Closed, AllCalledBack, Deliveries, Whole;
    assert n.pipe.fired + Since(n.pipe.fired, z.fired) == z.fired;
  }

  /** The steps of a batch: it composes, and then sends and calls back turn by turn. */
  function BatchStepsOf(p: Pipe, script: seq<Answer>, clock: nat -> nat, interval: nat): seq<Step> {
    if p.jobs == [] then []
    else
      var c := Compose(p.jobs, p.Start());
      ComposeExtends(p.jobs, p.Start());
      [Composes] + LoopOf(c.composed, c.ping, p.Sending(c, script), 0, clock, interval)
  }

  /** The pipeline refines the protocol: a batch, over any socket and for any buffer left by earlier batches, is a run
      of the protocol's steps, from the view of the client before it to the view of the client after it. */
  lemma BatchRefines(n: Node, script: seq<Answer>, clock: nat -> nat, interval: nat)
    requires NodeOk(n) && BatchGoesOn(n, script, clock, interval)
    ensures NodeOk(Ticked(n, script, clock, interval))
    ensures Leads(Abs(n), BatchStepsOf(n.pipe, script, clock, interval), Abs(Ticked(n, script, clock, interval)))
    ensures BatchSteps(BatchStepsOf(n.pipe, script, clock, interval), Once(TryBatch(n.pipe, script).1.fired))
  {
    hide NodeOk, BatchGoesOn, Ticked, Leads, BatchSteps, Once, TryBatch, Abs, LoopOf, Compose;
    if n.pipe.jobs == [] {
      IdleBatch(n, script, clock, interval);
      NoBatchSteps(Once(TryBatch(n.pipe, script).1.fired));
    } else {
      BusyBatch(n, script, clock, interval);
    }
  }

  lemma NoBatchSteps(once: bool)
    ensures BatchSteps([], once)
  {
  }

  lemma IdleBatch(n: Node, script: seq<Answer>, clock: nat -> nat, interval: nat)
    requires NodeOk(n) && n.pipe.jobs == []
    ensures Ticked(n, script, clock, interval) == n && Leads(Abs(n), [], Abs(n))
  {
    hide Waiting, Unfired, Whole;
    NothingMade(n.pipe.composed, Jobs(n.pipe.fired));
    assert n.made + {} == n.made && n.exchanges - {} == n.exchanges;
    assert n.toBroker + multiset{} == n.toBroker;
  }

  /** What the proof of a batch needs to know of its parts. */
  lemma BatchGives(n: Node, script: seq<Answer>, clock: nat -> nat, interval: nat) returns (c: Composing, x: Transit)
    requires NodeOk(n) && n.pipe.jobs != [] && BatchGoesOn(n, script, clock, interval)
    ensures var p, q, d, z := n.pipe, TryBatch(n.pipe, script).1, Compose(n.client.jobs, Abs(n).Starting()), SendLoop(c.ping, x, 0);
            && Alike(p.composed, c, d) && !d.failed
            && q == Pipe(c.delayed, z.buffer, z.tracked, c.receive, c.send, c.composed, z.accepted, z.fired, z.pings, z.orderly)
            && c == Compose(p.jobs, p.Start()) && p.composed <= c.composed && x == p.Sending(c, script)
            && x.accepted == p.accepted && x.fired == p.fired
            && TransitOk(c.composed, c.ping, x) && Marked(x.tracked) && NoDisconnect(c.composed) && SendPipeRuns.PipeOk(q)
            && Whole(c.composed, |p.accepted|) == Gone(p) && Ready(ComposedOnce(Abs(n)), c.composed, Gone(p), p.fired)
            && AllSurvived(ComposedOnce(Abs(n)).client, Since(x.fired, z.fired), clock, interval, |x.fired|)
  {
    hide Compose, TryBatch, SendLoop, Waiting, Unfired, Jobs, Whole, AllSurvived, SendPipeRuns.PipeOk, TransitOk, Marked, NoneEmpty, Ready;
    c, x := BatchIs(n.pipe, script);
    StartsAlike(n);
    ComposedReady(n, c, Compose(n.client.jobs, Abs(n).Starting()));
    SendPipeRuns.BatchKeepsPipe(n.pipe, script);
  }

  lemma ComposesStep(n: Node)
    requires n.client.status.Connected? && !Compose(n.client.jobs, Abs(n).Starting()).failed
    ensures Leads(Abs(n), [Composes], ComposedOnce(Abs(n)))
  {
    hide Compose, Waiting, Unfired, Whole;
    OneStep(Abs(n), Composes);
  }

  lemma FirstComposes(rest: seq<Step>, once: bool)
    requires SendSteps(rest, once)
    ensures BatchSteps([Composes] + rest, once)
  {
    assert ([Composes] + rest)[1..] == rest;
  }

  lemma TickedOk(n: Node, script: seq<Answer>, clock: nat -> nat, interval: nat)
    requires var m := Ticked(n, script, clock, interval);
             && SendPipeRuns.PipeOk(m.pipe) && Marked(m.pipe.tracked) && NoDisconnect(m.pipe.composed)
             && Ready(Abs(m), m.pipe.composed, Gone(m.pipe), m.pipe.fired)
    ensures NodeOk(Ticked(n, script, clock, interval))
  {
    hide TryBatch, Waiting, Unfired, Whole, AllCalledBack, SendPipeRuns.PipeOk, Marked, NoDisconnect, Jobs, Made, Closed, Deliveries;
    var q := TryBatch(n.pipe, script).1;
    StaysConnected(n.client.(jobs := q.jobs), Since(n.pipe.fired, q.fired), clock, interval, |n.pipe.fired|);
  }

  lemma BusyBatch(n: Node, script: seq<Answer>, clock: nat -> nat, interval: nat)
    requires NodeOk(n) && n.pipe.jobs != [] && BatchGoesOn(n, script, clock, interval)
    ensures NodeOk(Ticked(n, script, clock, interval))
    ensures Leads(Abs(n), BatchStepsOf(n.pipe, script, clock, interval), Abs(Ticked(n, script, clock, interval)))
    ensures BatchSteps(BatchStepsOf(n.pipe, script, clock, interval), Once(TryBatch(n.pipe, script).1.fired))
  {
    hide Compose, TryBatch, SendLoop, Waiting, Unfired, Jobs, Whole, AllSurvived, SendPipeRuns.PipeOk, TransitOk, Marked, NoDisconnect,
      Ready, Alike, Gone, Leads, Turned, ComposedOnce, Abs, Ticked, SendSteps, BatchSteps, Once, BatchGoesOn, LoopOf;
    assert n.client.status.Connected?;
    hide NodeOk;
    var c, x := BatchGives(n, script, clock, interval);
    var p, z := n.pipe, SendLoop(c.ping, x, 0);
    var s1 := ComposedOnce(Abs(n));
    ComposesStep(n);
    LoopShape(c.ping, x, 0);
    LoopSteps(s1, c.composed, c.ping, x, 0, clock, interval);
    var rest := LoopOf(c.composed, c.ping, x, 0, clock, interval);
    var t := Turned(s1, c.composed, Gone(p), Whole(c.composed, |z.accepted|), p.fired, Since(p.fired, z.fired), clock, interval);
    TickedIs(n, script, clock, interval, c, Compose(n.client.jobs, Abs(n).Starting()), z);
    LeadsOn(Abs(n), [Composes], s1, rest, t);
    FirstComposes(rest, Once(z.fired));
    TickedPipe(n, script, clock, interval);
    TickedOk(n, script, clock, interval);
  }

  lemma TickedPipe(n: Node, script: seq<Answer>, clock: nat -> nat, interval: nat)
    ensures var m := Ticked(n, script, clock, interval); m.pipe == TryBatch(n.pipe, script).1 && Gone(m.pipe) == Whole(m.pipe.composed, |m.pipe.accepted|)
  {
    hide TryBatch, Whole, AllCalledBack, Made, Closed, Deliveries, Jobs;
  }

  // ---------------------------------------------------------------- when the program survives a batch

  predicate NotesStatus(t: Tracked) {
    t.kind in {PublishReceived, PublishReleased}
  }

  /** The `i`-th callback finds a message with its id in the session before the batch, which no earlier callback of the
      batch for a PUBCOMP takes; or it is itself one for a PUBCOMP with an id the bitset has. */
  predicate CallSurvives(c: Client, more: seq<Firing>, i: nat)
    requires i < |more|
  {
    if NotesStatus(more[i].packet) then
      && Contains(c.session, more[i].packet.id)
      && forall j :: 0 <= j < i && !NotesStatus(more[j].packet) ==> more[j].packet.id != more[i].packet.id
    else more[i].packet.id < POOL_SIZE
  }

  lemma CalledBackContains(c: Client, t: Tracked, now: nat, interval: nat)
    requires DistinctIds(c.session)
    ensures var d := CalledBack(c, Reported(t), now, interval);
            && DistinctIds(d.session)
            && forall id: nat :: Contains(d.session, id) <==> Contains(c.session, id) && (NotesStatus(t) || id != t.id)
  {
    var d := CalledBack(c, Reported(t), now, interval);
    EraseHeld(c.session, t.id);
    UpdateHeld(c.session, t.id, if t.kind == PublishReceived then WaitingForPubRel else WaitingForPubComp, now, interval);
    hide Erase, Update, Contains, DistinctIds, Held, Pool.Release;
    DistinctIsFunctional(c.session);
    DistinctIsFunctional(d.session);
    forall id: nat ensures Contains(d.session, id) <==> Contains(c.session, id) && (NotesStatus(t) || id != t.id) {
      assert forall e: nat :: (id, e) in Held(d.session) <==> (id, e) in Held(c.session) && (NotesStatus(t) || id != t.id);
    }
  }

  lemma CallSurvivesNext(c: Client, d: Client, more: seq<Firing>, i: nat)
    requires 0 < i < |more|
    requires forall id: nat :: Contains(d.session, id) <==> Contains(c.session, id) && (NotesStatus(more[0].packet) || id != more[0].packet.id)
    ensures CallSurvives(c, more, i) <==> CallSurvives(d, more[1..], i - 1)
  {
    hide Contains, NotesStatus;
    var rest := more[1..];
    assert forall j :: 0 <= j < |rest| ==> rest[j] == more[j + 1];
    assert forall j :: 1 <= j < |more| ==> more[j] == rest[j - 1];
  }

  /** The program survives the callbacks of a batch if and only if it survives each of them, as can be told from the
      session before the batch and the packets it announces. */
  lemma {:induction false} AllSurvivedExactly(c: Client, more: seq<Firing>, clock: nat -> nat, interval: nat, k: nat)
    requires DistinctIds(c.session)
    ensures AllSurvived(c, more, clock, interval, k) <==> forall i :: 0 <= i < |more| ==> CallSurvives(c, more, i)
    decreases |more|
  {
    if more != [] {
      var t, d, rest := more[0].packet, CalledBack(c, Reported(more[0].packet), clock(k), interval), more[1..];
      CalledBackContains(c, t, clock(k), interval);
      AllSurvivedExactly(d, rest, clock, interval, k + 1);
      assert CallSurvives(c, more, 0) <==> Survives(c, Reported(t));
      hide CallSurvives, Contains, CalledBack, Survives, DistinctIds;
      forall i | 0 < i < |more| ensures CallSurvives(c, more, i) <==> CallSurvives(d, rest, i - 1) {
        CallSurvivesNext(c, d, more, i);
      }
      if forall i :: 0 <= i < |more| ==> CallSurvives(c, more, i) {
        forall i | 0 <= i < |rest| ensures CallSurvives(d, rest, i) {
          assert CallSurvives(c, more, i + 1);
        }
      }
    }
  }

  // ---------------------------------------------------------------- callbacks are for packets accepted whole

  /** Callbacks for the first time are about some of the first `whole` packets. */
  predicate FiresWhole(steps: seq<Step>, composed: seq<Job>, whole: nat)
    requires whole <= |composed|
  {
    forall i :: 0 <= i < |steps| && steps[i].Fires? ==> exists j :: 0 <= j < whole && steps[i].m == Note(composed[j])
  }

  lemma {:induction false} CallbacksWhole(composed: seq<Job>, whole: nat, fired: seq<Firing>, more: seq<Firing>, clock: nat -> nat, interval: nat)
    requires whole <= |composed| && AllBelong(composed, whole, more)
    ensures FiresWhole(CallbacksOf(composed, fired, more, clock, interval), composed, whole)
    decreases |more|
  {
    hide Note, Announced, Jobs;
    if more != [] {
      assert Belongs(composed, whole, more[0].packet);
      assert AllBelong(composed, whole, more[1..]);
      CallbacksWhole(composed, whole, fired + [more[0]], more[1..], clock, interval);
    }
  }

  lemma {:induction false} TransmitsFireNothing(composed: seq<Job>, w: nat, v: nat, whole: nat)
    requires w <= v <= |composed| && whole <= |composed|
    ensures FiresWhole(TransmitsOf(composed, w, v), composed, whole)
    decreases v - w
  {
    hide Note, JobMsg;
    if w < v {
      TransmitsFireNothing(composed, w + 1, v, whole);
    }
  }

  lemma JoinWhole(a: seq<Step>, b: seq<Step>, composed: seq<Job>, w: nat, v: nat)
    requires w <= v <= |composed| && FiresWhole(a, composed, w) && FiresWhole(b, composed, v)
    ensures FiresWhole(a + b, composed, v)
  {
    hide Note;
    forall i | 0 <= i < |a + b| && (a + b)[i].Fires? ensures exists j :: 0 <= j < v && (a + b)[i].m == Note(composed[j]) {
      if i < |a| {
        assert (a + b)[i] == a[i];
        var j :| 0 <= j < w && a[i].m == Note(composed[j]);
      } else {
        assert (a + b)[i] == b[i - |a|];
      }
    }
  }

  lemma NothingWhole(composed: seq<Job>, whole: nat)
    requires whole <= |composed|
    ensures FiresWhole([], composed, whole)
  {
  }

  lemma {:induction false} LoopWhole(composed: seq<Job>, ping: Option<Tracked>, x: Transit, turns: nat, clock: nat -> nat, interval: nat)
    requires TransitOk(composed, ping, x) && Marked(x.tracked)
    ensures FiresWhole(LoopOf(composed, ping, x, turns, clock, interval), composed, Whole(composed, |SendLoop(ping, x, turns).accepted|))
    decreases 4 - turns
  {
    hide *;
    LoopCases(ping, x, turns);
    LoopOfCases(composed, ping, x, turns, clock, interval);
    if turns >= 4 || x.progress != Running {
      NothingWhole(composed, Whole(composed, |x.accepted|));
    } else {
      var y, z := SendOnce(ping, x), SendLoop(ping, x, turns);
      TurnBelongs(composed, ping, x);
      SendOnceKeeps(composed, ping, x);
      LoopShape(ping, y, turns + 1);
      WholeGrows(composed, |x.accepted|, |y.accepted|);
      WholeGrows(composed, |y.accepted|, |z.accepted|);
      var w, v := Whole(composed, |x.accepted|), Whole(composed, |y.accepted|);
      TurnWhole(composed, w, v, x.fired, Since(x.fired, y.fired), clock, interval);
      LoopWhole(composed, ping, y, turns + 1, clock, interval);
      JoinWhole(TurnOf(composed, w, v, x.fired, Since(x.fired, y.fired), clock, interval),
                LoopOf(composed, ping, y, turns + 1, clock, interval), composed, v, Whole(composed, |z.accepted|));
    }
  }

  lemma TurnWhole(composed: seq<Job>, w: nat, v: nat, fired: seq<Firing>, more: seq<Firing>, clock: nat -> nat, interval: nat)
    requires w <= v <= |composed| && AllBelong(composed, v, more)
    ensures FiresWhole(TurnOf(composed, w, v, fired, more, clock, interval), composed, v)
  {
    hide FiresWhole, AllBelong, TransmitsOf, CallbacksOf;
    TransmitsFireNothing(composed, w, v, v);
    CallbacksWhole(composed, v, fired, more, clock, interval);
    JoinWhole(TransmitsOf(composed, w, v), CallbacksOf(composed, fired, more, clock, interval), composed, v, v);
  }

  /** What a batch announces for the first time has been accepted whole by its end. */
  lemma BatchWhole(n: Node, script: seq<Answer>, clock: nat -> nat, interval: nat)
    requires NodeOk(n) && BatchGoesOn(n, script, clock, interval)
    ensures var q := TryBatch(n.pipe, script).1; FiresWhole(BatchStepsOf(n.pipe, script, clock, interval), q.composed, Gone(q))
  {
    hide NodeOk, BatchGoesOn, TryBatch, FiresWhole, LoopOf, Compose, Whole, SendLoop, TransitOk, Marked;
    var q := TryBatch(n.pipe, script).1;
    if n.pipe.jobs == [] {
      NothingWhole(q.composed, Gone(q));
    } else {
      var c, x := BatchGives(n, script, clock, interval);
      LoopWhole(c.composed, c.ping, x, 0, clock, interval);
      ComposingWhole(c.composed, Gone(q));
      JoinWhole([Composes], LoopOf(c.composed, c.ping, x, 0, clock, interval), c.composed, Gone(q), Gone(q));
    }
  }

  lemma ComposingWhole(composed: seq<Job>, whole: nat)
    requires whole <= |composed|
    ensures FiresWhole([Composes], composed, whole)
  {
  }
}
