/** The life of a received QoS 2 message in the client as it runs: what a batch of the send queue does to it. */
module ClientLife {
  import opened Bytes
  import opened Packets
  import opened Sessions
  import opened SendPipes
  import opened SendPipeProperties
  import opened Clients
  import opened Protocol
  import opened ProtocolInvariant
  import opened ProtocolSafety
  import opened InboundQoS2
  import opened PipelineRefinement
  import opened ClientRuns
  import KeptPromises
  import PacketIdPools
  import SendPipeRuns

  // ---------------------------------------------------------------- runs whose callbacks come in time

  /** No callback of the batch comes late: each leaves the status of the message with its id right. */
  ghost predicate InTime(n: Node, e: Event)
    requires NodeOk(n) && Possible(n, e)
  {
    match e
    case Other(_) => true
    case Batch(script, clock, interval) =>
      BatchRefines(n, script, clock, interval);
      AllTimely(Abs(n), BatchStepsOf(n.pipe, script, clock, interval))
  }

  ghost predicate AllInTime(n: Node, events: seq<Event>)
    requires NodeOk(n) && Proceeds(n, events)
    decreases |events|
  {
    events == []
    || (EventRefines(n, events[0]);
        InTime(n, events[0]) && AllInTime(After(n, events[0]), events[1..]))
  }

  lemma {:induction false} TimelyOn(s: Sys, a: seq<Step>, b: seq<Step>)
    requires Goes(s, a) && Goes(Reached(s, a), b)
    ensures Goes(s, a + b) && (AllTimely(s, a + b) <==> AllTimely(s, a) && AllTimely(Reached(s, a), b))
    decreases |a|
  {
    hide Enabled, Next, Timely;
    GoesOn(s, a, b);
    if a == [] {
      assert a + b == b;
    } else {
      assert (a + b)[1..] == a[1..] + b;
      TimelyOn(Next(s, a[0]), a[1..], b);
    }
  }

  lemma OutsideIsTimely(s: Sys, step: Step, t: Sys)
    requires Leads(s, [step], t) && Outside(step)
    ensures AllTimely(s, [step])
  {
    hide Enabled, Next;
    var steps := [step];
    assert Goes(s, steps) && steps[0] == step && steps[1..] == [];
  }

  lemma EventIsInTime(n: Node, e: Event)
    requires NodeOk(n) && Possible(n, e)
    ensures Goes(Abs(n), EventOf(n, e)) && (AllTimely(Abs(n), EventOf(n, e)) <==> InTime(n, e))
  {
    EventRefines(n, e);
    hide NodeOk, Abs, Goes, Reached, BatchStepsOf, Next, Enabled, BatchGoesOn;
    if e.Other? {
      OutsideIsTimely(Abs(n), e.step, Abs(After(n, e)));
    }
  }

  /** The steps of a run are timely if and only if its batches are in time. */
  lemma {:induction false} RunIsInTimeExactly(n: Node, events: seq<Event>)
    requires NodeOk(n) && Proceeds(n, events)
    ensures Goes(Abs(n), StepsOf(n, events)) && (AllTimely(Abs(n), StepsOf(n, events)) <==> AllInTime(n, events))
    decreases |events|
  {
    RunRefines(n, events);
    hide NodeOk, Abs, Goes, Reached, Possible, After, EventOf, InTime, AllTimely;
    if events == [] {
      NothingLate(Abs(n));
    } else {
      var m := After(n, events[0]);
      EventRefines(n, events[0]);
      EventIsInTime(n, events[0]);
      RunIsInTimeExactly(m, events[1..]);
      TimelyOn(Abs(n), EventOf(n, events[0]), StepsOf(m, events[1..]));
    }
  }

  lemma NothingLate(s: Sys)
    ensures Goes(s, []) && AllTimely(s, [])
  {
  }

  /** In runs of the client in which every batch keeps to the front and the id spaces stay apart: every received QoS 2
      message has at all times the status of its exchange, with a packet sent when the socket has accepted its last
      byte, if and only if no callback of a batch comes late. */
  lemma ClientLifecycle(events: seq<Event>, clientMaximum: nat, brokerMaximum: nat)
    requires Proceeds(NewNode(clientMaximum, brokerMaximum), events) && ApartAll(NewNode(clientMaximum, brokerMaximum), events)
    requires AllInFront(NewNode(clientMaximum, brokerMaximum), events)
    ensures NodeOk(NewNode(clientMaximum, brokerMaximum))
    ensures var n, start := NewNode(clientMaximum, brokerMaximum), NewSys(clientMaximum, brokerMaximum);
            && Leads(start, StepsOf(n, events), Abs(Final(n, events)))
            && (AlwaysRight(start, StepsOf(n, events)) <==> AllInTime(n, events))
            && (AllInTime(n, events) ==>
                  Inv(Abs(Final(n, events))) && Settled(Abs(Final(n, events))) && Statuses(Abs(Final(n, events))))
  {
    hide NodeOk, Proceeds, ApartAll, AllInFront, Final, Abs, Goes, Reached, KeptApart, NewNode, NewSys, AlwaysRight, AllTimely, NoRepeats,
      StepsOf, AllInTime, Inv, Settled, Statuses;
    var n := NewNode(clientMaximum, brokerMaximum);
    NewNodeOk(clientMaximum, brokerMaximum);
    RunRefines(n, events);
    NewIsOrderly(clientMaximum, brokerMaximum);
    RunIsOrderlyExactly(n, events);
    FinalOnce(Final(n, events));
    NewInv(clientMaximum, brokerMaximum);
    NewStatuses(clientMaximum, brokerMaximum);
    RunKeepsStatusesExactly(NewSys(clientMaximum, brokerMaximum), StepsOf(n, events));
    RunIsInTimeExactly(n, events);
  }

  // ---------------------------------------------------------------- promises, retries included

  /** Over all runs of the client with its real pipeline, whatever its passes and its scans do: the promises hold after
      every step if and only if every step meets their guard. */
  lemma ClientKeepsPromisesExactly(events: seq<Event>, clientMaximum: nat, brokerMaximum: nat)
    requires Proceeds(NewNode(clientMaximum, brokerMaximum), events)
    ensures var n, start := NewNode(clientMaximum, brokerMaximum), NewSys(clientMaximum, brokerMaximum);
            && Leads(start, StepsOf(n, events), Abs(Final(n, events)))
            && (KeptPromises.AlwaysKept(start, StepsOf(n, events)) <==> KeptPromises.AllSafe(start, StepsOf(n, events)))
            && (KeptPromises.AllSafe(start, StepsOf(n, events)) ==> KeptPromises.Promised(Abs(Final(n, events))))
  {
    hide NodeOk, Proceeds, Final, Abs, Goes, Reached, NewNode, NewSys, StepsOf, KeptPromises.AlwaysKept, KeptPromises.AllSafe, KeptPromises.Promised;
    var n := NewNode(clientMaximum, brokerMaximum);
    NewNodeOk(clientMaximum, brokerMaximum);
    RunRefines(n, events);
    KeptPromises.PromisesKeptExactly(StepsOf(n, events), clientMaximum, brokerMaximum);
  }

  // ---------------------------------------------------------------- what a batch does to a received message

  /** The steps batches are made of, without repetitions. */
  predicate Sending(steps: seq<Step>) {
    forall i :: 0 <= i < |steps| ==> steps[i].Composes? || steps[i].Transmits? || steps[i].Fires?
  }

  /** Some step makes the callback for the message's packet of that type. */
  predicate CallsFor(steps: seq<Step>, kind: PacketType, id: nat, content: nat) {
    exists i :: 0 <= i < |steps| && steps[i].Fires? && steps[i].m.kind == kind && steps[i].m.id == id && steps[i].m.content == content
  }

  /** The message stays as it was; or it went from waiting for PUBREC to waiting for PUBREL; or it is gone and was about to
      send PUBCOMP. */
  predicate MovedOn(m: Message, session: Messages, recSent: bool, compSent: bool) {
    || Present(session, m.id, m.content, m.status)
    || (m.status == WaitingForPubRec && Present(session, m.id, m.content, WaitingForPubRel) && recSent)
    || (m.status == NeedToSendPubComp && !Contains(session, m.id) && compSent)
  }

  lemma SendingKeepsUsed(s: Sys, step: Step)
    requires Inv(s) && Enabled(s, step) && s.client.status.Connected? && (step.Composes? || step.Transmits? || step.Fires?)
    ensures Next(s, step).client.pool.used == s.client.pool.used
    ensures forall id: nat :: Contains(Next(s, step).client.session, id) ==> Contains(s.client.session, id)
  {
    hide Inv, Compose, Update, Erase, Contains, PacketIdPools.Pool.Release, Survives;
    if step.Fires? {
      FiringKeepsUsed(s, step.m, step.now, step.interval);
    }
  }

  lemma FiringKeepsUsed(s: Sys, m: Msg, now: nat, interval: nat)
    requires Inv(s) && m in s.unfired
    ensures var c := CalledBack(s.client, m, now, interval);
            && c.pool.used == s.client.pool.used
            && forall id: nat :: Contains(c.session, id) ==> Contains(s.client.session, id)
  {
    ConnectedBooks(s);
    AnnouncingIs(s, m);
    hide Inv, Books, Update, Erase, Contains, PacketIdPools.Pool.Release, DistinctIds, Numbered, Remembered, Shapes;
    if m.kind == PublishComplete {
      Carrier(s, m);
      OnlyEntry(s, m.id, m.content);
      UnusedRelease(s.client.pool, m.id);
      EraseAddsNone(s.client.session, m.id);
    } else {
      UpdateAddsNone(s.client.session, m.id, if m.kind == PublishReceived then WaitingForPubRel else WaitingForPubComp, now, interval);
    }
  }

  lemma EraseAddsNone(session: Messages, id: nat)
    ensures forall i: nat :: Contains(Erase(session, id), i) ==> Contains(session, i)
  {
    EraseContents(session, id);
    hide Erase;
    forall i: nat | Contains(Erase(session, id), i) ensures Contains(session, i) {
      var e := Erase(session, id);
      var k :| 0 <= k < |e| && e[k].id == i;
      assert e[k] in session;
    }
  }

  lemma UpdateAddsNone(session: Messages, id: nat, status: Status, now: nat, interval: nat)
    ensures forall i: nat :: Contains(Update(session, id, status, now, interval), i) ==> Contains(session, i)
  {
    UpdateNeverMoves(session, id, status, now, interval);
    var u := Update(session, id, status, now, interval);
    hide Update;
    assert forall k :: 0 <= k < |session| ==> u[k].id == session[k].id;
  }

  lemma {:induction false} GoneStaysGone(s: Sys, steps: seq<Step>, id: nat)
    requires Inv(s) && Goes(s, steps) && KeptApart(s, steps) && Sending(steps) && !Contains(s.client.session, id)
    ensures !Contains(Reached(s, steps).client.session, id)
    decreases |steps|
  {
    if steps != [] {
      SendingKeepsUsed(s, steps[0]);
      StepKeepsExactly(s, steps[0]);
      hide Inv, Enabled, Apart, Next, Contains;
      assert Sending(steps[1..]);
      GoneStaysGone(Next(s, steps[0]), steps[1..], id);
    }
  }

  /** The status the step leaves the message with, unless it is the callback for its PUBCOMP. */
  function StatusAfter(step: Step, m: Message): Status {
    if step.Fires? && step.m == Noted(m.id, m.content) && m.status != NeedToSendPubComp then WaitingForPubRel else m.status
  }

  predicate EndsMessage(step: Step, m: Message) {
    step.Fires? && step.m.kind == PublishComplete && step.m.content == m.content
  }

  lemma SendingStep(s: Sys, step: Step, m: Message)
    requires Inv(s) && Settled(s) && Statuses(s) && Enabled(s, step) && Apart(s, step) && Timely(s, step)
    requires (step.Composes? || step.Transmits? || step.Fires?) && m in s.client.session && m.id !in s.client.pool.used
    ensures s.client.status.Connected?
    ensures var s' := Next(s, step);
            && Inv(s') && Settled(s') && Statuses(s') && s'.client.pool.used == s.client.pool.used
            && (if EndsMessage(step, m) then
                  step.m.id == m.id && m.status == NeedToSendPubComp && !Contains(s'.client.session, m.id)
                else
                  && Present(s'.client.session, m.id, m.content, StatusAfter(step, m))
                  && (StatusAfter(step, m) == m.status
                      || (m.status == WaitingForPubRec && StatusAfter(step, m) == WaitingForPubRel && step.m == Noted(m.id, m.content))))
  {
    hide Inv, Settled, Statuses, Enabled, Apart, Timely, Next, Contains, Present;
    StepKeepsExactly(s, step);
    StepKeepsStatusesExactly(s, step);
    MessageMovesOn(s, step, m);
    SendingKeepsUsed(s, step);
    if EndsMessage(step, m) {
      CompIsOwn(s, step, m);
    }
  }

  /** The first step of a run. */
  lemma FirstOf(s: Sys, steps: seq<Step>)
    requires steps != [] && Goes(s, steps) && KeptApart(s, steps) && AllTimely(s, steps) && Sending(steps)
    ensures s.client.status.Connected? && Enabled(s, steps[0]) && Apart(s, steps[0]) && Timely(s, steps[0])
    ensures var s', rest := Next(s, steps[0]), steps[1..];
            Goes(s', rest) && KeptApart(s', rest) && AllTimely(s', rest) && Sending(rest) && Reached(s, steps) == Reached(s', rest)
    ensures steps[0].Composes? || steps[0].Transmits? || steps[0].Fires?
  {
    hide Enabled, Apart, Timely, Next;
  }

  /** A run of sending steps moves a received message on at most once. */
  lemma {:induction false} SendingMovesOn(s: Sys, steps: seq<Step>, m: Message)
    requires Inv(s) && Settled(s) && Statuses(s) && Goes(s, steps) && KeptApart(s, steps) && AllTimely(s, steps) && Sending(steps)
    requires m in s.client.session && m.id !in s.client.pool.used
    ensures MovedOn(m, Reached(s, steps).client.session,
                    CallsFor(steps, PublishReceived, m.id, m.content), CallsFor(steps, PublishComplete, m.id, m.content))
    decreases |steps|
  {
    hide *;
    if steps != [] {
      FirstOf(s, steps);
      SendingStep(s, steps[0], m);
      var step, s', rest := steps[0], Next(s, steps[0]), steps[1..];
      if EndsMessage(step, m) {
        EndingIs(step, m);
        GoneStaysGone(s', rest, m.id);
        RemovedMoves(steps, m, Reached(s', rest).client.session);
      } else {
        var n := PresentMessage(s'.client.session, m.id, m.content, StatusAfter(step, m));
        StatusIs(step, m);
        SendingMovesOn(s', rest, n);
        MovesJoin(steps, m, n, Reached(s', rest).client.session);
      }
    } else {
      NothingReached(s);
      StaysPut(m, s.client.session, steps);
    }
  }

  lemma NothingReached(s: Sys)
    ensures Goes(s, []) && Reached(s, []) == s
  {
  }

  lemma EndingIs(step: Step, m: Message)
    requires EndsMessage(step, m)
    ensures step.Fires? && step.m.kind == PublishComplete && step.m.content == m.content
  {
  }

  lemma StatusIs(step: Step, m: Message)
    ensures StatusAfter(step, m) == WaitingForPubRel && m.status == WaitingForPubRec ==> step.Fires? && step.m == Noted(m.id, m.content)
  {
  }

  lemma StaysPut(m: Message, session: Messages, steps: seq<Step>)
    requires m in session
    ensures MovedOn(m, session, CallsFor(steps, PublishReceived, m.id, m.content), CallsFor(steps, PublishComplete, m.id, m.content))
  {
    assert Present(session, m.id, m.content, m.status);
  }

  lemma PresentMessage(session: Messages, id: nat, content: nat, status: Status) returns (n: Message)
    requires Present(session, id, content, status)
    ensures n in session && n.id == id && n.content == content && n.status == status
  {
    n :| n in session && n.id == id && n.content == content && n.status == status;
  }

  lemma CompIsOwn(s: Sys, step: Step, m: Message)
    requires Inv(s) && Statuses(s) && step.Fires? && Enabled(s, step) && step.m.kind == PublishComplete && step.m.content == m.content
    requires m in s.client.session && m.id !in s.client.pool.used
    ensures step.m.id == m.id
  {
    AnnouncingIs(s, step.m);
    Carrier(s, step.m);
    PlacedMessage(s, m);
    hide Inv, Statuses, Survives;
  }

  lemma RemovedMoves(steps: seq<Step>, m: Message, session: Messages)
    requires steps != [] && steps[0].Fires? && steps[0].m.kind == PublishComplete && steps[0].m.id == m.id && steps[0].m.content == m.content
    requires m.status == NeedToSendPubComp && !Contains(session, m.id)
    ensures MovedOn(m, session, CallsFor(steps, PublishReceived, m.id, m.content), CallsFor(steps, PublishComplete, m.id, m.content))
  {
  }

  lemma CallsLater(steps: seq<Step>, kind: PacketType, id: nat, content: nat)
    requires steps != [] && CallsFor(steps[1..], kind, id, content)
    ensures CallsFor(steps, kind, id, content)
  {
    var i :| 0 <= i < |steps[1..]| && steps[1..][i].Fires? && steps[1..][i].m.kind == kind && steps[1..][i].m.id == id
             && steps[1..][i].m.content == content;
    assert steps[i + 1] == steps[1..][i];
  }

  /** The first step left the message as `n`, and the rest moved it on from there. */
  lemma MovesJoin(steps: seq<Step>, m: Message, n: Message, session: Messages)
    requires steps != [] && n.id == m.id && n.content == m.content
    requires MovedOn(n, session, CallsFor(steps[1..], PublishReceived, m.id, m.content), CallsFor(steps[1..], PublishComplete, m.id, m.content))
    requires n.status == m.status
             || (m.status == WaitingForPubRec && n.status == WaitingForPubRel && steps[0].Fires? && steps[0].m == Noted(m.id, m.content))
    ensures MovedOn(m, session, CallsFor(steps, PublishReceived, m.id, m.content), CallsFor(steps, PublishComplete, m.id, m.content))
  {
    if CallsFor(steps[1..], PublishReceived, m.id, m.content) {
      CallsLater(steps, PublishReceived, m.id, m.content);
    }
    if CallsFor(steps[1..], PublishComplete, m.id, m.content) {
      CallsLater(steps, PublishComplete, m.id, m.content);
    }
    if n.status != m.status {
      assert CallsFor(steps, PublishReceived, m.id, m.content);
    }
    hide CallsFor, Contains, Present;
  }

  /** The last byte of the message's packet of that type has been accepted. */
  ghost predicate AcceptedWhole(p: Pipe, kind: PacketType, id: nat, content: nat) {
    exists j :: 0 <= j < |p.composed| && p.composed[j].kind == kind && p.composed[j].id == id && p.composed[j].content == content
                && EndOf(p.composed, j) <= |p.accepted|
  }

  lemma CalledIsAccepted(p: Pipe, steps: seq<Step>, kind: PacketType, id: nat, content: nat)
    requires FiresWhole(steps, p.composed, Gone(p)) && CallsFor(steps, kind, id, content)
    ensures AcceptedWhole(p, kind, id, content)
  {
    hide Whole, EndOf;
    WholeExactly(p.composed, |p.accepted|);
    var i :| 0 <= i < |steps| && steps[i].Fires? && steps[i].m.kind == kind && steps[i].m.id == id && steps[i].m.content == content;
    var j :| 0 <= j < Gone(p) && steps[i].m == Note(p.composed[j]);
  }

  /** A batch of the client and a received QoS 2 message: it stays as it is; or it goes on to waiting for PUBREL, and
      then the last byte of its PUBREC has been accepted; or it leaves the session, from no other place than about to
      send PUBCOMP, and then the last byte of its PUBCOMP has been accepted. */
  lemma BatchMovesOn(n: Node, script: seq<Answer>, clock: nat -> nat, interval: nat, m: Message)
    requires NodeOk(n) && Inv(Abs(n)) && Settled(Abs(n)) && Statuses(Abs(n)) && Possible(n, Batch(script, clock, interval))
    requires InTime(n, Batch(script, clock, interval)) && TryBatch(n.pipe, script).1.orderly
    requires m in n.client.session && m.id !in n.client.pool.used
    ensures var after := Ticked(n, script, clock, interval);
            MovedOn(m, after.client.session, AcceptedWhole(after.pipe, PublishReceived, m.id, m.content),
                    AcceptedWhole(after.pipe, PublishComplete, m.id, m.content))
  {
    var e, steps, after := Batch(script, clock, interval), BatchStepsOf(n.pipe, script, clock, interval), Ticked(n, script, clock, interval);
    hide *;
    PossibleBatch(n, script, clock, interval);
    BatchRefines(n, script, clock, interval);
    TickedPipe(n, script, clock, interval);
    FinalOnce(after);
    BatchIsApart(Abs(n), steps, Abs(after));
    BatchIsSending(Abs(n), steps, Abs(after));
    AbsClient(n);
    AbsClient(after);
    SendingMovesOn(Abs(n), steps, m);
    BatchWhole(n, script, clock, interval);
    BatchCallsAccepted(after.pipe, steps, m);
    StillMovedOn(m, after.client.session, steps, after.pipe);
  }

  lemma PossibleBatch(n: Node, script: seq<Answer>, clock: nat -> nat, interval: nat)
    requires NodeOk(n) && Possible(n, Batch(script, clock, interval)) && InTime(n, Batch(script, clock, interval))
    ensures BatchGoesOn(n, script, clock, interval)
    ensures Goes(Abs(n), BatchStepsOf(n.pipe, script, clock, interval)) && AllTimely(Abs(n), BatchStepsOf(n.pipe, script, clock, interval))
  {
    hide BatchGoesOn, Goes, Abs, BatchStepsOf, AllTimely;
    BatchRefines(n, script, clock, interval);
  }

  lemma BatchIsSending(s: Sys, steps: seq<Step>, t: Sys)
    requires Leads(s, steps, t) && BatchSteps(steps, true)
    ensures Goes(s, steps) && Reached(s, steps) == t && Sending(steps)
  {
    hide Goes, Reached;
    if steps != [] {
      assert forall i :: 1 <= i < |steps| ==> steps[i] == steps[1..][i - 1];
    }
  }

  lemma AbsClient(n: Node)
    ensures Abs(n).client == n.client
  {
  }

  lemma BatchCallsAccepted(p: Pipe, steps: seq<Step>, m: Message)
    requires FiresWhole(steps, p.composed, Gone(p))
    ensures CallsFor(steps, PublishReceived, m.id, m.content) ==> AcceptedWhole(p, PublishReceived, m.id, m.content)
    ensures CallsFor(steps, PublishComplete, m.id, m.content) ==> AcceptedWhole(p, PublishComplete, m.id, m.content)
  {
    hide FiresWhole, AcceptedWhole, CallsFor, Gone;
    if CallsFor(steps, PublishReceived, m.id, m.content) {
      CalledIsAccepted(p, steps, PublishReceived, m.id, m.content);
    }
    if CallsFor(steps, PublishComplete, m.id, m.content) {
      CalledIsAccepted(p, steps, PublishComplete, m.id, m.content);
    }
  }

  lemma StillMovedOn(m: Message, session: Messages, steps: seq<Step>, p: Pipe)
    requires MovedOn(m, session, CallsFor(steps, PublishReceived, m.id, m.content), CallsFor(steps, PublishComplete, m.id, m.content))
    requires CallsFor(steps, PublishReceived, m.id, m.content) ==> AcceptedWhole(p, PublishReceived, m.id, m.content)
    requires CallsFor(steps, PublishComplete, m.id, m.content) ==> AcceptedWhole(p, PublishComplete, m.id, m.content)
    ensures MovedOn(m, session, AcceptedWhole(p, PublishReceived, m.id, m.content), AcceptedWhole(p, PublishComplete, m.id, m.content))
  {
    hide CallsFor, AcceptedWhole, Present, Contains;
  }
}
