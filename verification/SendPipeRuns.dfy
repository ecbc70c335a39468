/** Whole runs of the outbound pipeline, and exactly when its notification pass and its socket contract
    keep their promises. */
module SendPipeRuns {
  import opened Bytes
  import opened Packets
  import opened ReceiveMaximum
  import opened SendPipes
  import opened SendPipeProperties

  // ---------------------------------------------------------------- the order of composing

  function Select(jobs: seq<Job>, counted: bool): seq<Job> {
    if jobs == [] then []
    else Select(jobs[..|jobs| - 1], counted) + Pick(jobs[|jobs| - 1], counted)
  }

  function Pick(job: Job, counted: bool): seq<Job> {
    if IsCountedPublish(job) == counted then [job] else []
  }

  /** The QoS 1 and 2 publishes among jobs, and the rest. */
  function Counted(jobs: seq<Job>): seq<Job> {
    Select(jobs, true)
  }

  function Others(jobs: seq<Job>): seq<Job> {
    Select(jobs, false)
  }

  lemma SelectSnoc(jobs: seq<Job>, job: Job, counted: bool)
    ensures Select(jobs + [job], counted) == Select(jobs, counted) + Pick(job, counted)
  {
    assert (jobs + [job])[..|jobs|] == jobs;
  }

  lemma {:induction false} SelectCons(job: Job, jobs: seq<Job>, counted: bool)
    ensures Select([job] + jobs, counted) == Pick(job, counted) + Select(jobs, counted)
  {
    var whole := [job] + jobs;
    var n := |jobs|;
    assert Select(whole, counted) == Select(whole[..n], counted) + Pick(whole[n], counted);
    if n == 0 {
      assert whole[..n] == [] && Select(jobs, counted) == [];
    } else {
      var front := jobs[..n - 1];
      assert whole[..n] == [job] + front;
      SelectCons(job, front, counted);
      assert Select(jobs, counted) == Select(front, counted) + Pick(jobs[n - 1], counted);
      hide Select, Pick;
      Reassociate(Pick(job, counted), Select(front, counted), Pick(jobs[n - 1], counted));
    }
  }

  lemma Snoc(jobs: seq<Job>, job: Job)
    ensures Counted(jobs + [job]) == Counted(jobs) + (if IsCountedPublish(job) then [job] else [])
    ensures Others(jobs + [job]) == Others(jobs) + (if IsCountedPublish(job) then [] else [job])
  {
    hide Select;
    SelectSnoc(jobs, job, true);
    SelectSnoc(jobs, job, false);
  }

  lemma Cons(job: Job, jobs: seq<Job>)
    ensures Counted([job] + jobs) == (if IsCountedPublish(job) then [job] else []) + Counted(jobs)
    ensures Others([job] + jobs) == (if IsCountedPublish(job) then [] else [job]) + Others(jobs)
  {
    hide Select;
    SelectCons(job, jobs, true);
    SelectCons(job, jobs, false);
  }

  /** A job is only held back while no allowance is left, and allowance only falls within a batch. */
  predicate HeldBack(c: Composing) {
    (c.delayed != [] ==> c.send.allowance == 0) && Others(c.delayed) == []
  }

  /** So each batch composes a prefix of the counted publishes and every other job, both in queue order. */
  lemma {:induction false} ComposeOrder(jobs: seq<Job>, c: Composing)
    requires HeldBack(c) && !Compose(jobs, c).failed
    ensures var r := Compose(jobs, c);
            && HeldBack(r)
            && Counted(r.composed) + Counted(r.delayed) == Counted(c.composed) + Counted(c.delayed) + Counted(jobs)
            && Others(r.composed) == Others(c.composed) + Others(jobs)
  {
    if jobs == [] || c.failed {
      assert Counted(c.composed) + Counted(c.delayed) + [] == Counted(c.composed) + Counted(c.delayed);
      assert Others(c.composed) + [] == Others(c.composed);
    } else {
      var job, rest, d := jobs[0], jobs[1..], ComposeOne(jobs[0], c);
      assert [job] + rest == jobs;
      Cons(job, rest);
      ComposeOneOrder(job, c);
      assert !d.failed by {
        assert d.failed ==> Compose(rest, d) == d;
      }
      hide *;
      ComposeOrder(rest, d);
      Reassociate(Counted(c.composed) + Counted(c.delayed), if IsCountedPublish(job) then [job] else [], Counted(rest));
      Reassociate(Others(c.composed), if IsCountedPublish(job) then [] else [job], Others(rest));
    }
  }

  lemma Reassociate(a: seq<Job>, b: seq<Job>, c: seq<Job>)
    ensures a + b + c == a + (b + c)
  {
  }

  lemma ComposeOneOrder(job: Job, c: Composing)
    requires HeldBack(c)
    ensures var d := ComposeOne(job, c);
            !d.failed ==>
              && HeldBack(d)
              && Counted(d.composed) + Counted(d.delayed)
                 == Counted(c.composed) + Counted(c.delayed) + (if IsCountedPublish(job) then [job] else [])
              && Others(d.composed) == Others(c.composed) + (if IsCountedPublish(job) then [] else [job])
  {
    var d := ComposeOne(job, c);
    var one := if IsCountedPublish(job) then [job] else [];
    ComposeOneCases(job, c);
    Snoc(c.composed, job);
    Snoc(c.delayed, job);
    assert c.delayed == [] ==> Counted(c.delayed) == [];
    hide Counted, Others, Window.Take, Window.Give, ComposeOne, IsCountedPublish;
    if d.failed {
    } else if d.composed == c.composed {
      assert Others(c.delayed) + [] == [];
      Reassociate(Counted(c.composed), Counted(c.delayed), one);
    } else if IsCountedPublish(job) {
      assert c.delayed == [];
      EmptyEnds(Counted(c.composed), one);
    } else {
      EmptyEnds(Counted(c.composed), Counted(c.delayed));
    }
  }

  lemma EmptyEnds(a: seq<Job>, b: seq<Job>)
    ensures a + [] == a && a + b + [] == a + b
  {
  }

  /** A job fails to encode, is held back, or is composed; only counted publishes are held back, and only
      at zero allowance. */
  lemma ComposeOneCases(job: Job, c: Composing)
    ensures var d := ComposeOne(job, c);
            || (d.failed && d.composed == c.composed && d.send == c.send && d.receive == c.receive)
            || (&& d == c.(delayed := c.delayed + [job])
                && IsCountedPublish(job) && c.send.allowance == 0)
            || (&& d.composed == c.composed + [job] && d.delayed == c.delayed
                && (IsCountedPublish(job) ==> c.send.allowance > 0 && d.send == c.send.Take(job.id).1)
                && (!IsCountedPublish(job) ==> d.send == c.send)
                && d.receive == if job.kind in {PublishAck, PublishComplete} then c.receive.Give(job.id) else c.receive)
  {
    hide Window.Take, Window.Give;
  }

  // ---------------------------------------------------------------- both windows

  /** The ids of the counted publishes composed from number `from` on, and of the final replies. */
  function PublishIds(composed: seq<Job>, from: nat): set<nat> {
    set j | from <= j < |composed| && IsCountedPublish(composed[j]) :: composed[j].id
  }

  function ReplyIds(composed: seq<Job>, from: nat): set<nat> {
    set j | from <= j < |composed| && composed[j].kind in {PublishAck, PublishComplete} :: composed[j].id
  }

  lemma IdsSnoc(composed: seq<Job>, job: Job, from: nat)
    requires from <= |composed|
    ensures PublishIds(composed + [job], from)
         == PublishIds(composed, from) + (if IsCountedPublish(job) then {job.id} else {})
    ensures ReplyIds(composed + [job], from)
         == ReplyIds(composed, from) + (if job.kind in {PublishAck, PublishComplete} then {job.id} else {})
  {
    var more := composed + [job];
    assert forall j :: 0 <= j < |composed| ==> more[j] == composed[j];
    assert more[|composed|] == job;
  }

  /** Composing opens the id of every counted publish it composes; none is ever refused. */
  ghost predicate Opening(c: Composing, from: nat, send: Window) {
    && c.send.Balanced() && c.send.max == send.max && from <= |c.composed|
    && c.send.ids == send.ids + PublishIds(c.composed, from)
  }

  /** It closes the id of every final reply it composes. */
  ghost predicate Closing(c: Composing, from: nat, receive: Window) {
    && c.receive.Balanced() && c.receive.max == receive.max && from <= |c.composed|
    && c.receive.ids == receive.ids - ReplyIds(c.composed, from)
  }

  lemma ComposeOneOpens(job: Job, c: Composing, from: nat, send: Window)
    requires Opening(c, from, send)
    ensures Opening(ComposeOne(job, c), from, send)
  {
    hide PublishIds, Window.Take, Window.Give, Window.Balanced, ComposeOne, IsCountedPublish;
    ComposeOneCases(job, c);
    IdsSnoc(c.composed, job, from);
    if c.send.allowance > 0 {
      TakeOpens(c.send, job.id);
    }
  }

  lemma ComposeOneCloses(job: Job, c: Composing, from: nat, receive: Window)
    requires Closing(c, from, receive)
    ensures Closing(ComposeOne(job, c), from, receive)
  {
    hide ReplyIds, Window.Take, Window.Give, Window.Balanced, ComposeOne, IsCountedPublish;
    ComposeOneCases(job, c);
    IdsSnoc(c.composed, job, from);
    GiveCloses(c.receive, job.id);
  }

  lemma {:induction false} ComposeWindows(jobs: seq<Job>, c: Composing, from: nat, receive: Window, send: Window)
    requires Opening(c, from, send) && Closing(c, from, receive)
    ensures Opening(Compose(jobs, c), from, send) && Closing(Compose(jobs, c), from, receive)
  {
    hide Opening, Closing, ComposeOne;
    if jobs != [] && !c.failed {
      ComposeOneOpens(jobs[0], c, from, send);
      ComposeOneCloses(jobs[0], c, from, receive);
      ComposeWindows(jobs[1..], ComposeOne(jobs[0], c), from, receive, send);
    }
  }

  // ---------------------------------------------------------------- what may be sent, and what cannot be encoded

  /** The ids of the QoS 1 and 2 publishes among jobs that the window does not count yet. */
  function NewIds(jobs: seq<Job>, open: set<nat>): set<nat> {
    (set j | j in jobs && j.kind == PacketType.Publish && j.qos > 0 :: j.id) - open
  }

  /** Job `k` may be sent: it is no QoS 1 or 2 publish, or those before it leave allowance for it. */
  predicate MaySend(jobs: seq<Job>, k: nat, send: Window)
    requires k < |jobs|
  {
    jobs[k].kind == PacketType.Publish && jobs[k].qos > 0 ==> |NewIds(jobs[..k], send.ids)| < send.allowance
  }

  predicate Unencodable(jobs: seq<Job>, k: nat, send: Window)
    requires k < |jobs|
  {
    jobs[k].encoded.None? && MaySend(jobs, k, send)
  }

  /** The window while composing, after the jobs `done`. */
  ghost predicate Spent(c: Composing, done: seq<Job>, send: Window) {
    && c.send.Balanced() && c.send.max == send.max
    && (if c.send.allowance > 0 then c.send.ids == send.ids + NewIds(done, send.ids) else |NewIds(done, send.ids)| >= send.allowance)
  }

  lemma NewIdsSnoc(jobs: seq<Job>, job: Job, open: set<nat>)
    ensures NewIds(jobs + [job], open)
         == NewIds(jobs, open) + if job.kind == PacketType.Publish && job.qos > 0 && job.id !in open then {job.id} else {}
  {
  }

  lemma MoreNewIds(a: set<nat>, b: set<nat>)
    requires a <= b
    ensures |a| <= |b|
  {
    assert b == a + (b - a);
  }

  /** Allowance is left exactly while the new ids are fewer than the allowance at the start. */
  lemma SpentExactly(c: Composing, done: seq<Job>, send: Window)
    requires send.Balanced() && Spent(c, done, send)
    ensures c.send.allowance > 0 <==> |NewIds(done, send.ids)| < send.allowance
  {
    hide NewIds;
    if c.send.allowance > 0 {
      NewIdsAreNew(done, send.ids);
      assert |c.send.ids| == |send.ids| + |NewIds(done, send.ids)|;
    }
  }

  lemma NewIdsAreNew(jobs: seq<Job>, open: set<nat>)
    ensures NewIds(jobs, open) !! open
  {
  }

  /** A window opened so far for ids of its own and `extra` has at most so much left. */
  lemma Remaining(w: Window, send: Window, extra: set<nat>)
    requires send.Balanced() && w.Balanced() && w.max == send.max && w.ids == send.ids + extra && extra !! send.ids
    ensures w.allowance + |extra| == send.allowance
  {
    assert |send.ids + extra| == |send.ids| + |extra|;
  }

  lemma ComposeOneSpends(job: Job, c: Composing, done: seq<Job>, send: Window)
    requires send.Balanced() && Spent(c, done, send) && !c.failed
    ensures ComposeOne(job, c).failed <==> Unencodable(done + [job], |done|, send)
    ensures !ComposeOne(job, c).failed ==> Spent(ComposeOne(job, c), done + [job], send)
  {
    hide NewIds, Window.Take, Window.Give, Window.Balanced, ComposeOne;
    assert (done + [job])[..|done|] == done;
    SpentExactly(c, done, send);
    ComposeOneFails(job, c);
    ComposeOneCases(job, c);
    var d, before, after := ComposeOne(job, c), NewIds(done, send.ids), NewIds(done + [job], send.ids);
    NewIdsSnoc(done, job, send.ids);
    MoreNewIds(before, after);
    if !d.failed && c.send.allowance > 0 && IsCountedPublish(job) {
      TakeOpens(c.send, job.id);
      NewIdsAreNew(done + [job], send.ids);
      assert d.send.ids == send.ids + after;
      Remaining(d.send, send, after);
    }
  }

  lemma ComposeOneFails(job: Job, c: Composing)
    ensures !c.failed ==> (ComposeOne(job, c).failed <==> CanSend(job, c.send) && job.encoded.None?)
  {
    hide Window.Take, Window.Give;
  }

  lemma {:induction false} ComposeFailsExactly(done: seq<Job>, jobs: seq<Job>, c: Composing, send: Window)
    requires send.Balanced() && Spent(c, done, send) && !c.failed
    ensures Compose(jobs, c).failed <==> exists k :: |done| <= k < |done + jobs| && Unencodable(done + jobs, k, send)
    decreases |jobs|
  {
    hide Spent, Unencodable, ComposeOne, Window.Balanced;
    if jobs != [] {
      var job, d, next := jobs[0], ComposeOne(jobs[0], c), done + [jobs[0]];
      assert next + jobs[1..] == done + jobs;
      ComposeOneSpends(job, c, done, send);
      SamePrefix(next, jobs[1..], |done|, send);
      if d.failed {
        assert Compose(jobs[1..], d) == d;
      } else {
        ComposeFailsExactly(next, jobs[1..], d, send);
      }
    }
  }

  lemma SamePrefix(front: seq<Job>, rest: seq<Job>, k: nat, send: Window)
    requires k < |front|
    ensures Unencodable(front + rest, k, send) <==> Unencodable(front, k, send)
  {
    assert (front + rest)[..k] == front[..k];
    hide NewIds;
  }

  /** A batch ends the connection with an encode error if and only if some job that may be sent cannot be encoded. */
  lemma EncodeErrorExactly(p: Pipe, script: seq<Answer>)
    requires p.send.Balanced()
    ensures TryBatch(p, script).0 == EncodeError <==> exists k :: 0 <= k < |p.jobs| && Unencodable(p.jobs, k, p.send)
  {
    hide Compose, Unencodable, SendLoop;
    assert [] + p.jobs == p.jobs && Spent(p.Start(), [], p.send);
    if p.jobs != [] {
      ComposeFailsExactly([], p.jobs, p.Start(), p.send);
    }
  }

  // ---------------------------------------------------------------- one batch

  ghost predicate PipeOk(p: Pipe) {
    && AllProper(p.jobs)
    && p.accepted + p.buffer == Stream(p.composed)
    && AllDescribe(p.composed, p.tracked, |p.accepted|)
    && NoneEarly(p.composed, p.fired, |p.accepted|) && NoneEarly(p.composed, p.pings, |p.accepted|)
    && Callbacks(p.composed, p.fired, p.tracked, p.orderly)
    && (p.buffer == [] ==> p.tracked == [])
  }

  lemma BatchKeepsPipe(p: Pipe, script: seq<Answer>)
    requires PipeOk(p) && Truthful(script) && TryBatch(p, script).0 != EncodeError
    ensures PipeOk(TryBatch(p, script).1) && TryBatch(p, script).0 != Escaped
    ensures p.composed <= TryBatch(p, script).1.composed
  {
    hide AllDescribe, NoneEarly, Callbacks, Describes, SendOnce;
    if p.jobs != [] {
      var c := Compose(p.jobs, p.Start());
      StartOk(p);
      ComposeKeeps(p.jobs, p.Start(), p.fired, p.orderly, |p.accepted|);
      ComposeExtends(p.jobs, p.Start());
      var x := p.Sending(c, script);
      SendingOk(p, c, script);
      SendLoopKeeps(c.composed, c.ping, x, 0);
    }
  }

  lemma StartOk(p: Pipe)
    requires PipeOk(p)
    ensures ComposingOk(p.Start(), p.fired, p.orderly, |p.accepted|)
  {
    hide AllDescribe, NoneEarly, Callbacks;
    assert |p.accepted + p.buffer| == |p.accepted| + |p.buffer|;
  }

  lemma SendingOk(p: Pipe, c: Composing, script: seq<Answer>)
    requires PipeOk(p) && Truthful(script) && p.composed <= c.composed
    requires ComposingOk(c, p.fired, p.orderly, |p.accepted|)
    ensures TransitOk(c.composed, c.ping, p.Sending(c, script))
  {
    var added := c.composed[|p.composed|..];
    assert p.composed + added == c.composed;
    StreamAppend(p.composed, added);
    NoneEarlyMore(p.composed, c.composed, p.fired, |p.accepted|, |p.accepted|);
    NoneEarlyMore(p.composed, c.composed, p.pings, |p.accepted|, |p.accepted|);
    hide AllDescribe, NoneEarly, Callbacks, Describes, Stream, Truthful;
    Extend(p.accepted, p.buffer, Stream(added));
  }

  lemma Extend(accepted: seq<byte>, buffer: seq<byte>, more: seq<byte>)
    ensures accepted + (buffer + more) == accepted + buffer + more
    ensures |accepted + buffer + more| == |accepted| + |buffer + more|
  {
  }

  // ---------------------------------------------------------------- whole runs of one connection

  /** A job queued, a tick's batch over a socket script, a final acknowledgement arriving for one of our
      publishes, or a QoS 1 or 2 PUBLISH arriving. */
  datatype Step = Queued(job: Job) | Batch(script: seq<Answer>) | Acknowledged(id: nat) | Arrived(id: nat)

  /** The pipeline with the history the promises are about: all jobs queued, the ids composed and not
      finally acknowledged, and the ids received and not finally replied to. */
  datatype Run = Run(pipe: Pipe, queued: seq<Job>, inFlight: set<nat>, unanswered: set<nat>)

  function NewRun(client: nat, broker: nat): Run {
    Run(Pipe([], [], [], Window(client, client, {}), Window(broker, broker, {}), [], [], [], [], true), [], {}, {})
  }

  predicate Possible(run: Run, s: Step) {
    match s
    case Queued(job) => Proper(job)
    case Batch(script) => Truthful(script) && TryBatch(run.pipe, script).0 != EncodeError
    case _ => true
  }

  function Advanced(run: Run, s: Step): Run {
    var p := run.pipe;
    match s
    case Queued(job) => run.(pipe := p.(jobs := p.jobs + [job]), queued := run.queued + [job])
    case Batch(script) =>
      var q := TryBatch(p, script).1;
      run.(pipe := q,
           inFlight := run.inFlight + PublishIds(q.composed, |p.composed|),
           unanswered := run.unanswered - ReplyIds(q.composed, |p.composed|))
    case Acknowledged(id) => run.(pipe := p.(send := p.send.Give(id)), inFlight := run.inFlight - {id})
    case Arrived(id) =>
      run.(pipe := p.(receive := p.receive.Take(id).1),
           unanswered := if |run.unanswered| < p.receive.max then run.unanswered + {id} else run.unanswered)
  }

  ghost predicate RunOk(run: Run, client: nat, broker: nat) {
    var p := run.pipe;
    && PipeOk(p)
    && Counted(p.composed) + Counted(p.jobs) == Counted(run.queued)
    && Others(p.composed) + Others(p.jobs) == Others(run.queued)
    && p.send.Balanced() && p.send.max == broker && p.send.ids == run.inFlight
    && p.receive.Balanced() && p.receive.max == client && p.receive.ids == run.unanswered
  }

  lemma NewRunOk(client: nat, broker: nat)
    ensures RunOk(NewRun(client, broker), client, broker)
  {
  }

  lemma StepKeepsRun(run: Run, s: Step, client: nat, broker: nat)
    requires RunOk(run, client, broker) && Possible(run, s)
    ensures RunOk(Advanced(run, s), client, broker)
  {
    var p := run.pipe;
    match s
    case Queued(job) => QueueingKeepsRun(run, job, client, broker);
    case Batch(script) => BatchKeepsRun(run, script, client, broker);
    case Acknowledged(id) =>
      GiveCloses(p.send, id);
      hide AllDescribe, NoneEarly, Callbacks, Stream, TryBatch, Window.Take, Window.Give;
    case Arrived(id) =>
      AdvanceKeepsBalance(p.receive, Opened(id));
      hide AllDescribe, NoneEarly, Callbacks, Stream, TryBatch, Window.Take, Window.Give;
  }

  lemma QueueingKeepsRun(run: Run, job: Job, client: nat, broker: nat)
    requires RunOk(run, client, broker) && Proper(job)
    ensures RunOk(Advanced(run, Queued(job)), client, broker)
  {
    hide AllDescribe, NoneEarly, Callbacks, Stream, TryBatch;
    var p := run.pipe;
    Snoc(p.jobs, job);
    Snoc(run.queued, job);
    hide Counted, Others;
    var one := if IsCountedPublish(job) then [job] else [];
    var other := if IsCountedPublish(job) then [] else [job];
    assert Counted(p.composed) + (Counted(p.jobs) + one) == Counted(p.composed) + Counted(p.jobs) + one;
    assert Others(p.composed) + (Others(p.jobs) + other) == Others(p.composed) + Others(p.jobs) + other;
  }

  lemma BatchKeepsRun(run: Run, script: seq<Answer>, client: nat, broker: nat)
    requires RunOk(run, client, broker) && Possible(run, Batch(script))
    ensures RunOk(Advanced(run, Batch(script)), client, broker)
  {
    var p := run.pipe;
    BatchKeepsPipe(p, script);
    if p.jobs == [] {
      NothingNew(p.composed);
      hide PipeOk, Counted, Others, PublishIds, ReplyIds;
    } else {
      BatchOrder(p, script);
      BatchWindows(p, script);
      hide PipeOk, TryBatch, Counted, Others, PublishIds, ReplyIds, Window.Balanced;
    }
  }

  lemma BatchOrder(p: Pipe, script: seq<Answer>)
    requires p.jobs != [] && TryBatch(p, script).0 != EncodeError
    ensures var q := TryBatch(p, script).1;
            && Counted(q.composed) + Counted(q.jobs) == Counted(p.composed) + Counted(p.jobs)
            && Others(q.composed) + Others(q.jobs) == Others(p.composed) + Others(p.jobs)
  {
    assert Counted([]) == [] && Others([]) == [];
    hide Counted, Others, SendLoop, Compose;
    ComposeOrder(p.jobs, p.Start());
    assert Counted(p.composed) + [] == Counted(p.composed);
    assert Others(Compose(p.jobs, p.Start()).composed) + [] == Others(Compose(p.jobs, p.Start()).composed);
  }

  lemma BatchWindows(p: Pipe, script: seq<Answer>)
    requires p.jobs != [] && p.send.Balanced() && p.receive.Balanced() && TryBatch(p, script).0 != EncodeError
    ensures var q := TryBatch(p, script).1;
            && q.send.Balanced() && q.send.max == p.send.max
            && q.send.ids == p.send.ids + PublishIds(q.composed, |p.composed|)
            && q.receive.Balanced() && q.receive.max == p.receive.max
            && q.receive.ids == p.receive.ids - ReplyIds(q.composed, |p.composed|)
  {
    NothingNew(p.composed);
    hide PublishIds, ReplyIds, SendLoop, Compose, Window.Balanced;
    ComposeWindows(p.jobs, p.Start(), |p.composed|, p.receive, p.send);
  }

  lemma NothingNew(composed: seq<Job>)
    ensures PublishIds(composed, |composed|) == {} && ReplyIds(composed, |composed|) == {}
  {
  }

  predicate RunsFrom(run: Run, steps: seq<Step>)
    decreases |steps|
  {
    steps == [] || (Possible(run, steps[0]) && RunsFrom(Advanced(run, steps[0]), steps[1..]))
  }

  function End(run: Run, steps: seq<Step>): Run
    decreases |steps|
  {
    if steps == [] then run else End(Advanced(run, steps[0]), steps[1..])
  }

  lemma {:induction false} RunKeeps(run: Run, steps: seq<Step>, client: nat, broker: nat)
    requires RunOk(run, client, broker) && RunsFrom(run, steps)
    ensures RunOk(End(run, steps), client, broker)
    decreases |steps|
  {
    hide RunOk, Possible, Advanced;
    if steps != [] {
      StepKeepsRun(run, steps[0], client, broker);
      RunKeeps(Advanced(run, steps[0]), steps[1..], client, broker);
    }
  }

  /** The promises of the outbound pipeline, after any steps of a connection and for any pattern of full,
      partial and failed sends:
      the bytes accepted and the buffer are the encodings of all composed packets in order;
      no callback ever fired before its packet was accepted whole;
      counted publishes, and all other jobs, are composed in the order they were queued;
      the publishes in flight number the limit less the allowance; and so do the unanswered ones received. */
  lemma PipelinePromises(steps: seq<Step>, client: nat, broker: nat)
    requires RunsFrom(NewRun(client, broker), steps)
    ensures var run := End(NewRun(client, broker), steps);
            var p := run.pipe;
            && p.accepted + p.buffer == Stream(p.composed)
            && NoneEarly(p.composed, p.fired, |p.accepted|) && NoneEarly(p.composed, p.pings, |p.accepted|)
            && Counted(p.composed) <= Counted(run.queued) && Others(p.composed) <= Others(run.queued)
            && Counted(run.queued)[|Counted(p.composed)|..] == Counted(p.jobs)
            && p.send.ids == run.inFlight && |run.inFlight| == broker - p.send.allowance
            && p.receive.ids == run.unanswered && |run.unanswered| == client - p.receive.allowance
            && (forall id :: !p.receive.Take(id).0 <==> |run.unanswered| == client)
  {
    NewRunOk(client, broker);
    RunKeeps(NewRun(client, broker), steps, client, broker);
    hide AllDescribe, NoneEarly, Callbacks, Stream, Counted, Others, End, RunsFrom;
  }

  /** As long as every notification pass kept to the front, each announced packet gets its callback exactly
      once and in order: all of them have it when the buffer is empty. Otherwise some callback was wrong. */
  lemma CallbacksExactlyOnce(steps: seq<Step>, client: nat, broker: nat)
    requires RunsFrom(NewRun(client, broker), steps)
    ensures var p := End(NewRun(client, broker), steps).pipe;
            && (p.orderly <==> InOrder(p.composed, p.fired, p.tracked))
            && (p.orderly && p.buffer == [] ==> FiredJobs(p.fired) == Expected(p.composed))
  {
    NewRunOk(client, broker);
    RunKeeps(NewRun(client, broker), steps, client, broker);
    var p := End(NewRun(client, broker), steps).pipe;
    hide AllDescribe, NoneEarly, Stream, Counted, Others, End, RunsFrom, Expected;
    if p.orderly && p.buffer == [] {
      assert FiredJobs(p.fired) + TrackedJobs([]) == FiredJobs(p.fired);
    }
  }

  // ---------------------------------------------------------------- who gets a callback

  /** A PUBREC, PUBREL, PUBCOMP or DISCONNECT, the packets whose sending the client waits for. */
  predicate AwaitsSending(kind: PacketType) {
    kind == PublishReceived || kind == PublishReleased || kind == PublishComplete || kind == PacketType.Disconnect
  }

  /** Callback `i` is for packet number `n`, with its kind and id and after its last byte, and is the only one. */
  ghost predicate OnlyCallback(p: Pipe, i: int, n: nat)
    requires n < |p.composed|
  {
    && 0 <= i < |p.fired| && (forall j :: 0 <= j < |p.fired| ==> (p.fired[j].packet.job == n <==> j == i))
    && p.fired[i].packet.kind == p.composed[n].kind && p.fired[i].packet.id == p.composed[n].id
    && EndOf(p.composed, n) <= p.fired[i].at
  }

  /** Exactly the packets of those four kinds have been called back, each once. */
  ghost predicate CalledBackByKind(p: Pipe) {
    && (forall n :: 0 <= n < |p.composed| && AwaitsSending(p.composed[n].kind) ==> exists i :: OnlyCallback(p, i, n))
    && (forall i :: 0 <= i < |p.fired| ==>
          p.fired[i].packet.job < |p.composed| && AwaitsSending(p.composed[p.fired[i].packet.job].kind))
  }

  lemma {:induction false} ExpectedExactly(composed: seq<Job>, n: nat)
    ensures n in Expected(composed) <==> n < |composed| && AwaitsSending(composed[n].kind)
  {
    if composed != [] {
      ExpectedExactly(composed[..|composed| - 1], n);
    }
  }

  /** In a run whose callbacks kept their order, once the buffer is empty, each PUBREC, PUBREL, PUBCOMP and
      DISCONNECT composed has had exactly one callback with its number, kind and id, made after its last byte was
      accepted; and no other packet has had one. */
  lemma CallbacksByKind(steps: seq<Step>, client: nat, broker: nat)
    requires RunsFrom(NewRun(client, broker), steps)
    ensures var p := End(NewRun(client, broker), steps).pipe;
            p.orderly && p.buffer == [] ==> CalledBackByKind(p)
  {
    NewRunOk(client, broker);
    RunKeeps(NewRun(client, broker), steps, client, broker);
    CallbacksExactlyOnce(steps, client, broker);
    hide *;
    var p := End(NewRun(client, broker), steps).pipe;
    if p.orderly && p.buffer == [] {
      assert NoneEarly(p.composed, p.fired, |p.accepted|) by { PipeOfRun(End(NewRun(client, broker), steps), client, broker); }
      FiredByKind(p);
    }
  }

  lemma PipeOfRun(run: Run, client: nat, broker: nat)
    requires RunOk(run, client, broker)
    ensures NoneEarly(run.pipe.composed, run.pipe.fired, |run.pipe.accepted|)
  {
  }

  lemma FiredByKind(p: Pipe)
    requires FiredJobs(p.fired) == Expected(p.composed) && NoneEarly(p.composed, p.fired, |p.accepted|)
    ensures CalledBackByKind(p)
  {
    hide Expected, AwaitsSending, EndOf;
    var e := Expected(p.composed);
    ExpectedIncreases(p.composed);
    assert forall i :: 0 <= i < |p.fired| ==> e[i] == FiredJobs(p.fired)[i] == p.fired[i].packet.job;
    forall n | 0 <= n < |p.composed| && AwaitsSending(p.composed[n].kind)
      ensures exists i :: OnlyCallback(p, i, n)
    {
      ExpectedExactly(p.composed, n);
      var i :| 0 <= i < |e| && e[i] == n;
      assert NotEarly(p.composed, p.fired[i], |p.accepted|);
      assert OnlyCallback(p, i, n);
    }
    forall i | 0 <= i < |p.fired|
      ensures p.fired[i].packet.job < |p.composed| && AwaitsSending(p.composed[p.fired[i].packet.job].kind)
    {
      ExpectedExactly(p.composed, e[i]);
      assert e[i] in e;
    }
  }

  // ---------------------------------------------------------------- exactly when a pass keeps to the front

  /** Of the covered entries the second may be one only beside the first, and no later one may. */
  predicate FrontOnly(ms: seq<Tracked>, sent: int) {
    forall k :: 0 <= k < |ms| && sent >= ms[k].endByte ==> k <= 1 && sent >= ms[0].endByte
  }

  lemma {:induction false} PassSkipsUncovered(ms: seq<Tracked>, sent: int, k: nat, erased: nat)
    requires forall p :: 0 <= p < |ms| && Min(k + erased, |ms| - 1) <= p ==> sent < ms[p].endByte
    ensures PassFrom(ms, sent, k, erased) == []
    decreases |ms| - k
  {
    if k < |ms| {
      PassSkipsUncovered(ms, sent, k + 1, erased);
    }
  }

  /** A covered entry not yet passed makes the pass fire again, at or behind the place it has reached. */
  lemma {:induction false} PassReaches(ms: seq<Tracked>, sent: int, k: nat, erased: nat, p: nat)
    requires k + erased <= p < |ms| && sent >= ms[p].endByte
    ensures PassFrom(ms, sent, k, erased) != []
    ensures PassFrom(ms, sent, k, erased)[0] >= k + erased
    decreases |ms| - k
  {
    if sent < ms[k + erased].endByte {
      PassReaches(ms, sent, k + 1, erased, p);
    }
  }

  /** A pass notifies the first entries once each and in order if and only if nothing behind the second
      entry is covered, and the second only together with the first. */
  lemma PassKeepsToFrontExactly(ms: seq<Tracked>, sent: int)
    ensures KeepsToFront(Pass(ms, sent)) <==> FrontOnly(ms, sent)
  {
    if ms != [] && sent < ms[0].endByte {
      PassMissesFirst(ms, sent);
    } else if ms != [] {
      PassTakesFirst(ms, sent);
    }
  }

  /** The first entry is not covered: the pass leaves the front as soon as it notifies any. */
  lemma PassMissesFirst(ms: seq<Tracked>, sent: int)
    requires ms != [] && sent < ms[0].endByte
    ensures KeepsToFront(Pass(ms, sent)) <==> forall k :: 0 <= k < |ms| ==> sent < ms[k].endByte
  {
    if k :| 0 <= k < |ms| && sent >= ms[k].endByte {
      PassReaches(ms, sent, 1, 0, k);
      assert PassFrom(ms, sent, 0, 0) == PassFrom(ms, sent, 1, 0);
      hide PassFrom;
      assert Pass(ms, sent)[0] >= 1;
    } else {
      PassSkipsUncovered(ms, sent, 0, 0);
    }
  }

  /** The first entry is covered: the pass notifies it, skips one, and goes on from the one after. */
  lemma PassTakesFirst(ms: seq<Tracked>, sent: int)
    requires ms != [] && sent >= ms[0].endByte
    ensures KeepsToFront(Pass(ms, sent)) <==> forall k :: 2 <= k < |ms| ==> sent < ms[k].endByte
  {
    assert PassFrom(ms, sent, 0, 0) == [0] + PassFrom(ms, sent, 1, 1);
    if k :| 2 <= k < |ms| && sent >= ms[k].endByte {
      PassReaches(ms, sent, 1, 1, k);
      hide PassFrom;
      assert Pass(ms, sent)[1] == PassFrom(ms, sent, 1, 1)[0];
    } else if |ms| >= 3 {
      PassSkipsUncovered(ms, sent, 1, 1);
    } else if |ms| == 2 {
      PassOfTwo(ms, sent);
    } else {
      assert PassFrom(ms, sent, 1, 1) == [];
    }
  }

  lemma PassOfTwo(ms: seq<Tracked>, sent: int)
    requires |ms| == 2
    ensures PassFrom(ms, sent, 1, 1) == if sent >= ms[1].endByte then [1] else []
  {
    assert PassFrom(ms, sent, 2, 2) == [] && PassFrom(ms, sent, 2, 1) == [];
    assert Min(1 + 1, 1) == 1;
  }

  /** One turn leaves the callbacks in order if and only if it is not a partial send, in a batch with a
      PINGREQ, whose pass leaves the front. */
  lemma TurnIsOrderlyExactly(ping: Option<Tracked>, x: Transit)
    ensures var result := SendData(x.script, |x.buffer|);
            SendOnce(ping, x).orderly
            <==> x.orderly && (ping.Some? && 0 <= result != |x.buffer| ==> FrontOnly(x.tracked, result))
  {
    PassKeepsToFrontExactly(x.tracked, SendData(x.script, |x.buffer|));
    hide FrontOnly, KeepsToFront, Pass;
  }

  /** Every turn of a send loop leaves the callbacks in order. */
  ghost predicate AllFrontOnly(ping: Option<Tracked>, x: Transit, turns: nat)
    decreases 4 - turns
  {
    turns >= 4 || x.progress != Running
    || (var result := SendData(x.script, |x.buffer|);
        && (ping.Some? && 0 <= result != |x.buffer| ==> FrontOnly(x.tracked, result))
        && AllFrontOnly(ping, SendOnce(ping, x), turns + 1))
  }

  lemma {:induction false} LoopIsOrderlyExactly(ping: Option<Tracked>, x: Transit, turns: nat)
    ensures SendLoop(ping, x, turns).orderly <==> x.orderly && AllFrontOnly(ping, x, turns)
    decreases 4 - turns
  {
    hide SendOnce, FrontOnly, SendData;
    if turns < 4 && x.progress == Running {
      TurnIsOrderlyExactly(ping, x);
      LoopIsOrderlyExactly(ping, SendOnce(ping, x), turns + 1);
    }
  }

  /** The guard of a batch: with jobs to compose, every turn of its send loop keeps to the front. */
  ghost predicate InFront(p: Pipe, script: seq<Answer>) {
    p.jobs == []
    || (var c := Compose(p.jobs, p.Start());
        ComposeExtends(p.jobs, p.Start());
        c.failed || AllFrontOnly(c.ping, p.Sending(c, script), 0))
  }

  /** A batch leaves the callbacks in order if and only if they were and it meets the guard. */
  lemma BatchIsOrderlyExactly(p: Pipe, script: seq<Answer>)
    ensures TryBatch(p, script).1.orderly <==> p.orderly && InFront(p, script)
  {
    hide Compose, SendLoop, AllFrontOnly;
    if p.jobs != [] {
      var c := Compose(p.jobs, p.Start());
      ComposeExtends(p.jobs, p.Start());
      if !c.failed {
        LoopIsOrderlyExactly(c.ping, p.Sending(c, script), 0);
      }
    }
  }

  /** Where all callbacks were in order, no packet was announced twice. */
  lemma OrderlyAnnouncesOnce(p: Pipe)
    requires PipeOk(p) && p.orderly
    ensures forall i, j :: 0 <= i < j < |p.fired| ==> p.fired[i].packet.job != p.fired[j].packet.job
  {
    hide AllDescribe, NoneEarly, Stream, Expected, AllProper;
    ExpectedIncreases(p.composed);
    var jobs := FiredJobs(p.fired) + TrackedJobs(p.tracked);
    assert forall i :: 0 <= i < |p.fired| ==> jobs[i] == p.fired[i].packet.job;
  }

  /** Where it goes wrong: of three covered packets the second gets no callback and the third gets two. */
  lemma SkippedCallbackCounterexample()
    ensures var ms := [Tracked(4, PublishReceived, 1, 0), Tracked(8, PublishReceived, 2, 1), Tracked(12, PublishReceived, 3, 2)];
            Pass(ms, 12) == [0, 2, 2]
  {
    var ms := [Tracked(4, PublishReceived, 1, 0), Tracked(8, PublishReceived, 2, 1), Tracked(12, PublishReceived, 3, 2)];
    assert PassFrom(ms, 12, 3, 3) == [];
    assert PassFrom(ms, 12, 2, 2) == [2] + [];
    assert PassFrom(ms, 12, 1, 1) == [2] + [2];
    assert PassFrom(ms, 12, 0, 0) == [0] + [2, 2];
  }

  /** The end of the PINGREQ is not rebased after a partial send either: its callback comes with the first
      part that covers it, and again when the rest is through. */
  lemma RepeatedPingCallbackCounterexample(x: Transit)
    requires |x.buffer| == 4 && x.script == [Accepted(2), Accepted(2)] && x.tracked == [] && x.pings == []
    ensures var ping := Some(Tracked(2, PingRequest, 0, 0));
            |SendOnce(ping, SendOnce(ping, x)).pings| == 2
  {
    var ping := Some(Tracked(2, PingRequest, 0, 0));
    var y := SendOnce(ping, x);
    assert x.script[1..] == [Accepted(2)];
    assert |y.pings| == 1 && |y.buffer| == 2 && y.script == [Accepted(2)];
  }

  // ---------------------------------------------------------------- exactly when a send keeps the stream

  /** One turn keeps accepted bytes and buffer in line if and only if the socket did not fail with a
      positive last error: such a code is taken for that many bytes sent. */
  lemma SendKeepsStreamExactly(ping: Option<Tracked>, x: Transit)
    requires x.buffer != [] && x.script != [] && x.progress == Running
    ensures var y := SendOnce(ping, x);
            (y.accepted + y.buffer == x.accepted + x.buffer && y.progress != Thrown)
            <==> !(x.script[0].Failure? && x.script[0].lastError > 0)
  {
    var taken := Taken(x.script, |x.buffer|);
    MoveFront(x.accepted, x.buffer, taken);
    hide Notify, FirePing, FireAll;
    var y := SendOnce(ping, x);
    if x.script[0].Failure? && x.script[0].lastError > 0 {
      assert y.accepted == x.accepted;
      if y.progress != Thrown {
        assert |y.buffer| < |x.buffer|;
        assert |y.accepted + y.buffer| < |x.accepted + x.buffer|;
      }
    } else if Answered(x).last == |x.buffer| {
      assert x.accepted + x.buffer[..taken] + [] == x.accepted + x.buffer;
    }
  }
}
