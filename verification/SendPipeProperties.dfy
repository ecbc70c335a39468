/** What the outbound pipeline keeps over whole runs: the byte stream, the callbacks, the order of
    publishes and both windows. */
module SendPipeProperties {
  import opened Bytes
  import opened Packets
  import opened ReceiveMaximum
  import opened SendPipes

  // ---------------------------------------------------------------- the stream and where packets end in it

  lemma {:induction false} StreamAppend(a: seq<Job>, b: seq<Job>)
    ensures Stream(a + b) == Stream(a) + Stream(b)
  {
    if b == [] {
      assert a + b == a;
    } else {
      var c := b[..|b| - 1];
      StreamAppend(a, c);
      Front(a, b);
      LastInStream(a + b);
      LastInStream(b);
      hide Stream;
      Regrouped(Stream(a), Stream(c), EncodedBytes(b[|b| - 1]));
    }
  }

  lemma LastInStream(a: seq<Job>)
    requires a != []
    ensures Stream(a) == Stream(a[..|a| - 1]) + EncodedBytes(a[|a| - 1])
  {
  }

  lemma Front(a: seq<Job>, b: seq<Job>)
    requires b != []
    ensures (a + b)[..|a + b| - 1] == a + b[..|b| - 1] && (a + b)[|a + b| - 1] == b[|b| - 1]
  {
  }

  lemma Regrouped(a: seq<byte>, b: seq<byte>, c: seq<byte>)
    ensures a + (b + c) == a + b + c
  {
  }

  /** How many bytes of the stream have passed when packet `job` has. */
  function EndOf(composed: seq<Job>, job: nat): nat
    requires job < |composed|
  {
    |Stream(composed[..job + 1])|
  }

  lemma EndOfPrefix(composed: seq<Job>, more: seq<Job>, job: nat)
    requires job < |composed| && composed <= more
    ensures EndOf(more, job) == EndOf(composed, job)
  {
    assert more[..job + 1] == composed[..job + 1];
  }

  lemma EndOfBound(composed: seq<Job>, job: nat)
    requires job < |composed|
    ensures EndOf(composed, job) <= |Stream(composed)|
  {
    StreamAppend(composed[..job + 1], composed[job + 1..]);
    assert composed[..job + 1] + composed[job + 1..] == composed;
  }

  /** The entry describes its packet, whose true end lies at or before the stored one, counted from `base`. */
  ghost predicate Describes(composed: seq<Job>, t: Tracked, base: nat) {
    && t.job < |composed| && t.kind == composed[t.job].kind && t.id == composed[t.job].id
    && EndOf(composed, t.job) <= base + t.endByte
  }

  ghost predicate AllDescribe(composed: seq<Job>, ms: seq<Tracked>, base: nat) {
    forall i :: 0 <= i < |ms| ==> Describes(composed, ms[i], base)
  }

  /** A callback of its packet's own kind and id, that came when the whole packet had been accepted. */
  ghost predicate NotEarly(composed: seq<Job>, f: Firing, accepted: nat) {
    && f.packet.job < |composed| && EndOf(composed, f.packet.job) <= f.at <= accepted
    && f.packet.kind == composed[f.packet.job].kind && f.packet.id == composed[f.packet.job].id
  }

  ghost predicate NoneEarly(composed: seq<Job>, fired: seq<Firing>, accepted: nat) {
    forall i :: 0 <= i < |fired| ==> NotEarly(composed, fired[i], accepted)
  }

  lemma DescribeMore(composed: seq<Job>, more: seq<Job>, ms: seq<Tracked>, base: nat, later: nat)
    requires AllDescribe(composed, ms, base) && composed <= more && base <= later
    ensures AllDescribe(more, ms, later)
  {
    forall i | 0 <= i < |ms| ensures Describes(more, ms[i], later) {
      assert Describes(composed, ms[i], base);
      EndOfPrefix(composed, more, ms[i].job);
    }
  }

  lemma NoneEarlyMore(composed: seq<Job>, more: seq<Job>, fired: seq<Firing>, accepted: nat, later: nat)
    requires NoneEarly(composed, fired, accepted) && composed <= more && accepted <= later
    ensures NoneEarly(more, fired, later)
  {
    forall i | 0 <= i < |fired| ensures NotEarly(more, fired[i], later) {
      assert NotEarly(composed, fired[i], accepted);
      EndOfPrefix(composed, more, fired[i].packet.job);
    }
  }

  // ---------------------------------------------------------------- which callbacks are due, in order

  /** The numbers of the composed packets whose sending is announced. */
  function Expected(composed: seq<Job>): seq<nat> {
    if composed == [] then []
    else
      var n := |composed| - 1;
      Expected(composed[..n]) + (if Announced(composed[n].kind) then [n] else [])
  }

  lemma {:induction false} ExpectedIncreases(composed: seq<Job>)
    ensures forall i :: 0 <= i < |Expected(composed)| ==> Expected(composed)[i] < |composed|
    ensures forall i, j :: 0 <= i < j < |Expected(composed)| ==> Expected(composed)[i] < Expected(composed)[j]
  {
    if composed != [] {
      ExpectedIncreases(composed[..|composed| - 1]);
    }
  }

  lemma {:induction false} ExpectedPrefix(composed: seq<Job>, more: seq<Job>)
    requires composed <= more
    ensures Expected(composed) <= Expected(more)
    decreases |more|
  {
    if composed == more {
      assert composed[..] == more[..];
    } else {
      ExpectedPrefix(composed, more[..|more| - 1]);
    }
  }

  function FiredJobs(fired: seq<Firing>): seq<nat> {
    seq(|fired|, i requires 0 <= i < |fired| => fired[i].packet.job)
  }

  function TrackedJobs(ms: seq<Tracked>): seq<nat> {
    seq(|ms|, i requires 0 <= i < |ms| => ms[i].job)
  }

  /** Callbacks so far, then tracked packets, are exactly the announced packets, each once and in order. */
  ghost predicate InOrder(composed: seq<Job>, fired: seq<Firing>, ms: seq<Tracked>) {
    FiredJobs(fired) + TrackedJobs(ms) == Expected(composed)
  }

  /** Some callback was not the one due in its place. */
  ghost predicate Misfired(composed: seq<Job>, fired: seq<Firing>) {
    exists i :: 0 <= i < |fired| && i < |Expected(composed)| && fired[i].packet.job != Expected(composed)[i]
  }

  ghost predicate Callbacks(composed: seq<Job>, fired: seq<Firing>, ms: seq<Tracked>, orderly: bool) {
    if orderly then InOrder(composed, fired, ms) else Misfired(composed, fired)
  }

  // ---------------------------------------------------------------- composing keeps it all

  ghost predicate ComposingOk(c: Composing, fired: seq<Firing>, orderly: bool, base: nat) {
    && |Stream(c.composed)| == base + c.full
    && AllDescribe(c.composed, c.tracked, base)
    && (c.ping.Some? ==> Describes(c.composed, c.ping.value, base))
    && Callbacks(c.composed, fired, c.tracked, orderly)
    && (c.full == 0 ==> c.tracked == [])
  }

  lemma OneMoreInStream(composed: seq<Job>, job: Job)
    ensures Stream(composed + [job]) == Stream(composed) + EncodedBytes(job)
    ensures |Stream(composed + [job])| == |Stream(composed)| + |EncodedBytes(job)|
    ensures EndOf(composed + [job], |composed|) == |Stream(composed + [job])|
  {
    assert (composed + [job])[..|composed|] == composed && (composed + [job])[..|composed| + 1] == composed + [job];
  }

  lemma OneMoreDescribed(composed: seq<Job>, job: Job, ms: seq<Tracked>, ping: Option<Tracked>, base: nat, full: nat)
    requires AllDescribe(composed, ms, base) && (ping.Some? ==> Describes(composed, ping.value, base))
    requires |Stream(composed)| == base + full
    ensures var more, entry := composed + [job], Tracked(full + |EncodedBytes(job)|, job.kind, job.id, |composed|);
            && AllDescribe(more, ms, base) && (ping.Some? ==> Describes(more, ping.value, base)) && Describes(more, entry, base)
            && AllDescribe(more, ms + [entry], base)
  {
    hide Stream, EncodedBytes, EndOf;
    var more := composed + [job];
    OneMoreInStream(composed, job);
    DescribeMore(composed, more, ms, base, base);
    if ping.Some? {
      EndOfPrefix(composed, more, ping.value.job);
    }
  }

  lemma ComposeOneKeeps(job: Job, c: Composing, fired: seq<Firing>, orderly: bool, base: nat)
    requires ComposingOk(c, fired, orderly, base) && Proper(job) && !ComposeOne(job, c).failed
    ensures ComposingOk(ComposeOne(job, c), fired, orderly, base)
  {
    hide AllDescribe, Describes, Callbacks, Stream, Announced, Window.Take, Window.Give, IsCountedPublish;
    if CanSend(job, c.send) {
      OneMoreInStream(c.composed, job);
      OneMoreDescribed(c.composed, job, c.tracked, c.ping, base, c.full);
      ComposeOneCallbacks(job, c, fired, orderly);
    }
  }

  lemma ComposeOneCallbacks(job: Job, c: Composing, fired: seq<Firing>, orderly: bool)
    requires Callbacks(c.composed, fired, c.tracked, orderly) && !ComposeOne(job, c).failed
    ensures Callbacks(ComposeOne(job, c).composed, fired, ComposeOne(job, c).tracked, orderly)
  {
    var d := ComposeOne(job, c);
    if d.composed != c.composed {
      assert d.composed[..|c.composed|] == c.composed;
      ExpectedPrefix(c.composed, d.composed);
      if orderly {
        if Announced(job.kind) {
          assert TrackedJobs(d.tracked) == TrackedJobs(c.tracked) + [|c.composed|];
        }
      } else {
        var i :| 0 <= i < |fired| && i < |Expected(c.composed)| && fired[i].packet.job != Expected(c.composed)[i];
        assert Expected(d.composed)[i] == Expected(c.composed)[i];
      }
    }
  }

  lemma {:induction false} ComposeKeeps(jobs: seq<Job>, c: Composing, fired: seq<Firing>, orderly: bool, base: nat)
    requires ComposingOk(c, fired, orderly, base) && AllProper(jobs) && !Compose(jobs, c).failed
    ensures ComposingOk(Compose(jobs, c), fired, orderly, base)
    ensures AllProper(Compose(jobs, c).delayed) <== AllProper(c.delayed)
  {
    hide ComposingOk;
    if jobs != [] && !c.failed {
      assert !ComposeOne(jobs[0], c).failed by {
        assert ComposeOne(jobs[0], c).failed ==> Compose(jobs, c).failed;
      }
      ComposeOneKeeps(jobs[0], c, fired, orderly, base);
      ComposeKeeps(jobs[1..], ComposeOne(jobs[0], c), fired, orderly, base);
    }
  }

  // ---------------------------------------------------------------- sending keeps it all

  /** The socket's last error is not positive after a failed send. */
  predicate Truthful(script: seq<Answer>) {
    forall i :: 0 <= i < |script| && script[i].Failure? ==> script[i].lastError <= 0
  }

  ghost predicate TransitOk(composed: seq<Job>, ping: Option<Tracked>, x: Transit) {
    && x.accepted + x.buffer == Stream(composed)
    && AllDescribe(composed, x.tracked, |x.accepted|)
    && (ping.Some? ==> Describes(composed, ping.value, |x.accepted|))
    && NoneEarly(composed, x.fired, |x.accepted|) && NoneEarly(composed, x.pings, |x.accepted|)
    && Callbacks(composed, x.fired, x.tracked, x.orderly)
    && (x.buffer == [] ==> x.tracked == [])
    && Truthful(x.script) && x.progress != Thrown
  }

  lemma FireNotEarly(composed: seq<Job>, ms: seq<Tracked>, positions: seq<nat>, sent: nat, base: nat)
    requires AllDescribe(composed, ms, base)
    requires forall i :: 0 <= i < |positions| ==> positions[i] < |ms| && sent >= ms[positions[i]].endByte
    ensures NoneEarly(composed, Fire(ms, positions, base + sent), base + sent)
  {
    var fires := Fire(ms, positions, base + sent);
    forall i | 0 <= i < |fires| ensures NotEarly(composed, fires[i], base + sent) {
      assert Describes(composed, ms[positions[i]], base);
    }
  }

  lemma FireAllNotEarly(composed: seq<Job>, ms: seq<Tracked>, base: nat)
    requires AllDescribe(composed, ms, base)
    ensures NoneEarly(composed, FireAll(ms, |Stream(composed)|), |Stream(composed)|)
  {
    var fires := FireAll(ms, |Stream(composed)|);
    forall i | 0 <= i < |fires| ensures NotEarly(composed, fires[i], |Stream(composed)|) {
      assert Describes(composed, ms[i], base);
      EndOfBound(composed, ms[i].job);
    }
  }

  /** A notification pass keeps the callbacks in order exactly when it keeps to the front. */
  lemma PassCallbacks(composed: seq<Job>, fired: seq<Firing>, ms: seq<Tracked>, positions: seq<nat>, at: nat, orderly: bool)
    requires Callbacks(composed, fired, ms, orderly)
    requires |positions| <= |ms| && forall i :: 0 <= i < |positions| ==> positions[i] < |ms|
    ensures Callbacks(composed, fired + Fire(ms, positions, at), ms[|positions|..], orderly && KeepsToFront(positions))
  {
    var more := fired + Fire(ms, positions, at);
    var n := |fired|;
    if orderly && KeepsToFront(positions) {
      assert FiredJobs(more) + TrackedJobs(ms[|positions|..]) == FiredJobs(fired) + TrackedJobs(ms);
    } else if orderly {
      var i :| 0 <= i < |positions| && positions[i] != i;
      ExpectedIncreases(composed);
      var e := Expected(composed);
      assert e[n + i] == (FiredJobs(fired) + TrackedJobs(ms))[n + i] == ms[i].job;
      assert e[n + positions[i]] == (FiredJobs(fired) + TrackedJobs(ms))[n + positions[i]] == ms[positions[i]].job;
      assert more[n + i].packet.job != e[n + i];
    } else {
      var i :| 0 <= i < |fired| && i < |Expected(composed)| && fired[i].packet.job != Expected(composed)[i];
      assert more[i] == fired[i];
    }
  }

  lemma AllCallbacks(composed: seq<Job>, fired: seq<Firing>, ms: seq<Tracked>, at: nat, orderly: bool)
    requires Callbacks(composed, fired, ms, orderly)
    ensures Callbacks(composed, fired + FireAll(ms, at), [], orderly)
  {
    var front := seq(|ms|, i => i);
    PassCallbacks(composed, fired, ms, front, at, orderly);
    assert Fire(ms, front, at) == FireAll(ms, at);
  }

  lemma NoneEarlyAppend(composed: seq<Job>, a: seq<Firing>, b: seq<Firing>, accepted: nat)
    requires NoneEarly(composed, a, accepted) && NoneEarly(composed, b, accepted)
    ensures NoneEarly(composed, a + b, accepted)
  {
  }

  lemma SendOnceKeeps(composed: seq<Job>, ping: Option<Tracked>, x: Transit)
    requires TransitOk(composed, ping, x)
    ensures TransitOk(composed, ping, SendOnce(ping, x))
  {
    AnsweredKeeps(composed, ping, x);
    var y := Answered(x);
    if y.last == |x.buffer| {
      FinishKeeps(composed, ping, y);
    } else if y.last >= 0 {
      GoOnKeeps(composed, ping, y, y.last);
    }
  }

  /** Between an answer and its consequences: `result` bytes at the front of the buffer are accepted already. */
  ghost predicate MidwayOk(composed: seq<Job>, ping: Option<Tracked>, y: Transit, result: nat) {
    && result <= |y.buffer| && result <= |y.accepted|
    && y.accepted + y.buffer[result..] == Stream(composed)
    && AllDescribe(composed, y.tracked, |y.accepted| - result)
    && (ping.Some? ==> Describes(composed, ping.value, |y.accepted| - result))
    && NoneEarly(composed, y.fired, |y.accepted|) && NoneEarly(composed, y.pings, |y.accepted|)
    && Callbacks(composed, y.fired, y.tracked, y.orderly)
    && (y.buffer == [] ==> y.tracked == [])
    && Truthful(y.script) && y.progress != Thrown
  }

  lemma TruthfulAnswer(script: seq<Answer>, size: nat)
    requires Truthful(script)
    ensures Truthful(RestOf(script, size))
    ensures SendData(script, size) <= size
    ensures Taken(script, size) == if SendData(script, size) >= 0 then SendData(script, size) else 0
  {
  }

  lemma AnsweredKeeps(composed: seq<Job>, ping: Option<Tracked>, x: Transit)
    requires TransitOk(composed, ping, x)
    ensures Answered(x).last < 0 ==> TransitOk(composed, ping, Answered(x))
    ensures Answered(x).last >= 0 ==> MidwayOk(composed, ping, Answered(x), Answered(x).last)
  {
    var size, y := |x.buffer|, Answered(x);
    var taken := Taken(x.script, size);
    TruthfulAnswer(x.script, size);
    hide AllDescribe, Callbacks, Describes, Stream, NoneEarly, Truthful, SendData, Taken, RestOf;
    MoveFront(x.accepted, x.buffer, taken);
    if y.last >= 0 {
      NoneEarlyMore(composed, composed, x.fired, |x.accepted|, |y.accepted|);
      NoneEarlyMore(composed, composed, x.pings, |x.accepted|, |y.accepted|);
    }
  }

  lemma MoveFront(accepted: seq<byte>, buffer: seq<byte>, taken: nat)
    requires taken <= |buffer|
    ensures accepted + buffer[..taken] + buffer[taken..] == accepted + buffer
    ensures taken == 0 ==> accepted + buffer[..taken] == accepted
  {
  }

  lemma FinishKeeps(composed: seq<Job>, ping: Option<Tracked>, y: Transit)
    requires MidwayOk(composed, ping, y, |y.buffer|)
    ensures TransitOk(composed, ping, Finish(ping, y))
  {
    hide AllDescribe, Callbacks, Stream, FireAll;
    var total, base := |y.accepted|, |y.accepted| - |y.buffer|;
    assert y.buffer[|y.buffer|..] == [] && y.accepted + [] == y.accepted;
    FireAllNotEarly(composed, y.tracked, base);
    AllCallbacks(composed, y.fired, y.tracked, total, y.orderly);
    NoneEarlyAppend(composed, y.fired, FireAll(y.tracked, total), total);
    if ping.Some? {
      EndOfBound(composed, ping.value.job);
    }
    NoneEarlyAppend(composed, y.pings, FirePing(ping, total), total);
    assert AllDescribe(composed, [], total) by { NothingToDescribe(composed, total); }
  }

  lemma NothingToDescribe(composed: seq<Job>, base: nat)
    ensures AllDescribe(composed, [], base)
  {
  }

  lemma GoOnKeeps(composed: seq<Job>, ping: Option<Tracked>, y: Transit, result: nat)
    requires MidwayOk(composed, ping, y, result) && result < |y.buffer|
    ensures TransitOk(composed, ping, GoOn(ping, y, result))
  {
    hide AllDescribe, Callbacks, Stream, Pass, KeepsToFront, NoneEarly;
    DescribeMore(composed, composed, y.tracked, |y.accepted| - result, |y.accepted|);
    if ping.Some? {
      NotifyKeeps(composed, ping.value, y, result);
    }
  }

  lemma NotifyKeeps(composed: seq<Job>, ping: Tracked, y: Transit, result: nat)
    requires MidwayOk(composed, Some(ping), y, result)
    ensures var z := Notify(ping, y, result);
            && AllDescribe(composed, z.tracked, |y.accepted|)
            && NoneEarly(composed, z.fired, |y.accepted|) && NoneEarly(composed, z.pings, |y.accepted|)
            && Callbacks(composed, z.fired, z.tracked, z.orderly)
  {
    hide Callbacks, KeepsToFront, Stream, Misfired;
    var at := |y.accepted|;
    var positions := Pass(y.tracked, result);
    PassBounds(y.tracked, result, 0, 0);
    DescribeMore(composed, composed, y.tracked, at - result, at);
    FireNotEarly(composed, y.tracked, positions, result, at - result);
    NoneEarlyAppend(composed, y.fired, Fire(y.tracked, positions, at), at);
    PassCallbacks(composed, y.fired, y.tracked, positions, at, y.orderly);
    NoneEarlyAppend(composed, y.pings, if result >= ping.endByte then FirePing(Some(ping), at) else [], at);
  }

  lemma {:induction false} SendLoopKeeps(composed: seq<Job>, ping: Option<Tracked>, x: Transit, turns: nat)
    requires TransitOk(composed, ping, x)
    ensures TransitOk(composed, ping, SendLoop(ping, x, turns))
    decreases 4 - turns
  {
    if turns < 4 && x.progress == Running {
      SendOnceKeeps(composed, ping, x);
      SendLoopKeeps(composed, ping, SendOnce(ping, x), turns + 1);
    }
  }
}
