/** How often the sending of a PINGREQ is announced, in terms of what the turns of its batch returned. */
module SendPipePing {
  import opened Bytes
  import opened Packets
  import opened ReceiveMaximum
  import opened SendPipes
  import opened SendPipeProperties

  // ---------------------------------------------------------------- the turns of a batch

  /** What one turn's send returned, and how many bytes it was given. */
  datatype Turn = Turn(result: int, size: nat)

  /** The turns of a send loop over so many bytes: what the socket answers, until all is through or four are done. */
  function Turns(script: seq<Answer>, size: nat, turns: nat): seq<Turn>
    decreases 4 - turns
  {
    if turns >= 4 then []
    else
      var result := SendData(script, size);
      [Turn(result, size)]
      + if result >= size then [] else Turns(RestOf(script, size), if result < 0 then size else size - result, turns + 1)
  }

  /** The turn took everything, or at least the bytes up to the PINGREQ's end as it was noted when composing. */
  predicate Covers(t: Turn, ping: Tracked) {
    t.result == t.size || t.result >= ping.endByte
  }

  function Covering(ts: seq<Turn>, ping: Tracked): nat {
    if ts == [] then 0 else (if Covers(ts[0], ping) then 1 else 0) + Covering(ts[1..], ping)
  }

  /** `more` are callbacks for the PINGREQ added to `before`. */
  predicate PingsAdded(before: seq<Firing>, after: seq<Firing>, ping: Tracked, count: nat) {
    && |after| == |before| + count && before <= after
    && forall i :: |before| <= i < |after| ==> after[i].packet == ping
  }

  lemma TurnPings(ping: Tracked, x: Transit)
    requires x.progress == Running
    ensures var y, t := SendOnce(Some(ping), x), Turn(SendData(x.script, |x.buffer|), |x.buffer|);
            && PingsAdded(x.pings, y.pings, ping, if Covers(t, ping) then 1 else 0)
            && y.script == RestOf(x.script, |x.buffer|)
            && (y.progress == Running <==> t.result < t.size)
            && (t.result < t.size ==> |y.buffer| == if t.result < 0 then t.size else t.size - t.result)
  {
    hide Pass, Fire, FireAll, KeepsToFront;
  }

  lemma TurnsStep(script: seq<Answer>, size: nat, turns: nat, ping: Tracked)
    requires turns < 4
    ensures var t := Turn(SendData(script, size), size);
            Covering(Turns(script, size, turns), ping)
            == (if Covers(t, ping) then 1 else 0)
               + if t.result >= size then 0
                 else Covering(Turns(RestOf(script, size), if t.result < 0 then size else size - t.result, turns + 1), ping)
  {
    hide SendData, RestOf, Covers;
    var ts := Turns(script, size, turns);
    assert ts[0] == Turn(SendData(script, size), size);
    if SendData(script, size) >= size {
      assert ts[1..] == [];
    }
  }

  lemma AddedTwice(a: seq<Firing>, b: seq<Firing>, c: seq<Firing>, ping: Tracked, m: nat, n: nat)
    requires PingsAdded(a, b, ping, m) && PingsAdded(b, c, ping, n)
    ensures PingsAdded(a, c, ping, m + n)
  {
    assert forall i :: 0 <= i < |b| ==> c[i] == b[i];
  }

  lemma LoopStep(ping: Option<Tracked>, x: Transit, turns: nat)
    requires turns < 4 && x.progress == Running
    ensures SendLoop(ping, x, turns) == SendLoop(ping, SendOnce(ping, x), turns + 1)
    ensures SendOnce(ping, x).progress != Running ==> SendLoop(ping, x, turns) == SendOnce(ping, x)
  {
    hide SendOnce;
  }

  lemma {:induction false} LoopPings(ping: Tracked, x: Transit, turns: nat)
    requires x.progress == Running
    ensures PingsAdded(x.pings, SendLoop(Some(ping), x, turns).pings, ping, Covering(Turns(x.script, |x.buffer|, turns), ping))
    decreases 4 - turns
  {
    hide *;
    if turns < 4 {
      TurnPings(ping, x);
      TurnsStep(x.script, |x.buffer|, turns, ping);
      LoopStep(Some(ping), x, turns);
      var y, here := SendOnce(Some(ping), x), if Covers(Turn(SendData(x.script, |x.buffer|), |x.buffer|), ping) then 1 else 0;
      if y.progress == Running {
        LoopPings(ping, y, turns + 1);
        var more := Covering(Turns(y.script, |y.buffer|, turns + 1), ping);
        AddedTwice(x.pings, y.pings, SendLoop(Some(ping), y, turns + 1).pings, ping, here, more);
      }
    } else {
      LoopEnds(ping, x, turns);
    }
  }

  lemma LoopEnds(ping: Tracked, x: Transit, turns: nat)
    requires turns >= 4
    ensures PingsAdded(x.pings, SendLoop(Some(ping), x, turns).pings, ping, Covering(Turns(x.script, |x.buffer|, turns), ping))
  {
  }

  lemma {:induction false} NoPings(x: Transit, turns: nat)
    ensures SendLoop(None, x, turns).pings == x.pings
    decreases 4 - turns
  {
    if turns < 4 && x.progress == Running {
      hide FireAll;
      NoPings(SendOnce(None, x), turns + 1);
    }
  }

  /** The count in words. */
  lemma {:induction false} CoveringExactly(ts: seq<Turn>, ping: Tracked)
    ensures Covering(ts, ping) == 0 <==> forall i :: 0 <= i < |ts| ==> !Covers(ts[i], ping)
    ensures Covering(ts, ping) >= 2 <==> exists i, j :: 0 <= i < j < |ts| && Covers(ts[i], ping) && Covers(ts[j], ping)
  {
    if ts != [] {
      var rest := ts[1..];
      CoveringExactly(rest, ping);
      assert forall i :: 0 <= i < |rest| ==> rest[i] == ts[i + 1];
      hide Covers;
      if Covering(ts, ping) == 0 {
        forall i | 0 <= i < |ts| ensures !Covers(ts[i], ping) {
          assert i > 0 ==> !Covers(rest[i - 1], ping);
        }
      } else if Covering(rest, ping) > 0 {
        var j :| 0 <= j < |rest| && Covers(rest[j], ping);
        assert Covers(ts[j + 1], ping);
        if Covers(ts[0], ping) {
          assert 0 <= 0 < j + 1 < |ts|;
        } else if Covering(rest, ping) >= 2 {
          var i, k :| 0 <= i < k < |rest| && Covers(rest[i], ping) && Covers(rest[k], ping);
          assert Covers(ts[i + 1], ping) && Covers(ts[k + 1], ping);
        } else {
          forall i, k | 0 <= i < k < |ts| ensures !(Covers(ts[i], ping) && Covers(ts[k], ping)) {
            assert i > 0 ==> !(Covers(rest[i - 1], ping) && Covers(rest[k - 1], ping));
          }
        }
      } else {
        forall k | 1 <= k < |ts| ensures !Covers(ts[k], ping) {
          assert !Covers(rest[k - 1], ping);
        }
      }
    }
  }

  // ---------------------------------------------------------------- the PINGREQ of a batch

  /** Job `k` is the first PINGREQ. */
  predicate FirstPing(batch: seq<Job>, k: nat) {
    k < |batch| && batch[k].kind == PingRequest && NoPing(batch[..k])
  }

  predicate NoPing(batch: seq<Job>) {
    forall i :: 0 <= i < |batch| ==> batch[i].kind != PingRequest
  }

  /** The entry noted for it: where it ends among the bytes of the buffer and the batch. */
  function Entry(from: nat, base: nat, batch: seq<Job>, k: nat): Tracked
    requires k < |batch|
  {
    Tracked(base + |Stream(batch[..k + 1])|, PingRequest, batch[k].id, from + k)
  }

  /** What composing notes of a PINGREQ among the packets of a batch. */
  ghost predicate NotedIn(batch: seq<Job>, ping: Option<Tracked>, full: nat, from: nat, base: nat) {
    && full == base + |Stream(batch)|
    && match ping
       case None => NoPing(batch)
       case Some(t) => from <= t.job && FirstPing(batch, t.job - from) && t == Entry(from, base, batch, t.job - from)
  }

  ghost predicate Noted(c: Composing, from: nat, base: nat) {
    from <= |c.composed| && NotedIn(c.composed[from..], c.ping, c.full, from, base)
  }

  lemma NotedSnoc(batch: seq<Job>, job: Job, ping: Option<Tracked>, full: nat, from: nat, base: nat)
    requires NotedIn(batch, ping, full, from, base)
    ensures var end := full + |EncodedBytes(job)|;
            NotedIn(batch + [job],
                    if job.kind == PingRequest && ping.None? then Some(Tracked(end, job.kind, job.id, from + |batch|)) else ping,
                    end, from, base)
  {
    var more := batch + [job];
    SnocStream(batch, job);
    hide Stream, EncodedBytes;
    assert more[..|batch|] == batch && more[..|batch| + 1] == more;
    if ping.Some? {
      var k := ping.value.job - from;
      assert more[..k] == batch[..k] && more[..k + 1] == batch[..k + 1];
    }
  }

  lemma ComposeOneNotes(job: Job, c: Composing, from: nat, base: nat)
    requires Noted(c, from, base)
    ensures Noted(ComposeOne(job, c), from, base)
  {
    hide NotedIn, Window.Take, Window.Give;
    if ComposeOne(job, c).composed != c.composed {
      assert ComposeOne(job, c).composed[from..] == c.composed[from..] + [job];
      NotedSnoc(c.composed[from..], job, c.ping, c.full, from, base);
    }
  }

  lemma SnocStream(batch: seq<Job>, job: Job)
    ensures Stream(batch + [job]) == Stream(batch) + EncodedBytes(job)
  {
    assert (batch + [job])[..|batch|] == batch;
  }

  lemma {:induction false} ComposeNotes(jobs: seq<Job>, c: Composing, from: nat, base: nat)
    requires Noted(c, from, base)
    ensures Noted(Compose(jobs, c), from, base)
  {
    hide Noted, ComposeOne;
    if jobs != [] && !c.failed {
      ComposeOneNotes(jobs[0], c, from, base);
      ComposeNotes(jobs[1..], ComposeOne(jobs[0], c), from, base);
    }
  }

  lemma NoneBefore(batch: seq<Job>, k: nat, i: nat)
    requires FirstPing(batch, k) && i < k
    ensures batch[i].kind != PingRequest
  {
    assert batch[..k][i] == batch[i];
  }

  lemma OneFirstPing(batch: seq<Job>, k: nat, j: nat)
    requires FirstPing(batch, k)
    ensures !NoPing(batch) && (FirstPing(batch, j) ==> j == k)
  {
    if FirstPing(batch, j) && j < k {
      NoneBefore(batch, k, j);
    } else if FirstPing(batch, j) && k < j {
      NoneBefore(batch, j, k);
    }
  }

  /** The packets a batch composes, and the turns in which it sends. */
  function BatchOf(p: Pipe, script: seq<Answer>): seq<Job>
    requires p.composed <= TryBatch(p, script).1.composed
  {
    TryBatch(p, script).1.composed[|p.composed|..]
  }

  /** What a batch reports and leaves behind, by the end of its send loop. */
  predicate Reports(batch: (Outcome, Pipe, seq<Answer>), y: Transit) {
    && batch.1.accepted == y.accepted && batch.1.buffer == y.buffer
    && batch.0 == if y.progress == Thrown then Escaped else if y.progress == Complete || y.last >= 0 then Sent else SocketError(y.last)
  }

  lemma BatchParts(p: Pipe, script: seq<Answer>) returns (c: Composing)
    requires p.jobs != [] && TryBatch(p, script).0 != EncodeError
    ensures p.composed <= TryBatch(p, script).1.composed
    ensures c.composed == TryBatch(p, script).1.composed && Noted(c, |p.composed|, |p.buffer|)
    ensures var x := p.Sending(c, script);
            && x.script == script && x.pings == p.pings && x.accepted == p.accepted && x.progress == Running
            && |x.buffer| == |p.buffer| + |Stream(BatchOf(p, script))| && BatchOf(p, script) == c.composed[|p.composed|..]
    ensures TryBatch(p, script).1.pings == SendLoop(c.ping, p.Sending(c, script), 0).pings
    ensures Reports(TryBatch(p, script), SendLoop(c.ping, p.Sending(c, script), 0))
  {
    c := Compose(p.jobs, p.Start());
    ComposeExtends(p.jobs, p.Start());
    assert Noted(p.Start(), |p.composed|, |p.buffer|);
    ComposeNotes(p.jobs, p.Start(), |p.composed|, |p.buffer|);
    hide Compose, SendLoop, Noted, Stream;
  }

  /** A batch without PINGREQ announces none, not even one that an earlier batch sent and never announced. */
  lemma NoPingNoCallback(p: Pipe, script: seq<Answer>)
    requires p.jobs != [] && TryBatch(p, script).0 != EncodeError
    ensures p.composed <= TryBatch(p, script).1.composed
    ensures NoPing(BatchOf(p, script)) ==> TryBatch(p, script).1.pings == p.pings
  {
    var c := BatchParts(p, script);
    if NoPing(BatchOf(p, script)) {
      hide TryBatch, SendLoop, Stream;
      NoPings(p.Sending(c, script), 0);
    }
  }

  /** The callbacks made are for this PINGREQ: none if and only if no turn covers it, one if and only if exactly one
      turn does, more if and only if two turns do. */
  ghost predicate CalledAsCovered(before: seq<Firing>, after: seq<Firing>, ping: Tracked, ts: seq<Turn>) {
    && before <= after && (forall i :: |before| <= i < |after| ==> after[i].packet == ping)
    && (|after| == |before| <==> forall i :: 0 <= i < |ts| ==> !Covers(ts[i], ping))
    && (|after| == |before| + 1
        <==> exists i :: 0 <= i < |ts| && Covers(ts[i], ping) && forall j :: 0 <= j < |ts| && Covers(ts[j], ping) ==> j == i)
    && (|after| > |before| + 1 <==> exists i, j :: 0 <= i < j < |ts| && Covers(ts[i], ping) && Covers(ts[j], ping))
  }

  /** The callbacks a batch makes for its first PINGREQ, number `k` of its packets, follow from what its turns
      return; it makes none for any other PINGREQ. */
  lemma PingAnnouncedExactly(p: Pipe, script: seq<Answer>, k: nat)
    requires p.jobs != [] && TryBatch(p, script).0 != EncodeError
    requires p.composed <= TryBatch(p, script).1.composed && FirstPing(BatchOf(p, script), k)
    ensures CalledAsCovered(p.pings, TryBatch(p, script).1.pings, Entry(|p.composed|, |p.buffer|, BatchOf(p, script), k),
                            Turns(script, |p.buffer| + |Stream(BatchOf(p, script))|, 0))
  {
    hide *;
    var c := BatchParts(p, script);
    PingOfBatch(c, |p.composed|, |p.buffer|, BatchOf(p, script), k);
    LoopAnnouncesExactly(Entry(|p.composed|, |p.buffer|, BatchOf(p, script), k), p.Sending(c, script));
  }

  lemma PingOfBatch(c: Composing, from: nat, base: nat, batch: seq<Job>, k: nat)
    requires Noted(c, from, base) && batch == c.composed[from..] && FirstPing(batch, k)
    ensures k < |batch| && c.ping == Some(Entry(from, base, batch, k))
  {
    OneFirstPing(batch, k, if c.ping.Some? then c.ping.value.job - from else k);
    hide FirstPing, NoPing, Entry;
  }

  lemma LoopAnnouncesExactly(ping: Tracked, x: Transit)
    requires x.progress == Running
    ensures CalledAsCovered(x.pings, SendLoop(Some(ping), x, 0).pings, ping, Turns(x.script, |x.buffer|, 0))
  {
    hide Turns, SendLoop, Covers, Covering;
    LoopPings(ping, x, 0);
    CoveringExactly(Turns(x.script, |x.buffer|, 0), ping);
    CoveringOnce(Turns(x.script, |x.buffer|, 0), ping);
  }

  lemma CoveringOnce(ts: seq<Turn>, ping: Tracked)
    ensures Covering(ts, ping) == 1
       <==> exists i :: 0 <= i < |ts| && Covers(ts[i], ping) && forall j :: 0 <= j < |ts| && Covers(ts[j], ping) ==> j == i
  {
    CoveringExactly(ts, ping);
    hide Covers, Covering;
  }

  /** Where it is never announced: four parts that each end before the offset noted when composing, though
      together they pass it and the batch goes on. */
  lemma UnannouncedPingCounterexample(x: Transit, part: nat, ping: Tracked)
    requires x.progress == Running && x.script == [Accepted(part), Accepted(part), Accepted(part), Accepted(part)]
    requires 0 < part < ping.endByte <= 4 * part < |x.buffer|
    ensures var y := SendLoop(Some(ping), x, 0);
            y.pings == x.pings && |y.accepted| == |x.accepted| + 4 * part && |y.accepted| >= |x.accepted| + ping.endByte
  {
    hide Pass, Fire;
    var y1 := SendOnce(Some(ping), x);
    assert x.script[1..] == [Accepted(part), Accepted(part), Accepted(part)];
    var y2 := SendOnce(Some(ping), y1);
    assert y1.script[1..] == [Accepted(part), Accepted(part)];
    var y3 := SendOnce(Some(ping), y2);
    assert y2.script[1..] == [Accepted(part)];
    var y4 := SendOnce(Some(ping), y3);
    assert SendLoop(Some(ping), y4, 4) == y4;
    assert SendLoop(Some(ping), y3, 3) == y4;
    assert SendLoop(Some(ping), y2, 2) == y4;
    assert SendLoop(Some(ping), y1, 1) == y4;
  }

  // ---------------------------------------------------------------- what a batch reports

  function Gain(t: Turn): nat {
    if t.result < 0 then 0 else t.result
  }

  function Gains(ts: seq<Turn>): nat {
    if ts == [] then 0 else Gain(ts[0]) + Gains(ts[1..])
  }

  lemma TurnGains(ping: Option<Tracked>, x: Transit)
    requires x.progress == Running && Truthful(x.script)
    ensures var y, t := SendOnce(ping, x), Turn(SendData(x.script, |x.buffer|), |x.buffer|);
            && t.result <= t.size && y.last == t.result
            && y.script == RestOf(x.script, t.size) && Truthful(y.script)
            && y.progress == (if t.result == t.size then Complete else Running)
            && |y.accepted| == |x.accepted| + Gain(t) && |y.buffer| == t.size - Gain(t)
  {
    TruthfulAnswer(x.script, |x.buffer|);
    hide Pass, Fire, FireAll, FirePing, KeepsToFront, SendData, Taken, RestOf, Truthful;
  }

  /** How a send loop ends, told from its turns. */
  ghost predicate EndsAs(ts: seq<Turn>, x: Transit, y: Transit) {
    && ts != [] && y.last == ts[|ts| - 1].result
    && y.progress == (if ts[|ts| - 1].result == ts[|ts| - 1].size then Complete else Running)
    && Gains(ts) <= |x.buffer| && |y.accepted| == |x.accepted| + Gains(ts) && |y.buffer| == |x.buffer| - Gains(ts)
  }

  lemma OneTurn(t: Turn, rest: seq<Turn>)
    ensures Gains([t] + rest) == Gain(t) + Gains(rest) && ([t] + rest)[|rest|] == (if rest == [] then t else rest[|rest| - 1])
  {
    assert ([t] + rest)[1..] == rest;
  }

  /** After one turn, and the turns that follow it unless everything went. */
  lemma EndsAfter(t: Turn, rest: seq<Turn>, x: Transit, y: Transit, z: Transit)
    requires y.last == t.result && |y.accepted| == |x.accepted| + Gain(t) && |y.buffer| == |x.buffer| - Gain(t)
    requires y.progress == (if t.result == t.size then Complete else Running)
    requires if rest == [] then z == y else EndsAs(rest, y, z)
    ensures EndsAs([t] + rest, x, z)
  {
    hide Gain;
    OneTurn(t, rest);
    assert Gains([]) == 0;
  }

  lemma TurnsAre(script: seq<Answer>, size: nat, turns: nat)
    requires turns < 4
    ensures var t := Turn(SendData(script, size), size);
            Turns(script, size, turns)
            == [t] + if t.result >= size then []
                     else Turns(RestOf(script, size), if t.result < 0 then size else size - t.result, turns + 1)
  {
    hide SendData, RestOf;
  }

  lemma {:induction false} LoopEndsAs(ping: Option<Tracked>, x: Transit, turns: nat)
    requires turns < 4 && x.progress == Running && Truthful(x.script)
    ensures EndsAs(Turns(x.script, |x.buffer|, turns), x, SendLoop(ping, x, turns))
    ensures var ts := Turns(x.script, |x.buffer|, turns);
            |ts| <= 4 - turns && (|ts| < 4 - turns ==> ts[|ts| - 1].result == ts[|ts| - 1].size)
    decreases 4 - turns
  {
    hide SendOnce, SendData, RestOf, Truthful, Gains, EndsAs, Turns, SendLoop;
    TurnGains(ping, x);
    LoopStep(ping, x, turns);
    TurnsAre(x.script, |x.buffer|, turns);
    var y, t := SendOnce(ping, x), Turn(SendData(x.script, |x.buffer|), |x.buffer|);
    var rest := if t.result >= t.size then [] else Turns(y.script, |y.buffer|, turns + 1);
    if y.progress == Running && turns + 1 < 4 {
      LoopEndsAs(ping, y, turns + 1);
      HasTurns(rest, y, SendLoop(ping, y, turns + 1));
    } else {
      LoopStops(ping, y, turns + 1);
    }
    EndsAfter(t, rest, x, y, SendLoop(ping, x, turns));
    OneTurn(t, rest);
  }

  lemma HasTurns(ts: seq<Turn>, x: Transit, y: Transit)
    requires EndsAs(ts, x, y)
    ensures ts != []
  {
  }

  lemma LoopStops(ping: Option<Tracked>, x: Transit, turns: nat)
    requires turns >= 4 || x.progress != Running
    ensures SendLoop(ping, x, turns) == x && (turns >= 4 ==> forall script, size :: Turns(script, size, turns) == [])
  {
  }

  /** A batch that can encode its packets sends in at most four turns and stops early only when everything went. It
      reports success if and only if the last turn did not fail, and otherwise the error of that turn; a failure
      in between is forgotten. The socket gains what the turns took, and the buffer keeps the rest. */
  lemma OutcomeExactly(p: Pipe, script: seq<Answer>)
    requires p.jobs != [] && Truthful(script) && TryBatch(p, script).0 != EncodeError
    ensures p.composed <= TryBatch(p, script).1.composed
    ensures var (outcome, q, _) := TryBatch(p, script);
            var size := |p.buffer| + |Stream(BatchOf(p, script))|;
            var ts := Turns(script, size, 0);
            && 1 <= |ts| <= 4 && (|ts| < 4 ==> ts[|ts| - 1].result == ts[|ts| - 1].size)
            && outcome == (if ts[|ts| - 1].result >= 0 then Sent else SocketError(ts[|ts| - 1].result))
            && Gains(ts) <= size && |q.accepted| == |p.accepted| + Gains(ts) && |q.buffer| == size - Gains(ts)
  {
    hide *;
    var c := BatchParts(p, script);
    LoopEndsAs(c.ping, p.Sending(c, script), 0);
    ReportsAs(p, script, p.Sending(c, script), SendLoop(c.ping, p.Sending(c, script), 0));
  }

  lemma ReportsAs(p: Pipe, script: seq<Answer>, x: Transit, y: Transit)
    requires Reports(TryBatch(p, script), y) && EndsAs(Turns(script, |x.buffer|, 0), x, y)
    ensures var (outcome, q, _) := TryBatch(p, script);
            var ts := Turns(script, |x.buffer|, 0);
            && ts != [] && outcome == (if ts[|ts| - 1].result >= 0 then Sent else SocketError(ts[|ts| - 1].result))
            && Gains(ts) <= |x.buffer| && |q.accepted| == |x.accepted| + Gains(ts) && |q.buffer| == |x.buffer| - Gains(ts)
  {
    hide TryBatch, Turns, Gains;
  }
}
