/** The session's unfinished QoS 1 and 2 messages and the scan that retries them. */
module Sessions {
  import opened Bytes

  datatype Status = WaitingForAck | WaitingForPubRec | WaitingForPubComp | WaitingForPubRel | NeedToSendPubComp

  /** `content` stands for topic, payload and the options other than the QoS. Times are in milliseconds. */
  datatype Message = Message(id: nat, content: nat, qos: nat, status: Status, nextRetryTime: nat)

  /** The status a message starts with: every QoS but 1 counts as 2. */
  function FirstStatus(qos: nat): Status {
    if qos == 1 then WaitingForAck else WaitingForPubRec
  }

  type Messages = seq<Message>

  predicate Contains(ms: Messages, id: nat) {
    exists i :: 0 <= i < |ms| && ms[i].id == id
  }

  function IndexOf(ms: Messages, id: nat): (i: nat)
    requires Contains(ms, id)
    ensures i < |ms| && ms[i].id == id
  {
    if ms[0].id == id then 0 else IndexOf(ms[1..], id) + 1
  }

  function Erase(ms: Messages, id: nat): Messages {
    if !Contains(ms, id) then ms
    else ms[..IndexOf(ms, id)] + ms[IndexOf(ms, id) + 1..]
  }

  function MoveToEnd(ms: Messages, id: nat): Messages {
    if !Contains(ms, id) then ms else Erase(ms, id) + [ms[IndexOf(ms, id)]]
  }

  function Add(ms: Messages, id: nat, content: nat, qos: nat, now: nat, retryInterval: nat): Messages {
    ms + [Message(id, content, qos, FirstStatus(qos), now + retryInterval)]
  }

  predicate ShouldBringToFront(oldStatus: Status, newStatus: Status) {
    oldStatus != newStatus && newStatus in {WaitingForPubComp, WaitingForPubRel}
  }

  /** The update as written: the status is overwritten before it is compared. For an id the session does
      not hold the source means to do nothing, but looks through a null pointer to find that out. */
  function Update(ms: Messages, id: nat, newStatus: Status, now: nat, retryInterval: nat): Messages {
    if !Contains(ms, id) then ms
    else
      var i := IndexOf(ms, id);
      var timed := ms[i := ms[i].(nextRetryTime := now + retryInterval)];
      if newStatus == timed[i].status then timed
      else
        var written := timed[i := timed[i].(status := newStatus)];
        if ShouldBringToFront(written[i].status, newStatus) then MoveToEnd(written, id) else written
  }

  /** The scan stops at the first message that is not due. */
  function Scan(ms: Messages, now: nat): Messages {
    if ms == [] || ms[0].nextRetryTime >= now then [] else [ms[0]] + Scan(ms[1..], now)
  }

  /** All messages that are due. */
  function Due(ms: Messages, now: nat): Messages {
    if ms == [] then []
    else (if ms[0].nextRetryTime < now then [ms[0]] else []) + Due(ms[1..], now)
  }

  class SessionState {
    var messages: Messages
    const retryInterval: nat

    constructor (retryInterval: nat)
      ensures messages == [] && this.retryInterval == retryInterval
    {
      messages := [];
      this.retryInterval := retryInterval;
    }

    method AddMessage(id: nat, content: nat, qos: nat, now: nat)
      requires id != 0 && !Contains(messages, id)
      modifies this
      ensures messages == Add(old(messages), id, content, qos, now, retryInterval)
    {
      messages := messages + [Message(id, content, qos, FirstStatus(qos), now + retryInterval)];
    }

    /** The program does not survive the update of a message the session does not hold. */
    method UpdateMessage(id: nat, newStatus: Status, now: nat) returns (survived: bool)
      modifies this
      ensures survived == Contains(old(messages), id)
      ensures messages == Update(old(messages), id, newStatus, now, retryInterval)
    {
      survived := Contains(messages, id);
      if !survived {
        return;
      }
      var i := IndexOf(messages, id);
      messages := messages[i := messages[i].(nextRetryTime := now + retryInterval)];
      if newStatus == messages[i].status {
        return;
      }
      messages := messages[i := messages[i].(status := newStatus)];
      var bringToFront := ShouldBringToFront(messages[i].status, newStatus);
      messages := if bringToFront then MoveToEnd(messages, id) else messages;
    }

    method RemoveMessage(id: nat)
      modifies this
      ensures messages == Erase(old(messages), id)
    {
      messages := Erase(messages, id);
    }

    method Clear()
      modifies this
      ensures messages == []
    {
      messages := [];
    }

    /** The loop over the list with its early exit. */
    method ScanForRetries(now: nat) returns (due: Messages)
      ensures due == Scan(messages, now)
    {
      due := [];
      var i := 0;
      assert messages[0..] == messages;
      while i < |messages|
        invariant i <= |messages| && Scan(messages, now) == due + Scan(messages[i..], now)
        decreases |messages| - i
      {
        assert messages[i..][1..] == messages[i + 1..];
        if messages[i].nextRetryTime >= now {
          break;
        }
        assert due + ([messages[i]] + Scan(messages[i + 1..], now)) == (due + [messages[i]]) + Scan(messages[i + 1..], now);
        due := due + [messages[i]];
        i := i + 1;
      }
      assert Scan(messages[i..], now) == [] && due + [] == due;
    }
  }

  // ---------------------------------------------------------------- when the scan is complete

  ghost predicate Sorted(ms: Messages) {
    forall i, j :: 0 <= i < j < |ms| ==> ms[i].nextRetryTime <= ms[j].nextRetryTime
  }

  /** No due message stands behind one that is not due. */
  ghost predicate DueFirst(ms: Messages, now: nat) {
    forall i, j :: 0 <= i < j < |ms| && ms[j].nextRetryTime < now ==> ms[i].nextRetryTime < now
  }

  lemma {:induction false} DueMembers(ms: Messages, now: nat)
    ensures forall m :: m in Due(ms, now) <==> m in ms && m.nextRetryTime < now
    ensures |Scan(ms, now)| <= |Due(ms, now)|
  {
    if ms != [] {
      DueMembers(ms[1..], now);
    }
  }

  /** One scan retries exactly the due messages if and only if none of them stands behind one not due. */
  lemma {:induction false} ScanIsCompleteExactly(ms: Messages, now: nat)
    ensures Scan(ms, now) == Due(ms, now) <==> DueFirst(ms, now)
  {
    if ms != [] {
      var rest := ms[1..];
      DueFirstStep(ms, now);
      if ms[0].nextRetryTime < now {
        ScanIsCompleteExactly(rest, now);
        hide DueFirst;
        assert Scan(ms, now)[1..] == Scan(rest, now) && Due(ms, now)[1..] == Due(rest, now);
        assert Scan(ms, now)[0] == Due(ms, now)[0];
      } else {
        DueMembers(rest, now);
        NothingDue(rest, now);
      }
    }
  }

  lemma DueFirstStep(ms: Messages, now: nat)
    requires ms != []
    ensures DueFirst(ms, now) <==>
              if ms[0].nextRetryTime < now then DueFirst(ms[1..], now)
              else forall m :: m in ms[1..] ==> m.nextRetryTime >= now
  {
    var rest := ms[1..];
    assert forall i :: 0 <= i < |rest| ==> rest[i] == ms[i + 1];
    if ms[0].nextRetryTime >= now {
      if m :| m in rest && m.nextRetryTime < now {
        var j :| 0 <= j < |rest| && rest[j] == m;
        assert ms[j + 1].nextRetryTime < now;
      } else {
        assert forall j :: 1 <= j < |ms| ==> ms[j] == rest[j - 1] && rest[j - 1] in rest;
      }
    } else {
      assert forall j :: 1 <= j < |ms| ==> ms[j] == rest[j - 1];
    }
  }

  lemma NothingDue(ms: Messages, now: nat)
    requires forall m :: m in Due(ms, now) <==> m in ms && m.nextRetryTime < now
    ensures Due(ms, now) == [] <==> forall m :: m in ms ==> m.nextRetryTime >= now
  {
    hide Due;
    if Due(ms, now) != [] {
      assert Due(ms, now)[0] in Due(ms, now);
    }
  }

  /** Scans are complete at all times if and only if the list is sorted by retry time. */
  lemma AlwaysCompleteExactly(ms: Messages)
    ensures (forall now :: Scan(ms, now) == Due(ms, now)) <==> Sorted(ms)
  {
    if Sorted(ms) {
      forall now ensures Scan(ms, now) == Due(ms, now) {
        ScanIsCompleteExactly(ms, now);
      }
    } else {
      var i, j :| 0 <= i < j < |ms| && ms[i].nextRetryTime > ms[j].nextRetryTime;
      ScanIsCompleteExactly(ms, ms[i].nextRetryTime);
    }
  }

  // ---------------------------------------------------------------- which calls keep the list sorted

  /** Erasing position `k` of a list. */
  lemma WithoutOne(ms: Messages, k: nat)
    requires k < |ms|
    ensures var e := ms[..k] + ms[k + 1..];
            && |e| == |ms| - 1
            && (forall i :: 0 <= i < |e| ==> e[i] == ms[if i < k then i else i + 1])
            && (Sorted(ms) ==> Sorted(e))
            && (forall m :: m in e ==> m in ms)
            && (forall m :: m in ms && m != ms[k] ==> m in e)
  {
    var e := ms[..k] + ms[k + 1..];
    assert ms == ms[..k] + [ms[k]] + ms[k + 1..];
  }

  lemma EraseContents(ms: Messages, id: nat)
    ensures Sorted(ms) ==> Sorted(Erase(ms, id))
    ensures forall m :: m in Erase(ms, id) ==> m in ms
    ensures forall m :: m in ms && m.id != id ==> m in Erase(ms, id)
  {
    if Contains(ms, id) {
      WithoutOne(ms, IndexOf(ms, id));
    }
  }

  /** The comparison comes after the assignment, so no update ever moves a message. */
  lemma UpdateNeverMoves(ms: Messages, id: nat, newStatus: Status, now: nat, retryInterval: nat)
    ensures var u := Update(ms, id, newStatus, now, retryInterval);
            && |u| == |ms|
            && (!Contains(ms, id) ==> u == ms)
            && (Contains(ms, id) ==>
                  u == ms[IndexOf(ms, id) := ms[IndexOf(ms, id)].(status := newStatus, nextRetryTime := now + retryInterval)])
  {
  }

  /** Within a connection all retry times lie at most one interval ahead. */
  ghost predicate Within(ms: Messages, limit: nat) {
    forall m :: m in ms ==> m.nextRetryTime <= limit
  }

  /** An update keeps a sorted list sorted if and only if no message behind the updated one is due earlier
      than an interval from now. */
  lemma UpdateKeepsSortedExactly(ms: Messages, id: nat, newStatus: Status, now: nat, retryInterval: nat)
    requires Sorted(ms) && Within(ms, now + retryInterval) && Contains(ms, id)
    ensures Sorted(Update(ms, id, newStatus, now, retryInterval))
       <==> forall j :: IndexOf(ms, id) < j < |ms| ==> ms[j].nextRetryTime >= now + retryInterval
  {
    UpdateNeverMoves(ms, id, newStatus, now, retryInterval);
    var k := IndexOf(ms, id);
    var u := Update(ms, id, newStatus, now, retryInterval);
    if j :| k < j < |ms| && ms[j].nextRetryTime < now + retryInterval {
      assert u[k].nextRetryTime > u[j].nextRetryTime;
    } else {
      forall i, j | 0 <= i < j < |u| ensures u[i].nextRetryTime <= u[j].nextRetryTime {
        assert ms[i] in ms && ms[j] in ms;
      }
    }
  }

  lemma SortedSnoc(ms: Messages, last: Message)
    requires Sorted(ms) && Within(ms, last.nextRetryTime)
    ensures Sorted(ms + [last])
  {
    assert forall i :: 0 <= i < |ms| ==> ms[i] in ms;
  }

  /** Moving the updated message to the end, as intended, would always keep the list sorted. */
  lemma MovingKeepsSorted(ms: Messages, id: nat, newStatus: Status, now: nat, retryInterval: nat)
    requires Sorted(ms) && Within(ms, now + retryInterval)
    ensures Sorted(MoveToEnd(Update(ms, id, newStatus, now, retryInterval), id))
  {
    if Contains(ms, id) {
      var k := IndexOf(ms, id);
      MovedShape(ms, id, newStatus, now, retryInterval);
      WithoutOne(ms, k);
      var e := ms[..k] + ms[k + 1..];
      assert Within(e, now + retryInterval);
      SortedSnoc(e, ms[k].(status := newStatus, nextRetryTime := now + retryInterval));
    } else {
      assert Update(ms, id, newStatus, now, retryInterval) == ms;
    }
  }

  lemma MovedShape(ms: Messages, id: nat, newStatus: Status, now: nat, retryInterval: nat)
    requires Contains(ms, id)
    ensures MoveToEnd(Update(ms, id, newStatus, now, retryInterval), id)
         == ms[..IndexOf(ms, id)] + ms[IndexOf(ms, id) + 1..]
            + [ms[IndexOf(ms, id)].(status := newStatus, nextRetryTime := now + retryInterval)]
  {
    hide *;
    UpdateNeverMoves(ms, id, newStatus, now, retryInterval);
    var k := IndexOf(ms, id);
    var x := ms[k].(status := newStatus, nextRetryTime := now + retryInterval);
    Replaced(ms, k, x);
    SameFirst(ms, ms[k := x], id);
    MovedFrom(ms[k := x], id);
  }

  lemma MovedFrom(u: Messages, id: nat)
    requires Contains(u, id)
    ensures MoveToEnd(u, id) == u[..IndexOf(u, id)] + u[IndexOf(u, id) + 1..] + [u[IndexOf(u, id)]]
  {
    hide IndexOf, Contains;
  }

  lemma Replaced(ms: Messages, k: nat, x: Message)
    requires k < |ms|
    ensures ms[k := x][..k] == ms[..k] && ms[k := x][k + 1..] == ms[k + 1..] && ms[k := x][k] == x
    ensures |ms[k := x]| == |ms| && (x.id == ms[k].id ==> forall i :: 0 <= i < |ms| ==> ms[k := x][i].id == ms[i].id)
  {
  }

  lemma SameFirst(ms: Messages, u: Messages, id: nat)
    requires Contains(ms, id) && |u| == |ms| && forall i :: 0 <= i < |ms| ==> u[i].id == ms[i].id
    ensures Contains(u, id) && IndexOf(u, id) == IndexOf(ms, id)
  {
    FirstIndex(ms, id);
    assert u[IndexOf(ms, id)].id == id;
    FirstIndex(u, id);
  }

  lemma {:induction false} FirstIndex(ms: Messages, id: nat)
    requires Contains(ms, id)
    ensures forall i :: 0 <= i < IndexOf(ms, id) ==> ms[i].id != id
  {
    if ms[0].id != id {
      var i :| 0 <= i < |ms| && ms[i].id == id;
      assert ms[1..][i - 1].id == id;
      FirstIndex(ms[1..], id);
    }
  }

  // ---------------------------------------------------------------- whole runs

  datatype Change = Added(id: nat, content: nat, qos: nat) | Updated(id: nat, newStatus: Status) | Removed(id: nat)

  datatype Timed = At(now: nat, change: Change)

  function Apply(ms: Messages, t: Timed, retryInterval: nat): Messages {
    match t.change
    case Added(id, content, qos) => Add(ms, id, content, qos, t.now, retryInterval)
    case Updated(id, s) => Update(ms, id, s, t.now, retryInterval)
    case Removed(id) => Erase(ms, id)
  }

  function History(run: seq<Timed>, retryInterval: nat): Messages {
    if run == [] then []
    else Apply(History(run[..|run| - 1], retryInterval), run[|run| - 1], retryInterval)
  }

  predicate Monotone(run: seq<Timed>) {
    forall i, j :: 0 <= i <= j < |run| ==> run[i].now <= run[j].now
  }

  /** The guard of one change: an update must find nothing behind its message due before the new time. */
  ghost predicate Orderly(ms: Messages, t: Timed, retryInterval: nat) {
    t.change.Updated? && Contains(ms, t.change.id) ==>
      forall j :: IndexOf(ms, t.change.id) < j < |ms| ==> ms[j].nextRetryTime >= t.now + retryInterval
  }

  ghost predicate AllOrderly(run: seq<Timed>, retryInterval: nat) {
    run == []
    || (AllOrderly(run[..|run| - 1], retryInterval)
        && Orderly(History(run[..|run| - 1], retryInterval), run[|run| - 1], retryInterval))
  }

  ghost predicate AlwaysSorted(run: seq<Timed>, retryInterval: nat) {
    run == [] || (AlwaysSorted(run[..|run| - 1], retryInterval) && Sorted(History(run, retryInterval)))
  }

  lemma ApplyKeepsWithin(ms: Messages, t: Timed, retryInterval: nat)
    requires Within(ms, t.now + retryInterval)
    ensures Within(Apply(ms, t, retryInterval), t.now + retryInterval)
  {
    match t.change
    case Added(_, _, _) =>
    case Updated(id, s) => UpdateNeverMoves(ms, id, s, t.now, retryInterval);
    case Removed(id) => EraseContents(ms, id);
  }

  lemma ApplyKeepsSortedExactly(ms: Messages, t: Timed, retryInterval: nat)
    requires Sorted(ms) && Within(ms, t.now + retryInterval)
    ensures Sorted(Apply(ms, t, retryInterval)) <==> Orderly(ms, t, retryInterval)
  {
    match t.change
    case Added(_, _, _) =>
      var a := Apply(ms, t, retryInterval);
      forall i, j | 0 <= i < j < |a| ensures a[i].nextRetryTime <= a[j].nextRetryTime {
        assert ms[i] in ms;
      }
    case Updated(id, s) =>
      if Contains(ms, id) {
        UpdateKeepsSortedExactly(ms, id, s, t.now, retryInterval);
      }
    case Removed(id) => EraseContents(ms, id);
  }

  /** Under a monotone clock, over any run of additions, updates and removals: the list is sorted after
      every step if and only if every update meets the guard, and then every scan is complete. */
  lemma {:induction false} RetryOrderOverRuns(run: seq<Timed>, retryInterval: nat)
    requires Monotone(run)
    ensures AlwaysSorted(run, retryInterval) <==> AllOrderly(run, retryInterval)
    ensures run != [] ==> Within(History(run, retryInterval), run[|run| - 1].now + retryInterval)
    ensures AllOrderly(run, retryInterval) ==>
              forall now :: Scan(History(run, retryInterval), now) == Due(History(run, retryInterval), now)
  {
    hide Scan, Due, Orderly, Apply;
    if run != [] {
      var before, t := run[..|run| - 1], run[|run| - 1];
      assert Monotone(before) by {
        assert forall i :: 0 <= i < |before| ==> before[i] == run[i];
      }
      RetryOrderOverRuns(before, retryInterval);
      var ms := History(before, retryInterval);
      assert Within(ms, t.now + retryInterval) by {
        if before != [] {
          assert before[|before| - 1] == run[|run| - 2];
          assert run[|run| - 2].now <= t.now;
        }
      }
      ApplyKeepsWithin(ms, t, retryInterval);
      AlwaysCompleteExactly(ms);
      if Sorted(ms) {
        ApplyKeepsSortedExactly(ms, t, retryInterval);
      }
      SortedIfAlways(before, retryInterval);
    }
    AlwaysCompleteExactly(History(run, retryInterval));
  }

  lemma SortedIfAlways(run: seq<Timed>, retryInterval: nat)
    ensures AlwaysSorted(run, retryInterval) ==> Sorted(History(run, retryInterval))
  {
  }

  /** Where it goes wrong: the first of two messages is acknowledged by a PUBREC and keeps its place, so
      the scan at 12 stops at it and leaves the second, due since 11, alone. */
  lemma SkippedRetryCounterexample()
    ensures var ms := Add(Add([], 1, 7, 2, 0, 10), 2, 8, 1, 1, 10);
            var u := Update(ms, 1, WaitingForPubComp, 9, 10);
            Scan(u, 12) == [] && Due(u, 12) == [Message(2, 8, 1, WaitingForAck, 11)]
  {
    var ms := Add(Add([], 1, 7, 2, 0, 10), 2, 8, 1, 1, 10);
    assert ms[0].id == 1;
    UpdateNeverMoves(ms, 1, WaitingForPubComp, 9, 10);
    var u := Update(ms, 1, WaitingForPubComp, 9, 10);
    assert u == [Message(1, 7, 2, WaitingForPubComp, 19), Message(2, 8, 1, WaitingForAck, 11)];
    assert u[1..] == [u[1]] && [u[1]][1..] == [];
    assert Due([u[1]], 12) == [u[1]] + Due([], 12);
    assert Due(u, 12) == [] + Due([u[1]], 12);
  }

  lemma {:induction false} ScanAll(ms: Messages, now: nat)
    requires forall m :: m in ms ==> m.nextRetryTime < now
    ensures Scan(ms, now) == ms
  {
    if ms != [] {
      assert ms[0] in ms;
      ScanAll(ms[1..], now);
    }
  }

  /** More than an interval after the last change, a scan retries every message there is, whatever the order. */
  lemma LateScanRetriesAll(run: seq<Timed>, retryInterval: nat, now: nat)
    requires Monotone(run) && (run != [] ==> now > run[|run| - 1].now + retryInterval)
    ensures Scan(History(run, retryInterval), now) == History(run, retryInterval)
  {
    RetryOrderOverRuns(run, retryInterval);
    hide History, Monotone, AllOrderly, AlwaysSorted, Scan;
    if run != [] {
      ScanAll(History(run, retryInterval), now);
    } else {
      assert History(run, retryInterval) == [] && Scan([], now) == [] by { NoHistory(retryInterval, now); }
    }
  }

  lemma NoHistory(retryInterval: nat, now: nat)
    ensures History([], retryInterval) == [] && Scan([], now) == []
  {
  }

  /** An interval of 0 is documented to mean no retries. Over any run of additions, updates and removals, every
      scan from the next millisecond on retries all messages; and at the time of the last change or later a scan
      retries nothing if and only if there is no message or the first was added or updated at that very time. */
  lemma ZeroIntervalStillRetries(run: seq<Timed>, now: nat)
    requires Monotone(run) && (run != [] ==> now >= run[|run| - 1].now)
    ensures run != [] && now > run[|run| - 1].now ==> Scan(History(run, 0), now) == History(run, 0)
    ensures Scan(History(run, 0), now) == [] <==> History(run, 0) == [] || History(run, 0)[0].nextRetryTime == now
  {
    RetryOrderOverRuns(run, 0);
    if run != [] && now > run[|run| - 1].now {
      LateScanRetriesAll(run, 0, now);
    }
    var ms := History(run, 0);
    assert ms != [] ==> run != [] && ms[0] in ms;
    hide History, Monotone, AllOrderly, AlwaysSorted;
  }
}
