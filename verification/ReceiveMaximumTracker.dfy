/** The two flow-control windows of section 4.9 of MQTT Version 5.0. */
module ReceiveMaximum {
  import opened Bytes

  /** One direction: how many more may be opened, the limit, and the ids counted against it. */
  datatype Window = Window(allowance: nat, max: nat, ids: set<nat>) {

    predicate Balanced() {
      allowance + |ids| == max
    }

    /** Opening an id: refused at zero, free of charge when the id is counted already. */
    function Take(id: nat): (bool, Window) {
      if allowance == 0 then (false, this)
      else if id in ids then (true, this)
      else (true, Window(allowance - 1, max, ids + {id}))
    }

    /** Closing an id: ignored at the limit and for ids that are not counted. */
    function Give(id: nat): Window {
      if allowance >= max || id !in ids then this
      else Window(allowance + 1, max, ids - {id})
    }
  }

  class ReceiveMaximumTracker {
    var receiveAllowance: nat
    var sendAllowance: nat
    var maxReceiveAllowance: nat
    var maxSendAllowance: nat
    var sentPublishIDs: set<nat>
    var receivedPublishIDs: set<nat>

    function SendWindow(): Window
      reads this
    {
      Window(sendAllowance, maxSendAllowance, sentPublishIDs)
    }

    function ReceiveWindow(): Window
      reads this
    {
      Window(receiveAllowance, maxReceiveAllowance, receivedPublishIDs)
    }

    constructor (receiveMaximumClient: nat, receiveMaximumBroker: nat)
      ensures ReceiveWindow() == Window(receiveMaximumClient, receiveMaximumClient, {})
      ensures SendWindow() == Window(receiveMaximumBroker, receiveMaximumBroker, {})
    {
      receiveAllowance, maxReceiveAllowance := receiveMaximumClient, receiveMaximumClient;
      sendAllowance, maxSendAllowance := receiveMaximumBroker, receiveMaximumBroker;
      sentPublishIDs, receivedPublishIDs := {}, {};
    }

    method IncrementReceiveAllowance(packetId: nat)
      modifies this`receiveAllowance, this`receivedPublishIDs
      ensures ReceiveWindow() == old(ReceiveWindow()).Give(packetId)
    {
      if receiveAllowance >= maxReceiveAllowance {
        return;
      }
      if packetId !in receivedPublishIDs {
        return;
      }
      receiveAllowance := receiveAllowance + 1;
      receivedPublishIDs := receivedPublishIDs - {packetId};
    }

    method DecrementReceiveAllowance(packetId: nat) returns (ok: bool)
      modifies this`receiveAllowance, this`receivedPublishIDs
      ensures (ok, ReceiveWindow()) == old(ReceiveWindow()).Take(packetId)
    {
      if receiveAllowance == 0 {
        return false;
      }
      if packetId in receivedPublishIDs {
        return true;
      }
      receiveAllowance := receiveAllowance - 1;
      receivedPublishIDs := receivedPublishIDs + {packetId};
      return true;
    }

    method IncrementSendAllowance(packetId: nat)
      modifies this`sendAllowance, this`sentPublishIDs
      ensures SendWindow() == old(SendWindow()).Give(packetId)
    {
      if sendAllowance >= maxSendAllowance {
        return;
      }
      if packetId !in sentPublishIDs {
        return;
      }
      sendAllowance := sendAllowance + 1;
      sentPublishIDs := sentPublishIDs - {packetId};
    }

    method DecrementSendAllowance(packetId: nat) returns (ok: bool)
      modifies this`sendAllowance, this`sentPublishIDs
      ensures (ok, SendWindow()) == old(SendWindow()).Take(packetId)
    {
      if sendAllowance == 0 {
        return false;
      }
      if packetId in sentPublishIDs {
        return true;
      }
      sendAllowance := sendAllowance - 1;
      sentPublishIDs := sentPublishIDs + {packetId};
      return true;
    }

    predicate HasSendAllowance()
      reads this
    {
      sendAllowance > 0
    }
  }

  // ---------------------------------------------------------------- whole histories of one window

  datatype Event = Opened(id: nat) | Closed(id: nat)

  function Advance(w: Window, e: Event): Window {
    match e
    case Opened(id) => w.Take(id).1
    case Closed(id) => w.Give(id)
  }

  function After(w: Window, events: seq<Event>): Window {
    if events == [] then w else Advance(After(w, events[..|events| - 1]), events[|events| - 1])
  }

  /** The ids opened and not closed since, when at most `max` may be open and the rest are refused. */
  function Outstanding(events: seq<Event>, max: nat): set<nat> {
    if events == [] then {}
    else
      var before := Outstanding(events[..|events| - 1], max);
      match events[|events| - 1]
      case Opened(id) => if |before| < max then before + {id} else before
      case Closed(id) => before - {id}
  }

  /** In every reachable state the counter is the limit less the number of outstanding ids,
      so the window never exceeds the Receive Maximum, and opening fails exactly when it is full. */
  lemma {:induction false} WindowCountsOutstanding(max: nat, events: seq<Event>)
    ensures var w := After(Window(max, max, {}), events);
            && w.max == max && w.Balanced()
            && w.ids == Outstanding(events, max)
            && |w.ids| <= max
            && forall id :: w.Take(id).0 <==> |Outstanding(events, max)| < max
  {
    if events != [] {
      WindowCountsOutstanding(max, events[..|events| - 1]);
      var before := After(Window(max, max, {}), events[..|events| - 1]);
      AdvanceKeepsBalance(before, events[|events| - 1]);
    }
  }

  lemma AdvanceKeepsBalance(w: Window, e: Event)
    requires w.Balanced()
    ensures Advance(w, e).Balanced() && Advance(w, e).max == w.max
    ensures Advance(w, e).ids == match e
                                 case Opened(id) => if |w.ids| < w.max then w.ids + {id} else w.ids
                                 case Closed(id) => w.ids - {id}
  {
  }

  /** With allowance left, opening never fails and counts the id. */
  lemma TakeOpens(w: Window, id: nat)
    requires w.Balanced() && w.allowance > 0
    ensures var (ok, w') := w.Take(id); ok && w'.Balanced() && w'.max == w.max && w'.ids == w.ids + {id}
  {
  }

  lemma GiveCloses(w: Window, id: nat)
    requires w.Balanced()
    ensures var w' := w.Give(id); w'.Balanced() && w'.max == w.max && w'.ids == w.ids - {id}
  {
  }
}
