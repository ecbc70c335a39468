/** Topic aliases of received PUBLISH packets, section 3.3.2.3.4 of MQTT Version 5.0: as the map is meant, with
    names in it, and as it is written, with pointers in it. */
module TopicAliasMaps {
  import opened Bytes

  /** The multimap's entries, oldest first. */
  type Entries<N> = seq<(nat, N)>

  function Find<N>(entries: Entries<N>, topicAlias: nat): Option<N> {
    if entries == [] then None
    else if entries[0].0 == topicAlias then Some(entries[0].1)
    else Find(entries[1..], topicAlias)
  }

  function EraseAll<N>(entries: Entries<N>, topicAlias: nat): Entries<N> {
    if entries == [] then []
    else if entries[0].0 == topicAlias then EraseAll(entries[1..], topicAlias)
    else [entries[0]] + EraseAll(entries[1..], topicAlias)
  }

  /** A received PUBLISH as far as topics go. */
  datatype Published = Published(topicName: string, topicAlias: Option<nat>)

  predicate Legal(max: nat, p: Published) {
    match p.topicAlias
    case None => p.topicName != ""
    case Some(a) => 1 <= a <= max
  }

  /** What becomes of a PUBLISH: its topic goes to the application, or the client disconnects. */
  datatype Outcome = Deliver(topic: string) | AliasDisallowed | AliasInvalid | NoTopic

  /** `named` is the topic found for the alias, if any. */
  function Outcomes(max: nat, p: Published, named: Option<string>): (r: Outcome)
    ensures r.Deliver? <==> Legal(max, p)
  {
    match p.topicAlias
    case None => if p.topicName == "" then NoTopic else Deliver(p.topicName)
    case Some(a) =>
      if max == 0 then AliasDisallowed
      else if a == 0 || a > max then AliasInvalid
      else if p.topicName != "" then Deliver(p.topicName)
      else if named.Some? then Deliver(named.value)
      else Deliver("")
  }

  // ---------------------------------------------------------------- as written

  /** A name is a pointer into the topic string of the PUBLISH that bound it, given by that packet's number. */
  datatype Name = NameOf(packet: nat)

  /** The string lives as long as its packet is handled; `freed` is what a name reads as afterwards. */
  function Read(name: Name, handled: nat, topicName: string, freed: string): string {
    if name.packet == handled then topicName else freed
  }

  function BindPointer(entries: Entries<Name>, topicName: string, handled: nat, topicAlias: nat, freed: string): Entries<Name> {
    if topicName == "" then entries
    else
      match Find(entries, topicAlias)
      case Some(name) =>
        if Read(name, handled, topicName, freed) == topicName then entries
        else EraseAll(entries, topicAlias) + [(topicAlias, NameOf(handled))]
      case None => entries + [(topicAlias, NameOf(handled))]
  }

  class TopicAliases {
    var topicAliasToNameMap: Entries<Name>

    constructor ()
      ensures topicAliasToNameMap == []
    {
      topicAliasToNameMap := [];
    }

    method TryAddTopicAlias(topicName: string, handled: nat, topicAlias: nat, freed: string) returns (ok: bool)
      modifies this
      ensures ok == (topicName != "")
      ensures topicAliasToNameMap == BindPointer(old(topicAliasToNameMap), topicName, handled, topicAlias, freed)
    {
      if topicName == "" {
        return false;
      }
      var found := Find(topicAliasToNameMap, topicAlias);
      if found.Some? {
        if Read(found.value, handled, topicName, freed) == topicName {
          return true;
        }
        topicAliasToNameMap := EraseAll(topicAliasToNameMap, topicAlias);
      }
      topicAliasToNameMap := topicAliasToNameMap + [(topicAlias, NameOf(handled))];
      return true;
    }

    method TryFindTopicName(topicAlias: nat) returns (name: Option<Name>)
      ensures name == Find(topicAliasToNameMap, topicAlias)
    {
      name := Find(topicAliasToNameMap, topicAlias);
    }

    method Reset()
      modifies this
      ensures topicAliasToNameMap == []
    {
      topicAliasToNameMap := [];
    }
  }

  /** What the application gets for packet number `handled`. */
  function Delivered(entries: Entries<Name>, max: nat, handled: nat, p: Published, freed: string): Outcome {
    var name := if p.topicAlias.Some? then Find(entries, p.topicAlias.value) else None;
    Outcomes(max, p, if name.Some? then Some(Read(name.value, handled, p.topicName, freed)) else None)
  }

  /** The entries afterwards; a disconnect empties them. */
  function PointersAfter(entries: Entries<Name>, max: nat, handled: nat, p: Published, freed: string): Entries<Name> {
    if !Legal(max, p) then []
    else if p.topicAlias.Some? then BindPointer(entries, p.topicName, handled, p.topicAlias.value, freed)
    else entries
  }

  // ---------------------------------------------------------------- as intended

  function Bind(entries: Entries<string>, topicName: string, topicAlias: nat): Entries<string> {
    if topicName == "" || Find(entries, topicAlias) == Some(topicName) then entries
    else EraseAll(entries, topicAlias) + [(topicAlias, topicName)]
  }

  function Resolve(entries: Entries<string>, max: nat, p: Published): Outcome {
    Outcomes(max, p, if p.topicAlias.Some? then Find(entries, p.topicAlias.value) else None)
  }

  function EntriesAfter(entries: Entries<string>, max: nat, p: Published): Entries<string> {
    if !Legal(max, p) then []
    else if p.topicAlias.Some? then Bind(entries, p.topicName, p.topicAlias.value)
    else entries
  }

  // ---------------------------------------------------------------- lookups after updates

  lemma {:induction false} FindAfterErase<N>(entries: Entries<N>, erased: nat, topicAlias: nat)
    ensures Find(EraseAll(entries, erased), topicAlias) == if topicAlias == erased then None else Find(entries, topicAlias)
  {
    if entries != [] {
      FindAfterErase(entries[1..], erased, topicAlias);
    }
  }

  lemma {:induction false} FindAfterAppend<N>(entries: Entries<N>, last: (nat, N), topicAlias: nat)
    ensures Find(entries + [last], topicAlias)
         == if Find(entries, topicAlias).Some? then Find(entries, topicAlias)
            else if last.0 == topicAlias then Some(last.1) else None
  {
    if entries != [] {
      assert (entries + [last])[1..] == entries[1..] + [last];
      FindAfterAppend(entries[1..], last, topicAlias);
    } else {
      assert (entries + [last])[1..] == [];
    }
  }

  lemma FindAfterBind(entries: Entries<string>, topicName: string, bound: nat, topicAlias: nat)
    requires topicName != ""
    ensures Find(Bind(entries, topicName, bound), topicAlias)
         == if topicAlias == bound then Some(topicName) else Find(entries, topicAlias)
  {
    FindAfterErase(entries, bound, topicAlias);
    FindAfterAppend(EraseAll(entries, bound), (bound, topicName), topicAlias);
  }

  /** At most one entry an alias, all of them in 1..max, none with an empty name. */
  predicate Proper(entries: Entries<string>, max: nat) {
    entries == []
    || (&& 1 <= entries[0].0 <= max && entries[0].1 != ""
        && Find(entries[1..], entries[0].0).None?
        && Proper(entries[1..], max))
  }

  lemma {:induction false} EraseKeepsProper(entries: Entries<string>, topicAlias: nat, max: nat)
    requires Proper(entries, max)
    ensures Proper(EraseAll(entries, topicAlias), max)
  {
    if entries != [] {
      EraseKeepsProper(entries[1..], topicAlias, max);
      FindAfterErase(entries[1..], topicAlias, entries[0].0);
    }
  }

  lemma {:induction false} AppendKeepsProper(entries: Entries<string>, last: (nat, string), max: nat)
    requires Proper(entries, max) && Find(entries, last.0).None?
    requires 1 <= last.0 <= max && last.1 != ""
    ensures Proper(entries + [last], max)
  {
    if entries != [] {
      assert (entries + [last])[1..] == entries[1..] + [last];
      AppendKeepsProper(entries[1..], last, max);
      FindAfterAppend(entries[1..], last, entries[0].0);
    } else {
      assert (entries + [last])[1..] == [];
    }
  }

  lemma BindKeepsProper(entries: Entries<string>, topicName: string, topicAlias: nat, max: nat)
    requires Proper(entries, max) && 1 <= topicAlias <= max
    ensures Proper(Bind(entries, topicName, topicAlias), max)
  {
    EraseKeepsProper(entries, topicAlias, max);
    FindAfterErase(entries, topicAlias, topicAlias);
    if topicName != "" {
      AppendKeepsProper(EraseAll(entries, topicAlias), (topicAlias, topicName), max);
    }
  }

  // ---------------------------------------------------------------- whole connections

  function History(max: nat, received: seq<Published>): Entries<string> {
    if received == [] then []
    else
      EntriesAfter(History(max, received[..|received| - 1]), max, received[|received| - 1])
  }

  /** The last non-empty topic received with the alias since the connection began. */
  function LastBound(max: nat, received: seq<Published>, topicAlias: nat): Option<string> {
    if received == [] || !Legal(max, received[|received| - 1]) then None
    else
      var p := received[|received| - 1];
      if p.topicAlias == Some(topicAlias) && p.topicName != "" then Some(p.topicName)
      else LastBound(max, received[..|received| - 1], topicAlias)
  }

  /** As intended: after any packets, the map holds exactly the last topic sent with each alias, one entry an
      alias, every key within 1..maximumTopicAliases. */
  lemma {:induction false} MapIsLastBound(max: nat, received: seq<Published>, topicAlias: nat)
    ensures Proper(History(max, received), max)
    ensures Find(History(max, received), topicAlias) == LastBound(max, received, topicAlias)
  {
    if received != [] {
      var before, p := received[..|received| - 1], received[|received| - 1];
      MapIsLastBound(max, before, topicAlias);
      if Legal(max, p) && p.topicAlias.Some? {
        BindKeepsProper(History(max, before), p.topicName, p.topicAlias.value, max);
        if p.topicName != "" {
          FindAfterBind(History(max, before), p.topicName, p.topicAlias.value, topicAlias);
        }
      }
    }
  }

  /** So, as intended, a PUBLISH with an empty topic and a bound alias is delivered under the last topic sent with
      that alias, with an alias never bound under the empty topic; and the client disconnects exactly on an
      illegal one. */
  lemma EmptyTopicResolves(max: nat, received: seq<Published>, topicAlias: nat)
    requires 1 <= topicAlias <= max
    ensures Resolve(History(max, received), max, Published("", Some(topicAlias)))
         == match LastBound(max, received, topicAlias) case Some(t) => Deliver(t) case None => Deliver("")
    ensures forall p: Published :: Resolve(History(max, received), max, p).Deliver? <==> Legal(max, p)
  {
    MapIsLastBound(max, received, topicAlias);
  }

  // ---------------------------------------------------------------- whole connections, as written

  /** The packets are numbered as they come; `freed(k)` is what freed names read as while packet `k` is handled. */
  function PointerHistory(max: nat, received: seq<Published>, freed: nat -> string): Entries<Name> {
    if received == [] then []
    else
      var k := |received| - 1;
      PointersAfter(PointerHistory(max, received[..k], freed), max, k, received[k], freed(k))
  }

  lemma FindAfterBindPointer(entries: Entries<Name>, topicName: string, handled: nat, bound: nat, freed: string, topicAlias: nat)
    requires topicName != ""
    ensures var b := BindPointer(entries, topicName, handled, bound, freed);
            && (topicAlias != bound ==> Find(b, topicAlias) == Find(entries, topicAlias))
            && (topicAlias == bound ==>
                  Find(b, bound) == if Find(entries, bound).Some? && Read(Find(entries, bound).value, handled, topicName, freed) == topicName
                                    then Find(entries, bound) else Some(NameOf(handled)))
  {
    FindAfterErase(entries, bound, topicAlias);
    FindAfterAppend(EraseAll(entries, bound), (bound, NameOf(handled)), topicAlias);
    FindAfterAppend(entries, (bound, NameOf(handled)), topicAlias);
  }

  /** One more packet: the lookups of its own alias find its name or, when the old one reads the same, the old one. */
  lemma FindAfterPacket(entries: Entries<Name>, max: nat, handled: nat, p: Published, freed: string, topicAlias: nat)
    ensures var found := Find(PointersAfter(entries, max, handled, p, freed), topicAlias);
            if !Legal(max, p) then found == None
            else if p.topicAlias == Some(topicAlias) && p.topicName != "" then
              found == if Find(entries, topicAlias).Some? && Read(Find(entries, topicAlias).value, handled, p.topicName, freed) == p.topicName
                       then Find(entries, topicAlias) else Some(NameOf(handled))
            else found == Find(entries, topicAlias)
  {
    if Legal(max, p) && p.topicAlias.Some? && p.topicName != "" {
      FindAfterBindPointer(entries, p.topicName, handled, p.topicAlias.value, freed, topicAlias);
    }
  }

  /** Every name found after some packets belongs to one of them, and one is found for exactly the aliases that
      are bound. */
  lemma {:induction false} PointersPointBack(max: nat, received: seq<Published>, freed: nat -> string, topicAlias: nat)
    ensures var found := Find(PointerHistory(max, received, freed), topicAlias);
            && (found.Some? ==> found.value.packet < |received|)
            && (found.Some? <==> LastBound(max, received, topicAlias).Some?)
  {
    if received != [] {
      var k := |received| - 1;
      PointersPointBack(max, received[..k], freed, topicAlias);
      FindAfterPacket(PointerHistory(max, received[..k], freed), max, k, received[k], freed(k), topicAlias);
      hide Find, PointersAfter, Legal, Read;
    }
  }

  /** A name the map finds after packet number `k` is live if and only if this very packet bound it, and for that
      the alias must not have been bound before, or the freed name must read otherwise. In the next packet it is
      dead: whatever the map finds then was bound by an earlier one. */
  lemma NameIsLiveExactly(max: nat, received: seq<Published>, freed: nat -> string, topicAlias: nat)
    requires received != []
    ensures var k := |received| - 1;
            var p, before := received[k], received[..k];
            && (Find(PointerHistory(max, received, freed), topicAlias) == Some(NameOf(k))
                <==> && Legal(max, p) && p.topicAlias == Some(topicAlias) && p.topicName != ""
                     && (LastBound(max, before, topicAlias).Some? ==> freed(k) != p.topicName))
            && Find(PointerHistory(max, received, freed), topicAlias) != Some(NameOf(k + 1))
  {
    var k := |received| - 1;
    var p, before := received[k], received[..k];
    PointersPointBack(max, before, freed, topicAlias);
    PointersPointBack(max, received, freed, topicAlias);
    FindAfterPacket(PointerHistory(max, before, freed), max, k, p, freed(k), topicAlias);
    hide Find, PointersAfter, Legal;
  }

  /** Handling the packet reads a name whose string is gone, to compare it or to deliver it. */
  predicate ReadsFreed(entries: Entries<Name>, max: nat, handled: nat, p: Published) {
    Legal(max, p) && p.topicAlias.Some? && Find(entries, p.topicAlias.value).Some? && Find(entries, p.topicAlias.value).value != NameOf(handled)
  }

  /** After any packets, the next one reads freed storage if and only if its alias is bound already. What it
      delivers is the intended topic if and only if it carries its own, or its alias is not bound, or the freed
      storage still reads as the topic bound last. */
  lemma FreedNamesExactly(max: nat, received: seq<Published>, freed: nat -> string, p: Published)
    ensures var k, entries := |received|, PointerHistory(max, received, freed);
            && (ReadsFreed(entries, max, k, p)
                <==> Legal(max, p) && p.topicAlias.Some? && LastBound(max, received, p.topicAlias.value).Some?)
            && (Delivered(entries, max, k, p, freed(k)) == Resolve(History(max, received), max, p)
                <==> (ReadsFreed(entries, max, k, p) && p.topicName == "" ==> LastBound(max, received, p.topicAlias.value) == Some(freed(k))))
  {
    if p.topicAlias.Some? {
      PointersPointBack(max, received, freed, p.topicAlias.value);
      MapIsLastBound(max, received, p.topicAlias.value);
    }
    hide Find, PointerHistory, History, LastBound;
  }

  /** The second PUBLISH with an alias: its lookup finds the name of the first, whose string is gone, and
      whatever is there now is delivered instead of "a". */
  lemma DanglingNameCounterexample(freed: nat -> string)
    ensures var received := [Published("a", Some(1))];
            var next := Published("", Some(1));
            && Find(PointerHistory(1, received, freed), 1) == Some(NameOf(0)) && ReadsFreed(PointerHistory(1, received, freed), 1, 1, next)
            && Resolve(History(1, received), 1, next) == Deliver("a")
            && Delivered(PointerHistory(1, received, freed), 1, 1, next, freed(1)) == Deliver(freed(1))
  {
    var received := [Published("a", Some(1))];
    assert received[..0] == [];
    assert PointerHistory(1, received, freed) == [(1, NameOf(0))];
    MapIsLastBound(1, received, 1);
  }
}
