/** Deleting MeshCore contacts together with the room messages that belong to them. */
module PruneCascade {
  import opened Common
  import opened FiniteMaps

  datatype Contact = Contact(contactType: Option<int>, lastAdvert: Option<int>, favorited: Option<int>)

  datatype Message = Message(roomServerId: Option<int>)

  /** The two tables by primary key. */
  datatype Store = Store(contacts: map<int, Contact>, messages: map<int, Message>)

  const ROOM := 3
  const MIN_PLAUSIBLE_SEC := 1_000_000_000

  /** `favorited IS NULL OR favorited = 0`. */
  predicate Deletable(c: Contact) { c.favorited.None? || c.favorited.value == 0 }

  predicate IsRoom(c: Contact) { c.contactType == Some(ROOM) }

  function NonFavourites(contacts: map<int, Contact>): map<int, Contact> {
    map id <- contacts.Keys | Deletable(contacts[id]) :: contacts[id]
  }

  function Favourites(contacts: map<int, Contact>): map<int, Contact> {
    map id <- contacts.Keys | !Deletable(contacts[id]) :: contacts[id]
  }

  /** The first sort key: 1 puts unknown and implausible times last. */
  function Doubt(c: Contact): int { if c.lastAdvert.None? || c.lastAdvert.value < MIN_PLAUSIBLE_SEC then 1 else 0 }

  function Advert(c: Contact): int { if c.lastAdvert.None? then 0 else c.lastAdvert.value }

  /** `c` may come before `d` in the query's order. */
  predicate NotAfter(c: Contact, d: Contact) { Doubt(c) < Doubt(d) || (Doubt(c) == Doubt(d) && Advert(c) <= Advert(d)) }

  /** A result of the ordered query without its limit; ties may come in any order. */
  ghost predicate IsOrdered(ids: seq<int>, contacts: map<int, Contact>) {
    var all := NonFavourites(contacts);
    && |ids| == |all|
    && (forall i :: 0 <= i < |ids| ==> ids[i] in all)
    && (forall id :: id in all ==> id in ids)
    && (forall i, j :: 0 <= i < j < |ids| ==> ids[i] != ids[j] && NotAfter(all[ids[i]], all[ids[j]]))
  }

  predicate Orphan(contacts: map<int, Contact>, m: Message) {
    m.roomServerId.Some? && !(m.roomServerId.value in contacts && IsRoom(contacts[m.roomServerId.value]))
  }

  function Sweep(contacts: map<int, Contact>, messages: map<int, Message>): map<int, Message> {
    map id <- messages.Keys | !Orphan(contacts, messages[id]) :: messages[id]
  }

  /** Removing contacts and sweeping: what every deletion should come to. */
  function Remove(s: Store, ids: set<int>): Store { Store(s.contacts - ids, Sweep(s.contacts - ids, s.messages)) }

  /** How many contacts a prune to `maxCount` deletes. */
  function Excess(contacts: map<int, Contact>, maxCount: int): int {
    Min(|contacts| - maxCount, |NonFavourites(contacts)|)
  }

  function Doomed(contacts: map<int, Contact>, maxCount: int, ordered: seq<int>): seq<int>
    requires |ordered| == |NonFavourites(contacts)|
  {
    if Excess(contacts, maxCount) <= 0 then [] else ordered[..Excess(contacts, maxCount)]
  }

  function Pruned(s: Store, maxCount: int, ordered: seq<int>): Store
    requires |ordered| == |NonFavourites(s.contacts)|
  {
    if Excess(s.contacts, maxCount) <= 0 then s else Remove(s, set id <- Doomed(s.contacts, maxCount, ordered))
  }

  // ---------------------------------------------------------------- consequences

  lemma Partition(contacts: map<int, Contact>)
    ensures |NonFavourites(contacts)| + |Favourites(contacts)| == |contacts|
  {
    var a, b := NonFavourites(contacts), Favourites(contacts);
    assert a.Keys + b.Keys == contacts.Keys && a.Keys !! b.Keys;
    assert |a.Keys + b.Keys| == |a.Keys| + |b.Keys|;
  }

  lemma RemovedCount(contacts: map<int, Contact>, ordered: seq<int>, n: nat)
    requires IsOrdered(ordered, contacts) && n <= |ordered|
    ensures |contacts - (set id <- ordered[..n])| == |contacts| - n
  {
    forall i | 0 <= i < n ensures ordered[i] in contacts && ordered[i] !in ordered[..i] {
    }
    MinusSize(ordered, contacts, n);
    assert Minus(contacts, ordered, n) == contacts - (set id <- ordered[..n]);
  }

  /**
   * When a prune deletes, the number of contacts becomes `maxCount`, or the number of favourites when
   * there are more of those.
   */
  lemma PrunedCount(s: Store, maxCount: int, ordered: seq<int>)
    requires IsOrdered(ordered, s.contacts)
    ensures var after := Pruned(s, maxCount, ordered);
      |after.contacts| ==
        if Excess(s.contacts, maxCount) > 0 then Max(maxCount, |Favourites(s.contacts)|) else |s.contacts|
  {
    Partition(s.contacts);
    var n := Excess(s.contacts, maxCount);
    if n > 0 { RemovedCount(s.contacts, ordered, n); }
  }

  /** Nothing is deleted exactly when the table fits or holds favourites only. */
  lemma IdleIff(s: Store, maxCount: int, ordered: seq<int>)
    requires IsOrdered(ordered, s.contacts)
    ensures Pruned(s, maxCount, ordered).contacts == s.contacts <==>
      |s.contacts| <= maxCount || |Favourites(s.contacts)| == |s.contacts|
  {
    Partition(s.contacts);
    PrunedCount(s, maxCount, ordered);
  }

  /** No favourite goes, and no deleted contact orders after a surviving non-favourite. */
  lemma PrunedOrder(s: Store, maxCount: int, ordered: seq<int>)
    requires IsOrdered(ordered, s.contacts)
    ensures var after := Pruned(s, maxCount, ordered);
      && (forall id <- after.contacts.Keys :: id in s.contacts && after.contacts[id] == s.contacts[id])
      && (forall id <- s.contacts.Keys :: !Deletable(s.contacts[id]) ==> id in after.contacts)
      && (forall gone <- s.contacts.Keys, kept <- after.contacts.Keys ::
            gone !in after.contacts && Deletable(s.contacts[kept]) ==> NotAfter(s.contacts[gone], s.contacts[kept]))
  {
    var n := Excess(s.contacts, maxCount);
    if n > 0 {
      var after := Pruned(s, maxCount, ordered);
      forall gone, kept | gone in s.contacts && kept in after.contacts && gone !in after.contacts && Deletable(s.contacts[kept])
        ensures NotAfter(s.contacts[gone], s.contacts[kept])
      {
        assert gone in ordered[..n] && kept !in ordered[..n];
        var i :| 0 <= i < n && ordered[..n][i] == gone;
        assert kept in NonFavourites(s.contacts);
        assert forall j :: 0 <= j < n ==> ordered[j] in ordered[..n];
        var j :| 0 <= j < |ordered| && ordered[j] == kept;
        assert NotAfter(NonFavourites(s.contacts)[ordered[i]], NonFavourites(s.contacts)[ordered[j]]);
      }
    }
  }

  /** A time the radio can have meant: in or after the year 2001. */
  predicate Plausible(c: Contact) { c.lastAdvert.Some? && c.lastAdvert.value >= 1_000_000_000 }

  /**
   * What that order means: a prune keeps every favourite and deletes first what was heard longest ago;
   * contacts without a plausible time go last, in the order of their times, an unknown one counting as zero.
   */
  lemma OldestGoFirst(s: Store, maxCount: int, ordered: seq<int>, gone: int, kept: int)
    requires IsOrdered(ordered, s.contacts)
    requires gone in s.contacts && gone !in Pruned(s, maxCount, ordered).contacts
    requires kept in Pruned(s, maxCount, ordered).contacts
    ensures kept in s.contacts
    ensures s.contacts[gone].favorited.None? || s.contacts[gone].favorited.value == 0
    ensures s.contacts[kept].favorited.None? || s.contacts[kept].favorited.value == 0 ==>
      var g, k := s.contacts[gone], s.contacts[kept];
      && (Plausible(k) ==> Plausible(g) && g.lastAdvert.value <= k.lastAdvert.value)
      && (!Plausible(g) ==>
            !Plausible(k) && (g.lastAdvert.None? || k.lastAdvert.None? || g.lastAdvert.value <= k.lastAdvert.value)
            && (g.lastAdvert.None? && k.lastAdvert.Some? ==> k.lastAdvert.value >= 0)
            && (g.lastAdvert.Some? && k.lastAdvert.None? ==> g.lastAdvert.value <= 0))
  {
    PrunedOrder(s, maxCount, ordered);
  }

  /** Every room message points at an existing Room contact. */
  predicate Anchored(s: Store) { forall id <- s.messages.Keys :: !Orphan(s.contacts, s.messages[id]) }

  /**
   * A removal leaves exactly the messages outside rooms and those of the surviving rooms; in
   * particular every room message is anchored, even if some were not before.
   */
  lemma RemoveAnchors(s: Store, ids: set<int>)
    ensures Anchored(Remove(s, ids))
    ensures forall m <- s.messages.Keys :: m in Remove(s, ids).messages <==>
      (s.messages[m].roomServerId.Some? ==>
        var room := s.messages[m].roomServerId.value;
        room in s.contacts && room !in ids && s.contacts[room].contactType == Some(3))
    ensures forall m <- Remove(s, ids).messages.Keys :: m in s.messages && Remove(s, ids).messages[m] == s.messages[m]
  {
  }

  /** After a prune all room messages are anchored exactly when it deleted or they were anchored already. */
  lemma PrunedAnchoredIff(s: Store, maxCount: int, ordered: seq<int>)
    requires IsOrdered(ordered, s.contacts)
    ensures Anchored(Pruned(s, maxCount, ordered)) <==> Excess(s.contacts, maxCount) > 0 || Anchored(s)
  {
    if Excess(s.contacts, maxCount) > 0 { RemoveAnchors(s, set id <- Doomed(s.contacts, maxCount, ordered)); }
  }

  /** A second prune to the same size finds nothing to do. */
  lemma PrunedTwice(s: Store, maxCount: int, ordered: seq<int>, ordered2: seq<int>)
    requires IsOrdered(ordered, s.contacts) && IsOrdered(ordered2, Pruned(s, maxCount, ordered).contacts)
    ensures Pruned(Pruned(s, maxCount, ordered), maxCount, ordered2) == Pruned(s, maxCount, ordered)
  {
    var after := Pruned(s, maxCount, ordered);
    PrunedCount(s, maxCount, ordered);
    PrunedOrder(s, maxCount, ordered);
    Partition(after.contacts);
    assert Favourites(after.contacts) == Favourites(s.contacts);
  }

  // ---------------------------------------------------------------- the code

  /** The messages that no listed room owns. */
  function WithoutRooms(messages: map<int, Message>, rooms: seq<int>): map<int, Message> {
    map id <- messages.Keys | messages[id].roomServerId.None? || messages[id].roomServerId.value !in rooms :: messages[id]
  }

  lemma RoomsStep(messages: map<int, Message>, rooms: seq<int>, n: nat)
    requires n < |rooms|
    ensures WithoutRooms(WithoutRooms(messages, rooms[..n]), [rooms[n]]) == WithoutRooms(messages, rooms[..n + 1])
  {
    assert rooms[..n + 1] == rooms[..n] + [rooms[n]];
  }

  lemma NotDoomed(rooms: seq<int>, ids: set<int>, room: int)
    requires (forall r :: r in rooms ==> r in ids) && room !in ids
    ensures room !in rooms
  {
  }

  /** Deleting the messages of rooms that go anyway makes no difference to the final sweep. */
  lemma SweepSubsumesRooms(s: Store, rooms: seq<int>, ids: set<int>)
    requires forall r :: r in rooms ==> r in ids
    ensures Sweep(s.contacts - ids, WithoutRooms(s.messages, rooms)) == Sweep(s.contacts - ids, s.messages)
  {
    var kept := s.contacts - ids;
    forall m | m in s.messages && !Orphan(kept, s.messages[m]) ensures m in WithoutRooms(s.messages, rooms) {
      var room := s.messages[m].roomServerId;
      if room.Some? { NotDoomed(rooms, ids, room.value); }
    }
    assert Sweep(kept, WithoutRooms(s.messages, rooms)).Keys == Sweep(kept, s.messages).Keys;
  }

  function Rooms(contacts: map<int, Contact>, ids: seq<int>): (r: seq<int>)
    requires forall i :: 0 <= i < |ids| ==> ids[i] in contacts
    ensures forall id :: id in r ==> id in ids
  {
    if ids == [] then []
    else (if IsRoom(contacts[ids[0]]) then [ids[0]] else []) + Rooms(contacts, ids[1..])
  }

  lemma SweepIs(contacts: map<int, Contact>, before: map<int, Message>, after: map<int, Message>)
    requires forall id :: id in after <==> id in before && !Orphan(contacts, before[id])
    requires forall id <- after.Keys :: after[id] == before[id]
    ensures after == Sweep(contacts, before)
  {
    var swept := Sweep(contacts, before);
    forall id ensures id in after <==> id in swept {
    }
    forall id | id in after ensures after[id] == swept[id] {
    }
  }

  class ContactStore {
    var contacts: map<int, Contact>
    var messages: map<int, Message>

    ghost function View(): Store
      reads this
    {
      Store(contacts, messages)
    }

    constructor (contacts: map<int, Contact>, messages: map<int, Message>)
      ensures View() == Store(contacts, messages)
    {
      this.contacts, this.messages := contacts, messages;
    }

    /** One statement per room; the result adds up the rows deleted. */
    method DeleteMessagesForRooms(rooms: seq<int>) returns (deleted: int)
      modifies this`messages
      ensures messages == WithoutRooms(old(messages), rooms) && deleted == |old(messages)| - |messages|
    {
      deleted := 0;
      assert WithoutRooms(messages, rooms[..0]) == messages;
      for n := 0 to |rooms|
        invariant messages == WithoutRooms(old(messages), rooms[..n]) && deleted == |old(messages)| - |messages|
      {
        RoomsStep(old(messages), rooms, n);
        var before := |messages|;
        messages := WithoutRooms(messages, [rooms[n]]);
        deleted := deleted + (before - |messages|);
      }
      assert rooms[..|rooms|] == rooms;
    }

    method DeleteOrphans() returns (deleted: int)
      modifies this`messages
      ensures Anchored(View())
      ensures forall id :: id in messages <==> id in old(messages) && !Orphan(contacts, old(messages)[id])
      ensures forall id <- messages.Keys :: messages[id] == old(messages)[id]
      ensures deleted == |old(messages)| - |messages|
    {
      var before := |messages|;
      messages := Sweep(contacts, messages);
      deleted := before - |messages|;
    }

    method DeleteContacts(ids: seq<int>) returns (deleted: int)
      modifies this`contacts
      ensures contacts == old(contacts) - (set id <- ids) && deleted == |old(contacts)| - |contacts|
    {
      deleted := 0;
      assert Minus(contacts, ids, 0) == contacts;
      for n := 0 to |ids|
        invariant contacts == Minus(old(contacts), ids, n) && deleted == |old(contacts)| - |contacts|
      {
        MinusStep(old(contacts), ids, n);
        var before := |contacts|;
        contacts := contacts - {ids[n]};
        deleted := deleted + (before - |contacts|);
      }
      assert ids[..|ids|] == ids;
    }

    /** The cascade: messages of the rooms, then the contacts, then whatever is orphaned. */
    method DeleteWithCascade(rooms: seq<int>, ids: seq<int>) returns (deleted: int)
      requires forall r :: r in rooms ==> r in ids
      modifies this
      ensures View() == Remove(old(View()), set id <- ids)
      ensures deleted == |old(contacts)| - |contacts|
    {
      SweepSubsumesRooms(View(), rooms, set id <- ids);
      var roomPosts := DeleteMessagesForRooms(rooms);
      deleted := DeleteContacts(ids);
      ghost var before := messages;
      var orphans := DeleteOrphans();
      SweepIs(contacts, before, messages);
    }

    method PruneByCount(maxCount: int, ordered: seq<int>) returns (deleted: int)
      requires IsOrdered(ordered, contacts)
      modifies this
      ensures View() == Pruned(old(View()), maxCount, ordered)
      ensures deleted == |old(contacts)| - |contacts|
    {
      var total := |contacts|;
      if total <= maxCount { return 0; }
      var deletable := |NonFavourites(contacts)|;
      var toDelete := Min(total - maxCount, deletable);
      if toDelete <= 0 { return 0; }
      var ids := ordered[..toDelete];
      deleted := DeleteWithCascade(Rooms(contacts, ids), ids);
    }

    /** `deleteMeshcoreContactOn`: unlike the prune it always sweeps, even for an unknown contact. */
    method DeleteContact(id: int) returns (deleted: int)
      modifies this
      ensures View() == Remove(old(View()), {id})
      ensures deleted == if id in old(contacts) then 1 else 0
    {
      SweepSubsumesRooms(View(), [id], {id});
      assert (set x <- [id]) == {id};
      var roomPosts := DeleteMessagesForRooms([id]);
      deleted := DeleteContacts([id]);
      if id in old(contacts) { WithoutSize(old(contacts), id); } else { assert contacts == old(contacts); }
      ghost var before := messages;
      var orphans := DeleteOrphans();
      SweepIs(contacts, before, messages);
    }
  }
}
