/** The student dashboard's registration ledger (src/StudentDashboard.jsx):
    a list of catalogue events, toggled by the "Register" button and
    queried by id to draw that button. */
module Registration {
  import opened Listing

  /** The fields a catalogue event carries besides its id. */
  datatype EventInfo = EventInfo(
    title: string, organizer: string, date: string, time: string,
    location: string, category: string, description: string, image: string)

  type CatalogEvent = Keyed<EventInfo>

  /** The new ledger `handleRegisterEvent(event)` stores: without the event
      when its id was registered, with it appended otherwise. */
  function Toggle(ledger: seq<CatalogEvent>, event: CatalogEvent): seq<CatalogEvent>
  {
    if HasId(ledger, event.id) then RemoveId(ledger, event.id) else ledger + [event]
  }

  /** A toggle flips the registration of the event's id. */
  lemma ToggleFlips(ledger: seq<CatalogEvent>, event: CatalogEvent)
    ensures HasId(Toggle(ledger, event), event.id) == !HasId(ledger, event.id)
  {
    HasIdAfterRemove(ledger, event.id, event.id);
    HasIdAppend(ledger, event, event.id);
  }

  /** A toggle leaves the registration of every other id as it was. */
  lemma ToggleFrame(ledger: seq<CatalogEvent>, event: CatalogEvent, other: int)
    requires other != event.id
    ensures HasId(Toggle(ledger, event), other) == HasId(ledger, other)
  {
    HasIdAfterRemove(ledger, event.id, other);
    HasIdAppend(ledger, event, other);
  }

  /** A ledger without duplicate ids keeps that property under toggling. */
  lemma ToggleKeepsDistinct(ledger: seq<CatalogEvent>, event: CatalogEvent)
    requires DistinctIds(ledger)
    ensures DistinctIds(Toggle(ledger, event))
  {
    if HasId(ledger, event.id) {
      RemoveKeepsDistinct(ledger, event.id);
    } else {
      AppendKeepsDistinct(ledger, event);
    }
  }

  /** With distinct ids, each toggle changes the length by exactly one. */
  lemma ToggleLength(ledger: seq<CatalogEvent>, event: CatalogEvent)
    requires DistinctIds(ledger)
    ensures |Toggle(ledger, event)| == if HasId(ledger, event.id) then |ledger| - 1 else |ledger| + 1
  {
    if HasId(ledger, event.id) {
      RemoveIdLength(ledger, event.id);
      CountDistinct(ledger, event.id);
    }
  }

  /** Unregistering keeps the other entries in their relative order: the
      entries before and after the removed one stay where they were. */
  lemma UnregisterKeepsOrder(before: seq<CatalogEvent>, event: CatalogEvent, after: seq<CatalogEvent>)
    requires !HasId(before, event.id) && !HasId(after, event.id)
    ensures Toggle(before + [event] + after, event) == before + after
  {
    var ledger := before + [event] + after;
    assert ledger == (before + [event]) + after;
    HasIdAppend(before, event, event.id);
    assert HasId(before + [event], event.id);
    assert HasId(ledger, event.id) by {
      assert ledger[|before|] == event;
    }
    RemoveIdConcat(before + [event], after, event.id);
    RemoveIdConcat(before, [event], event.id);
    RemoveAbsent(before, event.id);
    RemoveAbsent(after, event.id);
    RemoveSingle(event, event.id);
    assert RemoveId(before + [event], event.id) == before;
  }

  /** Toggling twice restores the set of registered ids. */
  lemma DoubleToggleRestoresIds(ledger: seq<CatalogEvent>, event: CatalogEvent, x: int)
    ensures HasId(Toggle(Toggle(ledger, event), event), x) == HasId(ledger, x)
  {
    var once := Toggle(ledger, event);
    if x == event.id {
      ToggleFlips(ledger, event);
      ToggleFlips(once, event);
    } else {
      ToggleFrame(ledger, event, x);
      ToggleFrame(once, event, x);
    }
  }

  /** Registering and then unregistering gives back the very same list. */
  lemma DoubleToggleFromUnregistered(ledger: seq<CatalogEvent>, event: CatalogEvent)
    requires !HasId(ledger, event.id)
    ensures Toggle(Toggle(ledger, event), event) == ledger
  {
    HasIdAppend(ledger, event, event.id);
    RemoveIdConcat(ledger, [event], event.id);
    RemoveAbsent(ledger, event.id);
    RemoveSingle(event, event.id);
  }

  /** Unregistering and registering again moves the event to the end. */
  lemma DoubleToggleFromRegistered(ledger: seq<CatalogEvent>, event: CatalogEvent)
    requires HasId(ledger, event.id)
    ensures Toggle(Toggle(ledger, event), event) == RemoveId(ledger, event.id) + [event]
  {
    HasIdAfterRemove(ledger, event.id, event.id);
  }

  /** So, as a list, a double toggle is not the identity: registered to
      `a` then `b`, toggling `a` twice leaves `b` then `a`. */
  lemma DoubleToggleReorders(a: CatalogEvent, b: CatalogEvent)
    requires a.id != b.id
    ensures Toggle(Toggle([a, b], a), a) == [b, a] != [a, b]
  {
    DoubleToggleFromRegistered([a, b], a);
    assert [a, b][1..] == [b];
    assert RemoveId([b], a.id) == [b];
    assert RemoveId([a, b], a.id) == [b];
  }

  /** The dashboard's ledger state. */
  class StudentDashboard {
    var registeredEvents: seq<CatalogEvent>

    /** `useState([])`: nobody is registered for anything yet. */
    constructor ()
      ensures registeredEvents == []
      ensures forall id :: !IsRegistered(id)
    {
      registeredEvents := [];
    }

    /** `isRegistered(eventId)`: some ledger entry has that id. */
    function IsRegistered(eventId: int): (r: bool)
      reads this
      ensures r <==> exists i :: 0 <= i < |registeredEvents| && registeredEvents[i].id == eventId
    {
      HasId(registeredEvents, eventId)
    }

    /** `handleRegisterEvent(event)`: unregister when the id is present,
        otherwise append the event at the end. */
    method HandleRegisterEvent(event: CatalogEvent)
      modifies this
      ensures registeredEvents == Toggle(old(registeredEvents), event)
      ensures IsRegistered(event.id) == !old(IsRegistered(event.id))
      ensures forall id :: id != event.id ==> IsRegistered(id) == old(IsRegistered(id))
      ensures old(!IsRegistered(event.id)) ==> registeredEvents == old(registeredEvents) + [event]
    {
      ghost var before := registeredEvents;
      var isAlreadyRegistered := HasId(registeredEvents, event.id);
      if isAlreadyRegistered {
        registeredEvents := RemoveId(registeredEvents, event.id);
      } else {
        registeredEvents := registeredEvents + [event];
      }
      ToggleFlips(before, event);
      forall id | id != event.id
        ensures HasId(registeredEvents, id) == HasId(before, id)
      {
        ToggleFrame(before, event, id);
      }
    }
  }
}
