/** The faculty dashboard (src/FacultyDashboard.jsx): the list of events the
    faculty member created, its statistics, and the month calendar that
    marks the days on which events fall. */
module Faculty {
  import opened Values
  import opened Text
  import opened Listing
  import opened Authoring
  import opened Calendar

  /** An event as the dashboard stores it: the authored event with its id. */
  type FacultyEvent = Keyed<NewEvent>

  predicate IsActive(e: NewEvent) { e.status == "Active" }
  predicate IsCompleted(e: NewEvent) { e.status == "Completed" }
  function Participants(e: NewEvent): int { e.totalParticipants }

  /** The four figures of the stats box. */
  datatype Stats = Stats(total: nat, active: nat, participants: nat, completed: nat)

  function StatsOf(events: seq<FacultyEvent>): (r: Stats)
    ensures r.total == |events| && r.active <= r.total && r.completed <= r.total
    ensures r.active + r.completed <= r.total
  {
    CountDisjoint(events, IsActive, IsCompleted);
    SumNonNegative(events, Participants);
    Stats(|events|, CountWhere(events, IsActive), SumOf(events, Participants), CountWhere(events, IsCompleted))
  }

  /** With only the two statuses in use, the active and completed events
      account for all of them. */
  lemma ActiveAndCompletedCoverAll(events: seq<FacultyEvent>)
    requires forall i :: 0 <= i < |events| ==> events[i].item.status in {"Active", "Completed"}
    ensures StatsOf(events).active + StatsOf(events).completed == StatsOf(events).total
  {
    CountPartition(events, IsActive, IsCompleted);
  }

  /** `getEventDates`: the day field of each event's date, in order; NaN
      (here `None`) where the date has no day part. */
  function EventDates(events: seq<FacultyEvent>): (r: seq<Option<int>>)
    ensures |r| == |events|
    ensures forall i :: 0 <= i < |events| ==> r[i] == DayOfDate(events[i].item.date)
  {
    seq(|events|, i requires 0 <= i < |events| => DayOfDate(events[i].item.date))
  }

  /** `eventDates.includes(day)`: whether the cell of `day` is marked. */
  predicate Highlighted(events: seq<FacultyEvent>, day: int) {
    Some(day) in EventDates(events)
  }

  /** A day is marked exactly when some event falls on that day of some
      month, whichever month the calendar shows. */
  lemma HighlightedIff(events: seq<FacultyEvent>, day: int)
    ensures Highlighted(events, day) <==>
      exists i :: 0 <= i < |events| && DayOfDate(events[i].item.date) == Some(day)
  {
    var dates := EventDates(events);
    if Highlighted(events, day) {
      var i :| 0 <= i < |dates| && dates[i] == Some(day);
      assert DayOfDate(events[i].item.date) == Some(day);
    }
  }

  /** An event dated `y-m-d` marks day `d` in the calendar of every month. */
  lemma EventMarksItsDay(events: seq<FacultyEvent>, k: int, y: string, m: string, d: string)
    requires 0 <= k < |events| && '-' !in y && '-' !in m && d != [] && AllDigits(d)
    requires events[k].item.date == y + ['-'] + (m + ['-'] + d)
    ensures Highlighted(events, DigitsValue(d))
  {
    DayOfWellFormedDate(y, m, d);
    HighlightedIff(events, DigitsValue(d));
  }

  /** The dashboard component. */
  class FacultyDashboard {
    var createdEvents: seq<FacultyEvent>
    var currentMonth: Month
    var showCreateEvent: bool

    ghost predicate Valid()
      reads this
    {
      ValidMonth(currentMonth)
    }

    /** The dashboard opens on the given events and on the month of `today`. */
    constructor (initial: seq<FacultyEvent>, today: Month)
      requires ValidMonth(today)
      ensures Valid()
      ensures createdEvents == initial && currentMonth == today && !showCreateEvent
    {
      createdEvents := initial;
      currentMonth := today;
      showCreateEvent := false;
    }

    function Summary(): Stats
      reads this
    {
      StatsOf(createdEvents)
    }

    /** The number of day cells and of blank cells before them. */
    function Grid(): (r: (int, int))
      reads this
      requires Valid()
      ensures 28 <= r.0 <= 31 && 0 <= r.1 < 7
    {
      (DaysInMonth(currentMonth), FirstWeekday(currentMonth))
    }

    /** The "+ Create Event" button. */
    method OpenCreateEvent()
      requires Valid()
      modifies this
      ensures Valid() && showCreateEvent
      ensures createdEvents == old(createdEvents) && currentMonth == old(currentMonth)
    {
      showCreateEvent := true;
    }

    /** The authoring form's `onClose`. */
    method CloseCreateEvent()
      requires Valid()
      modifies this
      ensures Valid() && !showCreateEvent
      ensures createdEvents == old(createdEvents) && currentMonth == old(currentMonth)
    {
      showCreateEvent := false;
    }

    /** `handleEventCreated`: the event is appended with id `length + 1`. */
    method HandleEventCreated(newEvent: NewEvent)
      requires Valid()
      modifies this
      ensures Valid() && !showCreateEvent && currentMonth == old(currentMonth)
      ensures createdEvents == old(createdEvents) + [Keyed(|old(createdEvents)| + 1, newEvent)]
      ensures Summary().total == old(Summary().total) + 1
      ensures Summary().active == old(Summary().active) + (if IsActive(newEvent) then 1 else 0)
      ensures Summary().participants == old(Summary().participants) + newEvent.totalParticipants
    {
      var added := Keyed(|createdEvents| + 1, newEvent);
      CountConcat(createdEvents, [added], IsActive);
      SumConcat(createdEvents, [added], Participants);
      assert [added][1..] == [];
      createdEvents := AppendNext(createdEvents, newEvent);
      showCreateEvent := false;
    }

    /** `handleDeleteEvent`: when the user confirms, every event with that
        id goes and the others stay in order. */
    method HandleDeleteEvent(eventId: int, confirmed: bool)
      requires Valid()
      modifies this
      ensures Valid() && showCreateEvent == old(showCreateEvent) && currentMonth == old(currentMonth)
      ensures createdEvents == if confirmed then RemoveId(old(createdEvents), eventId) else old(createdEvents)
      ensures confirmed ==> !HasId(createdEvents, eventId)
      ensures forall x :: x != eventId ==> (HasId(createdEvents, x) <==> old(HasId(createdEvents, x)))
    {
      if confirmed {
        ghost var before := createdEvents;
        createdEvents := RemoveId(createdEvents, eventId);
        forall x ensures HasId(createdEvents, x) <==> x != eventId && HasId(before, x) {
          HasIdAfterRemove(before, eventId, x);
        }
      }
    }

    /** `goToPreviousMonth`. */
    method GoToPreviousMonth()
      requires Valid()
      modifies this
      ensures Valid() && currentMonth == Previous(old(currentMonth))
      ensures createdEvents == old(createdEvents) && showCreateEvent == old(showCreateEvent)
    {
      currentMonth := Construct(currentMonth.year, currentMonth.month - 1);
    }

    /** `goToNextMonth`. */
    method GoToNextMonth()
      requires Valid()
      modifies this
      ensures Valid() && currentMonth == Next(old(currentMonth))
      ensures createdEvents == old(createdEvents) && showCreateEvent == old(showCreateEvent)
    {
      currentMonth := Construct(currentMonth.year, currentMonth.month + 1);
    }
  }

  /** An event the authoring form creates adds one active event and no
      participants to the stats. */
  lemma CreatedEventStats(events: seq<FacultyEvent>, f: EventForm)
    ensures var after := AppendNext(events, BuildEvent(f));
      StatsOf(after).total == StatsOf(events).total + 1 &&
      StatsOf(after).active == StatsOf(events).active + 1 &&
      StatsOf(after).completed == StatsOf(events).completed &&
      StatsOf(after).participants == StatsOf(events).participants
  {
    var added := Keyed(|events| + 1, BuildEvent(f));
    CountConcat(events, [added], IsActive);
    CountConcat(events, [added], IsCompleted);
    SumConcat(events, [added], Participants);
    assert [added][1..] == [];
  }

  /** Deleting an event that is the only one with its id, after the user
      confirms, takes its participants off the total. */
  lemma DeleteUniqueStats(before: seq<FacultyEvent>, e: FacultyEvent, after: seq<FacultyEvent>)
    requires !HasId(before, e.id) && !HasId(after, e.id)
    ensures StatsOf(RemoveId(before + [e] + after, e.id)).participants ==
      StatsOf(before + [e] + after).participants - e.item.totalParticipants
    ensures StatsOf(RemoveId(before + [e] + after, e.id)).total == StatsOf(before + [e] + after).total - 1
  {
    RemoveUniqueSum(before, e, after, Participants);
    RemoveUnique(before, e, after);
  }
}
