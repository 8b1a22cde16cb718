/** The organizer dashboard (src/OrganizerDashboard.jsx): the organizer's
    events with their registration counts, the three statistics, the name
    and avatar in the header, the poster on each card, and the guard on
    copying the organisation id. */
module Organizing {
  import opened Values
  import opened Text
  import opened Listing
  import opened Authoring
  import Auth

  /** An authored event as the organizer's list holds it, with its count of
      registrations. */
  datatype OrganizerEntry = OrganizerEntry(event: NewEvent, registrations: int)

  type OrganizerEvent = Keyed<OrganizerEntry>

  predicate IsActive(e: OrganizerEntry) { e.event.status == "Active" }
  function Registrations(e: OrganizerEntry): int { e.registrations }

  /** The three figures of the stats grid. */
  datatype Stats = Stats(total: nat, active: nat, registrations: int)

  function StatsOf(events: seq<OrganizerEvent>): (r: Stats)
    ensures r.total == |events| && r.active <= r.total
    ensures r.active == 0 <==> forall i :: 0 <= i < |events| ==> !IsActive(events[i].item)
  {
    Stats(|events|, CountWhere(events, IsActive), SumOf(events, Registrations))
  }

  /** With no negative counts the total of registrations is not negative. */
  lemma RegistrationsNonNegative(events: seq<OrganizerEvent>)
    requires forall i :: 0 <= i < |events| ==> events[i].item.registrations >= 0
    ensures StatsOf(events).registrations >= 0
  {
    SumNonNegative(events, Registrations);
  }

  /** The entry `handleEventCreated` stores: the created event with every
      field kept, and registrations starting at zero. */
  function Entry(newEvent: NewEvent): (r: OrganizerEntry)
    ensures r.event == newEvent && r.registrations == 0
    ensures IsActive(r) <==> newEvent.status == "Active"
  {
    OrganizerEntry(newEvent, 0)
  }

  /** Deleting the only event with an id takes its registrations off the
      total and one off the count. */
  lemma DeleteUniqueStats(before: seq<OrganizerEvent>, e: OrganizerEvent, after: seq<OrganizerEvent>)
    requires !HasId(before, e.id) && !HasId(after, e.id)
    ensures StatsOf(RemoveId(before + [e] + after, e.id)).registrations ==
      StatsOf(before + [e] + after).registrations - e.item.registrations
    ensures StatsOf(RemoveId(before + [e] + after, e.id)).total == StatsOf(before + [e] + after).total - 1
  {
    RemoveUniqueSum(before, e, after, Registrations);
    RemoveUnique(before, e, after);
  }

  // ---------------------------------------------------------------------
  // Header and cards
  // ---------------------------------------------------------------------

  /** `user?.[key]`, absent as `undefined`. */
  function FieldOf(user: Option<Auth.Record>, key: string): Option<string> {
    if user.Some? && key in user.value then Some(user.value[key]) else None
  }

  /** `a || b || fallback` over optional strings. */
  function FirstTruthy(a: Option<string>, b: Option<string>, fallback: string): (r: string)
    ensures Auth.Truthy(a) ==> r == a.value
    ensures !Auth.Truthy(a) && Auth.Truthy(b) ==> r == b.value
    ensures !Auth.Truthy(a) && !Auth.Truthy(b) ==> r == fallback
  {
    if Auth.Truthy(a) then a.value else if Auth.Truthy(b) then b.value else fallback
  }

  /** The name in the header. */
  function DisplayName(user: Option<Auth.Record>): (r: string)
    ensures r != []
  {
    FirstTruthy(FieldOf(user, "organizationName"), FieldOf(user, "fullName"), "Organizer")
  }

  /** The letter in the avatar: the first character of the organisation
      name, else of the full name, else of "O", upper-cased. */
  function AvatarInitial(user: Option<Auth.Record>): (r: string)
    ensures |r| == 1
  {
    var source := FirstTruthy(FieldOf(user, "organizationName"), FieldOf(user, "fullName"), "O");
    [UpperChar(source[0])]
  }

  /** The avatar always shows the displayed name's first character,
      upper-cased: the two fallbacks "Organizer" and "O" agree on it. */
  lemma AvatarMatchesName(user: Option<Auth.Record>)
    ensures AvatarInitial(user) == [UpperChar(DisplayName(user)[0])]
  {
  }

  /** The e-mail line of the header. */
  function EmailShown(user: Option<Auth.Record>): (r: string)
    ensures Auth.Truthy(FieldOf(user, "email")) ==> r == user.value["email"]
    ensures !Auth.Truthy(FieldOf(user, "email")) ==> r == "email@example.com"
  {
    FirstTruthy(FieldOf(user, "email"), None, "email@example.com")
  }

  /** An organisation name, when set, wins over the person's name. */
  lemma OrganizationNameFirst(u: Auth.Record, org: string)
    requires org != []
    ensures DisplayName(Some(u["organizationName" := org])) == org
    ensures AvatarInitial(Some(u["organizationName" := org])) == [UpperChar(org[0])]
  {
  }

  /** Without either name the header reads "Organizer" and the avatar "O". */
  lemma NoNames(u: Auth.Record)
    requires "organizationName" !in u && "fullName" !in u
    ensures DisplayName(Some(u)) == "Organizer" && AvatarInitial(Some(u)) == "O"
  {
  }

  /** What a card's image area shows. */
  datatype Poster = Picture(source: string) | Glyph(text: string)

  /** An `<img>` of the uploaded poster, or the glyph as text. */
  function PosterOf(e: OrganizerEntry): (r: Poster)
    ensures r.Picture? <==> e.event.hasCustomImage
  {
    if e.event.hasCustomImage then Picture(e.event.image) else Glyph(e.event.image)
  }

  /** An event created with an uploaded preview shows it as a picture; one
      created without shows its glyph as text. */
  lemma CreatedPoster(f: EventForm)
    ensures PosterOf(Entry(BuildEvent(f))) ==
      if HasPreview(f) then Picture(f.imagePreview.value) else Glyph(f.image)
  {
  }

  /** What `copyOrgIdToClipboard` writes, if anything. */
  function CopyTarget(user: Auth.Record): (r: Option<string>)
    ensures r.Some? <==> "organizerId" in user && user["organizerId"] != ""
    ensures r.Some? ==> r.value == user["organizerId"]
  {
    if "organizerId" in user && user["organizerId"] != "" then Some(user["organizerId"]) else None
  }

  /** The dashboard component. */
  class OrganizerDashboard {
    var events: seq<OrganizerEvent>
    var showCreateEvent: bool

    constructor (initial: seq<OrganizerEvent>)
      ensures events == initial && !showCreateEvent
    {
      events := initial;
      showCreateEvent := false;
    }

    function Summary(): Stats
      reads this
    {
      StatsOf(events)
    }

    /** The "+ Create Event" button. */
    method OpenCreateEvent()
      modifies this
      ensures showCreateEvent && events == old(events)
    {
      showCreateEvent := true;
    }

    /** The authoring form's `onClose`. */
    method CloseCreateEvent()
      modifies this
      ensures !showCreateEvent && events == old(events)
    {
      showCreateEvent := false;
    }

    /** `handleEventCreated`: appended with id `length + 1` and no
        registrations. */
    method HandleEventCreated(newEvent: NewEvent)
      modifies this
      ensures !showCreateEvent
      ensures events == old(events) + [Keyed(|old(events)| + 1, OrganizerEntry(newEvent, 0))]
      ensures Summary().total == old(Summary().total) + 1
      ensures Summary().active == old(Summary().active) + (if IsActive(Entry(newEvent)) then 1 else 0)
      ensures Summary().registrations == old(Summary().registrations)
    {
      var added := Keyed(|events| + 1, Entry(newEvent));
      CountConcat(events, [added], IsActive);
      SumConcat(events, [added], Registrations);
      assert [added][1..] == [];
      events := AppendNext(events, Entry(newEvent));
      showCreateEvent := false;
    }

    /** `handleDeleteEvent`: when the user confirms, every event with that
        id goes and the others stay in order. */
    method HandleDeleteEvent(eventId: int, confirmed: bool)
      modifies this
      ensures showCreateEvent == old(showCreateEvent)
      ensures events == if confirmed then RemoveId(old(events), eventId) else old(events)
      ensures confirmed ==> !HasId(events, eventId)
      ensures forall x :: x != eventId ==> (HasId(events, x) <==> old(HasId(events, x)))
    {
      if confirmed {
        ghost var before := events;
        events := RemoveId(events, eventId);
        forall x ensures HasId(events, x) <==> x != eventId && HasId(before, x) {
          HasIdAfterRemove(before, eventId, x);
        }
      }
    }
  }
}
