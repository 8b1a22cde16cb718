/** The event authoring form (src/CreateEvent.jsx): its form state, the
    ordered validator run on submit, the construction of the event handed
    to the dashboard, tag normalisation, the category glyph table and the
    guards on an uploaded poster. */
module Authoring {
  import opened Values
  import opened Text

  /** What the browser reports about a chosen file. */
  datatype ImageFile = ImageFile(name: string, size: nat, mimeType: string)

  /** The form's `formData` object. */
  datatype EventForm = EventForm(
    title: string, description: string, date: string, time: string, endTime: string,
    location: string, category: string, capacity: string, image: string,
    imageFile: Option<ImageFile>, imagePreview: Option<string>, isOnline: bool,
    meetingLink: string, prerequisites: string, tags: string)

  const DefaultGlyph: string := "📌"

  /** The state the form starts in, and is reset to after a submission. */
  const InitialForm: EventForm := EventForm(
    "", "", "", "", "", "", "workshop", "", DefaultGlyph, None, None, false, "", "", "")

  /** The `capacity` an event is created with: `null` for an empty field, or
      what `parseInt` makes of the text (which may be NaN). */
  datatype Capacity = Unlimited | Limit(value: int) | NotANumber

  /** The `newEvent` object passed to `onEventCreated`. */
  datatype NewEvent = NewEvent(
    title: string, description: string, date: string, time: string, endTime: string,
    location: string, category: string, capacity: Capacity, image: string, isOnline: bool,
    meetingLink: string, prerequisites: string, tags: seq<string>, status: string,
    totalParticipants: nat, hasCustomImage: bool)

  // ---------------------------------------------------------------------
  // Categories and their glyphs
  // ---------------------------------------------------------------------

  /** The twelve category buttons, in display order. */
  const Categories: seq<string> := [
    "Workshop", "Seminar", "Competition", "Conference", "Hackathon", "Webinar",
    "Cultural Event", "Sports Event", "Training", "Lecture", "Panel Discussion",
    "Networking Event"]

  /** `eventIcons`, keyed by lower-cased category name. */
  const EventIcons: map<string, string> := map[
    "workshop" := "🛠️", "seminar" := "📚", "competition" := "🏆",
    "conference" := "🎤", "hackathon" := "💻", "webinar" := "📹",
    "cultural event" := "🎭", "sports event" := "⚽", "training" := "🎓",
    "lecture" := "👨‍🏫", "panel discussion" := "🗣️", "networking event" := "🤝"]

  /** `eventIcons[category.toLowerCase()] || '📌'`: a glyph of the table,
      or the pin for a category the table does not know. */
  function GlyphFor(category: string): (r: string)
    ensures r == DefaultGlyph || r in EventIcons.Values
    ensures Lower(category) !in EventIcons ==> r == DefaultGlyph
    ensures r != ""
  {
    var key := Lower(category);
    if key in EventIcons && EventIcons[key] != "" then EventIcons[key] else DefaultGlyph
  }

  /** Each of the twelve categories has its own, non-default glyph. */
  lemma CategoriesHaveGlyphs()
    ensures forall i :: 0 <= i < |Categories| ==>
      Lower(Categories[i]) in EventIcons && GlyphFor(Categories[i]) == EventIcons[Lower(Categories[i])] != DefaultGlyph
  {
    forall i | 0 <= i < |Categories|
      ensures Lower(Categories[i]) in EventIcons && GlyphFor(Categories[i]) == EventIcons[Lower(Categories[i])] != DefaultGlyph
    {
      CategoryKey(i);
    }
  }

  /** The table key of the `i`th category is its name in lower case. */
  lemma CategoryKey(i: int)
    requires 0 <= i < |Categories|
    ensures Lower(Categories[i]) in EventIcons && EventIcons[Lower(Categories[i])] != DefaultGlyph
  {
    if i < 3 { FirstCategoryKeys(); }
    else if i < 6 { SecondCategoryKeys(); }
    else if i < 9 { ThirdCategoryKeys(); }
    else { FourthCategoryKeys(); }
  }

  lemma FirstCategoryKeys()
    ensures Lower("Workshop") == "workshop" && Lower("Seminar") == "seminar"
    ensures Lower("Competition") == "competition"
  {
  }

  lemma SecondCategoryKeys()
    ensures Lower("Conference") == "conference" && Lower("Hackathon") == "hackathon"
    ensures Lower("Webinar") == "webinar"
  {
  }

  lemma ThirdCategoryKeys()
    ensures Lower("Cultural Event") == "cultural event" && Lower("Sports Event") == "sports event"
    ensures Lower("Training") == "training"
  {
  }

  lemma FourthCategoryKeys()
    ensures Lower("Lecture") == "lecture" && Lower("Panel Discussion") == "panel discussion"
    ensures Lower("Networking Event") == "networking event"
  {
  }

  /** The lookup ignores the case of the category name. */
  lemma GlyphIgnoresCase(category: string)
    ensures GlyphFor(Upper(category)) == GlyphFor(category) == GlyphFor(Lower(category))
  {
    assert Lower(Upper(category)) == Lower(category);
    assert Lower(Lower(category)) == Lower(category);
  }

  /** A name not in the table gets the pin. */
  lemma UnknownCategoryGetsPin(category: string)
    requires Lower(category) !in EventIcons
    ensures GlyphFor(category) == DefaultGlyph
  {
  }

  // ---------------------------------------------------------------------
  // Validation
  // ---------------------------------------------------------------------

  /** JavaScript truthiness of the preview slot: set and non-empty. */
  predicate HasPreview(f: EventForm) {
    f.imagePreview.Some? && f.imagePreview.value != ""
  }

  /** The six checks of `handleSubmit`, in the order they run. */
  function EventChecks(f: EventForm): seq<Check> {
    [ Check(Trim(f.title) != "", "Event title is required"),
      Check(f.date != "", "Event date is required"),
      Check(f.time != "", "Event time is required"),
      Check(f.location != "" || f.isOnline, "Event location or online meeting link is required"),
      Check(!f.isOnline || Trim(f.meetingLink) != "", "Meeting link is required for online events"),
      Check(f.capacity == "" || IsNumeric(f.capacity), "Capacity must be a valid number") ]
  }

  /** The message of the first failing guard of `handleSubmit`, if any: no
      message exactly when every check passes. */
  function Validate(f: EventForm): (r: Option<string>)
    ensures r.None? <==>
      (Trim(f.title) != "" && f.date != "" && f.time != "" && (f.location != "" || f.isOnline) &&
       (!f.isOnline || Trim(f.meetingLink) != "") && (f.capacity == "" || IsNumeric(f.capacity)))
  {
    if Trim(f.title) == "" then Some("Event title is required")
    else if f.date == "" then Some("Event date is required")
    else if f.time == "" then Some("Event time is required")
    else if f.location == "" && !f.isOnline then Some("Event location or online meeting link is required")
    else if f.isOnline && Trim(f.meetingLink) == "" then Some("Meeting link is required for online events")
    else if f.capacity != "" && !IsNumeric(f.capacity) then Some("Capacity must be a valid number")
    else None
  }

  /** The validator reports exactly the first failing check of the list. */
  lemma ValidateIsFirstFailure(f: EventForm)
    ensures Validate(f) == FirstFailure(EventChecks(f))
  {
    var cs := EventChecks(f);
    assert cs[1..][1..][1..][1..][1..][1..] == [];
    assert FirstFailure(cs[1..][1..][1..][1..][1..]) == FirstFailure([cs[5]]);
    assert FirstFailure(cs[1..][1..][1..][1..]) == FirstFailure([cs[4], cs[5]]);
    assert FirstFailure(cs[1..][1..][1..]) == FirstFailure([cs[3], cs[4], cs[5]]);
    assert FirstFailure(cs[1..][1..]) == FirstFailure([cs[2], cs[3], cs[4], cs[5]]);
    assert FirstFailure(cs[1..]) == FirstFailure([cs[1], cs[2], cs[3], cs[4], cs[5]]);
  }

  /** An online event never fails on its location, however blank. */
  lemma OnlineIgnoresLocation(f: EventForm, location: string)
    requires f.isOnline
    ensures Validate(f.(location := location)) == Validate(f)
  {
  }

  /** An online event whose link is blank fails on the link once title,
      date and time are filled in. */
  lemma OnlineNeedsLink(f: EventForm)
    requires Trim(f.title) != "" && f.date != "" && f.time != ""
    requires f.isOnline && Trim(f.meetingLink) == ""
    ensures Validate(f) == Some("Meeting link is required for online events")
  {
  }

  /** An offline event fails on an empty location, but the location is not
      trimmed: a location of spaces passes. */
  lemma OfflineLocation(f: EventForm)
    requires Trim(f.title) != "" && f.date != "" && f.time != "" && !f.isOnline
    ensures f.location == "" ==> Validate(f) == Some("Event location or online meeting link is required")
    ensures Validate(f.(location := " ")) == Validate(f.(location := "Lab 101"))
  {
  }

  // ---------------------------------------------------------------------
  // Building the event
  // ---------------------------------------------------------------------

  /** `capacity ? parseInt(capacity) : null`: unlimited exactly when empty,
      otherwise the number `parseInt` reads, or NaN when it reads none. */
  function ParseCapacity(s: string): (r: Capacity)
    ensures r.Unlimited? <==> s == ""
    ensures r.NotANumber? <==> s != "" && ParseInt(s).None?
    ensures r.Limit? ==> ParseInt(s) == Some(r.value)
  {
    if s == [] then Unlimited
    else match ParseInt(s)
      case None => NotANumber
      case Some(n) => Limit(n)
  }

  /** A digit string is a valid capacity and gives its value. */
  lemma CapacityOfDigits(s: string)
    requires s != [] && AllDigits(s)
    ensures IsNumeric(s) && ParseCapacity(s) == Limit(DigitsValue(s))
  {
    DigitsAreNumeric(s);
    ParseIntDigits(s);
  }

  /** `isNaN` and `parseInt` disagree on exponents: a capacity of `1e3`
      passes the numeric check as a thousand, yet the event stores 1. */
  lemma ExponentCapacityTruncated()
    ensures IsNumeric("1e3") && ParseCapacity("1e3") == Limit(1)
  {
    TrimOfTrimmed("1e3");
    var k := ExponentIndex("1e3");
    assert k == 1 && "1e3"[..k] == "1" && "1e3"[k..] == "e3";
    SplitFree("1", '.');
    assert "1e3" == "1" + "e3";
    ParseIntDigitsThen("1", "e3");
  }

  /** Each segment trimmed. */
  function TrimAll(segments: seq<string>): (r: seq<string>)
    ensures |r| == |segments|
    ensures forall i :: 0 <= i < |r| ==> r[i] == Trim(segments[i])
  {
    if segments == [] then [] else [Trim(segments[0])] + TrimAll(segments[1..])
  }

  /** The non-empty strings, in order. */
  function DropEmpty(strings: seq<string>): (r: seq<string>)
    ensures forall i :: 0 <= i < |r| ==> r[i] != [] && r[i] in strings
  {
    if strings == [] then []
    else if strings[0] == [] then DropEmpty(strings[1..])
    else [strings[0]] + DropEmpty(strings[1..])
  }

  /** A well-formed tag: non-empty, without surrounding whitespace, without a comma. */
  predicate IsTag(t: string) {
    t != [] && !IsSpace(t[0]) && !IsSpace(t[|t| - 1]) && ',' !in t
  }

  /** `tags.split(',').map(tag => tag.trim()).filter(tag => tag)`: every
      tag is non-empty, trimmed and free of commas. */
  function Tags(input: string): (r: seq<string>)
    ensures forall i :: 0 <= i < |r| ==> IsTag(r[i])
  {
    PiecesAreTags(Split(input, ','));
    DropEmpty(TrimAll(Split(input, ',')))
  }

  /** Trimming only removes characters. */
  lemma TrimIsInfix(s: string, c: char)
    ensures c in Trim(s) ==> c in s
  {
    var t := Trim(s);
    if c in t {
      var a := LeadingSpaces(s);
      assert t == s[a..a + |t|];
      var i :| 0 <= i < |t| && t[i] == c;
      assert s[a + i] == c;
    }
  }

  /** Comma-free pieces, trimmed and with the blank ones dropped, are
      well-formed tags. */
  lemma PiecesAreTags(pieces: seq<string>)
    requires forall i :: 0 <= i < |pieces| ==> ',' !in pieces[i]
    ensures forall i :: 0 <= i < |DropEmpty(TrimAll(pieces))| ==> IsTag(DropEmpty(TrimAll(pieces))[i])
  {
    var trimmed := TrimAll(pieces);
    var r := DropEmpty(trimmed);
    forall i | 0 <= i < |r| ensures IsTag(r[i]) {
      var j :| 0 <= j < |trimmed| && trimmed[j] == r[i];
      PieceIsTag(pieces[j]);
    }
  }

  /** A comma-free piece that is not blank trims to a tag. */
  lemma PieceIsTag(piece: string)
    requires ',' !in piece && Trim(piece) != []
    ensures IsTag(Trim(piece))
  {
    TrimIsInfix(piece, ',');
  }

  lemma {:induction false} TrimAllConcat(a: seq<string>, b: seq<string>)
    ensures TrimAll(a + b) == TrimAll(a) + TrimAll(b)
  {
  }

  lemma {:induction false} DropEmptyConcat(a: seq<string>, b: seq<string>)
    ensures DropEmpty(a + b) == DropEmpty(a) + DropEmpty(b)
  {
    if a == [] {
      assert a + b == b;
    } else {
      assert (a + b)[1..] == a[1..] + b;
      DropEmptyConcat(a[1..], b);
    }
  }

  /** Tags of two comma-separated pieces are the tags of each, in order and
      with repeats kept. */
  lemma TagsConcat(a: string, b: string)
    ensures Tags(a + [','] + b) == Tags(a) + Tags(b)
  {
    SplitConcat(a, b, ',');
    TrimAllConcat(Split(a, ','), Split(b, ','));
    DropEmptyConcat(TrimAll(Split(a, ',')), TrimAll(Split(b, ',')));
  }

  /** A piece without a comma gives its trimmed text, or nothing if blank. */
  lemma TagsOfPiece(s: string)
    requires ',' !in s
    ensures Tags(s) == if Trim(s) == [] then [] else [Trim(s)]
  {
    SplitFree(s, ',');
    assert [s][1..] == [];
    assert TrimAll([s]) == [Trim(s)] + TrimAll([]);
    assert [Trim(s)][1..] == [];
    assert DropEmpty([Trim(s)]) == if Trim(s) == [] then DropEmpty([]) else [Trim(s)] + DropEmpty([]);
  }

  /** A well-formed tag on its own is its only tag. */
  lemma TagIsItsOwnTags(t: string)
    requires IsTag(t)
    ensures Tags(t) == [t]
  {
    TrimOfTrimmed(t);
    TagsOfPiece(t);
  }

  /** Joining well-formed tags with commas and normalising gives them back. */
  lemma {:induction false} TagsOfJoin(tags: seq<string>)
    requires |tags| >= 1 && forall i :: 0 <= i < |tags| ==> IsTag(tags[i])
    ensures Tags(Join(tags, ',')) == tags
  {
    var first := tags[0];
    TagIsItsOwnTags(first);
    if |tags| == 1 {
      assert tags == [first];
    } else {
      var rest := tags[1..];
      forall i | 0 <= i < |rest| ensures IsTag(rest[i]) {
        assert rest[i] == tags[i + 1];
      }
      TagsOfJoin(rest);
      assert Join(tags, ',') == first + [','] + Join(rest, ',');
      TagsConcat(first, Join(rest, ','));
      assert tags == [first] + rest;
    }
  }

  lemma BlankHasNoComma(blank: string)
    requires AllSpace(blank)
    ensures ',' !in blank
  {
  }

  /** A blank piece between two tags, as in "ai, ,ml", is dropped. */
  lemma TagsDropBlank(a: string, blank: string, b: string)
    requires IsTag(a) && IsTag(b) && AllSpace(blank)
    ensures Tags(a + [','] + blank + [','] + b) == [a, b]
  {
    assert a + [','] + blank + [','] + b == a + [','] + (blank + [','] + b);
    TagsConcat(blank, b);
    TagsConcat(a, blank + [','] + b);
    TrimOfTrimmed(a);
    TagsOfPiece(a);
    BlankHasNoComma(blank);
    TagsOfPiece(blank);
    TrimOfTrimmed(b);
    TagsOfPiece(b);
  }

  /** The `newEvent` built from a form that passed validation. */
  function BuildEvent(f: EventForm): (e: NewEvent)
    ensures e.title == f.title && e.description == f.description && e.category == f.category
    ensures e.date == f.date && e.time == f.time && e.endTime == f.endTime
    ensures e.location == f.location && e.isOnline == f.isOnline && e.meetingLink == f.meetingLink
    ensures e.prerequisites == f.prerequisites
    ensures e.status == "Active" && e.totalParticipants == 0
    ensures e.hasCustomImage <==> HasPreview(f)
    ensures e.image == if HasPreview(f) then f.imagePreview.value else f.image
    ensures e.capacity == ParseCapacity(f.capacity)
    ensures e.capacity.Unlimited? <==> f.capacity == ""
    ensures e.tags == Tags(f.tags)
    ensures forall i :: 0 <= i < |e.tags| ==> IsTag(e.tags[i])
  {
    NewEvent(
      f.title, f.description, f.date, f.time, f.endTime, f.location, f.category,
      ParseCapacity(f.capacity),
      if HasPreview(f) then f.imagePreview.value else f.image,
      f.isOnline, f.meetingLink, f.prerequisites, Tags(f.tags),
      "Active", 0, HasPreview(f))
  }

  /** Validation that passes means a capacity that is empty or numeric. */
  lemma ValidCapacity(f: EventForm)
    requires Validate(f).None?
    ensures f.capacity == "" || IsNumeric(f.capacity)
  {
    ValidateIsFirstFailure(f);
    assert EventChecks(f)[5].passes;
  }

  // ---------------------------------------------------------------------
  // Poster upload
  // ---------------------------------------------------------------------

  const MaxImageBytes: nat := 5 * 1024 * 1024

  /** The upload guards, in order: size, then MIME type. */
  function UploadError(file: ImageFile): (r: Option<string>)
    ensures r.None? <==> file.size <= MaxImageBytes && StartsWith(file.mimeType, "image/")
    ensures file.size > MaxImageBytes ==> r == Some("Image size must be less than 5MB")
  {
    if file.size > MaxImageBytes then Some("Image size must be less than 5MB")
    else if !StartsWith(file.mimeType, "image/") then Some("Please upload a valid image file")
    else None
  }

  /** The text fields `handleInputChange` writes by name. */
  datatype TextField =
    | Title | Description | Date | Time | EndTime | Location | CapacityField
    | MeetingLink | Prerequisites | TagsField

  function WithText(f: EventForm, field: TextField, value: string): EventForm {
    match field
    case Title => f.(title := value)
    case Description => f.(description := value)
    case Date => f.(date := value)
    case Time => f.(time := value)
    case EndTime => f.(endTime := value)
    case Location => f.(location := value)
    case CapacityField => f.(capacity := value)
    case MeetingLink => f.(meetingLink := value)
    case Prerequisites => f.(prerequisites := value)
    case TagsField => f.(tags := value)
  }

  /** The poster shown is the category's glyph, or the pin the form starts with. */
  predicate GlyphConsistent(f: EventForm) {
    f.image == GlyphFor(f.category) || f.image == DefaultGlyph
  }

  /** The authoring form component. */
  class CreateEventForm {
    var formData: EventForm
    var loading: bool
    var error: string
    var success: string
    /** Files whose `FileReader` has been started and has not finished. */
    var pendingReads: seq<ImageFile>
    /** Form resets scheduled two seconds after a successful submit. */
    var pendingResets: nat

    ghost predicate Valid()
      reads this
    {
      GlyphConsistent(formData)
    }

    constructor ()
      ensures Valid()
      ensures formData == InitialForm && !loading && error == "" && success == ""
      ensures pendingReads == [] && pendingResets == 0
    {
      formData := InitialForm;
      loading, error, success := false, "", "";
      pendingReads, pendingResets := [], 0;
    }

    /** `handleInputChange` for a text field. */
    method HandleTextInput(field: TextField, value: string)
      requires Valid()
      modifies this
      ensures Valid()
      ensures formData == WithText(old(formData), field, value)
      ensures loading == old(loading) && error == old(error) && success == old(success)
      ensures pendingReads == old(pendingReads) && pendingResets == old(pendingResets)
    {
      formData := WithText(formData, field, value);
    }

    /** `handleInputChange` for the "online event" checkbox. */
    method HandleOnlineToggle(checked: bool)
      requires Valid()
      modifies this
      ensures Valid()
      ensures formData == old(formData).(isOnline := checked)
      ensures loading == old(loading) && error == old(error) && success == old(success)
      ensures pendingReads == old(pendingReads) && pendingResets == old(pendingResets)
    {
      formData := formData.(isOnline := checked);
    }

    /** `handleCategoryChange(category)`: the category and its glyph. */
    method HandleCategoryChange(category: string)
      requires Valid()
      modifies this
      ensures Valid()
      ensures formData == old(formData).(category := category, image := GlyphFor(category))
      ensures loading == old(loading) && error == old(error) && success == old(success)
      ensures pendingReads == old(pendingReads) && pendingResets == old(pendingResets)
    {
      formData := formData.(category := category, image := GlyphFor(category));
    }

    /** `handleImageUpload`: no file does nothing; a file that fails a guard
        sets the error; otherwise reading it starts. */
    method HandleImageUpload(file: Option<ImageFile>)
      requires Valid()
      modifies this
      ensures Valid()
      ensures formData == old(formData) && loading == old(loading) && success == old(success)
      ensures pendingResets == old(pendingResets)
      ensures file.None? ==> error == old(error) && pendingReads == old(pendingReads)
      ensures file.Some? && UploadError(file.value).Some? ==>
        error == UploadError(file.value).value && pendingReads == old(pendingReads)
      ensures file.Some? && UploadError(file.value).None? ==>
        error == old(error) && pendingReads == old(pendingReads) + [file.value]
    {
      if file.Some? {
        var problem := UploadError(file.value);
        if problem.Some? {
          error := problem.value;
          return;
        }
        pendingReads := pendingReads + [file.value];
      }
    }

    /** The reader's `onloadend`: the file and its data URL become the poster. */
    method FinishImageRead(k: nat, dataUrl: string)
      requires Valid() && k < |pendingReads|
      modifies this
      ensures Valid()
      ensures formData == old(formData).(imageFile := Some(old(pendingReads[k])), imagePreview := Some(dataUrl))
      ensures error == "" && loading == old(loading) && success == old(success)
      ensures pendingReads == old(pendingReads[..k] + pendingReads[k + 1..])
      ensures pendingResets == old(pendingResets)
    {
      var file := pendingReads[k];
      pendingReads := pendingReads[..k] + pendingReads[k + 1..];
      formData := formData.(imageFile := Some(file), imagePreview := Some(dataUrl));
      error := "";
    }

    /** `handleRemoveImage`: only the file and its preview are cleared. */
    method HandleRemoveImage()
      requires Valid()
      modifies this
      ensures Valid()
      ensures formData == old(formData).(imageFile := None, imagePreview := None)
      ensures !HasPreview(formData)
      ensures loading == old(loading) && error == old(error) && success == old(success)
      ensures pendingReads == old(pendingReads) && pendingResets == old(pendingResets)
    {
      formData := formData.(imageFile := None, imagePreview := None);
    }

    /** `handleSubmit`: the first failing check's message, or the new event
        (what `onEventCreated` receives) and a scheduled reset. */
    method HandleSubmit() returns (created: Option<NewEvent>)
      requires Valid()
      modifies this
      ensures Valid()
      ensures formData == old(formData) && !loading && pendingReads == old(pendingReads)
      ensures Validate(old(formData)).Some? ==>
        created.None? && error == Validate(old(formData)).value && success == ""
        && pendingResets == old(pendingResets)
      ensures Validate(old(formData)).None? ==>
        created == Some(BuildEvent(old(formData))) && error == ""
        && success == "✅ Event created successfully!" && pendingResets == old(pendingResets) + 1
    {
      error := "";
      success := "";
      loading := true;
      var problem := Validate(formData);
      if problem.Some? {
        error := problem.value;
        loading := false;
        return None;
      }
      var event := BuildEvent(formData);
      success := "✅ Event created successfully!";
      created := Some(event);
      pendingResets := pendingResets + 1;
      loading := false;
    }

    /** The reset timer firing: back to the initial form, message cleared. */
    method ResetTick()
      requires Valid() && pendingResets > 0
      modifies this
      ensures Valid()
      ensures formData == InitialForm && success == "" && pendingResets == old(pendingResets) - 1
      ensures loading == old(loading) && error == old(error) && pendingReads == old(pendingReads)
    {
      formData := InitialForm;
      success := "";
      pendingResets := pendingResets - 1;
    }
  }

  /** The poster of any event the form creates: the uploaded preview if
      there is one, else the glyph of the chosen category or the pin. */
  lemma CreatedImage(f: EventForm)
    requires GlyphConsistent(f)
    ensures var e := BuildEvent(f);
      e.hasCustomImage || e.image == GlyphFor(f.category) || e.image == DefaultGlyph
  {
  }
}
