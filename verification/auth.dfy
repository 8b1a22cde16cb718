/** The landing page and its authentication modal (src/App.jsx): the form
    state, the request built on submit with its ordered checks, the handling
    of the server's answer, and the choice of dashboard for the logged-in
    user.  Network round trips and the five-second timer are split into the
    event that starts them and the event that completes them. */
module Auth {
  import opened Values
  import opened Text

  datatype Role = Student | Faculty | Organizer {
    /** The role string the page sends and stores. */
    function Name(): string {
      match this
      case Student => "student"
      case Faculty => "faculty"
      case Organizer => "organizer"
    }
  }

  datatype AuthMode = Login | Signup

  /** The modal's `formData`. */
  datatype AuthForm = AuthForm(
    fullName: string, email: string, password: string, organizerId: string,
    organizationName: string, organizationType: string, phone: string,
    address: string, city: string, state: string, zipCode: string, description: string)

  /** The form as `useState` and `handleAuthClick` set it. */
  const BlankForm: AuthForm := AuthForm("", "", "", "", "", "school", "", "", "", "", "", "")

  /** The `name` attributes of the modal's inputs. */
  datatype AuthField =
    | FullName | Email | Password | OrganizerId | OrganizationName | OrganizationType
    | Phone | Address | City | State | ZipCode | Description

  function WithField(f: AuthForm, field: AuthField, value: string): AuthForm {
    match field
    case FullName => f.(fullName := value)
    case Email => f.(email := value)
    case Password => f.(password := value)
    case OrganizerId => f.(organizerId := value)
    case OrganizationName => f.(organizationName := value)
    case OrganizationType => f.(organizationType := value)
    case Phone => f.(phone := value)
    case Address => f.(address := value)
    case City => f.(city := value)
    case State => f.(state := value)
    case ZipCode => f.(zipCode := value)
    case Description => f.(description := value)
  }

  /** A JSON object of string fields: the request body and the user record. */
  type Record = map<string, string>

  // ---------------------------------------------------------------------
  // Building the request
  // ---------------------------------------------------------------------

  /** `organizerId.trim().toUpperCase()`: blank exactly when the typed id
      is, never longer than it, and without lower-case letters. */
  function NormalizeOrgId(s: string): (r: string)
    ensures r == [] <==> AllSpace(s)
    ensures |r| <= |s|
    ensures forall i :: 0 <= i < |r| ==> !IsLowerLetter(r[i])
  {
    Upper(Trim(s))
  }

  /** Normalising twice changes nothing, and the result is blank exactly
      when the typed id is. */
  lemma NormalizeOrgIdIdempotent(s: string)
    ensures NormalizeOrgId(NormalizeOrgId(s)) == NormalizeOrgId(s)
    ensures NormalizeOrgId(s) == [] <==> Trim(s) == []
  {
    TrimUpper(Trim(s));
    TrimIdempotent(s);
    UpperIdempotent(Trim(s));
  }

  /** The normalised id has no surrounding whitespace and no lower-case letter. */
  lemma NormalizedOrgIdShape(s: string)
    ensures var r := NormalizeOrgId(s);
      Trim(r) == r && forall i :: 0 <= i < |r| ==> !IsLowerLetter(r[i])
  {
    TrimUpper(Trim(s));
    TrimIdempotent(s);
  }

  /** The checks `handleSubmit` makes before sending, in order, for the
      mode and role selected. */
  function RequiredChecks(mode: AuthMode, role: Role, f: AuthForm): seq<Check> {
    match mode
    case Login => [Check(Trim(f.organizerId) != "", "Organization ID is required for login")]
    case Signup =>
      [Check(Trim(f.fullName) != "", "Full Name is required")] +
      (if role == Organizer then [Check(Trim(f.organizationName) != "", "Organization Name is required")]
       else [Check(Trim(f.organizerId) != "", "Organization ID is required for " + role.Name() + " registration")])
  }

  /** The value of one field of the form. */
  function FieldValue(f: AuthForm, field: AuthField): string {
    match field
    case FullName => f.fullName
    case Email => f.email
    case Password => f.password
    case OrganizerId => f.organizerId
    case OrganizationName => f.organizationName
    case OrganizationType => f.organizationType
    case Phone => f.phone
    case Address => f.address
    case City => f.city
    case State => f.state
    case ZipCode => f.zipCode
    case Description => f.description
  }

  /** A key of the request body: one of the form's fields, or `role`. */
  datatype PayloadKey = FormKey(field: AuthField) | RoleKey

  /** The request body, keyed by what each entry comes from. */
  type Payload = map<PayloadKey, string>

  /** The fields every request carries. */
  function BasePayload(role: Role, f: AuthForm): Payload {
    map[FormKey(Email) := f.email, FormKey(Password) := f.password, RoleKey := role.Name()]
  }

  /** The login body: the base fields and the normalised id. */
  function LoginPayload(role: Role, f: AuthForm): Payload {
    BasePayload(role, f)[FormKey(OrganizerId) := NormalizeOrgId(f.organizerId)]
  }

  /** A student's or faculty member's sign-up body: the base fields, the
      full name and the normalised id. */
  function MemberPayload(role: Role, f: AuthForm): Payload {
    BasePayload(role, f)[FormKey(FullName) := f.fullName][FormKey(OrganizerId) := NormalizeOrgId(f.organizerId)]
  }

  /** An organizer's sign-up body: the base fields, the full name and the
      eight organisation fields as typed. */
  function OrganizerPayload(role: Role, f: AuthForm): Payload {
    BasePayload(role, f)[FormKey(FullName) := f.fullName]
      [FormKey(OrganizationName) := f.organizationName]
      [FormKey(OrganizationType) := f.organizationType]
      [FormKey(Phone) := f.phone][FormKey(Address) := f.address]
      [FormKey(City) := f.city][FormKey(State) := f.state]
      [FormKey(ZipCode) := f.zipCode][FormKey(Description) := f.description]
  }

  /** The payload `handleSubmit` posts, or the message of the first check
      that stops it. */
  function PrepareRequest(mode: AuthMode, role: Role, f: AuthForm): Result<Payload> {
    match mode
    case Login =>
      if Trim(f.organizerId) == "" then Err("Organization ID is required for login")
      else Ok(LoginPayload(role, f))
    case Signup =>
      if Trim(f.fullName) == "" then Err("Full Name is required")
      else if role == Organizer then
        if Trim(f.organizationName) == "" then Err("Organization Name is required")
        else Ok(OrganizerPayload(role, f))
      else if Trim(f.organizerId) == "" then Err("Organization ID is required for " + role.Name() + " registration")
      else Ok(MemberPayload(role, f))
  }

  /** The form fields each request carries, besides `role`. */
  function PayloadFields(mode: AuthMode, role: Role): set<AuthField> {
    match mode
    case Login => {Email, Password, OrganizerId}
    case Signup =>
      if role == Organizer then
        {Email, Password, FullName, OrganizationName, OrganizationType,
         Phone, Address, City, State, ZipCode, Description}
      else {Email, Password, FullName, OrganizerId}
  }

  /** The JSON key each entry of the body is sent under. */
  function WireName(k: PayloadKey): string {
    match k
    case RoleKey => "role"
    case FormKey(field) =>
      match field
      case FullName => "fullName"
      case Email => "email"
      case Password => "password"
      case OrganizerId => "organizerId"
      case OrganizationName => "organizationName"
      case OrganizationType => "organizationType"
      case Phone => "phone"
      case Address => "address"
      case City => "city"
      case State => "state"
      case ZipCode => "zipCode"
      case Description => "description"
  }

  /** The request is refused exactly when one of the required checks fails,
      with the message of the first one that does. */
  lemma PrepareRequestIsFirstFailure(mode: AuthMode, role: Role, f: AuthForm)
    ensures PrepareRequest(mode, role, f).Err? <==> FirstFailure(RequiredChecks(mode, role, f)).Some?
    ensures PrepareRequest(mode, role, f).Err? ==>
      PrepareRequest(mode, role, f).error == FirstFailure(RequiredChecks(mode, role, f)).value
  {
    var cs := RequiredChecks(mode, role, f);
    if mode == Signup {
      assert cs[1..][1..] == [];
    } else {
      assert cs[1..] == [];
    }
  }

  /** What a sent payload satisfies: exactly the given fields and the role;
      every field is the form's value unchanged except the organisation id,
      which is normalised and not blank. */
  ghost predicate PayloadMatches(p: Payload, fields: set<AuthField>, role: Role, f: AuthForm) {
    RoleKey in p && p[RoleKey] == role.Name() &&
    (forall fld :: FormKey(fld) in p <==> fld in fields) &&
    (forall fld :: FormKey(fld) in p && fld != OrganizerId ==> p[FormKey(fld)] == FieldValue(f, fld)) &&
    (FormKey(OrganizerId) in p ==> p[FormKey(OrganizerId)] == NormalizeOrgId(f.organizerId) != "")
  }

  /** A payload that is sent carries exactly the fields of its mode and role. */
  lemma PreparedPayload(mode: AuthMode, role: Role, f: AuthForm)
    requires PrepareRequest(mode, role, f).Ok?
    ensures PayloadMatches(PrepareRequest(mode, role, f).value, PayloadFields(mode, role), role, f)
  {
    match mode
    case Login =>
      assert PrepareRequest(mode, role, f).value == LoginPayload(role, f);
      LoginPayloadMatches(role, f);
    case Signup =>
      if role == Organizer {
        assert PrepareRequest(mode, role, f).value == OrganizerPayload(role, f);
        OrganizerPayloadMatches(role, f);
      } else {
        assert PrepareRequest(mode, role, f).value == MemberPayload(role, f);
        MemberPayloadMatches(role, f);
      }
  }

  lemma LoginPayloadMatches(role: Role, f: AuthForm)
    requires Trim(f.organizerId) != ""
    ensures PayloadMatches(LoginPayload(role, f), PayloadFields(Login, role), role, f)
  {
    NormalizeOrgIdIdempotent(f.organizerId);
    var p := LoginPayload(role, f);
    assert RoleKey in p && p[RoleKey] == role.Name();
    assert p[FormKey(OrganizerId)] == NormalizeOrgId(f.organizerId) != "";
    forall fld ensures FormKey(fld) in p <==> fld in PayloadFields(Login, role) {
      LoginPayloadField(role, f, fld);
    }
    forall fld | FormKey(fld) in p && fld != OrganizerId ensures p[FormKey(fld)] == FieldValue(f, fld) {
      LoginPayloadField(role, f, fld);
    }
  }

  lemma LoginPayloadField(role: Role, f: AuthForm, fld: AuthField)
    ensures FormKey(fld) in LoginPayload(role, f) <==> fld in PayloadFields(Login, role)
    ensures FormKey(fld) in LoginPayload(role, f) && fld != OrganizerId ==>
      LoginPayload(role, f)[FormKey(fld)] == FieldValue(f, fld)
  {
  }

  lemma MemberPayloadMatches(role: Role, f: AuthForm)
    requires role != Organizer && Trim(f.organizerId) != ""
    ensures PayloadMatches(MemberPayload(role, f), PayloadFields(Signup, role), role, f)
  {
    NormalizeOrgIdIdempotent(f.organizerId);
    var p := MemberPayload(role, f);
    forall fld ensures FormKey(fld) in p <==> fld in PayloadFields(Signup, role) {
      MemberPayloadField(role, f, fld);
    }
    forall fld | FormKey(fld) in p && fld != OrganizerId ensures p[FormKey(fld)] == FieldValue(f, fld) {
      MemberPayloadField(role, f, fld);
    }
  }

  lemma MemberPayloadField(role: Role, f: AuthForm, fld: AuthField)
    requires role != Organizer
    ensures FormKey(fld) in MemberPayload(role, f) <==> fld in PayloadFields(Signup, role)
    ensures FormKey(fld) in MemberPayload(role, f) && fld != OrganizerId ==>
      MemberPayload(role, f)[FormKey(fld)] == FieldValue(f, fld)
  {
  }

  lemma OrganizerPayloadMatches(role: Role, f: AuthForm)
    requires role == Organizer
    ensures PayloadMatches(OrganizerPayload(role, f), PayloadFields(Signup, role), role, f)
  {
    var p := OrganizerPayload(role, f);
    assert RoleKey in p && p[RoleKey] == role.Name();
    OrganizerPayloadField(role, f, OrganizerId);
    assert FormKey(OrganizerId) !in p;
    forall fld ensures FormKey(fld) in p <==> fld in PayloadFields(Signup, role) {
      OrganizerPayloadField(role, f, fld);
    }
    forall fld | FormKey(fld) in p ensures p[FormKey(fld)] == FieldValue(f, fld) {
      OrganizerPayloadField(role, f, fld);
    }
  }

  lemma OrganizerPayloadField(role: Role, f: AuthForm, fld: AuthField)
    requires role == Organizer
    ensures FormKey(fld) in OrganizerPayload(role, f) <==> fld in PayloadFields(Signup, role)
    ensures FormKey(fld) in OrganizerPayload(role, f) ==> OrganizerPayload(role, f)[FormKey(fld)] == FieldValue(f, fld)
  {
  }

  /** Distinct entries of the body are sent under distinct JSON keys. */
  lemma WireNamesDistinct(j: PayloadKey, k: PayloadKey)
    requires j != k
    ensures WireName(j) != WireName(k)
  {
  }

  /** A login request depends only on the email, password, role and id. */
  lemma LoginIgnoresSignupFields(role: Role, f: AuthForm, g: AuthForm)
    requires f.email == g.email && f.password == g.password && f.organizerId == g.organizerId
    ensures PrepareRequest(Login, role, f) == PrepareRequest(Login, role, g)
  {
  }

  /** Ids typed with different spacing or case send the same request. */
  lemma OrgIdSpellingIrrelevant(mode: AuthMode, role: Role, f: AuthForm, typed: string)
    requires NormalizeOrgId(typed) == NormalizeOrgId(f.organizerId)
    ensures PrepareRequest(mode, role, f.(organizerId := typed)) == PrepareRequest(mode, role, f)
  {
    NormalizeOrgIdIdempotent(typed);
    NormalizeOrgIdIdempotent(f.organizerId);
    match mode
    case Login => LoginSameId(role, f, typed);
    case Signup =>
      if role == Organizer {
        OrganizerIgnoresId(f, typed);
      } else {
        MemberSameId(role, f, typed);
      }
  }

  lemma LoginSameId(role: Role, f: AuthForm, typed: string)
    requires Trim(typed) == [] <==> Trim(f.organizerId) == []
    requires NormalizeOrgId(typed) == NormalizeOrgId(f.organizerId)
    ensures PrepareRequest(Login, role, f.(organizerId := typed)) == PrepareRequest(Login, role, f)
  {
    assert LoginPayload(role, f.(organizerId := typed)) == LoginPayload(role, f);
  }

  lemma MemberSameId(role: Role, f: AuthForm, typed: string)
    requires role != Organizer
    requires Trim(typed) == [] <==> Trim(f.organizerId) == []
    requires NormalizeOrgId(typed) == NormalizeOrgId(f.organizerId)
    ensures PrepareRequest(Signup, role, f.(organizerId := typed)) == PrepareRequest(Signup, role, f)
  {
    assert MemberPayload(role, f.(organizerId := typed)) == MemberPayload(role, f);
  }

  /** An organizer's sign-up does not read the id field at all. */
  lemma OrganizerIgnoresId(f: AuthForm, typed: string)
    ensures PrepareRequest(Signup, Organizer, f.(organizerId := typed)) == PrepareRequest(Signup, Organizer, f)
  {
    assert OrganizerPayload(Organizer, f.(organizerId := typed)) == OrganizerPayload(Organizer, f);
  }

  // ---------------------------------------------------------------------
  // The server's answer
  // ---------------------------------------------------------------------

  /** What the page reads from a response: its status, its `content-type`
      header, and the `message`, `error` and `user` fields of the JSON body. */
  datatype Response = Response(
    status: nat, ok: bool, contentType: Option<string>,
    message: Option<string>, error: Option<string>, user: Option<Record>)

  /** JavaScript truthiness of an optional string. */
  predicate Truthy(s: Option<string>) {
    s.Some? && s.value != ""
  }

  /** A string as a template literal renders it (`undefined` when absent). */
  function Interpolate(s: Option<string>): string {
    if s.Some? then s.value else "undefined"
  }

  /** `contentType && contentType.includes('application/json')`. */
  predicate AcceptsContentType(contentType: Option<string>) {
    contentType.Some? && contentType.value != "" && Contains(contentType.value, "application/json")
  }

  /** The thrown error's message for a rejected content type: the fixed
      text, then the type, or `null` when the header is missing. */
  function ContentTypeMessage(contentType: Option<string>): (r: string)
    ensures StartsWith(r, ContentTypePrefix)
    ensures r[|ContentTypePrefix|..] == if contentType.Some? then contentType.value else "null"
  {
    var shown := if contentType.Some? then contentType.value else "null";
    assert (ContentTypePrefix + shown)[..|ContentTypePrefix|] == ContentTypePrefix;
    ContentTypePrefix + shown
  }

  const ContentTypePrefix := "Server returned invalid content type: "

  /** What the `catch` block shows for an error with this message. */
  function CaughtMessage(message: string): (r: string)
    ensures r != "" && StartsWith(r, "Error: ")
  {
    "Error: " + (if message != "" then message else "Failed to process request")
  }

  /** `data.message || data.error || \`Server Error: ${status}\``. */
  function ErrorMessage(resp: Response): (r: string)
    ensures r != ""
    ensures Truthy(resp.message) ==> r == resp.message.value
    ensures !Truthy(resp.message) && Truthy(resp.error) ==> r == resp.error.value
    ensures !Truthy(resp.message) && !Truthy(resp.error) ==>
      r == "Server Error: " + NatToString(resp.status)
  {
    if Truthy(resp.message) then resp.message.value
    else if Truthy(resp.error) then resp.error.value
    else "Server Error: " + NatToString(resp.status)
  }

  /** The engine's message for reading `organizerId` of a missing `user`. */
  const MissingUserMessage: string := "Cannot read properties of undefined (reading 'organizerId')"

  /** What `data.user.organizerId` yields: a string, or `undefined`. */
  datatype OrgIdSlot = Null | Undefined | Text(id: string)

  /** `{...data.user, role: userRole}`. */
  function LoginUser(user: Option<Record>, role: Role): (r: Record)
    ensures "role" in r && r["role"] == role.Name()
    ensures forall k :: k in r && k != "role" ==> user.Some? && k in user.value && r[k] == user.value[k]
    ensures user.Some? ==> forall k :: k in user.value && k != "role" ==> k in r && r[k] == user.value[k]
  {
    (if user.Some? then user.value else map[])["role" := role.Name()]
  }

  /** How a response ends the submission. */
  datatype Outcome =
    | Failed(message: string)
    | OrganizerCreated(success: string, orgId: OrgIdSlot, user: Record)
    | LoggedIn(success: string, user: Record)

  /** The part of `handleSubmit` after `fetch` resolves, for the mode and
      role the request was sent with. */
  function Settle(mode: AuthMode, role: Role, resp: Response): Outcome {
    if !AcceptsContentType(resp.contentType) then Failed(CaughtMessage(ContentTypeMessage(resp.contentType)))
    else if !resp.ok then Failed(ErrorMessage(resp))
    else if mode == Signup && role == Organizer then
      if resp.user.None? then Failed(CaughtMessage(MissingUserMessage))
      else
        var u := resp.user.value;
        OrganizerCreated("✅ " + Interpolate(resp.message),
                         if "organizerId" in u then Text(u["organizerId"]) else Undefined,
                         LoginUser(resp.user, role))
    else LoggedIn(if Truthy(resp.message) then resp.message.value else "Success!", LoginUser(resp.user, role))
  }

  /** A submission fails exactly on a wrong content type, an error status,
      or an organizer signup answered without a user. */
  lemma SettleFails(mode: AuthMode, role: Role, resp: Response)
    ensures Settle(mode, role, resp).Failed? <==>
      !AcceptsContentType(resp.contentType) || !resp.ok ||
      (mode == Signup && role == Organizer && resp.user.None?)
    ensures Settle(mode, role, resp).Failed? ==> Settle(mode, role, resp).message != ""
  {
  }

  /** An accepted organizer signup never logs in at once; every other
      accepted answer logs in with the role the request was sent for. */
  lemma SettleSucceeds(mode: AuthMode, role: Role, resp: Response)
    requires AcceptsContentType(resp.contentType) && resp.ok
    ensures mode == Signup && role == Organizer && resp.user.Some? ==>
      Settle(mode, role, resp).OrganizerCreated? && Settle(mode, role, resp).user["role"] == "organizer"
    ensures !(mode == Signup && role == Organizer) ==>
      Settle(mode, role, resp).LoggedIn? && Settle(mode, role, resp).user["role"] == role.Name()
  {
  }

  /** The user an accepted answer carries: an organizer waiting for the
      timer, with an id slot that is never `null`, or a user with a
      dashboard. */
  lemma SettledUser(mode: AuthMode, role: Role, resp: Response)
    ensures Settle(mode, role, resp).OrganizerCreated? ==>
      Settle(mode, role, resp).orgId != Null &&
      "role" in Settle(mode, role, resp).user && Settle(mode, role, resp).user["role"] == "organizer"
    ensures Settle(mode, role, resp).LoggedIn? ==> Dispatch(Some(Settle(mode, role, resp).user)) != Landing
  {
    if Settle(mode, role, resp).LoggedIn? {
      DispatchLoggedIn(resp.user, role);
    }
  }

  /** The role in the body never overrides the role chosen on the page. */
  lemma RoleChosenOnPage(role: Role, user: Record)
    requires "role" in user && user["role"] != role.Name()
    ensures LoginUser(Some(user), role)["role"] == role.Name() != user["role"]
  {
  }

  /** A JSON answer whose content type merely mentions JSON is accepted. */
  lemma CharsetContentType()
    ensures AcceptsContentType(Some("application/json; charset=utf-8"))
    ensures !AcceptsContentType(Some("text/html")) && !AcceptsContentType(None)
  {
    assert OccursAt("application/json; charset=utf-8", "application/json", 0);
  }

  // ---------------------------------------------------------------------
  // Which page is shown
  // ---------------------------------------------------------------------

  datatype View = Landing | StudentHome | OrganizerHome | FacultyHome

  /** The early returns at the top of `App`: a dashboard exactly for a
      user whose role is one of the three. */
  function Dispatch(loggedInUser: Option<Record>): (v: View)
    ensures v != Landing <==>
      (loggedInUser.Some? && "role" in loggedInUser.value &&
       (loggedInUser.value["role"] == "student" || loggedInUser.value["role"] == "organizer" ||
        loggedInUser.value["role"] == "faculty"))
  {
    if loggedInUser.None? || "role" !in loggedInUser.value then Landing
    else if loggedInUser.value["role"] == "student" then StudentHome
    else if loggedInUser.value["role"] == "organizer" then OrganizerHome
    else if loggedInUser.value["role"] == "faculty" then FacultyHome
    else Landing
  }

  function HomeOf(role: Role): View {
    match role
    case Student => StudentHome
    case Faculty => FacultyHome
    case Organizer => OrganizerHome
  }

  /** A user logged in for a role sees that role's dashboard, whatever the
      server put in the record. */
  lemma DispatchLoggedIn(user: Option<Record>, role: Role)
    ensures Dispatch(Some(LoginUser(user, role))) == HomeOf(role) != Landing
  {
  }

  /** Any record whose role names no dashboard shows the landing page. */
  lemma DispatchUnknownRole(u: Record)
    requires "role" in u && u["role"] !in {"student", "organizer", "faculty"}
    ensures Dispatch(Some(u)) == Landing
  {
  }

  /** A request on its way, with the mode and role current when it was sent. */
  datatype Request = Request(mode: AuthMode, role: Role, payload: Payload)

  /** The page component. */
  class App {
    var showAuthModal: bool
    var authMode: AuthMode
    var userRole: Role
    var loading: bool
    var error: string
    var success: string
    var successOrgId: OrgIdSlot
    var loggedInUser: Option<Record>
    var formData: AuthForm
    /** Requests sent and not yet answered. */
    var pending: seq<Request>
    /** Users waiting for the five-second login of an organizer signup. */
    var timers: seq<Record>

    /** A logged-in user always has a dashboard, and only organizer signups
        wait on a timer. */
    ghost predicate Valid()
      reads this
    {
      (loggedInUser.Some? ==> Dispatch(loggedInUser) != Landing) &&
      forall k :: 0 <= k < |timers| ==> "role" in timers[k] && timers[k]["role"] == "organizer"
    }

    /** Submitting is blocked while loading or once an id was received. */
    function SubmitDisabled(): (r: bool)
      reads this
      ensures !r ==> !loading && successOrgId.Null?
    {
      loading || successOrgId != Null
    }

    /** What the copy button writes to the clipboard, if anything. */
    function CopyTarget(): (r: Option<string>)
      reads this
      ensures r.Some? <==> successOrgId.Text? && successOrgId.id != ""
      ensures r.Some? ==> r.value == successOrgId.id
    {
      if successOrgId.Text? && successOrgId.id != "" then Some(successOrgId.id) else None
    }

    /** Whether the organisation id panel is drawn: it sits inside the
        modal, so only while the modal is open, and then only in organizer
        sign-up with a non-empty id. While it shows, the submit button is
        disabled. */
    function ShowsOrgIdPanel(): (r: bool)
      reads this
      ensures r <==> showAuthModal && authMode == Signup && userRole == Organizer &&
                     successOrgId.Text? && successOrgId.id != ""
      ensures r ==> SubmitDisabled()
    {
      showAuthModal && authMode == Signup && userRole == Organizer && CopyTarget().Some?
    }

    function CurrentView(): View
      reads this
    {
      Dispatch(loggedInUser)
    }

    constructor ()
      ensures Valid() && CurrentView() == Landing && !SubmitDisabled()
      ensures !showAuthModal && authMode == Login && userRole == Student
      ensures !loading && error == "" && success == "" && successOrgId == Null
      ensures loggedInUser == None && formData == BlankForm && pending == [] && timers == []
    {
      showAuthModal, authMode, userRole := false, Login, Student;
      loading, error, success, successOrgId := false, "", "", Null;
      loggedInUser, formData := None, BlankForm;
      pending, timers := [], [];
    }

    /** `handleAuthClick(mode)`: a fresh modal for that mode, as a student. */
    method HandleAuthClick(mode: AuthMode)
      requires Valid()
      modifies this
      ensures Valid() && !SubmitDisabled() && !ShowsOrgIdPanel()
      ensures showAuthModal && authMode == mode && userRole == Student
      ensures !loading && error == "" && success == "" && successOrgId == Null && formData == BlankForm
      ensures loggedInUser == old(loggedInUser) && pending == old(pending) && timers == old(timers)
    {
      authMode, userRole, showAuthModal, formData := mode, Student, true, BlankForm;
      error, success, successOrgId, loading := "", "", Null, false;
    }

    /** `handleRoleToggle(role)`. */
    method HandleRoleToggle(role: Role)
      requires Valid()
      modifies this
      ensures Valid()
      ensures userRole == role && error == ""
      ensures showAuthModal == old(showAuthModal) && authMode == old(authMode) && loading == old(loading)
      ensures success == old(success) && successOrgId == old(successOrgId) && loggedInUser == old(loggedInUser)
      ensures formData == old(formData) && pending == old(pending) && timers == old(timers)
    {
      userRole := role;
      error := "";
    }

    /** `handleLogout`: back to the landing page, in login mode. */
    method HandleLogout()
      requires Valid()
      modifies this
      ensures Valid() && CurrentView() == Landing
      ensures loggedInUser == None && authMode == Login
      ensures showAuthModal == old(showAuthModal) && userRole == old(userRole) && loading == old(loading)
      ensures error == old(error) && success == old(success) && successOrgId == old(successOrgId)
      ensures formData == old(formData) && pending == old(pending) && timers == old(timers)
    {
      loggedInUser := None;
      authMode := Login;
    }

    /** The overlay and the close button hide the modal. */
    method CloseModal()
      requires Valid()
      modifies this
      ensures Valid() && !showAuthModal && !ShowsOrgIdPanel()
      ensures authMode == old(authMode) && userRole == old(userRole) && loading == old(loading)
      ensures error == old(error) && success == old(success) && successOrgId == old(successOrgId)
      ensures loggedInUser == old(loggedInUser) && formData == old(formData)
      ensures pending == old(pending) && timers == old(timers)
    {
      showAuthModal := false;
    }

    /** The "Sign Up" / "Login" link under the form. */
    method SwitchAuthMode()
      requires Valid()
      modifies this
      ensures Valid()
      ensures authMode == (if old(authMode) == Login then Signup else Login)
      ensures error == "" && success == "" && successOrgId == Null
      ensures !ShowsOrgIdPanel()
      ensures showAuthModal == old(showAuthModal) && userRole == old(userRole) && loading == old(loading)
      ensures loggedInUser == old(loggedInUser) && formData == old(formData)
      ensures pending == old(pending) && timers == old(timers)
    {
      authMode := if authMode == Login then Signup else Login;
      error, success, successOrgId := "", "", Null;
    }

    /** `handleInputChange`: one field of the form. */
    method HandleInputChange(field: AuthField, value: string)
      requires Valid()
      modifies this
      ensures Valid()
      ensures formData == WithField(old(formData), field, value)
      ensures showAuthModal == old(showAuthModal) && authMode == old(authMode) && userRole == old(userRole)
      ensures loading == old(loading) && error == old(error) && success == old(success)
      ensures successOrgId == old(successOrgId) && loggedInUser == old(loggedInUser)
      ensures pending == old(pending) && timers == old(timers)
    {
      formData := WithField(formData, field, value);
    }

    /** `handleSubmit` up to the `fetch`: either a check stops it, or the
        request joins the pending ones. The form exists only while the modal
        is open, and its submit button is disabled while loading or once an
        id was received, so it only fires from an open modal with the button
        enabled; a request in flight disables it again. */
    method HandleSubmit()
      requires Valid() && showAuthModal && !SubmitDisabled()
      modifies this
      ensures Valid()
      ensures |pending| > |old(pending)| ==> SubmitDisabled()
      ensures success == "" && successOrgId == Null
      ensures match PrepareRequest(old(authMode), old(userRole), old(formData))
        case Err(m) => (error == m && !loading && pending == old(pending))
        case Ok(p) => (error == "" && loading &&
          pending == old(pending) + [Request(old(authMode), old(userRole), p)])
      ensures showAuthModal && authMode == old(authMode) && userRole == old(userRole)
      ensures loggedInUser == old(loggedInUser) && formData == old(formData) && timers == old(timers)
    {
      SendOrRefuse(PrepareRequest(authMode, userRole, formData));
    }

    /** Shows the refusal, or sends the payload with the current mode and
        role. */
    method SendOrRefuse(prepared: Result<Payload>)
      requires Valid() && showAuthModal && !SubmitDisabled()
      modifies this
      ensures Valid()
      ensures |pending| > |old(pending)| ==> SubmitDisabled()
      ensures success == "" && successOrgId == Null
      ensures match prepared
        case Err(m) => (error == m && !loading && pending == old(pending))
        case Ok(p) => (error == "" && loading &&
          pending == old(pending) + [Request(old(authMode), old(userRole), p)])
      ensures showAuthModal && authMode == old(authMode) && userRole == old(userRole)
      ensures loggedInUser == old(loggedInUser) && formData == old(formData) && timers == old(timers)
    {
      success, successOrgId := "", Null;
      match prepared
      case Err(m) =>
        error, loading := m, false;
      case Ok(p) =>
        error, loading := "", true;
        pending := pending + [Request(authMode, userRole, p)];
    }

    /** The `k`-th pending request is answered. */
    method ReceiveResponse(k: nat, resp: Response)
      requires Valid() && k < |pending|
      modifies this
      ensures Valid()
      ensures pending == old(pending[..k] + pending[k + 1..])
      ensures match Settle(old(pending[k]).mode, old(pending[k]).role, resp)
        case Failed(m) => (
          error == m && !loading && success == old(success) && successOrgId == old(successOrgId) &&
          loggedInUser == old(loggedInUser) && showAuthModal == old(showAuthModal) && timers == old(timers))
        case OrganizerCreated(s, id, u) => (
          success == s && successOrgId == id && timers == old(timers) + [u] && SubmitDisabled() &&
          error == old(error) && loading == old(loading) &&
          loggedInUser == old(loggedInUser) && showAuthModal == old(showAuthModal) &&
          (ShowsOrgIdPanel() <==> old(showAuthModal) && old(authMode) == Signup &&
                                  old(userRole) == Organizer && id.Text? && id.id != ""))
        case LoggedIn(s, u) => (
          success == s && loggedInUser == Some(u) && !showAuthModal && CurrentView() != Landing &&
          error == old(error) && loading == old(loading) && successOrgId == old(successOrgId) &&
          timers == old(timers))
      ensures authMode == old(authMode) && userRole == old(userRole) && formData == old(formData)
    {
      var request := pending[k];
      pending := pending[..k] + pending[k + 1..];
      SettledUser(request.mode, request.role, resp);
      ApplyOutcome(Settle(request.mode, request.role, resp));
    }

    /** The state changes of a settled submission. */
    method ApplyOutcome(outcome: Outcome)
      requires Valid()
      requires outcome.OrganizerCreated? ==>
        outcome.orgId != Null && "role" in outcome.user && outcome.user["role"] == "organizer"
      requires outcome.LoggedIn? ==> Dispatch(Some(outcome.user)) != Landing
      modifies this
      ensures Valid()
      ensures match outcome
        case Failed(m) => (
          error == m && !loading && success == old(success) && successOrgId == old(successOrgId) &&
          loggedInUser == old(loggedInUser) && showAuthModal == old(showAuthModal) && timers == old(timers))
        case OrganizerCreated(s, id, u) => (
          success == s && successOrgId == id && timers == old(timers) + [u] && SubmitDisabled() &&
          error == old(error) && loading == old(loading) &&
          loggedInUser == old(loggedInUser) && showAuthModal == old(showAuthModal))
        case LoggedIn(s, u) => (
          success == s && loggedInUser == Some(u) && !showAuthModal && CurrentView() != Landing &&
          error == old(error) && loading == old(loading) && successOrgId == old(successOrgId) &&
          timers == old(timers))
      ensures pending == old(pending)
      ensures authMode == old(authMode) && userRole == old(userRole) && formData == old(formData)
    {
      match outcome
      case Failed(m) =>
        error := m;
        loading := false;
      case OrganizerCreated(s, id, u) =>
        successOrgId := id;
        success := s;
        timers := timers + [u];
      case LoggedIn(s, u) =>
        success := s;
        loggedInUser := Some(u);
        showAuthModal := false;
    }

    /** The `k`-th pending request fails in transit with this message. */
    method ReceiveFailure(k: nat, message: string)
      requires Valid() && k < |pending|
      modifies this
      ensures Valid()
      ensures pending == old(pending[..k] + pending[k + 1..])
      ensures error == CaughtMessage(message) && !loading
      ensures showAuthModal == old(showAuthModal) && authMode == old(authMode) && userRole == old(userRole)
      ensures success == old(success) && successOrgId == old(successOrgId) && loggedInUser == old(loggedInUser)
      ensures formData == old(formData) && timers == old(timers)
    {
      pending := pending[..k] + pending[k + 1..];
      error := CaughtMessage(message);
      loading := false;
    }

    /** The `k`-th five-second timer fires: the organizer is logged in. */
    method Tick(k: nat)
      requires Valid() && k < |timers|
      modifies this
      ensures Valid()
      ensures loggedInUser == Some(old(timers[k])) && !showAuthModal && !ShowsOrgIdPanel()
      ensures CurrentView() == OrganizerHome
      ensures timers == old(timers[..k] + timers[k + 1..])
      ensures authMode == old(authMode) && userRole == old(userRole) && loading == old(loading)
      ensures error == old(error) && success == old(success) && successOrgId == old(successOrgId)
      ensures formData == old(formData) && pending == old(pending)
    {
      var u := timers[k];
      timers := timers[..k] + timers[k + 1..];
      loggedInUser := Some(u);
      showAuthModal := false;
    }
  }
}
