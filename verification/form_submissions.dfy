/**
 * The `/api/form-submissions` endpoint: the public POST that validates an
 * intake payload and inserts one `form_submissions` row, and the GET that
 * either looks a service up by slug or, for an admin, reads one submission.
 *
 * The database, the session and the parsed request are inputs; the handlers
 * are pure functions of them.
 */
module FormSubmissionsRoute {
  import opened Wrappers
  import opened JsJson
  import opened Backend
  import opened Http
  import C = Columns
  import Types
  import Services

  // ---------------------------------------------------------------------------
  // POST
  // ---------------------------------------------------------------------------

  /** The eight keys the handler destructures from the body. */
  const PayloadKeys: set<string> :=
    {"formType", "serviceId", "fullName", "email", "phone", "company", "industry", "details"}

  /** The columns an intake row sets. */
  const IntakeColumns: set<C.Column> :=
    {C.FormType, C.ServiceId, C.FullName, C.Email, C.Phone, C.Company, C.Industry, C.Details, C.Status}

  const MissingFields := "Missing required fields: formType, fullName, email"

  /** The destructured body; a key the body lacks is `None` (`undefined`). */
  datatype Payload = Payload(
    formType: Option<Json>,
    serviceId: Option<Json>,
    fullName: Option<Json>,
    email: Option<Json>,
    phone: Option<Json>,
    company: Option<Json>,
    industry: Option<Json>,
    details: Option<Json>)

  /** `const { formType, serviceId, … } = body` for a body that is not `null`. */
  function Destructure(body: Json): Payload
    requires body != JNull
  {
    Payload(
      Field(body, "formType"), Field(body, "serviceId"), Field(body, "fullName"),
      Field(body, "email"), Field(body, "phone"), Field(body, "company"),
      Field(body, "industry"), Field(body, "details"))
  }

  /** `formType`, `fullName` and `email` are all truthy. */
  predicate HasRequired(p: Payload) {
    Truthy(p.formType) && Truthy(p.fullName) && Truthy(p.email)
  }

  /**
   * The required-field check: the destructured payload when the three
   * required keys hold truthy values, `None` (a 400) otherwise.
   */
  function Validate(body: Json): (r: Option<Payload>)
    requires body != JNull
    ensures r.Some? <==>
      Truthy(Field(body, "formType")) && Truthy(Field(body, "fullName")) && Truthy(Field(body, "email"))
    ensures r.Some? ==> HasRequired(r.value) && r.value == Destructure(body)
  {
    var p := Destructure(body);
    if HasRequired(p) then Some(p) else None
  }

  /**
   * The row inserted for a valid payload: exactly the nine intake columns;
   * kind, name and email as given; each optional column the value when
   * truthy and `null` otherwise; status `"pending"` whatever the body says.
   */
  function ToRow(p: Payload): (row: C.Row)
    requires HasRequired(p)
    ensures row.Keys == IntakeColumns
    ensures row[C.FormType] == p.formType.value
    ensures row[C.FullName] == p.fullName.value
    ensures row[C.Email] == p.email.value
    ensures row[C.ServiceId] == (if Truthy(p.serviceId) then p.serviceId.value else JNull)
    ensures row[C.Phone] == (if Truthy(p.phone) then p.phone.value else JNull)
    ensures row[C.Company] == (if Truthy(p.company) then p.company.value else JNull)
    ensures row[C.Industry] == (if Truthy(p.industry) then p.industry.value else JNull)
    ensures row[C.Details] == (if Truthy(p.details) then p.details.value else JNull)
    ensures row[C.Status] == JStr(Types.StatusTag(Types.Pending))
  {
    map[
      C.FormType := p.formType.value,
      C.ServiceId := OrNull(p.serviceId),
      C.FullName := p.fullName.value,
      C.Email := p.email.value,
      C.Phone := OrNull(p.phone),
      C.Company := OrNull(p.company),
      C.Industry := OrNull(p.industry),
      C.Details := OrNull(p.details),
      C.Status := JStr("pending")
    ]
  }

  /** No column of an intake row ends up `""`, `0` or `false`: falsy optional values become `null`. */
  lemma IntakeRowHasNoFalsyCell(p: Payload)
    requires HasRequired(p)
    ensures forall c :: c in ToRow(p) ==> NotFalsyCell(ToRow(p)[c])
  {
  }

  /** A stored value that is not `""`, `0` or `false`. */
  predicate NotFalsyCell(v: Json) {
    v != JStr("") && v != JNum(0.0) && v != JBool(false)
  }

  /**
   * The POST handler. `body` is `None` when the request body is not JSON.
   * A non-JSON or `null` body throws (500, no insert); a body missing a
   * required value gets 400 and no insert; otherwise exactly the row of
   * `ToRow` is inserted and the store's reply picks the answer.
   */
  function Post(body: Option<Json>, reply: InsertReply): (ex: Exchange)
    ensures body.None? || body == Some(JNull) ==> ex == Exchange(None, PostCrashed)
    ensures body.Some? && body.value != JNull && Validate(body.value).None? ==>
      ex == Exchange(None, Response(400, ErrorBody(MissingFields)))
    ensures ex.insert.Some? <==> body.Some? && body.value != JNull && Validate(body.value).Some?
    ensures ex.insert.Some? ==> ex.insert.value == ToRow(Validate(body.value).value)
    ensures ex.insert.Some? ==> ex.response == InsertResponse(reply)
    ensures ex.response.status == 201 <==> ex.insert.Some? && reply.Inserted?
  {
    if body.None? || body.value == JNull then Exchange(None, PostCrashed)
    else
      match Validate(body.value)
      case None => Exchange(None, Response(400, ErrorBody(MissingFields)))
      case Some(p) => Exchange(Some(ToRow(p)), InsertResponse(reply))
  }

  /**
   * An accepted object body's kind, name and email are stored as sent, and
   * each optional value as `value || null`.
   */
  lemma SubmittedValuesStored(m: map<string, Json>, reply: InsertReply)
    requires Validate(JObject(m)).Some?
    ensures var ex := Post(Some(JObject(m)), reply);
      && ex.insert.Some?
      && "formType" in m && ex.insert.value[C.FormType] == m["formType"]
      && "fullName" in m && ex.insert.value[C.FullName] == m["fullName"]
      && "email" in m && ex.insert.value[C.Email] == m["email"]
      && ex.insert.value[C.ServiceId] == OrNull(Field(JObject(m), "serviceId"))
      && ex.insert.value[C.Phone] == OrNull(Field(JObject(m), "phone"))
      && ex.insert.value[C.Company] == OrNull(Field(JObject(m), "company"))
      && ex.insert.value[C.Industry] == OrNull(Field(JObject(m), "industry"))
      && ex.insert.value[C.Details] == OrNull(Field(JObject(m), "details"))
  {
  }

  /** Body keys other than the eight destructured ones, `message` among them, change nothing. */
  lemma ExtraKeysIgnored(m: map<string, Json>, k: string, v: Json, reply: InsertReply)
    requires k !in PayloadKeys
    ensures Post(Some(JObject(m[k := v])), reply) == Post(Some(JObject(m)), reply)
  {
    assert Destructure(JObject(m[k := v])) == Destructure(JObject(m));
  }

  /** Whatever the body holds, an inserted row says `"pending"`, a status the type lists. */
  lemma InsertedStatusIsPending(body: Option<Json>, reply: InsertReply)
    ensures var ex := Post(body, reply);
      ex.insert.Some? ==> Types.ParseStatus(ex.insert.value[C.Status].s) == Some(Types.Pending)
  {
  }

  /**
   * A typed client payload with non-empty kind, name and email is accepted
   * whatever the kind is, listed or not; its `message` does not reach the row.
   */
  lemma TypedPayloadAccepted(p: Types.FormSubmissionPayload, reply: InsertReply)
    requires p.formType != "" && p.fullName != "" && p.email != ""
    ensures var ex := Post(Some(Types.PayloadJson(p)), reply);
      && ex.insert.Some?
      && ex.insert.value[C.FormType] == JStr(p.formType)
      && C.Message !in ex.insert.value
  {
    var body := Types.PayloadJson(p);
    assert Field(body, "formType") == Some(JStr(p.formType));
    assert Field(body, "fullName") == Some(JStr(p.fullName));
    assert Field(body, "email") == Some(JStr(p.email));
    var q := Validate(body).value;
    assert ToRow(q).Keys == IntakeColumns;
  }

  /** The row the store holds after an insert: the intake row plus the server-assigned columns. */
  function Stored(row: C.Row, id: string, createdAt: string, updatedAt: string): (stored: C.Row)
    ensures stored.Keys == row.Keys + {C.Id, C.CreatedAt, C.UpdatedAt}
  {
    row[C.Id := JStr(id)][C.CreatedAt := JStr(createdAt)][C.UpdatedAt := JStr(updatedAt)]
  }

  /** The optional text values of a payload are strings or absent. */
  predicate TextOrFalsy(v: Option<Json>) {
    !Truthy(v) || v.value.JStr?
  }

  /** The stored intake row holds the payload's values, the server columns, and nothing for the staff-only columns. */
  lemma StoredIntakeColumns(p: Payload, id: string, createdAt: string, updatedAt: string)
    requires HasRequired(p)
    ensures var stored := Stored(ToRow(p), id, createdAt, updatedAt);
      && stored[C.Id] == JStr(id) && stored[C.CreatedAt] == JStr(createdAt) && stored[C.UpdatedAt] == JStr(updatedAt)
      && stored[C.Status] == JStr("pending")
      && stored[C.FormType] == p.formType.value
      && stored[C.FullName] == p.fullName.value && stored[C.Email] == p.email.value
      && stored[C.ServiceId] == OrNull(p.serviceId) && stored[C.Phone] == OrNull(p.phone)
      && stored[C.Company] == OrNull(p.company) && stored[C.Industry] == OrNull(p.industry)
      && stored[C.Details] == OrNull(p.details)
      && C.ServiceName !in stored && C.InternalNotes !in stored
      && C.AssignedTo !in stored && C.CompletedAt !in stored
  {
    StoredServerColumns(p, id, createdAt, updatedAt);
    StoredStaffColumnsAbsent(p, id, createdAt, updatedAt);
    StoredPayloadColumns(p, id, createdAt, updatedAt);
  }

  /** The server sets the id, the timestamps and the status. */
  lemma StoredServerColumns(p: Payload, id: string, createdAt: string, updatedAt: string)
    requires HasRequired(p)
    ensures var stored := Stored(ToRow(p), id, createdAt, updatedAt);
      && stored[C.Id] == JStr(id) && stored[C.CreatedAt] == JStr(createdAt) && stored[C.UpdatedAt] == JStr(updatedAt)
      && stored[C.Status] == JStr("pending")
  {
  }

  /** The staff-only columns stay absent from a stored intake row. */
  lemma StoredStaffColumnsAbsent(p: Payload, id: string, createdAt: string, updatedAt: string)
    requires HasRequired(p)
    ensures var stored := Stored(ToRow(p), id, createdAt, updatedAt);
      && C.ServiceName !in stored && C.InternalNotes !in stored
      && C.AssignedTo !in stored && C.CompletedAt !in stored
  {
    var row := ToRow(p);
    assert C.ServiceName !in row && C.InternalNotes !in row;
    assert C.AssignedTo !in row && C.CompletedAt !in row;
    AbsentStaysAbsent(row, C.ServiceName, id, createdAt, updatedAt);
    AbsentStaysAbsent(row, C.InternalNotes, id, createdAt, updatedAt);
    AbsentStaysAbsent(row, C.AssignedTo, id, createdAt, updatedAt);
    AbsentStaysAbsent(row, C.CompletedAt, id, createdAt, updatedAt);
  }

  /** Storing adds only the server's columns. */
  lemma AbsentStaysAbsent(row: C.Row, c: C.Column, id: string, createdAt: string, updatedAt: string)
    requires c !in row && c != C.Id && c != C.CreatedAt && c != C.UpdatedAt
    ensures c !in Stored(row, id, createdAt, updatedAt)
  {
  }

  /** The payload's columns keep the values of the intake row. */
  lemma StoredPayloadColumns(p: Payload, id: string, createdAt: string, updatedAt: string)
    requires HasRequired(p)
    ensures var stored := Stored(ToRow(p), id, createdAt, updatedAt);
      && stored[C.FormType] == p.formType.value
      && stored[C.FullName] == p.fullName.value && stored[C.Email] == p.email.value
      && stored[C.ServiceId] == OrNull(p.serviceId) && stored[C.Phone] == OrNull(p.phone)
      && stored[C.Company] == OrNull(p.company) && stored[C.Industry] == OrNull(p.industry)
      && stored[C.Details] == OrNull(p.details)
  {
  }

  /** The condition under which a stored intake row reads back as a `FormSubmission`. */
  predicate Decodable(p: Payload)
    requires HasRequired(p)
  {
    && p.formType.value.JStr? && p.formType.value.s in Types.FormTypes
    && p.fullName.value.JStr? && p.email.value.JStr?
    && TextOrFalsy(p.serviceId) && TextOrFalsy(p.phone)
    && TextOrFalsy(p.company) && TextOrFalsy(p.industry)
  }

  /**
   * A stored intake row whose kind is a listed tag and whose text values
   * are strings reads back as a `Pending` `FormSubmission` that keeps the
   * id, name and email.
   */
  lemma StoredIntakeDecodes(p: Payload, id: string, createdAt: string, updatedAt: string)
    requires HasRequired(p) && Decodable(p)
    ensures var f := Types.DecodeSubmission(Stored(ToRow(p), id, createdAt, updatedAt));
      && f.Some? && f.value.status == Types.Pending && f.value.id == id
      && JStr(f.value.fullName) == p.fullName.value && JStr(f.value.email) == p.email.value
  {
    var stored := Stored(ToRow(p), id, createdAt, updatedAt);
    StoredIntakeColumns(p, id, createdAt, updatedAt);
    assert Types.RequiredText(stored, C.Id) == Some(id);
    assert Types.RequiredText(stored, C.FormType) == Some(p.formType.value.s);
    assert Types.ParseFormType(p.formType.value.s).Some?;
    assert Types.RequiredText(stored, C.Status) == Some("pending");
    assert Types.ParseStatus("pending") == Some(Types.Pending);
    assert Types.NullableText(stored, C.ServiceId).Some?;
    assert Types.NullableText(stored, C.ServiceName) == Some(None);
    assert Types.RequiredText(stored, C.FullName) == Some(p.fullName.value.s);
    assert Types.RequiredText(stored, C.Email) == Some(p.email.value.s);
    assert Types.NullableText(stored, C.Phone).Some?;
    assert Types.NullableText(stored, C.Company).Some?;
    assert Types.NullableText(stored, C.Industry).Some?;
    assert Types.NullableText(stored, C.InternalNotes) == Some(None);
    assert Types.NullableText(stored, C.AssignedTo) == Some(None);
    assert Types.RequiredText(stored, C.CreatedAt) == Some(createdAt);
    assert Types.RequiredText(stored, C.UpdatedAt) == Some(updatedAt);
    assert Types.NullableText(stored, C.CompletedAt) == Some(None);
  }

  /**
   * Conversely, a stored intake row with an unlisted kind, or with a
   * non-string text value, is not a `FormSubmission`: the payload's
   * `FormType | string` kind is wider than the record's.
   */
  lemma StoredIntakeRejected(p: Payload, id: string, createdAt: string, updatedAt: string)
    requires HasRequired(p) && !Decodable(p)
    ensures Types.DecodeSubmission(Stored(ToRow(p), id, createdAt, updatedAt)).None?
  {
    var stored := Stored(ToRow(p), id, createdAt, updatedAt);
    StoredIntakeColumns(p, id, createdAt, updatedAt);
    var f := Types.DecodeSubmission(stored);
    if f.Some? {
      Types.FormTypesAreEightDistinctTags();
      assert p.formType.value == JStr(Types.FormTypeTag(f.value.formType));
      assert TextOrFalsy(p.serviceId) && TextOrFalsy(p.phone) && TextOrFalsy(p.company) && TextOrFalsy(p.industry);
      assert false;
    }
  }

  // ---------------------------------------------------------------------------
  // GET
  // ---------------------------------------------------------------------------

  /** What `auth.getUser()` yields: no user, a signed-in user, or a rejection. */
  datatype Auth = Anonymous | SignedIn(userId: string) | AuthThrew

  /** The `users` columns the role check reads. */
  datatype Profile = Profile(authId: string, role: string)

  /** A backend read the GET handler issues, in order. */
  datatype Read =
    | ServiceLookup(slug: string)
    | UserLookup
    | RoleLookup(authId: string)
    | SubmissionLookup(id: string)

  /** What one GET does: the reads it issues and its answer. */
  datatype ReadExchange = ReadExchange(issued: seq<Read>, response: Response)

  const ServiceNotFound := "Service not found"
  const Unauthorized := "Unauthorized"
  const Forbidden := "Forbidden: Only admins can view submissions"
  const SubmissionNotFound := "Submission not found"
  const ParamRequired := "submissionId or serviceId query parameter required"
  const Unexpected := "An unexpected error occurred"

  /** `.eq('auth_id', id)` on `users`. */
  function AuthIdIs(authId: string): Profile -> bool {
    (p: Profile) => p.authId == authId
  }

  /** `.eq('id', id)` on `form_submissions`. */
  function IdIs(id: string): C.Row -> bool {
    (row: C.Row) => C.Id in row && row[C.Id] == JStr(id)
  }

  /**
   * `userProfile?.role`: the role of the one profile of the user; `undefined`
   * when the query fails or `.single()` finds no profile or several.
   */
  function ProfileRole(users: Table<Profile>, authId: string): (role: Option<string>)
    ensures role.Some? ==> users.Rows? && Profile(authId, role.value) in users.rows
    ensures role.Some? <==> users.Rows? && |Where(users.rows, AuthIdIs(authId))| == 1
  {
    match users
    case Failing(_) => None
    case Rows(rows) =>
      match Single(rows, AuthIdIs(authId))
      case None => None
      case Some(p) => Some(p.role)
  }

  /** Only a profile whose role is exactly `"admin"` may read submissions. */
  predicate IsAdmin(role: Option<string>) {
    role == Some("admin")
  }

  /** The one submission with that id, or `None` when `.single()` errs. */
  function SubmissionById(submissions: Table<C.Row>, id: string): (row: Option<C.Row>)
    ensures row.Some? ==> submissions.Rows? && row.value in submissions.rows
    ensures row.Some? ==> C.Id in row.value && row.value[C.Id] == JStr(id)
    ensures row.Some? <==> submissions.Rows? && |Where(submissions.rows, IdIs(id))| == 1
  {
    match submissions
    case Failing(_) => None
    case Rows(rows) => Single(rows, IdIs(id))
  }

  /**
   * The GET handler. A truthy `serviceId` selects the service lookup even
   * when `submissionId` is also given. Otherwise a truthy `submissionId`
   * runs, first match wins: no user 401, role other than `"admin"` 403,
   * lookup failure 404, else 200 with the row; the submission is read only
   * after both checks pass. With neither parameter the answer is 400.
   */
  function HandleGet(
    serviceId: Option<string>, submissionId: Option<string>,
    services: Table<Services.ServiceRow>, auth: Auth,
    users: Table<Profile>, submissions: Table<C.Row>): (ex: ReadExchange)
    ensures ParamTruthy(serviceId) ==> ex.issued == [ServiceLookup(serviceId.value)]
    ensures ParamTruthy(serviceId) ==>
      match Services.ServiceBySlug(services, serviceId.value)
      case None => ex.response == Response(404, ErrorBody(ServiceNotFound))
      case Some(s) => ex.response == Response(200, ServiceBody(s))
    ensures !ParamTruthy(serviceId) && !ParamTruthy(submissionId) ==>
      ex == ReadExchange([], Response(400, ErrorBody(ParamRequired)))
    ensures ex.response.status == 401 <==>
      !ParamTruthy(serviceId) && ParamTruthy(submissionId) && auth.Anonymous?
    ensures ex.response.status == 403 <==>
      !ParamTruthy(serviceId) && ParamTruthy(submissionId) && auth.SignedIn?
      && !IsAdmin(ProfileRole(users, auth.userId))
    ensures !ParamTruthy(serviceId) && ParamTruthy(submissionId) && auth.AuthThrew? ==>
      ex.response == Response(500, ErrorBody(Unexpected))
    ensures forall i :: 0 <= i < |ex.issued| && ex.issued[i].SubmissionLookup? ==>
      auth.SignedIn? && IsAdmin(ProfileRole(users, auth.userId))
    ensures (!ParamTruthy(serviceId) && ParamTruthy(submissionId) && auth.SignedIn?
             && IsAdmin(ProfileRole(users, auth.userId))) ==>
      match SubmissionById(submissions, submissionId.value)
      case None => ex.response == Response(404, ErrorBody(SubmissionNotFound))
      case Some(row) => ex.response == Response(200, RowBody(row))
  {
    if ParamTruthy(serviceId) then
      var issued := [ServiceLookup(serviceId.value)];
      match Services.ServiceBySlug(services, serviceId.value)
      case None => ReadExchange(issued, Response(404, ErrorBody(ServiceNotFound)))
      case Some(s) => ReadExchange(issued, Response(200, ServiceBody(s)))
    else if ParamTruthy(submissionId) then
      match auth
      case AuthThrew => ReadExchange([UserLookup], Response(500, ErrorBody(Unexpected)))
      case Anonymous => ReadExchange([UserLookup], Response(401, ErrorBody(Unauthorized)))
      case SignedIn(uid) =>
        var issued := [UserLookup, RoleLookup(uid)];
        if !IsAdmin(ProfileRole(users, uid)) then
          ReadExchange(issued, Response(403, ErrorBody(Forbidden)))
        else
          var issued := issued + [SubmissionLookup(submissionId.value)];
          match SubmissionById(submissions, submissionId.value)
          case None => ReadExchange(issued, Response(404, ErrorBody(SubmissionNotFound)))
          case Some(row) => ReadExchange(issued, Response(200, RowBody(row)))
    else
      ReadExchange([], Response(400, ErrorBody(ParamRequired)))
  }

  /**
   * A caller who is not an admin learns nothing about which submissions
   * exist: the answer is the same whatever the table holds.
   */
  lemma NonAdminCannotProbe(
    serviceId: Option<string>, submissionId: Option<string>,
    services: Table<Services.ServiceRow>, auth: Auth, users: Table<Profile>,
    table1: Table<C.Row>, table2: Table<C.Row>)
    requires !(auth.SignedIn? && IsAdmin(ProfileRole(users, auth.userId)))
    ensures HandleGet(serviceId, submissionId, services, auth, users, table1)
         == HandleGet(serviceId, submissionId, services, auth, users, table2)
  {
  }

  /** Of the listed roles only `admin` passes the read check. */
  lemma OnlyAdminRoleReads(r: Types.UserRole)
    ensures IsAdmin(Some(Types.RoleTag(r))) <==> r == Types.Admin
  {
  }

  /** A signed-in user without exactly one profile is refused with 403, never 404 or 200. */
  lemma MissingProfileIsForbidden(
    submissionId: string, services: Table<Services.ServiceRow>, uid: string,
    users: Table<Profile>, submissions: Table<C.Row>)
    requires submissionId != ""
    requires users.Rows? ==> Where(users.rows, AuthIdIs(uid)) == []
    ensures HandleGet(None, Some(submissionId), services, SignedIn(uid), users, submissions).response
         == Response(403, ErrorBody(Forbidden))
  {
  }
}
