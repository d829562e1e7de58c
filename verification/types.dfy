/**
 * The shared domain vocabulary: the enumerations of form kinds, submission
 * statuses and user roles, the `FormSubmission` and `Contact` records as the
 * backend stores them, and the client payload and response shapes.
 *
 * A stored row is a JSON object keyed by column name; `Decode…` reads a
 * typed record out of such a row and `Encode…` writes one back, with SQL
 * NULL appearing as JSON `null`.
 */
module Types {
  import opened Wrappers
  import opened JsJson
  import C = Columns
  type Row = C.Row

  // ---------------------------------------------------------------------------
  // Form kinds
  // ---------------------------------------------------------------------------

  /** The kinds of intake form a submission can come from. */
  datatype FormType =
    | ServiceInquiry
    | ContactForm
    | ClassEcsEcns
    | IcasaTypeApprovals
    | LicenseExemptions
    | NrcsLoa
    | RadioDealer
    | SkiBoatVhf

  /** The tags of every form kind, in declaration order. */
  const FormTypes: seq<string> := [
    "service-inquiry",
    "contact",
    "class-ecs-ecns",
    "icasa-type-approvals",
    "license-exemptions",
    "nrcs-loa",
    "radio-dealer",
    "ski-boat-vhf"
  ]

  /** The tag a form kind is stored under. */
  function FormTypeTag(t: FormType): (tag: string)
    ensures tag in FormTypes
  {
    match t
    case ServiceInquiry => "service-inquiry"
    case ContactForm => "contact"
    case ClassEcsEcns => "class-ecs-ecns"
    case IcasaTypeApprovals => "icasa-type-approvals"
    case LicenseExemptions => "license-exemptions"
    case NrcsLoa => "nrcs-loa"
    case RadioDealer => "radio-dealer"
    case SkiBoatVhf => "ski-boat-vhf"
  }

  /** Reads a form kind back from its tag; anything outside the list is rejected. */
  function ParseFormType(tag: string): (r: Option<FormType>)
    ensures r.Some? <==> tag in FormTypes
    ensures r.Some? ==> FormTypeTag(r.value) == tag
  {
    if tag == "service-inquiry" then Some(ServiceInquiry)
    else if tag == "contact" then Some(ContactForm)
    else if tag == "class-ecs-ecns" then Some(ClassEcsEcns)
    else if tag == "icasa-type-approvals" then Some(IcasaTypeApprovals)
    else if tag == "license-exemptions" then Some(LicenseExemptions)
    else if tag == "nrcs-loa" then Some(NrcsLoa)
    else if tag == "radio-dealer" then Some(RadioDealer)
    else if tag == "ski-boat-vhf" then Some(SkiBoatVhf)
    else None
  }

  /** The list holds eight distinct tags, and tagging is a bijection onto it. */
  lemma FormTypesAreEightDistinctTags()
    ensures |FormTypes| == 8
    ensures forall i, j :: 0 <= i < j < |FormTypes| ==> FormTypes[i] != FormTypes[j]
    ensures forall t: FormType :: ParseFormType(FormTypeTag(t)) == Some(t)
  {
  }

  // ---------------------------------------------------------------------------
  // Submission statuses
  // ---------------------------------------------------------------------------

  /** The review states of a stored submission. */
  datatype SubmissionStatus = Pending | InProgress | Completed | Rejected | Archived

  /** The tags of every status, in declaration order. */
  const SubmissionStatuses: seq<string> := [
    "pending",
    "in-progress",
    "completed",
    "rejected",
    "archived"
  ]

  /** The tag a status is stored under. */
  function StatusTag(s: SubmissionStatus): (tag: string)
    ensures tag in SubmissionStatuses
  {
    match s
    case Pending => "pending"
    case InProgress => "in-progress"
    case Completed => "completed"
    case Rejected => "rejected"
    case Archived => "archived"
  }

  /** Reads a status back from its tag; anything outside the list is rejected. */
  function ParseStatus(tag: string): (r: Option<SubmissionStatus>)
    ensures r.Some? <==> tag in SubmissionStatuses
    ensures r.Some? ==> StatusTag(r.value) == tag
  {
    if tag == "pending" then Some(Pending)
    else if tag == "in-progress" then Some(InProgress)
    else if tag == "completed" then Some(Completed)
    else if tag == "rejected" then Some(Rejected)
    else if tag == "archived" then Some(Archived)
    else None
  }

  /** Five distinct statuses, among them the `"pending"` the intake writes. */
  lemma SubmissionStatusesAreFiveDistinctTags()
    ensures |SubmissionStatuses| == 5
    ensures forall i, j :: 0 <= i < j < |SubmissionStatuses| ==> SubmissionStatuses[i] != SubmissionStatuses[j]
    ensures "pending" in SubmissionStatuses && ParseStatus("pending") == Some(Pending)
  {
  }

  // ---------------------------------------------------------------------------
  // User roles
  // ---------------------------------------------------------------------------

  /** The roles a staff user can hold. */
  datatype UserRole = Admin | Editor | User

  /** The tags of every role, in declaration order. */
  const UserRoles: seq<string> := ["admin", "editor", "user"]

  /** The tag a role is stored under. */
  function RoleTag(r: UserRole): (tag: string)
    ensures tag in UserRoles
  {
    match r
    case Admin => "admin"
    case Editor => "editor"
    case User => "user"
  }

  // ---------------------------------------------------------------------------
  // Column decoding helpers
  // ---------------------------------------------------------------------------

  /** A required text column: present and a JSON string. */
  function RequiredText(row: Row, c: C.Column): (r: Option<string>)
    ensures r.Some? <==> c in row && row[c].JStr?
    ensures r.Some? ==> row[c] == JStr(r.value)
  {
    if c in row && row[c].JStr? then Some(row[c].s) else None
  }

  /** A nullable text column: absent or `null` reads as `None`, a string as itself, anything else fails. */
  function NullableText(row: Row, c: C.Column): (r: Option<Option<string>>)
    ensures r == Some(None) <==> c !in row || row[c] == JNull
    ensures forall s :: r == Some(Some(s)) <==> c in row && row[c] == JStr(s)
  {
    if c !in row || row[c] == JNull then Some(None)
    else if row[c].JStr? then Some(Some(row[c].s))
    else None
  }

  /** A nullable JSON column: absent or `null` reads as `None`, any other value as itself. */
  function NullableJson(row: Row, c: C.Column): (r: Option<Json>)
    ensures r.None? <==> c !in row || row[c] == JNull
    ensures r.Some? ==> row[c] == r.value && r.value != JNull
  {
    if c !in row || row[c] == JNull then None else Some(row[c])
  }

  /** How a nullable text value is written to its column. */
  function TextOrNull(v: Option<string>): (j: Json)
    ensures v.None? <==> j == JNull
    ensures v.Some? ==> j == JStr(v.value)
  {
    match v
    case Some(s) => JStr(s)
    case None => JNull
  }

  // ---------------------------------------------------------------------------
  // FormSubmission
  // ---------------------------------------------------------------------------

  /**
   * One stored inquiry. The identifier, kind, status, name, email and the
   * two timestamps are always present; every other column may be null.
   */
  datatype FormSubmission = FormSubmission(
    id: string,
    formType: FormType,
    status: SubmissionStatus,
    serviceId: Option<string>,
    serviceName: Option<string>,
    fullName: string,
    email: string,
    phone: Option<string>,
    company: Option<string>,
    industry: Option<string>,
    details: Option<Json>,
    internalNotes: Option<string>,
    assignedTo: Option<string>,
    createdAt: string,
    updatedAt: string,
    completedAt: Option<string>)

  /** A record whose JSON details are not the JSON `null`, which the store cannot tell apart from SQL NULL. */
  predicate StorableSubmission(f: FormSubmission) {
    f.details != Some(JNull)
  }

  /** The value a submission record stores in one of its columns. */
  function SubmissionCell(f: FormSubmission, c: C.Column): Json {
    match c
    case Id => JStr(f.id)
    case FormType => JStr(FormTypeTag(f.formType))
    case Status => JStr(StatusTag(f.status))
    case ServiceId => TextOrNull(f.serviceId)
    case ServiceName => TextOrNull(f.serviceName)
    case FullName => JStr(f.fullName)
    case Email => JStr(f.email)
    case Phone => TextOrNull(f.phone)
    case Company => TextOrNull(f.company)
    case Industry => TextOrNull(f.industry)
    case Details => f.details.GetOr(JNull)
    case InternalNotes => TextOrNull(f.internalNotes)
    case AssignedTo => TextOrNull(f.assignedTo)
    case CreatedAt => JStr(f.createdAt)
    case UpdatedAt => JStr(f.updatedAt)
    case CompletedAt => TextOrNull(f.completedAt)
    case _ => JNull
  }

  /** The row the store holds for a submission record: every column, the required ones as strings. */
  function EncodeSubmission(f: FormSubmission): (row: Row)
    ensures row.Keys == C.SubmissionColumns
  {
    map c | c in C.SubmissionColumns :: SubmissionCell(f, c)
  }

  /**
   * Reads a submission record out of a stored row. It fails when a required
   * column is missing or not a string, when the kind or status is not one of
   * the listed tags, or when a nullable text column holds a non-string.
   */
  function DecodeSubmission(row: Row): (r: Option<FormSubmission>)
    ensures r.Some? ==> forall c :: c in C.SubmissionRequired ==> c in row && row[c].JStr?
    ensures r.Some? ==> row[C.FormType] == JStr(FormTypeTag(r.value.formType))
    ensures r.Some? ==> row[C.Status] == JStr(StatusTag(r.value.status))
    ensures r.Some? ==> row[C.FullName] == JStr(r.value.fullName) && row[C.Email] == JStr(r.value.email)
    ensures r.Some? ==> forall c :: c in C.SubmissionNullableText && c in row ==> row[c] == JNull || row[c].JStr?
  {
    var id :- RequiredText(row, C.Id);
    var formTag :- RequiredText(row, C.FormType);
    var formType :- ParseFormType(formTag);
    var statusTag :- RequiredText(row, C.Status);
    var status :- ParseStatus(statusTag);
    var serviceId :- NullableText(row, C.ServiceId);
    var serviceName :- NullableText(row, C.ServiceName);
    var fullName :- RequiredText(row, C.FullName);
    var email :- RequiredText(row, C.Email);
    var phone :- NullableText(row, C.Phone);
    var company :- NullableText(row, C.Company);
    var industry :- NullableText(row, C.Industry);
    var internalNotes :- NullableText(row, C.InternalNotes);
    var assignedTo :- NullableText(row, C.AssignedTo);
    var createdAt :- RequiredText(row, C.CreatedAt);
    var updatedAt :- RequiredText(row, C.UpdatedAt);
    var completedAt :- NullableText(row, C.CompletedAt);
    Some(FormSubmission(id, formType, status, serviceId, serviceName, fullName, email,
                        phone, company, industry, NullableJson(row, C.Details),
                        internalNotes, assignedTo, createdAt, updatedAt, completedAt))
  }

  /** Storing a record and reading it back gives the same record. */
  lemma SubmissionRoundTrip(f: FormSubmission)
    requires StorableSubmission(f)
    ensures DecodeSubmission(EncodeSubmission(f)) == Some(f)
  {
    EncodedKeyColumns(f);
    EncodedRequiredText(f);
    EncodedContactColumns(f);
    EncodedStaffColumns(f);
    EncodedDetails(f);
  }

  /** The encoded identifying columns read back as the record's values. */
  lemma EncodedKeyColumns(f: FormSubmission)
    ensures var row := EncodeSubmission(f);
      && RequiredText(row, C.Id) == Some(f.id)
      && RequiredText(row, C.FormType) == Some(FormTypeTag(f.formType))
      && ParseFormType(FormTypeTag(f.formType)) == Some(f.formType)
      && RequiredText(row, C.Status) == Some(StatusTag(f.status))
      && ParseStatus(StatusTag(f.status)) == Some(f.status)
  {
    FormTypesAreEightDistinctTags();
    EncodedCell(f, C.Id);
    EncodedCell(f, C.FormType);
    EncodedCell(f, C.Status);
  }

  /** The encoded name, email and timestamps read back as the record's values. */
  lemma EncodedRequiredText(f: FormSubmission)
    ensures var row := EncodeSubmission(f);
      && RequiredText(row, C.FullName) == Some(f.fullName)
      && RequiredText(row, C.Email) == Some(f.email)
      && RequiredText(row, C.CreatedAt) == Some(f.createdAt)
      && RequiredText(row, C.UpdatedAt) == Some(f.updatedAt)
  {
    EncodedCell(f, C.FullName);
    EncodedCell(f, C.Email);
    EncodedCell(f, C.CreatedAt);
    EncodedCell(f, C.UpdatedAt);
  }

  /** The encoded service and contact columns read back as the record's values. */
  lemma EncodedContactColumns(f: FormSubmission)
    ensures var row := EncodeSubmission(f);
      && NullableText(row, C.ServiceId) == Some(f.serviceId)
      && NullableText(row, C.ServiceName) == Some(f.serviceName)
      && NullableText(row, C.Phone) == Some(f.phone)
      && NullableText(row, C.Company) == Some(f.company)
  {
    assert SubmissionCell(f, C.ServiceId) == TextOrNull(f.serviceId);
    assert SubmissionCell(f, C.ServiceName) == TextOrNull(f.serviceName);
    assert SubmissionCell(f, C.Phone) == TextOrNull(f.phone);
    assert SubmissionCell(f, C.Company) == TextOrNull(f.company);
    EncodedTextReadsBack(f, C.ServiceId, f.serviceId);
    EncodedTextReadsBack(f, C.ServiceName, f.serviceName);
    EncodedTextReadsBack(f, C.Phone, f.phone);
    EncodedTextReadsBack(f, C.Company, f.company);
  }

  /** The encoded remaining nullable text columns read back as the record's values. */
  lemma EncodedStaffColumns(f: FormSubmission)
    ensures var row := EncodeSubmission(f);
      && NullableText(row, C.Industry) == Some(f.industry)
      && NullableText(row, C.InternalNotes) == Some(f.internalNotes)
      && NullableText(row, C.AssignedTo) == Some(f.assignedTo)
      && NullableText(row, C.CompletedAt) == Some(f.completedAt)
  {
    assert SubmissionCell(f, C.Industry) == TextOrNull(f.industry);
    assert SubmissionCell(f, C.InternalNotes) == TextOrNull(f.internalNotes);
    assert SubmissionCell(f, C.AssignedTo) == TextOrNull(f.assignedTo);
    assert SubmissionCell(f, C.CompletedAt) == TextOrNull(f.completedAt);
    EncodedTextReadsBack(f, C.Industry, f.industry);
    EncodedTextReadsBack(f, C.InternalNotes, f.internalNotes);
    EncodedTextReadsBack(f, C.AssignedTo, f.assignedTo);
    EncodedTextReadsBack(f, C.CompletedAt, f.completedAt);
  }

  /** The encoded details read back as the record's, unless they were the JSON `null`. */
  lemma EncodedDetails(f: FormSubmission)
    requires StorableSubmission(f)
    ensures NullableJson(EncodeSubmission(f), C.Details) == f.details
  {
    EncodedCell(f, C.Details);
  }

  /** The encoded row holds each submission column's cell. */
  lemma EncodedCell(f: FormSubmission, c: C.Column)
    requires c in C.SubmissionColumns
    ensures c in EncodeSubmission(f) && EncodeSubmission(f)[c] == SubmissionCell(f, c)
  {
  }

  /** A nullable text column whose cell is `v` written with `TextOrNull` reads back as `v`. */
  lemma EncodedTextReadsBack(f: FormSubmission, c: C.Column, v: Option<string>)
    requires c in C.SubmissionColumns && SubmissionCell(f, c) == TextOrNull(v)
    ensures NullableText(EncodeSubmission(f), c) == Some(v)
  {
    EncodedCell(f, c);
    NullableTextReadsBack(EncodeSubmission(f), c, v);
  }

  /** A nullable text value written with `TextOrNull` reads back unchanged. */
  lemma NullableTextReadsBack(row: Row, c: C.Column, v: Option<string>)
    requires c in row && row[c] == TextOrNull(v)
    ensures NullableText(row, c) == Some(v)
  {
  }

  // ---------------------------------------------------------------------------
  // Contact
  // ---------------------------------------------------------------------------

  /** One stored message of the legacy contact form; it has no status. */
  datatype Contact = Contact(
    id: string,
    email: string,
    name: Option<string>,
    phone: Option<string>,
    service: Option<string>,
    message: Option<string>,
    submittedAt: string)

  /** The value a contact record stores in one of its columns. */
  function ContactCell(c: Contact, col: C.Column): Json {
    match col
    case Id => JStr(c.id)
    case Email => JStr(c.email)
    case Name => TextOrNull(c.name)
    case Phone => TextOrNull(c.phone)
    case Service => TextOrNull(c.service)
    case Message => TextOrNull(c.message)
    case SubmittedAt => JStr(c.submittedAt)
    case _ => JNull
  }

  /** The row the store holds for a contact record: the seven contact columns and no status. */
  function EncodeContact(c: Contact): (row: Row)
    ensures row.Keys == C.ContactColumns
    ensures C.Status !in row
  {
    map col | col in C.ContactColumns :: ContactCell(c, col)
  }

  /**
   * Reads a contact record out of a stored row: `id`, `email` and
   * `submitted_at` must be strings; the other columns may be null.
   */
  function DecodeContact(row: Row): (r: Option<Contact>)
    ensures r.Some? ==> C.Id in row && C.Email in row && C.SubmittedAt in row
    ensures r.Some? ==> row[C.Email] == JStr(r.value.email)
    ensures r.Some? ==> (r.value.name.None? <==> C.Name !in row || row[C.Name] == JNull)
  {
    var id :- RequiredText(row, C.Id);
    var email :- RequiredText(row, C.Email);
    var name :- NullableText(row, C.Name);
    var phone :- NullableText(row, C.Phone);
    var service :- NullableText(row, C.Service);
    var message :- NullableText(row, C.Message);
    var submittedAt :- RequiredText(row, C.SubmittedAt);
    Some(Contact(id, email, name, phone, service, message, submittedAt))
  }

  /** Storing a contact and reading it back gives the same contact. */
  lemma ContactRoundTrip(c: Contact)
    ensures DecodeContact(EncodeContact(c)) == Some(c)
  {
    var row := EncodeContact(c);
    EncodedContactCell(c, C.Id);
    EncodedContactCell(c, C.Email);
    EncodedContactCell(c, C.SubmittedAt);
    EncodedContactCell(c, C.Name);
    NullableTextReadsBack(row, C.Name, c.name);
    EncodedContactCell(c, C.Phone);
    NullableTextReadsBack(row, C.Phone, c.phone);
    EncodedContactCell(c, C.Service);
    NullableTextReadsBack(row, C.Service, c.service);
    EncodedContactCell(c, C.Message);
    NullableTextReadsBack(row, C.Message, c.message);
  }

  /** The encoded contact row holds each contact column's cell. */
  lemma EncodedContactCell(c: Contact, col: C.Column)
    requires col in C.ContactColumns
    ensures col in EncodeContact(c) && EncodeContact(c)[col] == ContactCell(c, col)
  {
  }

  // ---------------------------------------------------------------------------
  // Client payload and response
  // ---------------------------------------------------------------------------

  /**
   * What a client form posts to the submission endpoint. The kind is any
   * string, not only a listed tag; `message` is carried for the contact form.
   */
  datatype FormSubmissionPayload = FormSubmissionPayload(
    formType: string,
    serviceId: Option<string>,
    fullName: string,
    email: string,
    phone: Option<string>,
    company: Option<string>,
    industry: Option<string>,
    details: Option<Json>,
    message: Option<string>)

  /** Adds `key: value` to an object when the value is present, as `JSON.stringify` drops `undefined`. */
  function WithOptional<T>(m: map<string, Json>, key: string, v: Option<T>, encode: T -> Json): (r: map<string, Json>)
    ensures v.None? ==> r == m
    ensures v.Some? ==> r == m[key := encode(v.value)]
  {
    match v
    case Some(x) => m[key := encode(x)]
    case None => m
  }

  /** The JSON body a client sends for a payload. */
  function PayloadJson(p: FormSubmissionPayload): (body: Json)
    ensures body.JObject?
    ensures "formType" in body.fields && body.fields["formType"] == JStr(p.formType)
    ensures "fullName" in body.fields && body.fields["fullName"] == JStr(p.fullName)
    ensures "email" in body.fields && body.fields["email"] == JStr(p.email)
  {
    var m := WithOptional(map[], "serviceId", p.serviceId, s => JStr(s));
    var m := WithOptional(m, "phone", p.phone, s => JStr(s));
    var m := WithOptional(m, "company", p.company, s => JStr(s));
    var m := WithOptional(m, "industry", p.industry, s => JStr(s));
    var m := WithOptional(m, "details", p.details, d => d);
    var m := WithOptional(m, "message", p.message, s => JStr(s));
    JObject(m["formType" := JStr(p.formType)]["fullName" := JStr(p.fullName)]["email" := JStr(p.email)])
  }

  /** The body the submission endpoint answers a successful or failed post with. */
  datatype FormSubmissionResponse = FormSubmissionResponse(
    success: bool,
    message: string,
    submissionId: Option<Json>,
    error: Option<string>)
}
