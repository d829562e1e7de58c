/**
 * The `/api/contacts` endpoint: the legacy contact form's POST, which
 * checks three required values and inserts one `contacts` row.
 */
module ContactsRoute {
  import opened Wrappers
  import opened JsJson
  import opened Http
  import C = Columns
  import Types

  /** The five keys the handler destructures from the body. */
  const PayloadKeys: set<string> := {"service", "fullName", "email", "phone", "message"}

  /** The columns a contact row sets; there is no status. */
  const IntakeColumns: set<C.Column> := {C.Name, C.Email, C.Phone, C.Service, C.Message}

  const MissingFields := "Missing required fields: fullName, email, message"

  /** The destructured body; a key the body lacks is `None` (`undefined`). */
  datatype Payload = Payload(
    service: Option<Json>,
    fullName: Option<Json>,
    email: Option<Json>,
    phone: Option<Json>,
    message: Option<Json>)

  /** `const { service, fullName, email, phone, message } = body` for a body that is not `null`. */
  function Destructure(body: Json): Payload
    requires body != JNull
  {
    Payload(Field(body, "service"), Field(body, "fullName"), Field(body, "email"),
            Field(body, "phone"), Field(body, "message"))
  }

  /** `fullName`, `email` and `message` are all truthy. */
  predicate HasRequired(p: Payload) {
    Truthy(p.fullName) && Truthy(p.email) && Truthy(p.message)
  }

  /**
   * The required-field check: the destructured payload when the three
   * required keys hold truthy values, `None` (a 400) otherwise.
   */
  function Validate(body: Json): (r: Option<Payload>)
    requires body != JNull
    ensures r.Some? <==>
      Truthy(Field(body, "fullName")) && Truthy(Field(body, "email")) && Truthy(Field(body, "message"))
    ensures r.Some? ==> HasRequired(r.value) && r.value == Destructure(body)
  {
    var p := Destructure(body);
    if HasRequired(p) then Some(p) else None
  }

  /**
   * The row inserted for a valid payload: exactly five columns, no status;
   * the full name stored under `name`; email and message as given; phone
   * and service the value when truthy and `null` otherwise.
   */
  function ToRow(p: Payload): (row: C.Row)
    requires HasRequired(p)
    ensures row.Keys == IntakeColumns
    ensures C.Status !in row && C.FullName !in row
    ensures row[C.Name] == p.fullName.value
    ensures row[C.Email] == p.email.value
    ensures row[C.Message] == p.message.value
    ensures row[C.Phone] == (if Truthy(p.phone) then p.phone.value else JNull)
    ensures row[C.Service] == (if Truthy(p.service) then p.service.value else JNull)
  {
    map[
      C.Name := p.fullName.value,
      C.Email := p.email.value,
      C.Phone := OrNull(p.phone),
      C.Service := OrNull(p.service),
      C.Message := p.message.value
    ]
  }

  /**
   * The POST handler. `body` is `None` when the request body is not JSON.
   * A non-JSON or `null` body throws (500, no insert); a body missing a
   * required value gets 400 and no insert; otherwise exactly the row of
   * `ToRow` is inserted and the store's reply picks the answer.
   */
  function Post(body: Option<Json>, reply: InsertReply): (ex: Exchange)
    ensures body.None? || body == Some(JNull) ==> ex == Exchange(None, PostCrashed)
    ensures body.Some? && body.value != JNull && Validate(body.value).None? ==>
      ex == Exchange(None, Response(400, ErrorBody(MissingFields)))
    ensures ex.insert.Some? <==> body.Some? && body.value != JNull && Validate(body.value).Some?
    ensures ex.insert.Some? ==> ex.insert.value == ToRow(Validate(body.value).value)
    ensures ex.insert.Some? ==> ex.response == InsertResponse(reply)
    ensures ex.response.status == 201 <==> ex.insert.Some? && reply.Inserted?
  {
    if body.None? || body.value == JNull then Exchange(None, PostCrashed)
    else
      match Validate(body.value)
      case None => Exchange(None, Response(400, ErrorBody(MissingFields)))
      case Some(p) => Exchange(Some(ToRow(p)), InsertResponse(reply))
  }

  /**
   * An accepted object body's full name, email and message are stored as
   * sent, the name under `name`, and phone and service as `value || null`.
   */
  lemma SubmittedValuesStored(m: map<string, Json>, reply: InsertReply)
    requires Validate(JObject(m)).Some?
    ensures var ex := Post(Some(JObject(m)), reply);
      && ex.insert.Some?
      && "fullName" in m && ex.insert.value[C.Name] == m["fullName"]
      && "email" in m && ex.insert.value[C.Email] == m["email"]
      && "message" in m && ex.insert.value[C.Message] == m["message"]
      && ex.insert.value[C.Phone] == OrNull(Field(JObject(m), "phone"))
      && ex.insert.value[C.Service] == OrNull(Field(JObject(m), "service"))
  {
  }

  /** Body keys other than the five destructured ones change nothing. */
  lemma ExtraKeysIgnored(m: map<string, Json>, k: string, v: Json, reply: InsertReply)
    requires k !in PayloadKeys
    ensures Post(Some(JObject(m[k := v])), reply) == Post(Some(JObject(m)), reply)
  {
    assert Destructure(JObject(m[k := v])) == Destructure(JObject(m));
  }

  /** An empty full name is refused with 400 and nothing is inserted, whatever else the body holds. */
  lemma EmptyNameRejected(m: map<string, Json>, reply: InsertReply)
    ensures Post(Some(JObject(m["fullName" := JStr("")])), reply)
         == Exchange(None, Response(400, ErrorBody(MissingFields)))
  {
  }

  /** The row the store holds after an insert: the contact row plus the server-assigned columns. */
  function Stored(row: C.Row, id: string, submittedAt: string): (stored: C.Row)
    ensures stored.Keys == row.Keys + {C.Id, C.SubmittedAt}
  {
    row[C.Id := JStr(id)][C.SubmittedAt := JStr(submittedAt)]
  }

  /**
   * A stored contact row whose values are strings reads back as a `Contact`
   * whose `name` is the posted full name and whose message is the posted one.
   */
  lemma StoredContactDecodes(p: Payload, id: string, submittedAt: string)
    requires HasRequired(p)
    requires p.fullName.value.JStr? && p.email.value.JStr? && p.message.value.JStr?
    requires !Truthy(p.phone) || p.phone.value.JStr?
    requires !Truthy(p.service) || p.service.value.JStr?
    ensures var c := Types.DecodeContact(Stored(ToRow(p), id, submittedAt));
      && c.Some? && c.value.id == id
      && c.value.name == Some(p.fullName.value.s)
      && c.value.message == Some(p.message.value.s)
  {
    var stored := Stored(ToRow(p), id, submittedAt);
    assert Types.RequiredText(stored, C.Id) == Some(id);
    assert Types.RequiredText(stored, C.Email) == Some(p.email.value.s);
    assert Types.NullableText(stored, C.Name) == Some(Some(p.fullName.value.s));
    assert Types.NullableText(stored, C.Phone).Some?;
    assert Types.NullableText(stored, C.Service).Some?;
    assert Types.NullableText(stored, C.Message) == Some(Some(p.message.value.s));
    assert Types.RequiredText(stored, C.SubmittedAt) == Some(submittedAt);
  }
}
