/**
 * The ICASA type-approval application page: a client-side form whose state
 * is the six form values, a four-valued submission status and an optional
 * error message. Three kinds of event move it: an edit of one input, the
 * submit that issues an insert into `form_submissions`, and the settling of
 * that insert. The generated id and timestamp of a submit are event
 * parameters; whether the insert succeeds is the settling event's parameter.
 */
module IcasaForm {
  import opened Wrappers
  import opened JsJson
  import C = Columns
  import Types

  /** The form values. */
  datatype FormData = FormData(
    fullName: string,
    email: string,
    phone: string,
    companyName: string,
    serviceType: string,
    message: string)

  const DefaultServiceType := "ICASA Type Approval"

  /** The values the form starts with and is reset to: all empty but the service type. */
  const InitialData := FormData("", "", "", "", DefaultServiceType, "")

  datatype Status = Idle | Submitting | Success | Error

  datatype State = State(data: FormData, status: Status, formError: Option<string>)

  const Initial := State(InitialData, Idle, None)

  const SubmitFailed := "There was an error submitting your form. Please try again."

  /** The five rendered inputs; the service type has none. */
  datatype Input = FullNameInput | EmailInput | PhoneInput | CompanyNameInput | MessageInput

  /** The form value an input shows. */
  function Shown(d: FormData, i: Input): string {
    match i
    case FullNameInput => d.fullName
    case EmailInput => d.email
    case PhoneInput => d.phone
    case CompanyNameInput => d.companyName
    case MessageInput => d.message
  }

  /**
   * `{ ...prevData, [name]: value }` for the input named `name`: that input
   * now shows `value`, every other input and the service type keep theirs.
   */
  function SetInput(d: FormData, i: Input, value: string): (r: FormData)
    ensures Shown(r, i) == value
    ensures forall j :: j != i ==> Shown(r, j) == Shown(d, j)
    ensures r.serviceType == d.serviceType
  {
    match i
    case FullNameInput => d.(fullName := value)
    case EmailInput => d.(email := value)
    case PhoneInput => d.(phone := value)
    case CompanyNameInput => d.(companyName := value)
    case MessageInput => d.(message := value)
  }

  /** Two form values that agree on every input and on the service type are equal. */
  lemma FormDataByInputs(a: FormData, b: FormData)
    requires forall i :: Shown(a, i) == Shown(b, i)
    requires a.serviceType == b.serviceType
    ensures a == b
  {
    assert Shown(a, FullNameInput) == Shown(b, FullNameInput);
    assert Shown(a, EmailInput) == Shown(b, EmailInput);
    assert Shown(a, PhoneInput) == Shown(b, PhoneInput);
    assert Shown(a, CompanyNameInput) == Shown(b, CompanyNameInput);
    assert Shown(a, MessageInput) == Shown(b, MessageInput);
  }

  /** Setting an input to the value it already shows changes nothing. */
  lemma SetShownIsIdentity(d: FormData, i: Input)
    ensures SetInput(d, i, Shown(d, i)) == d
  {
    FormDataByInputs(SetInput(d, i, Shown(d, i)), d);
  }

  // ---------------------------------------------------------------------------
  // The insert the page issues
  // ---------------------------------------------------------------------------

  /** An insert the page issues: the generated id, the form values at submit time, the timestamp. */
  datatype InsertRequest = InsertRequest(id: string, data: FormData, createdAt: string)

  /** The keys of the object the page inserts. */
  datatype ClientKey = KeyId | KeyFullName | KeyEmail | KeyPhone | KeyCompanyName
                     | KeyServiceType | KeyMessage | KeyCreatedAt

  function KeyName(k: ClientKey): string {
    match k
    case KeyId => "id"
    case KeyFullName => "fullName"
    case KeyEmail => "email"
    case KeyPhone => "phone"
    case KeyCompanyName => "companyName"
    case KeyServiceType => "serviceType"
    case KeyMessage => "message"
    case KeyCreatedAt => "created_at"
  }

  /**
   * `{ id, ...formData, created_at }`, the object the page inserts for a
   * request: every key, each holding the request's value for it.
   */
  function ClientRow(q: InsertRequest): (row: map<ClientKey, string>)
    ensures forall k :: k in row
    ensures row[KeyId] == q.id && row[KeyCreatedAt] == q.createdAt
    ensures forall i :: Shown(q.data, i) == row[InputKey(i)]
    ensures row[KeyServiceType] == q.data.serviceType
  {
    map k: ClientKey | true :: ClientValue(q.id, q.data, q.createdAt, k)
  }

  /** The key under which an input's value is inserted. */
  function InputKey(i: Input): ClientKey {
    match i
    case FullNameInput => KeyFullName
    case EmailInput => KeyEmail
    case PhoneInput => KeyPhone
    case CompanyNameInput => KeyCompanyName
    case MessageInput => KeyMessage
  }

  function ClientValue(id: string, d: FormData, createdAt: string, k: ClientKey): string {
    match k
    case KeyId => id
    case KeyFullName => d.fullName
    case KeyEmail => d.email
    case KeyPhone => d.phone
    case KeyCompanyName => d.companyName
    case KeyServiceType => d.serviceType
    case KeyMessage => d.message
    case KeyCreatedAt => createdAt
  }

  /** The inserted object sets neither a status nor a form type. */
  lemma ClientRowHasNoStatusOrFormType(k: ClientKey)
    ensures KeyName(k) != C.ColumnName(C.Status)
    ensures KeyName(k) != C.ColumnName(C.FormType)
  {
  }

  // ---------------------------------------------------------------------------
  // Transitions
  // ---------------------------------------------------------------------------

  datatype Event =
    | Edit(input: Input, value: string)        // `handleInputChange`
    | Submit(id: string, createdAt: string)    // `handleSubmit` up to the awaited insert
    | InsertSettled(ok: bool)                  // the awaited insert resolved without / with an error

  /** A step: the next state and the insert the step issues, if any. */
  datatype Transition = Transition(next: State, insert: Option<InsertRequest>)

  /** The form is on screen in every status but `Success`. */
  predicate FormRendered(s: State) {
    s.status != Success
  }

  /** `disabled={submissionStatus === 'submitting'}`. */
  predicate SubmitDisabled(s: State) {
    s.status == Submitting
  }

  /** The button's caption. */
  function SubmitCaption(s: State): (caption: string)
    ensures caption == "Submitting..." <==> SubmitDisabled(s)
  {
    if s.status == Submitting then "Submitting..." else "Submit Application"
  }

  /**
   * One event, or `None` when the page cannot receive it: edits and submits
   * need the form on screen, a submit also an enabled button, and a settling
   * insert an outstanding one.
   */
  function Step(s: State, e: Event): (r: Option<Transition>)
    ensures e.Edit? ==> (r.Some? <==> FormRendered(s))
    ensures e.Submit? ==> (r.Some? <==> FormRendered(s) && !SubmitDisabled(s))
    ensures e.InsertSettled? ==> (r.Some? <==> s.status == Submitting)
    ensures r.Some? && e.Edit? ==>
      && r.value.next == s.(data := SetInput(s.data, e.input, e.value))
      && r.value.insert.None?
    ensures r.Some? && e.Submit? ==>
      && r.value.next == State(s.data, Submitting, None)
      && r.value.insert == Some(InsertRequest(e.id, s.data, e.createdAt))
    ensures r.Some? && e.InsertSettled? ==> r.value.insert.None?
    ensures r.Some? && e.InsertSettled? && e.ok ==>
      r.value.next == State(InitialData, Success, s.formError)
    ensures r.Some? && e.InsertSettled? && !e.ok ==>
      r.value.next == State(s.data, Error, Some(SubmitFailed))
  {
    match e
    case Edit(i, v) =>
      if FormRendered(s) then Some(Transition(s.(data := SetInput(s.data, i, v)), None)) else None
    case Submit(id, createdAt) =>
      if FormRendered(s) && !SubmitDisabled(s) then
        Some(Transition(State(s.data, Submitting, None), Some(InsertRequest(id, s.data, createdAt))))
      else None
    case InsertSettled(ok) =>
      if s.status != Submitting then None
      else if ok then Some(Transition(State(InitialData, Success, s.formError), None))
      else Some(Transition(State(s.data, Error, Some(SubmitFailed)), None))
  }

  /**
   * What every reachable state satisfies: the service type is the default,
   * an error message is shown exactly in `Error` and is the fixed text, and a
   * successful page holds the initial values.
   */
  predicate Consistent(s: State) {
    && s.data.serviceType == DefaultServiceType
    && (s.formError.Some? <==> s.status == Error)
    && (s.formError.Some? ==> s.formError.value == SubmitFailed)
    && (s.status == Success ==> s.data == InitialData)
  }

  lemma InitialIsConsistent()
    ensures Consistent(Initial)
    ensures Initial.data.fullName == "" && Initial.data.email == "" && Initial.data.message == ""
    ensures Initial.status == Idle && Initial.formError.None?
  {
  }

  /** Every event keeps a state consistent. */
  lemma StepKeepsConsistent(s: State, e: Event)
    requires Consistent(s)
    requires Step(s, e).Some?
    ensures Consistent(Step(s, e).value.next)
  {
  }

  /** Nothing happens on the success screen: no edit, no submit, no insert. */
  lemma SuccessIsFinal(s: State, e: Event)
    requires s.status == Success
    ensures Step(s, e).None?
  {
  }

  /** A trace of events: the final state, the inserts in issue order, and how many settled. */
  datatype Trace = Trace(final: State, inserts: seq<InsertRequest>, settled: nat)

  /** Runs events in order; `None` if one of them cannot be received. */
  function Run(s: State, events: seq<Event>): (r: Option<Trace>)
    decreases |events|
  {
    if |events| == 0 then Some(Trace(s, [], 0))
    else
      var t :- Step(s, events[0]);
      var rest :- Run(t.next, events[1..]);
      var issued := if t.insert.Some? then [t.insert.value] else [];
      var settled := if events[0].InsertSettled? then 1 else 0;
      Some(Trace(rest.final, issued + rest.inserts, settled + rest.settled))
  }

  /** One when an insert is outstanding. */
  function Pending(s: State): nat {
    if s.status == Submitting then 1 else 0
  }

  /**
   * Along any run from a consistent state, the state stays consistent and
   * every insert but the outstanding one has settled: inserts never overlap.
   */
  lemma {:induction false} RunKeepsConsistent(s: State, events: seq<Event>)
    requires Consistent(s)
    requires Run(s, events).Some?
    ensures Consistent(Run(s, events).value.final)
    ensures |Run(s, events).value.inserts| + Pending(s)
         == Run(s, events).value.settled + Pending(Run(s, events).value.final)
    decreases |events|
  {
    if |events| > 0 {
      var t := Step(s, events[0]).value;
      StepKeepsConsistent(s, events[0]);
      RunKeepsConsistent(t.next, events[1..]);
    }
  }

  /** From the first render, at most one insert is ever outstanding and the reachable states are consistent. */
  lemma ReachableFromInitial(events: seq<Event>)
    requires Run(Initial, events).Some?
    ensures Consistent(Run(Initial, events).value.final)
    ensures |Run(Initial, events).value.inserts|
         == Run(Initial, events).value.settled + Pending(Run(Initial, events).value.final)
  {
    RunKeepsConsistent(Initial, events);
  }

  /** Edits while an insert is outstanding leave the button disabled and issue nothing. */
  lemma {:induction false} EditsWhilePendingIssueNothing(s: State, events: seq<Event>)
    requires s.status == Submitting
    requires forall k :: 0 <= k < |events| ==> events[k].Edit?
    ensures Run(s, events).Some?
    ensures Run(s, events).value.inserts == []
    ensures SubmitDisabled(Run(s, events).value.final)
    decreases |events|
  {
    if |events| > 0 {
      var t := Step(s, events[0]).value;
      EditsWhilePendingIssueNothing(t.next, events[1..]);
    }
  }

  /** A failed insert keeps what the user typed; submitting again resends it. */
  lemma RetryResendsSameValues(s: State, id: string, createdAt: string)
    requires s.status == Submitting
    ensures var failed := Step(s, InsertSettled(false)).value.next;
      && failed.data == s.data
      && Step(failed, Submit(id, createdAt)).Some?
      && Step(failed, Submit(id, createdAt)).value.insert == Some(InsertRequest(id, s.data, createdAt))
  {
  }

  // ---------------------------------------------------------------------------
  // The insert as it was evidently meant: a `form_submissions` row
  // ---------------------------------------------------------------------------

  /** The `form_submissions` column spelled like a client key, if there is one. */
  function ColumnSpelled(k: ClientKey): (c: Option<C.Column>)
    ensures c.Some? ==> c.value in C.SubmissionColumns && C.ColumnName(c.value) == KeyName(k)
  {
    match k
    case KeyId => Some(C.Id)
    case KeyEmail => Some(C.Email)
    case KeyPhone => Some(C.Phone)
    case KeyCreatedAt => Some(C.CreatedAt)
    case _ => None
  }

  /**
   * Four of the inserted keys name no `form_submissions` column, and the
   * required `form_type` and `full_name` columns are not set.
   */
  lemma ClientRowMissesColumns()
    ensures forall k, c :: ColumnSpelled(k).None? && c in C.SubmissionColumns ==> C.ColumnName(c) != KeyName(k)
    ensures forall k :: C.ColumnName(C.FormType) != KeyName(k) && C.ColumnName(C.FullName) != KeyName(k)
    ensures C.FormType in C.SubmissionRequired && C.FullName in C.SubmissionRequired
  {
  }

  /** An empty input is stored as `null`, any other value as itself. */
  function Nonempty(v: string): (r: Option<string>)
    ensures r.None? <==> v == ""
    ensures r.Some? ==> r.value == v
  {
    if v == "" then None else Some(v)
  }

  /**
   * The record the page evidently means to store: an ICASA type-approval
   * inquiry, pending, under the snake_case columns, with the free text kept
   * in the details.
   */
  function IntendedSubmission(q: InsertRequest): (f: Types.FormSubmission)
    ensures f.formType == Types.IcasaTypeApprovals && f.status == Types.Pending
    ensures f.fullName == q.data.fullName && f.email == q.data.email && f.id == q.id
    ensures f.company == Nonempty(q.data.companyName) && f.phone == Nonempty(q.data.phone)
    ensures Types.StorableSubmission(f)
  {
    var d := q.data;
    Types.FormSubmission(
      q.id, Types.IcasaTypeApprovals, Types.Pending, None, Some(d.serviceType),
      d.fullName, d.email, Nonempty(d.phone), Nonempty(d.companyName), None,
      Some(JObject(map["message" := JStr(d.message)])), None, None,
      q.createdAt, q.createdAt, None)
  }

  /** The corrected insert: the intended record under the `form_submissions` columns. */
  function IntendedRow(q: InsertRequest): (row: C.Row)
    ensures row.Keys == C.SubmissionColumns
    ensures row[C.FormType] == JStr("icasa-type-approvals")
    ensures row[C.Status] == JStr("pending")
    ensures row[C.FullName] == JStr(q.data.fullName)
  {
    Types.EncodeSubmission(IntendedSubmission(q))
  }

  /** The corrected row reads back as the intended record, keeping every form value. */
  lemma IntendedRowDecodes(q: InsertRequest)
    ensures var f := Types.DecodeSubmission(IntendedRow(q));
      && f == Some(IntendedSubmission(q))
      && f.value.serviceName == Some(q.data.serviceType)
      && f.value.details == Some(JObject(map["message" := JStr(q.data.message)]))
  {
    Types.SubmissionRoundTrip(IntendedSubmission(q));
  }

  /** Every insert of a run from the first render is stored as an ICASA type-approval inquiry. */
  lemma RunInsertsAreIcasaInquiries(events: seq<Event>, k: nat)
    requires Run(Initial, events).Some? && k < |Run(Initial, events).value.inserts|
    ensures var f := Types.DecodeSubmission(IntendedRow(Run(Initial, events).value.inserts[k]));
      f.Some? && f.value.formType == Types.IcasaTypeApprovals && f.value.status == Types.Pending
  {
    IntendedRowDecodes(Run(Initial, events).value.inserts[k]);
  }
}
