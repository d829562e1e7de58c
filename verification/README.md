# Intake and catalogue logic of a compliance-consultancy website

This project is a Dafny model of the decision logic of a Next.js website. The site
advertises ICASA/NRCS licensing services and collects leads through several forms.
The hosted database and the authentication provider are not modelled as code. They
appear as inputs instead: in-memory tables, a session value, and the outcome of an
insert.

What is modelled:

- **`/api/form-submissions`** (`FormSubmissionsRoute`):
  - The POST handler checks the required fields by JavaScript truthiness.
  - It maps the camelCase body onto a snake_case `form_submissions` row, turns falsy optional values into `null` and forces `status = 'pending'`.
  - It then picks the 400, 500 or 201 answer.
  - The GET handler either looks a service up by slug, or reads one submission for an administrator. The checks run in the fixed order 401, 403, 404, 200.
- **`/api/contacts`** (`ContactsRoute`): the legacy contact form's POST. The full name is stored under the column `name`, and the row has no status.
- **Shared types** (`Types`, `Columns`, `JsJson`):
  - the form-kind, status and role enumerations;
  - the `FormSubmission` and `Contact` records, with encoders and decoders between records and stored rows;
  - the client payload and response shapes;
  - the recursive JSON type with JavaScript truthiness.
- **Service catalogue** (`Services`, with the table model in `Backend`):
  - `mapToService`;
  - the four queries, stated as filter, order and limit over a table.
  - `.single()` succeeds only when exactly one row matches.
  - `.order('order_index')` is PostgreSQL's ascending order with NULLs last.
- **Shared POST tail** (`Http`): the response shape and the answer to an insert outcome, used by both POST handlers.
- **The ICASA type-approval form page** (`IcasaForm`): a state machine with three kinds of event.
  - An input edit.
  - A submit, which issues an insert.
  - The settling of that insert, which succeeds or fails as the event says.
- **Icon name resolution** (`Icon`): the first letter of a name is upper-cased, the result is looked up in the icon table, and unknown names fall back to `HelpCircle`.

`request.json()` is an `Option<Json>`: `None` means the body was not JSON. A table is
either its rows or a failing query. The GET handler also returns the list of reads it
issued, so "no submission is read before both auth checks pass" is stated in its
contract.

## Model

| member | source | states |
|---|---|---|
| JsJson.OrNull | src/app/api/form-submissions/route.ts:27-33 | `v \|\| null` is the value when truthy and `null` otherwise, so a column written this way is never `""`, `0` or `false` |
| JsJson.Field | src/app/api/form-submissions/route.ts:7-8 | for the names the handlers destructure, none of which a parsed value inherits, destructuring binds the key's value exactly when the body is an object holding that key, and `undefined` otherwise |
| Types.ParseFormType | src/types/index.ts:83-93 | a tag reads as a form kind exactly when it is one of the eight listed tags, and the kind's tag is that tag |
| Types.FormTypesAreEightDistinctTags | src/types/index.ts:83-92 | the kind list has eight pairwise distinct tags, and every kind reads back from its tag |
| Types.ParseStatus | src/types/index.ts:95-102 | a tag reads as a status exactly when it is one of the five listed statuses |
| Types.SubmissionStatusesAreFiveDistinctTags | src/types/index.ts:95-101 | five pairwise distinct statuses, among them `pending`, which reads as `Pending` |
| Types.RoleTag | src/types/index.ts:135-136 | every role's tag is one of `admin`, `editor`, `user` |
| Types.EncodeSubmission | src/types/index.ts:104-121 | a stored submission has exactly the sixteen columns of the table |
| Types.DecodeSubmission | src/types/index.ts:104-121 | a row reads as a submission only if every required column is a string, the kind and status are listed tags, and the nullable text columns are text or null |
| Types.SubmissionRoundTrip | src/types/index.ts:104-121 | storing a submission and reading it back gives the same record |
| Types.EncodeContact | src/types/index.ts:124-132 | a stored contact has exactly the seven contact columns and no status |
| Types.DecodeContact | src/types/index.ts:124-132 | a row reads as a contact only if `id`, `email` and `submitted_at` are present; `name` is absent exactly when the column is missing or null |
| Types.ContactRoundTrip | src/types/index.ts:124-132 | storing a contact and reading it back gives the same record |
| Types.PayloadJson | src/types/index.ts:164-174 | a client payload's JSON carries its kind, full name and email, and its kind may be any string |
| Backend.Where | src/lib/supabase/services.ts:43 | `.eq` keeps each row that matches as often as it occurs, drops every other row, and keeps nothing new |
| Backend.WhereSingleMatch | src/lib/supabase/services.ts:80 | when only one row matches, the filter yields exactly that row |
| Backend.Single | src/lib/supabase/services.ts:77-81 | `.single()` yields a row exactly when one row matches, and that row is the match |
| Backend.MapSeqPermutation | src/lib/supabase/services.ts:51 | mapping two rearrangements of the same rows gives rearrangements of the same results |
| Services.MapToService | src/lib/supabase/services.ts:7-36 | putting `updated_at` back on the mapped view recovers the row, so every other column is carried under its camelCase name |
| Services.RowOfMapToService | src/lib/supabase/services.ts:7-36 | mapping a rebuilt row gives back the view, whatever timestamp was used |
| Services.MapToServiceDropsOnlyUpdatedAt | src/lib/supabase/services.ts:7-36 | two rows map to the same view exactly when they differ at most in `updated_at` |
| Services.OrderByIndex | src/lib/supabase/services.ts:44 | ordering yields a permutation of the rows in ascending `order_index`, NULLs last |
| Services.PublishedServices | src/lib/supabase/services.ts:38-52 | the views of the published rows, each exactly once, in ascending index; `[]` when the query fails |
| Services.FeaturedServices | src/lib/supabase/services.ts:54-70 | at most four views, all published and featured, in ascending index, exactly min(4, matches) of them, none preceded by a left-out match; `[]` on failure |
| Services.ServiceBySlug | src/lib/supabase/services.ts:72-88 | a view exactly when one row has the slug, published or not, and that row's view; `null` on failure, no match or several matches |
| Services.PublishedServiceSlugs | src/lib/supabase/services.ts:90-106 | exactly the slugs of the published rows, one per row, as a multiset; `[]` on failure |
| Services.SlugsMatchPublishedListing | src/lib/supabase/services.ts:90-106 | the slug list and the published listing name the same slugs, equally often |
| Services.EverySlugResolves | src/lib/supabase/services.ts:72-88 | with unique slugs, looking a row up by its own slug returns that row's view |
| Http.FirstId | src/app/api/form-submissions/route.ts:54 | `data?.[0]?.id` is present exactly when there is a first row carrying an id, and it is that id |
| Http.InsertResponse | src/app/api/form-submissions/route.ts:39-64 | 201 exactly when the insert succeeded, with `success`, the fixed success message and the first row's id; otherwise 500: a store error is reported after the fixed prefix, and a thrown call gives the generic retry text |
| Http.ResponseRevealsOutcome | src/app/api/form-submissions/route.ts:39-64 | two inserts answered alike had the same kind of outcome, and two store errors answered alike had the same message |
| FormSubmissionsRoute.Validate | src/app/api/form-submissions/route.ts:8-16 | a body passes exactly when `formType`, `fullName` and `email` are all truthy, and then yields the body's destructured values |
| FormSubmissionsRoute.SubmittedValuesStored | src/app/api/form-submissions/route.ts:8-35 | an accepted body's `formType`, `fullName` and `email` are inserted as sent, and each optional value as `value \|\| null` |
| FormSubmissionsRoute.ToRow | src/app/api/form-submissions/route.ts:25-35 | exactly the nine intake columns; kind, name and email as given; each optional column the value when truthy and `null` otherwise; status `pending` |
| FormSubmissionsRoute.IntakeRowHasNoFalsyCell | src/app/api/form-submissions/route.ts:25-35 | no column of an inserted row holds `""`, `0` or `false`: a falsy optional value is stored as `null` |
| FormSubmissionsRoute.Post | src/app/api/form-submissions/route.ts:5-65 | a non-JSON or `null` body gives 500 with no insert; a missing required value gives 400 with no insert; otherwise `ToRow`'s row is inserted and 201 is answered exactly when the insert succeeds |
| FormSubmissionsRoute.ExtraKeysIgnored | src/app/api/form-submissions/route.ts:8 | adding a key other than the eight destructured ones, such as `message`, changes neither the insert nor the answer |
| FormSubmissionsRoute.InsertedStatusIsPending | src/app/api/form-submissions/route.ts:34 | every inserted row's status reads as `Pending`, whatever the body holds |
| FormSubmissionsRoute.TypedPayloadAccepted | src/app/api/form-submissions/route.ts:11-35 | a typed payload with non-empty kind, name and email is inserted whatever its kind, and its `message` is not stored |
| FormSubmissionsRoute.StoredIntakeColumns | src/app/api/form-submissions/route.ts:25-35 | the stored row holds the payload's values and the server columns, and leaves the staff-only columns unset |
| FormSubmissionsRoute.StoredIntakeDecodes | src/app/api/form-submissions/route.ts:25-35 | a stored intake row with a listed kind and string values reads as a pending submission with the posted id, name and email |
| FormSubmissionsRoute.StoredIntakeRejected | src/app/api/form-submissions/route.ts:26 | a stored intake row with an unlisted kind or a non-string value does not read as a submission |
| FormSubmissionsRoute.ProfileRole | src/app/api/form-submissions/route.ts:90-96 | a role is known exactly when the users query succeeds and finds exactly one profile for the user |
| FormSubmissionsRoute.SubmissionById | src/app/api/form-submissions/route.ts:103-111 | a row exactly when exactly one submission has the id, and that row carries the id |
| FormSubmissionsRoute.HandleGet | src/app/api/form-submissions/route.ts:67-126 | `serviceId` takes precedence; the submission path answers 401 exactly for no user, 403 exactly for a non-admin role, then 404 or 200 from the lookup; the submission is read only for an admin; 400 without either parameter; 500 when auth throws |
| FormSubmissionsRoute.NonAdminCannotProbe | src/app/api/form-submissions/route.ts:84-112 | for a caller who is not an admin, the answer is the same whatever the submissions table holds |
| FormSubmissionsRoute.OnlyAdminRoleReads | src/app/api/form-submissions/route.ts:96 | of the listed roles, exactly `admin` passes the read check |
| FormSubmissionsRoute.MissingProfileIsForbidden | src/app/api/form-submissions/route.ts:90-101 | a signed-in user without a profile gets 403 |
| ContactsRoute.Validate | src/app/api/contacts/route.ts:7-14 | a body passes exactly when `fullName`, `email` and `message` are all truthy, and then yields the body's destructured values |
| ContactsRoute.SubmittedValuesStored | src/app/api/contacts/route.ts:7-27 | an accepted body's `fullName` (stored under `name`), `email` and `message` are inserted as sent, and phone and service as `value \|\| null` |
| ContactsRoute.ToRow | src/app/api/contacts/route.ts:21-27 | exactly the five contact columns, no status; the full name under `name`; email and message as given; phone and service the value when truthy and `null` otherwise |
| ContactsRoute.Post | src/app/api/contacts/route.ts:4-56 | a non-JSON or `null` body gives 500; a missing required value gives 400 with no insert; otherwise `ToRow`'s row is inserted and 201 is answered exactly when the insert succeeds |
| ContactsRoute.ExtraKeysIgnored | src/app/api/contacts/route.ts:7 | body keys other than the five destructured ones change nothing |
| ContactsRoute.EmptyNameRejected | src/app/api/contacts/route.ts:9-14 | an empty full name gives 400 and no insert, whatever else the body holds |
| ContactsRoute.StoredContactDecodes | src/app/api/contacts/route.ts:21-27 | a stored contact row with string values reads as a contact whose `name` is the posted full name |
| IcasaForm.SetInput | src/app/forms/icasa-type-approvals/page.tsx:36-39 | an edit changes the named input to the new value and leaves every other input and the service type as they were |
| IcasaForm.SetShownIsIdentity | src/app/forms/icasa-type-approvals/page.tsx:36-39 | setting an input to the value it already shows leaves the form values unchanged |
| IcasaForm.ClientRow | src/app/forms/icasa-type-approvals/page.tsx:47-49 | the inserted object has the id, the six form values verbatim under their form keys, and `created_at` |
| IcasaForm.ClientRowHasNoStatusOrFormType | src/app/forms/icasa-type-approvals/page.tsx:47-49 | no key of the inserted object is `status` or `form_type` |
| IcasaForm.SubmitCaption | src/app/forms/icasa-type-approvals/page.tsx:200-205 | the button reads "Submitting..." exactly while it is disabled |
| IcasaForm.Step | src/app/forms/icasa-type-approvals/page.tsx:36-69 | edits need the form on screen; a submit also needs the button enabled, moves to submitting, clears the error and issues the current values; a settled insert moves to success with the initial values, or to error with the fixed message and the values kept |
| IcasaForm.InitialIsConsistent | src/app/forms/icasa-type-approvals/page.tsx:24-34 | the first render is idle with no error, all values empty except the service type `ICASA Type Approval` |
| IcasaForm.StepKeepsConsistent | src/app/forms/icasa-type-approvals/page.tsx:41-68 | every step keeps the service type at its default, shows the fixed error exactly in the error state, and holds the initial values on success |
| IcasaForm.SuccessIsFinal | src/app/forms/icasa-type-approvals/page.tsx:87-98 | on the success screen no edit, submit or insert outcome is received |
| IcasaForm.RunKeepsConsistent | src/app/forms/icasa-type-approvals/page.tsx:41-69 | along any run the state stays consistent, and the issued inserts equal the settled ones plus the one outstanding, so inserts never overlap |
| IcasaForm.ReachableFromInitial | src/app/forms/icasa-type-approvals/page.tsx:24-69 | every state reachable from the first render is consistent, with at most one insert outstanding |
| IcasaForm.EditsWhilePendingIssueNothing | src/app/forms/icasa-type-approvals/page.tsx:200-205 | while an insert is outstanding, edits are accepted, issue nothing, and leave the button disabled |
| IcasaForm.RetryResendsSameValues | src/app/forms/icasa-type-approvals/page.tsx:64-68 | after a failed insert the typed values are kept, and submitting again sends them |
| IcasaForm.ClientRowMissesColumns | src/app/forms/icasa-type-approvals/page.tsx:47-49 | four inserted keys name no `form_submissions` column, and the required `form_type` and `full_name` are never set |
| IcasaForm.IntendedRow | src/app/forms/icasa-type-approvals/page.tsx:47-49 | the corrected insert sets every `form_submissions` column, with kind `icasa-type-approvals`, status `pending` and the typed full name |
| IcasaForm.IntendedRowDecodes | src/app/forms/icasa-type-approvals/page.tsx:47-49 | the corrected insert reads back as the intended submission, keeping the service type and the message |
| IcasaForm.RunInsertsAreIcasaInquiries | src/app/forms/icasa-type-approvals/page.tsx:41-63 | every insert of a run, stored the corrected way, reads as a pending ICASA type-approval submission |
| Icon.IconMap | src/components/Icon.tsx:31-54 | each key found maps to the icon exported under that name |
| Icon.IconMapKeysExact | src/components/Icon.tsx:31-54 | a key is found exactly when it is one of the listed keys |
| Icon.IconMapShape | src/components/Icon.tsx:31-54 | the table has 22 distinct keys, every icon but `HelpCircle` is found under its own name, and `HelpCircle` is not a key |
| Icon.UpperFirst | src/components/Icon.tsx:64 | same length, the rest unchanged, and the first character upper-cased when it is an ASCII lower-case letter |
| Icon.Resolve | src/components/Icon.tsx:60-71 | the empty name and every unknown key give `HelpCircle`; a found key gives its icon, whose name is the normalised name |
| Icon.FirstLetterCaseIgnored | src/components/Icon.tsx:64 | names that differ only in the case of their first letter show the same icon |
| Icon.OnlyFirstLetterNormalised | src/components/Icon.tsx:64 | `shield` shows `Shield`, while `SHIELD` falls back to `HelpCircle` |
| Icon.IconMapProperty | src/components/Icon.tsx:64 | property access finds an own key's icon first, then an inherited `Object.prototype` member, and is `undefined` otherwise |
| Icon.ResolveAsWritten | src/components/Icon.tsx:60-71 | the lookup as written never comes back `undefined`; when it yields an icon, it is the icon `Resolve` picks, and otherwise it yields an inherited `Object.prototype` member, which is not a component, so rendering fails |
| Icon.ProtoNameIsNotAnIcon | src/components/Icon.tsx:64-70 | the name `__proto__` reaches `Object.prototype` as written, while the corrected resolution gives `HelpCircle` |
| Icon.LowerCaseNamesAreSafe | src/components/Icon.tsx:64 | a name starting with a lower-case letter never reaches an inherited member |

## Left out

- Network and platform calls are not modelled: the Supabase client, `createClient`, `request.json()`, `auth.getUser()` and `NextResponse`. They appear as inputs: a parsed body, a table, a session, an insert outcome.
- The POST handlers do not model `createClient()` throwing. It gives the same 500 as a body that is not JSON.
- The GET handler models only `auth.getUser()` rejecting as its thrown-exception case.
- Generated values are not modelled: uuids, `new Date().toISOString()` timestamps, and the server-assigned id, `created_at`, `updated_at` and `submitted_at`. They are parameters of `Submit`, `Stored` and `IcasaForm.InsertRequest`.
- `console` logging is left out. It has no effect on any answer.
- JsJson.Truthy: JSON numbers are exact reals, so the rounding of `JSON.parse` to doubles is not modelled. A literal that underflows to `0` (`1e-400`) is falsy in the handlers but truthy here. Such a value as a required field is therefore accepted here where the handler answers 400, and `details: 1e-400` is stored as the number where the handler stores `null`. A literal that overflows to `Infinity` (`1e400`) is a finite real here.
- JsJson.Field: covers only the names the handlers destructure. A name a parsed value inherits (`constructor`, `toString`, or `length` on a string or array) would bind the inherited member, not `undefined`, but no handler reads such a name.
- FormSubmissionsRoute.SubmissionById: compares ids as exact text. The `id` column is a `uuid`, so PostgreSQL also matches other spellings of the same uuid (upper case, braces, no hyphens) where the model finds no row and answers 404.
- Types.SubmissionRoundTrip: excludes a record whose `details` is the JSON `null`, because the store keeps JSON `null` and SQL NULL apart while the model's row has one `null` for both.
- Icon.UpperFirst: maps only ASCII `a`–`z`, because Unicode case mapping of `toUpperCase` is not modelled. A name starting with a non-ASCII lower-case letter keeps its first character here.
- Services.OrderByIndex: promises only an ordered permutation, because PostgreSQL leaves the order of rows with equal `order_index` unspecified. The model's stable insertion sort is one admissible order.
- Services.PublishedServiceSlugs: returns the slugs as strings in table order. The source returns `{ slug }` objects and names no order.
- `mapToService` builds objects with camelCase keys (`shortDescription`, `orderIndex`, …), but the `Service` interface in `src/types/index.ts` declares snake_case keys. The model follows the code: `Services.Service` has the camelCase fields and no `updatedAt`.
- The ICASA page never returns from `success` or `error` to `idle`, neither after a delay nor on an edit, and its error text is one fixed sentence. The model has no transition back to `idle`.
- The page's rendering markup is not modelled beyond whether the form is shown and the button's disabled state and caption. The `required` and `type='email'` browser checks that precede `onSubmit` are not modelled either.
- The insert outcome is an event parameter, not derived from the row. The as-written row's failure in the database is stated as a finding below, not computed.
- The other files of the site are not part of this model:
  - `supabase.ts` (a URL check built on the WHATWG parser);
  - the blog queries;
  - the testimonials widget;
  - the table of contents;
  - the presentation-only pages.

## Findings

| source | as written | input that shows it | evidently intended | confidence | as-written member | corrected member |
|---|---|---|---|---|---|---|
| src/app/forms/icasa-type-approvals/page.tsx:47-49 | inserts `{ id, ...formData, created_at }` into `form_submissions`. The keys `fullName`, `companyName`, `serviceType` and `message` are not columns, and the required `form_type` and `full_name` are never set. | any submit, e.g. full name `A`, email `a@b.c` | a `form_submissions` row: snake_case columns, kind `icasa-type-approvals`, status `pending` | medium, not executed; the table's columns are taken from `src/types/index.ts` | IcasaForm.ClientRowMissesColumns | IcasaForm.IntendedRowDecodes |
| src/components/Icon.tsx:64-70 | `iconMap[key]` also finds members inherited from `Object.prototype`. A name that survives normalisation unchanged does not fall back; the lookup yields a non-component and rendering fails. | name `__proto__` | fall back to `HelpCircle` for every key the table does not own | medium, not executed | Icon.ProtoNameIsNotAnIcon | Icon.Resolve |
