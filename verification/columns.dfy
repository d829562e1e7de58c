/**
 * The columns of the two submission tables, and stored rows keyed by them.
 * Column identities are a datatype, so two columns never share a key; the
 * names they are stored under are given by `ColumnName`.
 */
module Columns {
  import opened JsJson

  /** Every column of `form_submissions` and `contacts`. */
  datatype Column =
    | Id
    | FormType
    | Status
    | ServiceId
    | ServiceName
    | FullName
    | Email
    | Phone
    | Company
    | Industry
    | Details
    | InternalNotes
    | AssignedTo
    | CreatedAt
    | UpdatedAt
    | CompletedAt
    | Name
    | Service
    | Message
    | SubmittedAt

  /** A stored row: the value of each column it carries. */
  type Row = map<Column, Json>

  /** The snake_case name a column has in the database. */
  function ColumnName(c: Column): string {
    match c
    case Id => "id"
    case FormType => "form_type"
    case Status => "status"
    case ServiceId => "service_id"
    case ServiceName => "service_name"
    case FullName => "full_name"
    case Email => "email"
    case Phone => "phone"
    case Company => "company"
    case Industry => "industry"
    case Details => "details"
    case InternalNotes => "internal_notes"
    case AssignedTo => "assigned_to"
    case CreatedAt => "created_at"
    case UpdatedAt => "updated_at"
    case CompletedAt => "completed_at"
    case Name => "name"
    case Service => "service"
    case Message => "message"
    case SubmittedAt => "submitted_at"
  }

  /** The columns of the `form_submissions` table. */
  const SubmissionColumns: set<Column> := {
    Id, FormType, Status, ServiceId, ServiceName, FullName, Email, Phone, Company,
    Industry, Details, InternalNotes, AssignedTo, CreatedAt, UpdatedAt, CompletedAt
  }

  /** The `form_submissions` columns that are never null. */
  const SubmissionRequired: set<Column> := {
    Id, FormType, Status, FullName, Email, CreatedAt, UpdatedAt
  }

  /** The `form_submissions` columns that hold text or null. */
  const SubmissionNullableText: set<Column> := {
    ServiceId, ServiceName, Phone, Company, Industry, InternalNotes, AssignedTo, CompletedAt
  }

  /** The columns of the `contacts` table. */
  const ContactColumns: set<Column> := {
    Id, Email, Name, Phone, Service, Message, SubmittedAt
  }
}
