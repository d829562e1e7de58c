/**
 * The JSON responses the route handlers send, and the part of the intake
 * flow both POST handlers share: turning the outcome of one insert into a
 * response.
 */
module Http {
  import opened Wrappers
  import opened JsJson
  import C = Columns
  import Types
  import Services

  /** A response body, as the handlers build it for `NextResponse.json`. */
  datatype Body =
    | ErrorBody(error: string)
    | Submitted(result: Types.FormSubmissionResponse)
    | ServiceBody(service: Services.Service)
    | RowBody(row: C.Row)

  /** A status code with its JSON body. */
  datatype Response = Response(status: int, body: Body)

  /** What the store answers one `insert(…).select()` with. */
  datatype InsertReply =
    | Inserted(rows: seq<C.Row>)   // the inserted rows as the store returned them
    | InsertError(message: string) // the `error` of the reply
    | InsertThrew                  // the awaited call rejected

  /** What one POST does: the row it asks the store to insert, if any, and its answer. */
  datatype Exchange = Exchange(insert: Option<C.Row>, response: Response)

  const SubmitFailedPrefix := "Failed to submit form: "
  const SubmitSucceeded := "Form submitted successfully. We will review and contact you soon."
  const UnexpectedRetry := "An unexpected error occurred. " + "Please try again."

  /** The answer when a POST handler throws. */
  const PostCrashed := Response(500, ErrorBody(UnexpectedRetry))

  /** `data?.[0]?.id`: the id of the first returned row, `undefined` when there is none. */
  function FirstId(rows: seq<C.Row>): (id: Option<Json>)
    ensures id.Some? <==> |rows| > 0 && C.Id in rows[0]
    ensures id.Some? ==> id.value == rows[0][C.Id]
  {
    if |rows| > 0 && C.Id in rows[0] then Some(rows[0][C.Id]) else None
  }

  /**
   * The answer to an insert: 500 carrying the store's message after a fixed
   * prefix, 500 with the generic text when the call threw, and otherwise 201
   * with `success: true` and the first returned row's id.
   */
  function InsertResponse(reply: InsertReply): (r: Response)
    ensures r.status == 201 <==> reply.Inserted?
    ensures r.status != 201 ==> r.status == 500 && r.body.ErrorBody?
    ensures reply.InsertError? ==> r.body.error == SubmitFailedPrefix + reply.message
    ensures reply.InsertThrew? ==> r == PostCrashed
    ensures reply.Inserted? ==> r.body.Submitted? && r.body.result.success
    ensures reply.Inserted? ==> r.body.result.message == SubmitSucceeded
    ensures reply.Inserted? ==> r.body.result.submissionId == FirstId(reply.rows)
  {
    match reply
    case InsertThrew => PostCrashed
    case InsertError(m) => Response(500, ErrorBody(SubmitFailedPrefix + m))
    case Inserted(rows) =>
      Response(201, Submitted(Types.FormSubmissionResponse(true, SubmitSucceeded, FirstId(rows), None)))
  }

  /**
   * The answer tells the insert's outcome apart: success, a thrown call and
   * a store error never share a response, and a store error's answer
   * carries its message.
   */
  lemma ResponseRevealsOutcome(a: InsertReply, b: InsertReply)
    requires InsertResponse(a) == InsertResponse(b)
    ensures a.Inserted? <==> b.Inserted?
    ensures a.InsertThrew? <==> b.InsertThrew?
    ensures a.InsertError? ==> b == a
  {
    if a.InsertError? {
      StoreErrorIsNotCrash(a.message);
    }
    if b.InsertError? {
      StoreErrorIsNotCrash(b.message);
    }
    if a.InsertError? && b.InsertError? {
      var n := |SubmitFailedPrefix|;
      assert a.message == (SubmitFailedPrefix + a.message)[n..];
      assert b.message == (SubmitFailedPrefix + b.message)[n..];
    }
  }

  /** A reported store error never reads as the generic crash text. */
  lemma StoreErrorIsNotCrash(message: string)
    ensures SubmitFailedPrefix + message != UnexpectedRetry
  {
    assert (SubmitFailedPrefix + message)[0] == 'F';
    assert UnexpectedRetry[0] == 'A';
  }
}
