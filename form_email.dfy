/**
 * The serverless form endpoint: it answers CORS preflights, rejects a
 * submission without `name` or `form_type`, stores the rest with absent
 * fields as `null`, and reports success even when the insert fails.
 */
module FormEmail {
  import opened Js
  import opened LeadModels

  const CorsHeaders: map<string, string> := map[
    "Access-Control-Allow-Origin" := "*",
    "Access-Control-Allow-Headers" := "authorization, x-client-info, apikey, content-type"]

  /** `{ ...corsHeaders, "Content-Type": "application/json" }`. */
  const JsonHeaders: map<string, string> := CorsHeaders["Content-Type" := "application/json"]

  /** An incoming request; `body` is `None` when `req.json()` throws. */
  datatype Request = Request(verb: string, body: Option<Body>)

  datatype Payload =
    | NoBody
    | ErrorJson(error: string)
    | SuccessJson(success: bool, message: string)

  datatype Answer = Answer(status: nat, headers: map<string, string>, payload: Payload)

  /** A `form_submissions` row; `None` stands for `null`. */
  datatype Submission = Submission(
    formType: string, name: string, email: Option<string>, phone: Option<string>,
    classLevel: Option<string>, message: Option<string>, preferredDate: Option<string>)

  /** `v || null`. */
  function OrNull(v: Option<string>): (r: Option<string>)
    ensures r.None? <==> !Truthy(v)
    ensures r.Some? ==> r == v
  {
    if Truthy(v) then v else None
  }

  /** The row inserted for a body that passed the required-field check. */
  function SubmissionOf(body: Body): Submission
    requires Truthy(Field(body, "name")) && Truthy(Field(body, "form_type"))
  {
    Submission(body["form_type"], body["name"], OrNull(Field(body, "email")), OrNull(Field(body, "phone")),
               OrNull(Field(body, "class_level")), OrNull(Field(body, "message")), OrNull(Field(body, "preferred_date")))
  }

  /** Every optional column is the given non-empty value or `null`. */
  lemma SubmissionNulls(body: Body, k: string)
    requires Truthy(Field(body, "name")) && Truthy(Field(body, "form_type"))
    requires k in {"email", "phone", "class_level", "message", "preferred_date"}
    ensures var s := SubmissionOf(body);
      var column := if k == "email" then s.email else if k == "phone" then s.phone
        else if k == "class_level" then s.classLevel else if k == "message" then s.message else s.preferredDate;
      && (Truthy(Field(body, k)) ==> column == Some(body[k]))
      && (!Truthy(Field(body, k)) ==> column == None)
  {
  }

  predicate CarriesCors(a: Answer) {
    forall h :: h in CorsHeaders ==> h in a.headers && a.headers[h] == CorsHeaders[h]
  }

  /** The `form_submissions` table. */
  class SubmissionTable {
    var rows: seq<Submission>

    constructor ()
      ensures rows == []
    {
      rows := [];
    }
  }

  /** The request handler; `dbFault` is the insert's error. */
  method Serve(req: Request, table: SubmissionTable, dbFault: bool) returns (resp: Answer)
    modifies table
    ensures CarriesCors(resp)
    ensures req.verb == "OPTIONS" ==> resp == Answer(200, CorsHeaders, NoBody) && unchanged(table)
    ensures req.verb != "OPTIONS" && req.body.None? ==>
      resp == Answer(500, JsonHeaders, ErrorJson("Internal server error")) && unchanged(table)
    ensures req.verb != "OPTIONS" && req.body.Some? ==>
      var body := req.body.value;
      if !Truthy(Field(body, "name")) || !Truthy(Field(body, "form_type")) then
        resp == Answer(400, JsonHeaders, ErrorJson("Missing required fields")) && unchanged(table)
      else
        && resp == Answer(200, JsonHeaders, SuccessJson(true, "Form submitted successfully"))
        && table.rows == old(table.rows) + (if dbFault then [] else [SubmissionOf(body)])
  {
    if req.verb == "OPTIONS" {
      return Answer(200, CorsHeaders, NoBody);
    }
    if req.body.None? {
      return Answer(500, JsonHeaders, ErrorJson("Internal server error"));
    }
    var body := req.body.value;
    if !Truthy(Field(body, "name")) || !Truthy(Field(body, "form_type")) {
      return Answer(400, JsonHeaders, ErrorJson("Missing required fields"));
    }
    if !dbFault {
      table.rows := table.rows + [SubmissionOf(body)];
    }
    resp := Answer(200, JsonHeaders, SuccessJson(true, "Form submitted successfully"));
  }
}
