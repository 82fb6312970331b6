/** The parts of an HTTP exchange the service reads and writes (net/http):
    the request line, the `limit` query parameter, the Authorization header
    and the decoded JSON body, and the response's status, Content-Type and
    body. */
module Http {
  import opened Wrappers
  import opened Models

  const MethodGet := "GET"
  const MethodPost := "POST"

  const StatusOK := 200
  const StatusBadRequest := 400
  const StatusUnauthorized := 401
  const StatusNotFound := 404
  const StatusInternalServerError := 500

  /** The Content-Type that http.Error sets. */
  const PlainText := "text/plain; charset=utf-8"
  /** The Content-Type that the ContentTypeJSON middleware sets. */
  const Json := "application/json"

  /** A request as the handlers see it. `verb` is r.Method, `limit` is
      r.URL.Query().Get("limit") and `authorization` is
      r.Header.Get("Authorization"), both "" when absent. The body is given
      by what json.Decoder produces for each of the two request types, None
      when decoding fails. */
  datatype Request = Request(
    verb: string,
    path: string,
    limit: string,
    authorization: string,
    taskBody: Option<TaskRequest>,
    referrerBody: Option<ReferrerRequest>)

  /** What a response carries: the text of an http.Error, or a value that
      json.Encoder writes. */
  datatype Payload =
    | Text(text: string)
    | UserJson(user: User)
    | TaskJson(task: Task)
    | UsersJson(users: seq<User>)

  /** A finished response. `contentType` is None when nothing set the header. */
  datatype Response = Response(status: int, contentType: Option<string>, body: Payload)

  /** http.Error(w, message, code): the header becomes plain text and the
      body is the message followed by a newline. */
  function Error(message: string, code: int): (r: Response)
    ensures r.status == code && r.contentType == Some(PlainText)
    ensures r.body.Text? && |r.body.text| == |message| + 1
    ensures r.body.text[..|message|] == message && r.body.text[|message|] == '\n'
  {
    Response(code, Some(PlainText), Text(message + "\n"))
  }

  /** http.NotFound */
  function NotFound(): (r: Response)
    ensures r.status == StatusNotFound && r.contentType == Some(PlainText)
  {
    Error("404 page not found", StatusNotFound)
  }
}
