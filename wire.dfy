/** The HTTP-side values the two proxies read and write. */
module Wire {
  import opened Base

  /** A value of the JSON object sent to a backend: a string, a list of strings, or whatever binding produced. */
  datatype Value = Str(s: string) | Strs(xs: seq<string>) | Bound(json: string)

  /** The JSON object sent to a backend. */
  type Payload = map<string, Value>

  /** One uploaded file; `None` when opening or reading it failed. */
  datatype FilePart = FilePart(content: Option<seq<byte>>)

  /** A parsed multipart form: file fields and value fields, each with its parts in order. */
  datatype MultipartForm = MultipartForm(files: map<string, seq<FilePart>>, values: map<string, seq<string>>)

  /**
   * What a proxy sees of an inbound request: the verb, the first value of
   * each query parameter, the path parameters, the content type, the parsed
   * multipart form (`None` when the body is not multipart), the object that
   * binding a non-multipart body yields, the client address and the headers.
   */
  datatype Request = Request(
    verb: string,
    query: map<string, string>,
    pathParams: map<string, string>,
    contentType: string,
    form: Option<MultipartForm>,
    bound: Payload,
    clientIP: string,
    headers: map<string, seq<string>>)

  /** The `message` of an error body: a literal, a Go error value, or a nil error. */
  datatype Message = Text(text: string) | ErrorValue(err: string) | NilError

  /** A JSON response body. */
  datatype Body =
    | Errors(id: string, message: Message)        // {"errors": [{"id": .., "message": ..}]}
    | Raw(json: string)                           // a backend reply passed through
    | StatusMessage(status: int, text: string)   // {"status": .., "message": ..}

  /** One `c.JSON(status, body)` call. */
  datatype Write = Write(status: int, body: Body)

  /** An error returned by a backend call, as `errors.FromError` reads it. */
  datatype BackendError = BackendError(id: string, code: int, detail: string)

  /** The result of a backend call. */
  datatype CallResult = Replied(raw: string) | Failed(err: BackendError)

  /** The HTTP status for a backend error code: the code itself, or 500 when it is 0. */
  function ErrorStatus(code: int): int
  {
    if code != 0 then code else 500
  }
}
