/**
  The parts of an aiohttp request and response that the controllers look at.
  A request's multipart form is what `request.post()` yields, and its body
  text is what `request.text()` yields; both are already decoded here.
*/
module Http {

  import opened Wrappers
  import opened Json

  type Bytes = seq<bv8>

  /** A multipart form field: an uploaded file or a plain text value. */
  datatype FormField = FileField(file: Bytes) | TextField(text: string)

  datatype Request = Request(
    headers: map<string, string>,
    contentType: string,
    form: map<string, FormField>,
    text: string)

  datatype Body = PlainText(text: string) | JsonText(json: Json)

  datatype Response = Response(status: int, body: Body)

  /** `request.headers.get(name)`. */
  function Header(request: Request, name: string): (h: Option<string>)
    ensures h.Some? <==> name in request.headers
    ensures h.Some? ==> h.value == request.headers[name]
  {
    if name in request.headers then Some(request.headers[name]) else None
  }

  /** `web.HTTPBadRequest(text=...)`. */
  function BadRequest(text: string): Response
  {
    Response(400, PlainText(text))
  }

  /** `web.HTTPUnauthorized(text=...)`. */
  function Unauthorized(text: string): Response
  {
    Response(401, PlainText(text))
  }

  /** `json_response(text=...)`, whose status is the default 200. */
  function JsonResponse(j: Json): Response
  {
    Response(200, JsonText(j))
  }
}
