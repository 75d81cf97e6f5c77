/**
 * What goes over the wire and what comes back. The outside world (the
 * picture fetch, the local file, the REST service) is a `World` whose
 * answers are inputs of the model.
 */
module Http {
  import opened Wrappers

  datatype Method = GET | POST

  /** The Content-Type header a request carries. */
  datatype ContentType =
    | NoContentType
    | FormUrlEncoded   // "application/x-www-form-urlencoded; param=value", set by hand before Client.Do
    | MultipartForm    // multipart.Writer.FormDataContentType(), boundary included

  /** One part of a multipart/form-data body. */
  datatype Part =
    | Field(name: string, value: string)
    | File(field: string, filename: string, content: string)

  datatype Body = NoBody | Form(parts: seq<Part>)

  datatype Request = Request(verb: Method, url: string, contentType: ContentType, body: Body)

  /** A response: its status code, and its body, or None when reading the body failed. */
  datatype Response = Response(status: int, body: Option<string>)

  /** An interaction with the outside world, in the order it happens. */
  datatype Effect =
    | Fetch(url: string)     // http.Get of a remote picture
    | Open(path: string)     // os.Open of a local picture
    | Send(request: Request) // the one request to the REST service

  /**
   * How the outside world answers: `fetch` gives the bytes copied from a
   * remote picture (None when http.Get fails), `open` the bytes of a local
   * file (None when os.Open fails), `send` the response to a request (None
   * when the transport fails).
   */
  datatype World = World(
    fetch: string -> Option<string>,
    open: string -> Option<string>,
    send: Request -> Option<Response>)
}
