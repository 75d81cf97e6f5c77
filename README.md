# Weibo sender: request shaping and result normalisation

A model of the operation façade of the Weibo sender service
(`src/weibosender-server/weibosender_impl.go`). Each of its ten operations
turns a call into at most one request to the Weibo REST API and turns the
answer into Go's `(r string, err error)` pair. Three kinds of call send
nothing. `Ping` answers `"pong"` by itself. A call whose URL `url.Parse`,
`http.Get` or `http.NewRequest` rejects sends nothing either. So does a status whose remote
picture cannot be fetched. The model covers:

- **Result normalisation** (`Responses`). `ParseErrMsg` decides whether a
  response body carries a business error. Every operation then applies the
  same checks in a fixed order: body read failure, then business error, then
  a status other than 200. Only when all three pass is the body returned
  verbatim.
- **Request shaping** (`Shaping`). Each operation gets a `Plan`: a shape
  (`Get`, `FormPost` or `Multipart`), an endpoint and its parameters in the
  order of its URL template. The plan also records whether the assembled URL
  goes through `url.Parse` and `Query().Encode()`. `SendStatus` takes the
  multipart upload path when it has a picture. Without one, `visible` and
  `list_id` are sent only for a status addressed to a friend group.
- **The multipart body** (`Multipart`). A `FormWriter` class stands for
  `multipart.Writer`. The picture branch of `SendStatus` writes the eight
  scalar fields and then the `pic` part. `encodeMultipart` writes the `pic`
  part alone. Both are methods proved equal to the specification function
  `UploadForm`. A picture whose name starts with `"http"` is fetched. Any
  other picture is opened as a local file, and a failed open is ignored, as in
  the code.
- **The façade** (`Facade`). `Call` composes the parts for every operation.
  It returns the reply and the sequence of interactions with the outside
  world (`Fetch`, `Open`, `Send`). This makes statements such as "no request
  is sent after a failed picture fetch" expressible.

Integers are rendered in decimal (`Decimal`), as `%v` and
`strconv.FormatInt` print them. The error texts `"Http Status Code: N"` and
`"code: message"` are modelled exactly, and the code can be read back from
them.

The model treats the following as inputs or uninterpreted functions:

- the outside world (`Http.World`): the picture fetch, the local file and the
  HTTP exchange;
- the Go libraries: `Shaping.Codecs` for `utils.UrlEncode` and float
  rendering, and `Facade.Library` for `json.Unmarshal`, URL acceptance by
  `url.Parse` / `http.NewRequest`, and `Query().Encode()` of a parsed query.

Go strings and byte slices are both Dafny `string`s, so `string(body)` is the
identity.

Some behaviour is kept exactly as the code has it, even where a cleaner
design would differ:

- A local picture that cannot be opened is uploaded with an empty content
  instead of failing the call.
- The status update without a picture sends its assembled URL without the
  parse-and-re-encode step. As a result, only the pre-encoded status text is
  percent-encoded there.

## Model

| member | source | states |
|---|---|---|
| `Responses.ParseErrMsg` | src/weibosender-server/weibosender_impl.go:24-33 | Yields an error exactly when the body decodes and its `error_code` is non-zero. The error carries that code and message. An undecodable body or code 0 yields none. |
| `Responses.Normalize` | src/weibosender-server/weibosender_impl.go:130-154 | Succeeds exactly when the body was read, holds no business error and came with status 200, and then returns that body. Every failure returns `""` and is never a transport or URL error. |
| `Responses.ReadFailureFails` | src/weibosender-server/weibosender_impl.go:131-135 | A failed body read is an error whatever the status. |
| `Responses.BusinessErrorPrecedence` | src/weibosender-server/weibosender_impl.go:141-145 | A body with a non-zero `error_code` fails with the business error and an empty result, for every status, 200 included. |
| `Responses.StatusDecides` | src/weibosender-server/weibosender_impl.go:147-154 | With no business error, the call succeeds iff the status is exactly 200. On success the body comes back verbatim. Otherwise the result is `""` with the status error. |
| `Responses.Text` | src/weibosender-server/weibosender_impl.go:29-149 | Only the business and status errors have a text of this file (:29, :149). A status text is `"Http Status Code: "` followed by the decimal digits of the status, as `%v` prints them. In a business text the first colon ends the code, and `": "` and the message follow it. |
| `Responses.StatusTextCarriesCode` | src/weibosender-server/weibosender_impl.go:147-150 | The text `"Http Status Code: N"` is read back to exactly N. |
| `Responses.BusinessTextCarriesCodeAndMessage` | src/weibosender-server/weibosender_impl.go:28-30 | The `"%v: %v"` text of a business error is read back to its code and its whole message, colons in the message included. |
| `Responses.ErrorTextsDiffer` | src/weibosender-server/weibosender_impl.go:29 | A business error text never equals a status error text. |
| `Decimal.NatText` | src/weibosender-server/weibosender_impl.go:58 | Renders a natural number as a non-empty string of digits with no leading zero. |
| `Decimal.IntText` | src/weibosender-server/weibosender_impl.go:58 | `FormatInt(n, 10)` / `%v` output is digits, led by `'-'` exactly when n is negative. |
| `Decimal.IntTextRoundTrip` | src/weibosender-server/weibosender_impl.go:58 | Reading the decimal text back gives the integer. |
| `Decimal.IntTextInjective` | src/weibosender-server/weibosender_impl.go:58 | Two integers render the same exactly when they are equal. |
| `Shaping.UpdateParams` | src/weibosender-server/weibosender_impl.go:92-111 | Without a picture: eight parameters for a friend group, with `visible` and `list_id` third and fourth carrying their values. Otherwise six, and no group parameter at all. |
| `Shaping.UploadFields` | src/weibosender-server/weibosender_impl.go:56-63 | The scalar form fields are exactly the eight names of the upload, in their fixed order. |
| `Shaping.PlanOf` | src/weibosender-server/weibosender_impl.go:39-595 | Only Ping yields no request (:39-42). Every other operation yields the method class, endpoint, parameters and re-encode flag of its template (:52-111, :161-173, :225-233, :278-285, :329-337, :392-405, :462-475, :529-539, :584-595). |
| `Shaping.Query` | src/weibosender-server/weibosender_impl.go:93-108 | The `name=value&…` query the templates write is empty exactly when there are no parameters. |
| `Shaping.TemplateQuery` | src/weibosender-server/weibosender_impl.go:161-588 | The query of each template-built plan is the text its `fmt.Sprintf` template writes, names and values in template order (:161-166, :225, :278, :329, :392-398, :462-468, :529, :584-588). |
| `Shaping.MethodOf` | src/weibosender-server/weibosender_impl.go:83-606 | The request is a GET exactly for the lookup shape; both POST shapes use POST (:83, :115, :177, :237, :599). |
| `Shaping.ContentTypeOf` | src/weibosender-server/weibosender_impl.go:79-606 | A lookup sets no content type, a form POST sets the form-urlencoded one, and an upload the multipart one (:79, :120, :182, :604). |
| `Shaping.QueryConcat` | src/weibosender-server/weibosender_impl.go:161-166 | Joining two parameter lists joins their queries with `&`. |
| `Shaping.RawUrl` | src/weibosender-server/weibosender_impl.go:161-173 | When the endpoint holds no `?`, `url.Parse` finds the endpoint before the first `?` and the assembled query after it. |
| `Shaping.UpdateGroupGate` | src/weibosender-server/weibosender_impl.go:92-111 | Without a picture the request is a form POST to `update.json` with no re-encoding. `visible` and `list_id` appear iff `Visible == 3 && ListId != ""`, and then carry those values. |
| `Shaping.UpdateOrderIgnoresGroup` | src/weibosender-server/weibosender_impl.go:92-111 | Dropping `visible` and `list_id` leaves the same six parameters in the same order, whatever the visibility and list id. |
| `Shaping.UploadWritesEveryField` | src/weibosender-server/weibosender_impl.go:52-65 | With a picture the request is a multipart POST to `upload.json`. Its eight scalar fields are written in fixed order, `visible` and `list_id` included whatever the visibility, and each of the eight names reads back to its own value. |
| `Shaping.UploadFieldValues` | src/weibosender-server/weibosender_impl.go:56-63 | The token, the URL-encoded status, `lat` and `long` as `strconv.FormatFloat` of latitude and longitude, then annotations and the client address, each under its own name. |
| `Shaping.ShapeByOperation` | src/weibosender-server/weibosender_impl.go:52-606 | Form POST iff status without picture, message reply or comment. Multipart iff status with picture. GET iff one of the six lookups. |
| `Shaping.EndpointByOperation` | src/weibosender-server/weibosender_impl.go:52-595 | Names the fixed endpoint of each of the nine request-making operations, from the ten templates (:83, :93, :104, :161, :225, :278, :329, :392, :462, :529, :584). |
| `Shaping.AccessTokenFirst` | src/weibosender-server/weibosender_impl.go:52-595 | Every template and the upload field list start with `access_token` and the caller's token (:56, :93, :104, :161, :225, :278, :329, :392, :462, :529, :584). |
| `Shaping.ReencodeUnlessStatus` | src/weibosender-server/weibosender_impl.go:168-173 | Every operation except `SendStatus` parses and re-encodes its URL. |
| `Shaping.EmotionsInChinese` | src/weibosender-server/weibosender_impl.go:278 | `GetEmotions` sends `access_token`, `type` and always `language=cnname`. |
| `Shaping.FreeTextPreEncoding` | src/weibosender-server/weibosender_impl.go:581-588 | The status text and the comment text are URL-encoded before templating. The message payload is sent as given. |
| `Shaping.QueryRoundTrip` | src/weibosender-server/weibosender_impl.go:161-166 | The `name=value&…` query a template assembles reads back to the same parameters in order. This needs names free of `&` and `=` and values free of `&`. |
| `Shaping.UnencodedValueForgesParams` | src/weibosender-server/weibosender_impl.go:157-173 | A `SendMessage` payload `hi&receiver_id=1` assembles the query of a list with a forged `receiver_id=1` ahead of the caller's. When the token and type hold no delimiters, the query reads back to `1` as its first `receiver_id`. |
| `Shaping.ReadBackFirst` | src/weibosender-server/weibosender_impl.go:161-173 | The first parameter with a name in a delimited query is the value that name reads back to. |
| `Multipart.IsRemote` | src/weibosender-server/weibosender_impl.go:66 | A picture is remote exactly when its name is `"http"` followed by anything. |
| `Multipart.LoadPicture` | src/weibosender-server/weibosender_impl.go:66-78 | One interaction: a fetch for a remote picture, otherwise an open. No bytes only when a remote fetch fails. A local picture gives what the open read, and a failed open gives the empty picture. |
| `Multipart.UploadForm` | src/weibosender-server/weibosender_impl.go:54-81 | Its interactions are the picture load's. It builds no body exactly when the load fails. A built body is the fields in order, then one file part `pic` named after the picture. |
| `Multipart.FormWriter.constructor` | src/weibosender-server/weibosender_impl.go:54-55 | A new writer holds no parts. |
| `Multipart.FormWriter.WriteField` | src/weibosender-server/weibosender_impl.go:56 | Appends one field part. |
| `Multipart.FormWriter.CreateFormFile` | src/weibosender-server/weibosender_impl.go:65 | Appends an empty file part. |
| `Multipart.FormWriter.Write` | src/weibosender-server/weibosender_impl.go:72 | Appends bytes to the last file part and leaves the other parts unchanged. |
| `Multipart.FormWriter.Close` | src/weibosender-server/weibosender_impl.go:81 | Marks the writer closed and keeps its parts. |
| `Multipart.AttachPicture` | src/weibosender-server/weibosender_impl.go:65-78 | Adds the `pic` part filled from the fetched or opened picture. Fails only when a remote fetch fails, and the empty `pic` part is then already written. |
| `Multipart.WriteScalarFields` | src/weibosender-server/weibosender_impl.go:56-63 | Appends exactly the eight upload fields, in order. |
| `Multipart.EncodeUploadForm` | src/weibosender-server/weibosender_impl.go:54-81 | The picture branch's writer calls build exactly `UploadForm(UploadFields(c, s), world, s.pic)`. |
| `Multipart.EncodeMultipart` | src/weibosender-server/weibosender_impl.go:640-661 | `encodeMultipart` builds exactly the picture-only form `UploadForm([], world, pic)`. |
| `Multipart.PictureSource` | src/weibosender-server/weibosender_impl.go:66-78 | An `"http"` prefix means one fetch, whose failure leaves no body. Otherwise there is one open, never a fetch, and a body always. A failed open gives an empty picture. |
| `Facade.SentUrl` | src/weibosender-server/weibosender_impl.go:168-595 | The URL sent starts with the endpoint and `?`. Without re-encoding it is the assembled URL itself (:115). With it, the rest is `Query().Encode()` of the assembled query (:173, :233, :285, :337, :405, :475, :539, :595). |
| `Facade.Exchange` | src/weibosender-server/weibosender_impl.go:122-127 | Sends the request after the earlier interactions. It fails with a transport error exactly when no response came back. Otherwise the reply is the normalised response. |
| `Facade.Perform` | src/weibosender-server/weibosender_impl.go:83-154 | A shaped request sends at most once, as its last interaction. A URL failure sends nothing. Any reply other than a transport or URL failure is the normalised response. |
| `Facade.Call` | src/weibosender-server/weibosender_impl.go:39-42 | Ping (:39-42) is the one call that answers `"pong"` with no interaction. Every failure of every operation returns `""` (:44-638). |
| `Facade.AtMostOneRequest` | src/weibosender-server/weibosender_impl.go:121-127 | A call has at most two interactions and sends only as the last one. |
| `Facade.ReplyIsNormalizedResponse` | src/weibosender-server/weibosender_impl.go:130-154 | Once the request gets a response, the reply is `Normalize` of that response. |
| `Facade.SuccessIsVerbatimBody` | src/weibosender-server/weibosender_impl.go:137-154 | A successful call got status 200 with a body free of business errors, and returns that body unchanged. |
| `Facade.EncodingFailureSendsNothing` | src/weibosender-server/weibosender_impl.go:168-172 | A URL rejected by `url.Parse`, `http.Get` or `http.NewRequest` fails the call before anything is sent. |
| `Facade.PictureStatusIsUpload` | src/weibosender-server/weibosender_impl.go:52-88 | A status with a picture fetches or opens it first. Once the picture is loaded it sends exactly one multipart POST to `upload.json`, whose nine parts are the eight fields and the picture. |
| `Facade.FetchFailureSendsNothing` | src/weibosender-server/weibosender_impl.go:66-71 | A failed remote picture fetch fails the call with exactly one interaction, the fetch. |
| `Facade.LocalPictureIsUploaded` | src/weibosender-server/weibosender_impl.go:74-78 | A local picture is opened, never fetched, and always uploaded. A failed open uploads an empty picture. |
| `Facade.PlainStatusUpdate` | src/weibosender-server/weibosender_impl.go:90-127 | Without a picture, the assembled URL is POSTed form-encoded without re-encoding when accepted. Otherwise the call fails with an encoding error and no interaction. |
| `Facade.RequestByOperation` | src/weibosender-server/weibosender_impl.go:168-189 | Every other operation sends exactly one request iff `url.Parse` accepts its assembled URL and `http.Get` or `http.NewRequest` accepts the re-encoded one (:237, :289, :341, :410, :480, :544). Otherwise it fails with a URL error and touches nothing. That request is its endpoint, `?` and the re-encoded query, with no body. Message reply and comment use a form POST; the lookups use a bare GET. |

## Left out

- Network and file I/O (`http.Get`, `http.Post`, `http.Client.Do`, `os.Open`, `io.Copy`, `ioutil.ReadAll`) are the answers of `Http.World`. A partial `io.Copy` is whatever bytes `World.fetch` returns.
- `json.Unmarshal`, `url.Parse`, `url.Values.Encode`, `utils.UrlEncode`, `strconv.FormatFloat` and `%v` on floats are uninterpreted functions. The model records where each is applied, not what it computes. In particular it does not state the key sorting that `Query().Encode()` performs.
- Multipart boundaries and `FormDataContentType` are library internals. The body is modelled as its list of parts, and the header as the tag `MultipartForm`.
- Closing response bodies, fetched pictures and files (`Body.Close`, `fh.Close`, `defer`) has no effect on any reply and is not modelled.
- The errors of `WriteField` and `CreateFormFile` are ignored by the code, and writes to an in-memory buffer do not fail. The writer is modelled as never failing.
- The texts of errors returned by Go libraries (transport, read, URL parsing) are left abstract. Only the two texts the file formats itself are modelled.
- Logging (`LOG_INFO`, `LOG_DEBUG`, `LOG_ERROR`) and the RPC server scaffolding are not part of this model.
- Equal inputs give equal requests because every shaping member is a function. No separate determinism lemma is stated.
- `Facade.SentUrl` prints a re-encoded URL back as the plan's endpoint, `?` and `Query().Encode()` of its query. The code rebuilds it from the parsed scheme, host and path. That these print back as the endpoint, and that no endpoint holds a `?`, is read off the endpoint constants, not proved.
- `Query().Encode()` is the uninterpreted `Facade.Library.encodeQuery`. Its input is the whole text after the first `?`, so a fragment (`#…`) in a parameter value is left to it.
