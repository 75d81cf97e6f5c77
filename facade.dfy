/**
 * The ten operations of the sender service, each a fixed composition:
 * shape the request, load the picture when there is one, send, normalise.
 */
module Facade {
  import opened Wrappers
  import opened Api
  import opened Http
  import opened Responses
  import opened Shaping
  import opened Multipart

  /**
   * The Go library calls the operations depend on, beside the renderers.
   * `parses` says whether url.Parse accepts a URL; http.NewRequest("POST", u,
   * nil), and the request http.Get(u) builds, fail exactly when url.Parse(u)
   * does, before anything is sent. `encodeQuery` is
   * Query().Encode() applied to the query url.Parse reads from a URL.
   */
  datatype Library = Library(
    codecs: Codecs,
    unmarshal: string -> Option<ErrorInfo>,
    parses: string -> bool,
    encodeQuery: string -> string)

  /** The reply of a call and what it did to the outside world, in order. */
  datatype Outcome = Outcome(reply: Reply, effects: seq<Effect>)

  /**
   * The URL a template-built request goes out with. A re-encoded one is
   * printed back as "scheme://host path ? Query().Encode()": url.Parse reads
   * the query after the first '?', none of the endpoints holds a '?', and
   * their scheme, host and path print back as the endpoint itself.
   */
  function SentUrl(lib: Library, plan: Plan): (u: string)
    ensures |u| > |plan.endpoint| && u[..|plan.endpoint|] == plan.endpoint && u[|plan.endpoint|] == '?'
    ensures !plan.reencode ==> u == RawUrl(plan)
    ensures plan.reencode ==> u[|plan.endpoint| + 1..] == lib.encodeQuery(Query(plan.params))
  {
    var u := if plan.reencode then plan.endpoint + "?" + lib.encodeQuery(Query(plan.params)) else RawUrl(plan);
    assert u == plan.endpoint + "?" + (if plan.reencode then lib.encodeQuery(Query(plan.params)) else Query(plan.params));
    u
  }

  /**
   * Sends `req` after the interactions `before`, and normalises the
   * response; the call fails with a transport error exactly when no
   * response came back.
   */
  function Exchange(lib: Library, world: World, req: Request, before: seq<Effect>): (out: Outcome)
    ensures out.effects == before + [Send(req)]
    ensures out.reply.err == Some(Transport) <==> world.send(req).None?
    ensures world.send(req).Some? ==> out.reply == Normalize(lib.unmarshal, world.send(req).value)
  {
    var effects := before + [Send(req)];
    match world.send(req)
    case None => Outcome(Failure(Transport), effects)
    case Some(resp) => Outcome(Normalize(lib.unmarshal, resp), effects)
  }

  /**
   * Carries out a shaped request: at most one send, as the last interaction;
   * a reply that is not a transport or URL failure is the normalised
   * response, and a URL failure comes before any interaction.
   */
  function Perform(lib: Library, world: World, plan: Plan): (out: Outcome)
    ensures |out.effects| <= 2
    ensures forall i :: 0 <= i < |out.effects| - 1 ==> !out.effects[i].Send?
    ensures out.reply.err != Some(Transport) && out.reply.err != Some(Encoding) ==> Answered(world, out.effects)
    ensures Answered(world, out.effects) ==> out.reply == Normalize(lib.unmarshal, LastResponse(world, out.effects))
    ensures out.reply.err == Some(Encoding) ==> out.effects == []
  {
    match plan.shape
    case Multipart(pic) =>
      var (form, loaded) := UploadForm(plan.params, world, pic);
      if form.None? then Outcome(Failure(Transport), loaded)
      else Exchange(lib, world, Request(POST, plan.endpoint, MultipartForm, Form(form.value)), loaded)
    case _ =>
      if plan.reencode && !lib.parses(RawUrl(plan)) then Outcome(Failure(Encoding), [])
      else
        var url := SentUrl(lib, plan);
        if !lib.parses(url) then Outcome(Failure(Encoding), [])
        else Exchange(lib, world, Request(MethodOf(plan.shape), url, ContentTypeOf(plan.shape), NoBody), [])
  }

  /**
   * One call on the service. Ping is the one call that answers "pong" and
   * touches nothing; every failure returns the empty string.
   */
  function Call(lib: Library, world: World, op: Op): (out: Outcome)
    ensures op.Ping? <==> out == Outcome(Reply("pong", None), [])
    ensures out.reply.err.Some? ==> out.reply.r == ""
  {
    match PlanOf(lib.codecs, op)
    case None => Outcome(Reply("pong", None), [])
    case Some(plan) => Perform(lib, world, plan)
  }

  /** The last interaction, when it is the request to the service and that request got a response. */
  predicate Answered(world: World, effects: seq<Effect>) {
    |effects| > 0 && effects[|effects| - 1].Send? && world.send(effects[|effects| - 1].request).Some?
  }

  function LastResponse(world: World, effects: seq<Effect>): Response
    requires Answered(world, effects)
  {
    world.send(effects[|effects| - 1].request).value
  }

  /**
   * A call sends at most one request to the service, as its last
   * interaction; normalising the response never sends another.
   */
  lemma AtMostOneRequest(lib: Library, world: World, op: Op)
    ensures var effects := Call(lib, world, op).effects;
      && |effects| <= 2
      && forall i :: 0 <= i < |effects| - 1 ==> !effects[i].Send?
  {
  }

  /**
   * Once a request got a response, the reply is the normalised response:
   * read failure, then business error, then status, then the body.
   */
  lemma ReplyIsNormalizedResponse(lib: Library, world: World, op: Op)
    ensures var out := Call(lib, world, op);
      Answered(world, out.effects) ==> out.reply == Normalize(lib.unmarshal, LastResponse(world, out.effects))
  {
  }

  /**
   * A successful call (other than Ping) sent one request, got status 200 and
   * a body with no business error, and returns that body unchanged.
   */
  lemma SuccessIsVerbatimBody(lib: Library, world: World, op: Op)
    requires !op.Ping?
    ensures var out := Call(lib, world, op);
      out.reply.err.None? ==>
        && Answered(world, out.effects)
        && LastResponse(world, out.effects) == Response(200, Some(out.reply.r))
        && ParseErrMsg(lib.unmarshal, out.reply.r).None?
  {
    var out := Call(lib, world, op);
    if out.reply.err.None? {
      var resp := LastResponse(world, out.effects);
      assert out.reply == Normalize(lib.unmarshal, resp);
    }
  }

  /** An encoding failure is detected before anything is sent. */
  lemma EncodingFailureSendsNothing(lib: Library, world: World, op: Op)
    ensures var out := Call(lib, world, op);
      out.reply.err == Some(Encoding) ==> out.effects == []
  {
  }

  /**
   * A status with a picture is a multipart POST to the upload endpoint: the
   * eight scalar fields, then the picture, whose source is chosen by the
   * "http" prefix. Once the picture is loaded the POST is sent.
   */
  lemma PictureStatusIsUpload(lib: Library, world: World, s: WeiboStatus)
    requires s.pic != ""
    ensures var out := Call(lib, world, SendStatus(s));
      && out.effects[0] == (if IsRemote(s.pic) then Fetch(s.pic) else Open(s.pic))
      && (LoadPicture(world, s.pic).0.Some? ==> |out.effects| == 2 && out.effects[1].Send?)
      && forall i :: 0 <= i < |out.effects| && out.effects[i].Send? ==>
           var req := out.effects[i].request;
           && req.verb == POST && req.url == UploadEndpoint && req.contentType == MultipartForm
           && req.body.Form? && |req.body.parts| == 9
           && req.body.parts[..8] == FieldParts(UploadFields(lib.codecs, s))
           && req.body.parts[8] == File("pic", s.pic, LoadPicture(world, s.pic).0.value)
  {
    var plan := PlanOf(lib.codecs, SendStatus(s)).value;
    assert plan == Plan(Multipart(s.pic), UploadEndpoint, UploadFields(lib.codecs, s), false);
  }

  /** A remote picture that cannot be fetched fails the call before any POST. */
  lemma FetchFailureSendsNothing(lib: Library, world: World, s: WeiboStatus)
    requires s.pic != "" && IsRemote(s.pic) && world.fetch(s.pic).None?
    ensures Call(lib, world, SendStatus(s)) == Outcome(Failure(Transport), [Fetch(s.pic)])
  {
  }

  /**
   * A local picture is never fetched; a file that cannot be opened does not
   * stop the upload, which then carries an empty picture.
   */
  lemma LocalPictureIsUploaded(lib: Library, world: World, s: WeiboStatus)
    requires s.pic != "" && !IsRemote(s.pic)
    ensures var out := Call(lib, world, SendStatus(s));
      && |out.effects| == 2 && out.effects[0] == Open(s.pic) && out.effects[1].Send?
      && out.effects[1].request.body.parts[8].content == world.open(s.pic).GetOr("")
  {
    var plan := PlanOf(lib.codecs, SendStatus(s)).value;
    assert plan == Plan(Multipart(s.pic), UploadEndpoint, UploadFields(lib.codecs, s), false);
  }

  /**
   * A status without a picture is a form POST of the assembled URL, sent
   * without re-encoding, when http.NewRequest accepts it; no picture is
   * touched either way.
   */
  lemma PlainStatusUpdate(lib: Library, world: World, s: WeiboStatus)
    requires s.pic == ""
    ensures var out := Call(lib, world, SendStatus(s));
      var url := RawUrl(Plan(FormPost, UpdateEndpoint, UpdateParams(lib.codecs, s), false));
      && (lib.parses(url) ==> out.effects == [Send(Request(POST, url, FormUrlEncoded, NoBody))])
      && (!lib.parses(url) ==> out == Outcome(Failure(Encoding), []))
  {
  }

  /**
   * The request each other operation sends: its endpoint, then the query of
   * its template after url.Parse and re-encoding, with GET for the lookups
   * and a form POST for the message reply and the comment. The request is
   * sent exactly when url.Parse accepts the assembled URL and the request
   * built from the re-encoded one accepts that; otherwise the call fails with
   * a URL error and touches nothing.
   */
  lemma RequestByOperation(lib: Library, world: World, op: Op)
    requires !op.Ping? && !op.SendStatus?
    ensures var out := Call(lib, world, op);
      var plan := PlanOf(lib.codecs, op).value;
      var url := plan.endpoint + "?" + lib.encodeQuery(Query(plan.params));
      && ((lib.parses(RawUrl(plan)) && lib.parses(url)) <==> (|out.effects| == 1 && out.effects[0].Send?))
      && (!(lib.parses(RawUrl(plan)) && lib.parses(url)) ==> out == Outcome(Failure(Encoding), []))
      && forall i :: 0 <= i < |out.effects| && out.effects[i].Send? ==>
        var req := out.effects[i].request;
        && i == 0
        && req.url == url
        && req.body == NoBody
        && (req.verb == POST <==> op.SendMessage? || op.CreateComments?)
        && (req.contentType == FormUrlEncoded <==> op.SendMessage? || op.CreateComments?)
        && (req.verb == GET <==> req.contentType == NoContentType)
  {
  }
}
