/**
 * Request shaping: for each operation, the method and shape of the request,
 * its endpoint and its parameters in the order the URL templates give them.
 */
module Shaping {
  import opened Wrappers
  import opened Api
  import opened Http
  import Decimal
  import Strings

  datatype Param = Param(name: string, value: string)

  /** GET with a query string, POST with the parameters in the query, or multipart POST with a picture. */
  datatype Shape = Get | FormPost | Multipart(pic: string)

  /**
   * A request before it is put on the wire. `reencode` is set when the
   * assembled URL goes through url.Parse and Query().Encode() before it is sent.
   */
  datatype Plan = Plan(shape: Shape, endpoint: string, params: seq<Param>, reencode: bool)

  /**
   * The rendering functions of the Go libraries: utils.UrlEncode,
   * strconv.FormatFloat(x, 'f', -1, 64) and the `%v` verb on a float64.
   */
  datatype Codecs = Codecs(
    urlEncode: string -> string,
    formatFloat: Float64 -> string,
    printFloat: Float64 -> string)

  const UpdateEndpoint: string := "https://api.weibo.com/2/statuses/update.json"
  const UploadEndpoint: string := "https://upload.api.weibo.com/2/statuses/upload.json"
  const ReplyEndpoint: string := "https://m.api.weibo.com/2/messages/reply.json"
  const UserShowEndpoint: string := "https://api.weibo.com/2/users/show.json"
  const EmotionsEndpoint: string := "https://api.weibo.com/2/emotions.json"
  const UserTimelineEndpoint: string := "https://api.weibo.com/2/statuses/user_timeline.json"
  const HomeTimelineEndpoint: string := "https://api.weibo.com/2/statuses/home_timeline.json"
  const CountEndpoint: string := "https://api.weibo.com/2/statuses/count.json"
  const CommentCreateEndpoint: string := "https://api.weibo.com/2/comments/create.json"

  /** The two parameters that restrict a status to one friend group. */
  const GroupParams: set<string> := {"visible", "list_id"}

  /** The eight scalar fields of a picture upload, in the order they are written. */
  const UploadFieldNames: seq<string> :=
    ["access_token", "status", "visible", "list_id", "lat", "long", "annotations", "rip"]

  /** Visibility 3 with a list id: the status is shown to one friend group only. */
  predicate ToGroup(s: WeiboStatus) {
    s.visible == 3 && s.listId != ""
  }

  /**
   * The query of a status update without a picture: eight parameters for a
   * friend group, with visible and list_id third and fourth, six otherwise,
   * and no group parameter at all then.
   */
  function UpdateParams(c: Codecs, s: WeiboStatus): (ps: seq<Param>)
    ensures |ps| == if ToGroup(s) then 8 else 6
    ensures forall i :: 0 <= i < |ps| && ps[i].name in GroupParams ==> ToGroup(s)
    ensures ToGroup(s) ==>
      ps[2] == Param("visible", Decimal.IntText(s.visible as int)) && ps[3] == Param("list_id", s.listId)
  {
    var head := [Param("access_token", s.accessToken), Param("status", c.urlEncode(s.status))];
    var tail := [Param("lat", c.printFloat(s.latitude)), Param("long", c.printFloat(s.longitude)),
                 Param("annotations", s.annotations), Param("rip", s.realIp)];
    if ToGroup(s) then
      head + [Param("visible", Decimal.IntText(s.visible as int)), Param("list_id", s.listId)] + tail
    else
      head + tail
  }

  /** The scalar form fields of a status upload with a picture: all eight names, in their fixed order. */
  function UploadFields(c: Codecs, s: WeiboStatus): (ps: seq<Param>)
    ensures |ps| == |UploadFieldNames|
    ensures forall i :: 0 <= i < |ps| ==> ps[i].name == UploadFieldNames[i]
  {
    [Param("access_token", s.accessToken),
     Param("status", c.urlEncode(s.status)),
     Param("visible", Decimal.IntText(s.visible as int)),
     Param("list_id", s.listId),
     Param("lat", c.formatFloat(s.latitude)),
     Param("long", c.formatFloat(s.longitude)),
     Param("annotations", s.annotations),
     Param("rip", s.realIp)]
  }

  function Timeline(endpoint: string, token: string, sinceId: int64, maxId: int64, count: int32, page: int32): Plan {
    Plan(Get, endpoint,
         [Param("access_token", token), Param("since_id", Decimal.IntText(sinceId as int)),
          Param("max_id", Decimal.IntText(maxId as int)), Param("count", Decimal.IntText(count as int)),
          Param("page", Decimal.IntText(page as int))],
         true)
  }

  /** The request each operation makes; Ping makes none. */
  function PlanOf(c: Codecs, op: Op): (p: Option<Plan>)
    ensures p.None? <==> op.Ping?
  {
    match op
    case Ping => None
    case SendStatus(s) =>
      if s.pic != "" then Some(Plan(Multipart(s.pic), UploadEndpoint, UploadFields(c, s), false))
      else Some(Plan(FormPost, UpdateEndpoint, UpdateParams(c, s), false))
    case SendMessage(token, kind, data, receiverId, saveSenderBox) =>
      Some(Plan(FormPost, ReplyEndpoint,
                [Param("access_token", token), Param("type", kind), Param("data", data),
                 Param("receiver_id", Decimal.IntText(receiverId as int)),
                 Param("save_sender_box", Decimal.IntText(saveSenderBox as int))],
                true))
    case GetUserInfoById(token, uid) =>
      Some(Plan(Get, UserShowEndpoint, [Param("access_token", token), Param("uid", Decimal.IntText(uid as int))], true))
    case GetEmotions(token, emotionType) =>
      Some(Plan(Get, EmotionsEndpoint,
                [Param("access_token", token), Param("type", emotionType), Param("language", "cnname")], true))
    case GetUserInfoByName(token, screenName) =>
      Some(Plan(Get, UserShowEndpoint, [Param("access_token", token), Param("screen_name", screenName)], true))
    case GetStatuses(token, sinceId, maxId, count, page) =>
      Some(Timeline(UserTimelineEndpoint, token, sinceId, maxId, count, page))
    case GetConcernStatuses(token, sinceId, maxId, count, page) =>
      Some(Timeline(HomeTimelineEndpoint, token, sinceId, maxId, count, page))
    case GetStatusInteractCount(token, ids) =>
      Some(Plan(Get, CountEndpoint, [Param("access_token", token), Param("ids", ids)], true))
    case CreateComments(token, comments, msgId, isCommentOri) =>
      Some(Plan(FormPost, CommentCreateEndpoint,
                [Param("access_token", token), Param("comment", c.urlEncode(comments)),
                 Param("id", Decimal.IntText(msgId as int)),
                 Param("comment_ori", Decimal.IntText(isCommentOri as int))],
                true))
  }

  function MethodOf(shape: Shape): (m: Method)
    ensures m == GET <==> shape == Get
  {
    if shape.Get? then GET else POST
  }

  function ContentTypeOf(shape: Shape): (ct: ContentType)
    ensures ct == NoContentType <==> shape == Get
    ensures ct == FormUrlEncoded <==> shape == FormPost
    ensures ct == MultipartForm <==> shape.Multipart?
  {
    match shape
    case Get => NoContentType
    case FormPost => FormUrlEncoded
    case Multipart(_) => MultipartForm
  }

  /** "name=value" pairs joined by '&', as the fmt.Sprintf URL templates write them. */
  function Query(params: seq<Param>): (q: string)
    ensures q == "" <==> params == []
  {
    if params == [] then ""
    else params[0].name + "=" + params[0].value + (if |params| == 1 then "" else "&" + Query(params[1..]))
  }

  /** A parameter that "name=value" pairs joined by '&' carry unambiguously. */
  predicate Delimited(p: Param) {
    '&' !in p.name && '=' !in p.name && '&' !in p.value
  }

  /** Reads "name=value" pairs separated by '&' back into parameters. */
  function SplitQuery(q: string): seq<Param>
    decreases |q|
  {
    var i := Strings.IndexOf(q, '&');
    if i == |q| then [PairOf(q)] else [PairOf(q[..i])] + SplitQuery(q[i + 1..])
  }

  /** Reads one "name=value" pair; a pair without '=' is a name with an empty value. */
  function PairOf(pair: string): Param {
    var k := Strings.IndexOf(pair, '=');
    Param(pair[..k], if k < |pair| then pair[k + 1..] else "")
  }

  /** Two templates' queries joined by '&' are the query of the joined lists. */
  lemma {:induction false} QueryConcat(a: seq<Param>, b: seq<Param>)
    requires a != [] && b != []
    ensures Query(a + b) == Query(a) + "&" + Query(b)
    decreases |a|
  {
    assert (a + b)[0] == a[0];
    assert (a + b)[1..] == a[1..] + b;
    if |a| > 1 {
      QueryConcat(a[1..], b);
    }
  }

  lemma SplitPair(p: Param)
    requires Delimited(p)
    ensures var pair := p.name + "=" + p.value;
      '&' !in pair && PairOf(pair) == p
  {
    var pair := p.name + "=" + p.value;
    assert pair == p.name + ['='] + p.value;
    Strings.IndexOfAfter(p.name, '=', p.value);
    assert pair[..|p.name|] == p.name && pair[|p.name| + 1..] == p.value;
  }

  /** A query with no '&' is one pair. */
  lemma SplitLast(pair: string)
    requires '&' !in pair
    ensures SplitQuery(pair) == [PairOf(pair)]
  {
    assert Strings.IndexOf(pair, '&') == |pair|;
  }

  /** The pair before the first '&' is read first, and the rest after it. */
  lemma SplitFirst(pair: string, rest: string)
    requires '&' !in pair
    ensures SplitQuery(pair + "&" + rest) == [PairOf(pair)] + SplitQuery(rest)
  {
    var q := pair + "&" + rest;
    assert q == pair + ['&'] + rest;
    Strings.IndexOfAfter(pair, '&', rest);
    assert q[..|pair|] == pair;
    assert q[|pair| + 1..] == rest;
  }

  /**
   * The query the URL templates assemble can be read back into the same
   * parameters, in the same order, when no name holds '&' or '=' and no
   * value holds '&'.
   */
  lemma {:induction false} QueryRoundTrip(params: seq<Param>)
    requires |params| > 0
    requires forall i :: 0 <= i < |params| ==> Delimited(params[i])
    ensures SplitQuery(Query(params)) == params
    decreases |params|
  {
    var p := params[0];
    var pair := p.name + "=" + p.value;
    SplitPair(p);
    if |params| == 1 {
      assert Query(params) == pair;
      SplitLast(pair);
    } else {
      var rest := Query(params[1..]);
      assert Query(params) == pair + "&" + rest;
      SplitFirst(pair, rest);
      QueryRoundTrip(params[1..]);
    }
  }

  /**
   * The message payload of SendMessage goes into its template unencoded, so
   * a payload holding '&' forges parameters: "hi&receiver_id=1" assembles
   * the query of a list with a second receiver_id ahead of the caller's, and
   * that forged one is the first receiver_id the query reads back to.
   */
  lemma UnencodedValueForgesParams(c: Codecs, token: string, kind: string, receiverId: int64, saveSenderBox: int32)
    ensures var p := PlanOf(c, SendMessage(token, kind, "hi&receiver_id=1", receiverId, saveSenderBox)).value;
      var forged := ForgedMessage(token, kind, Decimal.IntText(receiverId as int), Decimal.IntText(saveSenderBox as int));
      && Query(p.params) == Query(forged)
      && (Delimited(Param("access_token", token)) && Delimited(Param("type", kind)) ==>
            Lookup(SplitQuery(Query(p.params)), "receiver_id") == Some("1"))
  {
    var receiver := Decimal.IntText(receiverId as int);
    var box := Decimal.IntText(saveSenderBox as int);
    PayloadSplits(token, kind, receiver, box);
    if Delimited(Param("access_token", token)) && Delimited(Param("type", kind)) {
      Decimal.IntTextNoDelimiter(receiverId as int);
      Decimal.IntTextNoDelimiter(saveSenderBox as int);
      ForgedReadsBack(token, kind, receiver, box);
    }
  }

  /** The parameters the forged SendMessage query reads as. */
  function ForgedMessage(token: string, kind: string, receiver: string, box: string): seq<Param> {
    [Param("access_token", token), Param("type", kind), Param("data", "hi"), Param("receiver_id", "1"),
     Param("receiver_id", receiver), Param("save_sender_box", box)]
  }

  lemma ForgedReadsBack(token: string, kind: string, receiver: string, box: string)
    requires Delimited(Param("access_token", token)) && Delimited(Param("type", kind))
    requires '&' !in receiver && '&' !in box
    ensures Lookup(SplitQuery(Query(ForgedMessage(token, kind, receiver, box))), "receiver_id") == Some("1")
  {
    var forged := ForgedMessage(token, kind, receiver, box);
    assert Delimited(forged[2]) && Delimited(forged[3]) && Delimited(forged[4]) && Delimited(forged[5]);
    ReadBackFirst(forged, "receiver_id", 3);
  }

  /** The first parameter a delimited query holds under a name is the one it reads back to. */
  lemma ReadBackFirst(params: seq<Param>, name: string, i: nat)
    requires forall j :: 0 <= j < |params| ==> Delimited(params[j])
    requires i < |params| && params[i].name == name
    requires forall j :: 0 <= j < i ==> params[j].name != name
    ensures Lookup(SplitQuery(Query(params)), name) == Some(params[i].value)
  {
    QueryRoundTrip(params);
    LookupFirst(params, name, i);
  }

  lemma PayloadSplits(token: string, kind: string, receiver: string, box: string)
    ensures Query([Param("access_token", token), Param("type", kind), Param("data", "hi&receiver_id=1"),
                   Param("receiver_id", receiver), Param("save_sender_box", box)])
         == Query(ForgedMessage(token, kind, receiver, box))
  {
    var head := [Param("access_token", token), Param("type", kind)];
    var tail := [Param("receiver_id", receiver), Param("save_sender_box", box)];
    var payload := Param("data", "hi&receiver_id=1");
    var split := [Param("data", "hi"), Param("receiver_id", "1")];
    assert "hi&receiver_id=1" == "hi" + "&" + "receiver_id" + "=" + "1";
    SplitValue("data", "hi", "receiver_id", "1");
    assert head + [payload] + tail == [Param("access_token", token), Param("type", kind), payload,
                                       Param("receiver_id", receiver), Param("save_sender_box", box)];
    assert ForgedMessage(token, kind, receiver, box) == head + split + tail;
    SpliceQuery(head, payload, split, tail);
  }

  /** A value holding "&n=v" reads, in the query, as a second parameter n with value v. */
  lemma SplitValue(name: string, v1: string, n2: string, v2: string)
    ensures Query([Param(name, v1 + "&" + n2 + "=" + v2)]) == Query([Param(name, v1), Param(n2, v2)])
  {
    var split := [Param(name, v1), Param(n2, v2)];
    assert split[1..] == [Param(n2, v2)];
    assert Query(split) == name + "=" + v1 + "&" + (n2 + "=" + v2);
  }

  /** Replacing one parameter by a list with the same query leaves the whole query unchanged. */
  lemma SpliceQuery(head: seq<Param>, x: Param, ys: seq<Param>, tail: seq<Param>)
    requires head != [] && ys != [] && tail != []
    requires Query([x]) == Query(ys)
    ensures Query(head + [x] + tail) == Query(head + ys + tail)
  {
    QueryConcat(head, [x]);
    QueryConcat(head + [x], tail);
    QueryConcat(head, ys);
    QueryConcat(head + ys, tail);
  }

  /**
   * The URL the template assembles, before any re-encoding. url.Parse
   * splits it at its first '?': when the endpoint holds none, what comes
   * before is the endpoint and what comes after is the query.
   */
  function RawUrl(p: Plan): (u: string)
    ensures |u| > |p.endpoint|
    ensures '?' !in p.endpoint ==>
      && Strings.IndexOf(u, '?') == |p.endpoint|
      && u[..|p.endpoint|] == p.endpoint
      && u[|p.endpoint| + 1..] == Query(p.params)
  {
    var u := p.endpoint + "?" + Query(p.params);
    if '?' in p.endpoint then u
    else
      Strings.IndexOfAfter(p.endpoint, '?', Query(p.params));
      assert u[..|p.endpoint|] == p.endpoint;
      assert u[|p.endpoint| + 1..] == Query(p.params);
      u
  }

  function Names(params: seq<Param>): (names: seq<string>)
    ensures |names| == |params|
    ensures forall i :: 0 <= i < |params| ==> names[i] == params[i].name
  {
    if params == [] then [] else [params[0].name] + Names(params[1..])
  }

  /** The value of the first parameter called `name`. */
  function Lookup(params: seq<Param>, name: string): Option<string> {
    if params == [] then None
    else if params[0].name == name then Some(params[0].value)
    else Lookup(params[1..], name)
  }

  /** The parameters whose names are not in `drop`, in their order. */
  function Without(params: seq<Param>, drop: set<string>): seq<Param> {
    if params == [] then []
    else (if params[0].name in drop then [] else [params[0]]) + Without(params[1..], drop)
  }

  lemma {:induction false} WithoutConcat(a: seq<Param>, b: seq<Param>, drop: set<string>)
    ensures Without(a + b, drop) == Without(a, drop) + Without(b, drop)
    decreases |a|
  {
    if a != [] {
      WithoutConcat(a[1..], b, drop);
      assert (a + b)[0] == a[0];
      assert (a + b)[1..] == a[1..] + b;
    } else {
      assert a + b == b;
    }
  }

  lemma {:induction false} WithoutNone(params: seq<Param>, drop: set<string>)
    requires forall i :: 0 <= i < |params| ==> params[i].name !in drop
    ensures Without(params, drop) == params
    decreases |params|
  {
    if params != [] {
      WithoutNone(params[1..], drop);
    }
  }

  lemma {:induction false} WithoutAll(params: seq<Param>, drop: set<string>)
    requires forall i :: 0 <= i < |params| ==> params[i].name in drop
    ensures Without(params, drop) == []
    decreases |params|
  {
    if params != [] {
      WithoutAll(params[1..], drop);
    }
  }

  /** Lookup finds the first parameter with the name. */
  lemma {:induction false} LookupFirst(params: seq<Param>, name: string, i: nat)
    requires i < |params| && params[i].name == name
    requires forall j :: 0 <= j < i ==> params[j].name != name
    ensures Lookup(params, name) == Some(params[i].value)
    decreases i
  {
    if i > 0 {
      LookupFirst(params[1..], name, i - 1);
    }
  }

  /**
   * Without a picture, visible and list_id are in the query exactly when the
   * status goes to a friend group (visibility 3 and a list id), and then
   * carry those two values.
   */
  lemma UpdateGroupGate(c: Codecs, s: WeiboStatus)
    requires s.pic == ""
    ensures var p := PlanOf(c, SendStatus(s)).value;
      && p.shape == FormPost && p.endpoint == UpdateEndpoint && !p.reencode
      && ("visible" in Names(p.params) <==> ToGroup(s))
      && ("list_id" in Names(p.params) <==> ToGroup(s))
      && (ToGroup(s) ==>
            Lookup(p.params, "visible") == Some(Decimal.IntText(s.visible as int))
            && Lookup(p.params, "list_id") == Some(s.listId))
  {
    var p := PlanOf(c, SendStatus(s)).value;
    var names := Names(p.params);
    if ToGroup(s) {
      assert names[2] == "visible" && names[3] == "list_id";
      LookupFirst(p.params, "visible", 2);
      LookupFirst(p.params, "list_id", 3);
    } else {
      assert names == ["access_token", "status", "lat", "long", "annotations", "rip"];
    }
  }

  /** The six parameters of a status update that do not depend on the friend group. */
  function UngatedParams(c: Codecs, s: WeiboStatus): seq<Param> {
    [Param("access_token", s.accessToken), Param("status", c.urlEncode(s.status)),
     Param("lat", c.printFloat(s.latitude)), Param("long", c.printFloat(s.longitude)),
     Param("annotations", s.annotations), Param("rip", s.realIp)]
  }

  lemma UpdateWithoutGroup(c: Codecs, s: WeiboStatus)
    ensures Without(UpdateParams(c, s), GroupParams) == UngatedParams(c, s)
  {
    var head := [Param("access_token", s.accessToken), Param("status", c.urlEncode(s.status))];
    var tail := [Param("lat", c.printFloat(s.latitude)), Param("long", c.printFloat(s.longitude)),
                 Param("annotations", s.annotations), Param("rip", s.realIp)];
    assert UngatedParams(c, s) == head + tail;
    WithoutNone(head, GroupParams);
    WithoutNone(tail, GroupParams);
    WithoutConcat(head, tail, GroupParams);
    if ToGroup(s) {
      var g := [Param("visible", Decimal.IntText(s.visible as int)), Param("list_id", s.listId)];
      assert UpdateParams(c, s) == head + g + tail;
      WithoutAll(g, GroupParams);
      WithoutConcat(head, g, GroupParams);
      WithoutConcat(head + g, tail, GroupParams);
    }
  }

  /**
   * Without a picture, the six other parameters keep their order whatever the
   * visibility and list id: dropping visible and list_id leaves the same query.
   */
  lemma UpdateOrderIgnoresGroup(c: Codecs, s: WeiboStatus, visible: int32, listId: string)
    ensures Without(UpdateParams(c, s), GroupParams)
         == Without(UpdateParams(c, s.(visible := visible, listId := listId)), GroupParams)
         == [Param("access_token", s.accessToken), Param("status", c.urlEncode(s.status)),
             Param("lat", c.printFloat(s.latitude)), Param("long", c.printFloat(s.longitude)),
             Param("annotations", s.annotations), Param("rip", s.realIp)]
  {
    var s' := s.(visible := visible, listId := listId);
    UpdateWithoutGroup(c, s);
    UpdateWithoutGroup(c, s');
    assert UngatedParams(c, s) == UngatedParams(c, s');
  }

  /**
   * With a picture, all eight scalar fields are written in a fixed order,
   * visible and list_id included whatever the visibility.
   */
  lemma UploadWritesEveryField(c: Codecs, s: WeiboStatus)
    requires s.pic != ""
    ensures var p := PlanOf(c, SendStatus(s)).value;
      && p.shape == Multipart(s.pic) && p.endpoint == UploadEndpoint && !p.reencode
      && Names(p.params) == UploadFieldNames
      && Lookup(p.params, "visible") == Some(Decimal.IntText(s.visible as int))
      && Lookup(p.params, "list_id") == Some(s.listId)
      && UploadValues(c, s, p.params)
  {
    var p := PlanOf(c, SendStatus(s)).value;
    assert p == Plan(Multipart(s.pic), UploadEndpoint, UploadFields(c, s), false);
    var names := Names(p.params);
    forall i | 0 <= i < 8 ensures names[i] == UploadFieldNames[i] {
    }
    LookupFirst(p.params, "visible", 2);
    LookupFirst(p.params, "list_id", 3);
    UploadFieldValues(c, s);
  }

  /**
   * The values of the other six upload fields: the token, the encoded
   * status, the coordinates through strconv.FormatFloat, annotations and
   * the client address.
   */
  predicate UploadValues(c: Codecs, s: WeiboStatus, ps: seq<Param>) {
    && Lookup(ps, "access_token") == Some(s.accessToken)
    && Lookup(ps, "status") == Some(c.urlEncode(s.status))
    && Lookup(ps, "lat") == Some(c.formatFloat(s.latitude))
    && Lookup(ps, "long") == Some(c.formatFloat(s.longitude))
    && Lookup(ps, "annotations") == Some(s.annotations)
    && Lookup(ps, "rip") == Some(s.realIp)
  }

  lemma UploadFieldValues(c: Codecs, s: WeiboStatus)
    ensures UploadValues(c, s, UploadFields(c, s))
  {
    var ps := UploadFields(c, s);
    LookupFirst(ps, "access_token", 0);
    LookupFirst(ps, "status", 1);
    UploadCoordinates(c, s);
    LookupFirst(ps, "annotations", 6);
    LookupFirst(ps, "rip", 7);
  }

  /** Latitude and longitude are rendered by FormatFloat, each under its own name. */
  lemma UploadCoordinates(c: Codecs, s: WeiboStatus)
    ensures Lookup(UploadFields(c, s), "lat") == Some(c.formatFloat(s.latitude))
    ensures Lookup(UploadFields(c, s), "long") == Some(c.formatFloat(s.longitude))
  {
    var ps := UploadFields(c, s);
    LookupFirst(ps, "lat", 4);
    LookupFirst(ps, "long", 5);
  }

  /**
   * The shape of each operation: status update without picture, message reply
   * and comment creation are form POSTs, a status with a picture is the one
   * multipart POST, the six lookups are GETs.
   */
  lemma ShapeByOperation(c: Codecs, op: Op)
    requires !op.Ping?
    ensures var shape := PlanOf(c, op).value.shape;
      && (shape == FormPost <==> (op.SendStatus? && op.weibo.pic == "") || op.SendMessage? || op.CreateComments?)
      && (shape.Multipart? <==> op.SendStatus? && op.weibo.pic != "")
      && (shape == Get <==>
            (op.GetUserInfoById? || op.GetUserInfoByName? || op.GetEmotions?
             || op.GetStatuses? || op.GetConcernStatuses? || op.GetStatusInteractCount?))
  {
  }

  /** The endpoint of each operation. */
  lemma EndpointByOperation(c: Codecs, op: Op)
    requires !op.Ping?
    ensures var e := PlanOf(c, op).value.endpoint;
      && (op.SendStatus? ==> e == if op.weibo.pic != "" then UploadEndpoint else UpdateEndpoint)
      && (op.SendMessage? ==> e == ReplyEndpoint)
      && (op.GetUserInfoById? || op.GetUserInfoByName? ==> e == UserShowEndpoint)
      && (op.GetEmotions? ==> e == EmotionsEndpoint)
      && (op.GetStatuses? ==> e == UserTimelineEndpoint)
      && (op.GetConcernStatuses? ==> e == HomeTimelineEndpoint)
      && (op.GetStatusInteractCount? ==> e == CountEndpoint)
      && (op.CreateComments? ==> e == CommentCreateEndpoint)
  {
  }

  /** Every request leads with the caller's access token. */
  lemma AccessTokenFirst(c: Codecs, op: Op)
    requires !op.Ping?
    ensures var p := PlanOf(c, op).value;
      |p.params| > 0 && p.params[0] == Param("access_token", if op.SendStatus? then op.weibo.accessToken else op.accessToken)
  {
  }

  /** Only the status update skips the parse-and-re-encode step. */
  lemma ReencodeUnlessStatus(c: Codecs, op: Op)
    requires !op.Ping?
    ensures PlanOf(c, op).value.reencode <==> !op.SendStatus?
  {
  }

  /** GetEmotions always asks for Chinese names, after the caller's two parameters. */
  lemma EmotionsInChinese(c: Codecs, token: string, emotionType: string)
    ensures var p := PlanOf(c, GetEmotions(token, emotionType)).value;
      && Names(p.params) == ["access_token", "type", "language"]
      && Lookup(p.params, "language") == Some("cnname")
      && Lookup(p.params, "type") == Some(emotionType)
  {
    var p := PlanOf(c, GetEmotions(token, emotionType)).value;
    LookupFirst(p.params, "type", 1);
    LookupFirst(p.params, "language", 2);
  }

  /**
   * Only the status text and the comment text are URL-encoded before they
   * are put into the template; the message payload goes in as given.
   */
  lemma FreeTextPreEncoding(c: Codecs, op: Op)
    ensures op.SendStatus? ==> Lookup(PlanOf(c, op).value.params, "status") == Some(c.urlEncode(op.weibo.status))
    ensures op.CreateComments? ==> Lookup(PlanOf(c, op).value.params, "comment") == Some(c.urlEncode(op.comments))
    ensures op.SendMessage? ==> Lookup(PlanOf(c, op).value.params, "data") == Some(op.data)
  {
    if op.SendStatus? || op.CreateComments? {
      LookupFirst(PlanOf(c, op).value.params, if op.SendStatus? then "status" else "comment", 1);
    } else if op.SendMessage? {
      LookupFirst(PlanOf(c, op).value.params, "data", 2);
    }
  }

  /** A query of several parameters is its first pair, '&', and the query of the rest. */
  lemma QueryCons(p: Param, rest: seq<Param>)
    requires rest != []
    ensures Query([p] + rest) == p.name + "=" + p.value + "&" + Query(rest)
  {
    assert ([p] + rest)[1..] == rest;
  }

  /**
   * The query part of each re-encoded operation's fmt.Sprintf template, as
   * the template writes it, with the integers in decimal.
   */
  function TemplateText(c: Codecs, op: Op): string
    requires !op.Ping? && !op.SendStatus?
  {
    match op
    case SendMessage(token, kind, data, receiverId, saveSenderBox) =>
      "access_token=" + token + "&type=" + kind + "&data=" + data
      + "&receiver_id=" + Decimal.IntText(receiverId as int)
      + "&save_sender_box=" + Decimal.IntText(saveSenderBox as int)
    case GetUserInfoById(token, uid) =>
      "access_token=" + token + "&uid=" + Decimal.IntText(uid as int)
    case GetEmotions(token, emotionType) =>
      "access_token=" + token + "&type=" + emotionType + "&language=cnname"
    case GetUserInfoByName(token, screenName) =>
      "access_token=" + token + "&screen_name=" + screenName
    case GetStatuses(token, sinceId, maxId, count, page) =>
      "access_token=" + token + "&since_id=" + Decimal.IntText(sinceId as int)
      + "&max_id=" + Decimal.IntText(maxId as int) + "&count=" + Decimal.IntText(count as int)
      + "&page=" + Decimal.IntText(page as int)
    case GetConcernStatuses(token, sinceId, maxId, count, page) =>
      "access_token=" + token + "&since_id=" + Decimal.IntText(sinceId as int)
      + "&max_id=" + Decimal.IntText(maxId as int) + "&count=" + Decimal.IntText(count as int)
      + "&page=" + Decimal.IntText(page as int)
    case GetStatusInteractCount(token, ids) =>
      "access_token=" + token + "&ids=" + ids
    case CreateComments(token, comments, msgId, isCommentOri) =>
      "access_token=" + token + "&comment=" + c.urlEncode(comments)
      + "&id=" + Decimal.IntText(msgId as int) + "&comment_ori=" + Decimal.IntText(isCommentOri as int)
  }

  /**
   * The parameter list of each re-encoded operation assembles exactly the
   * query its template writes: names, order and values.
   */
  lemma TemplateQuery(c: Codecs, op: Op)
    requires !op.Ping? && !op.SendStatus?
    ensures Query(PlanOf(c, op).value.params) == TemplateText(c, op)
  {
    if op.SendMessage? || op.CreateComments? {
      PostTemplates(c, op);
    } else if op.GetStatuses? || op.GetConcernStatuses? {
      TimelineTemplates(c, op);
    } else {
      LookupTemplates(c, op);
    }
  }

  lemma PostTemplates(c: Codecs, op: Op)
    requires op.SendMessage? || op.CreateComments?
    ensures Query(PlanOf(c, op).value.params) == TemplateText(c, op)
  {
    var ps := PlanOf(c, op).value.params;
    match op
    case SendMessage(token, kind, data, receiverId, saveSenderBox) =>
      var r, b := Decimal.IntText(receiverId as int), Decimal.IntText(saveSenderBox as int);
      assert ps == [Param("access_token", token), Param("type", kind), Param("data", data),
                    Param("receiver_id", r), Param("save_sender_box", b)];
      MessageQuery(token, kind, data, r, b);
    case CreateComments(token, comments, msgId, isCommentOri) =>
      var m, o := Decimal.IntText(msgId as int), Decimal.IntText(isCommentOri as int);
      assert ps == [Param("access_token", token), Param("comment", c.urlEncode(comments)), Param("id", m),
                    Param("comment_ori", o)];
      CommentQuery(token, c.urlEncode(comments), m, o);
  }

  lemma TimelineTemplates(c: Codecs, op: Op)
    requires op.GetStatuses? || op.GetConcernStatuses?
    ensures Query(PlanOf(c, op).value.params) == TemplateText(c, op)
  {
    var ps := PlanOf(c, op).value.params;
    match op
    case GetStatuses(token, sinceId, maxId, count, page) =>
      assert ps == Timeline(UserTimelineEndpoint, token, sinceId, maxId, count, page).params;
      TimelineQuery(UserTimelineEndpoint, token, sinceId, maxId, count, page);
    case GetConcernStatuses(token, sinceId, maxId, count, page) =>
      assert ps == Timeline(HomeTimelineEndpoint, token, sinceId, maxId, count, page).params;
      TimelineQuery(HomeTimelineEndpoint, token, sinceId, maxId, count, page);
  }

  lemma LookupTemplates(c: Codecs, op: Op)
    requires op.GetUserInfoById? || op.GetEmotions? || op.GetUserInfoByName? || op.GetStatusInteractCount?
    ensures Query(PlanOf(c, op).value.params) == TemplateText(c, op)
  {
    var ps := PlanOf(c, op).value.params;
    match op
    case GetUserInfoById(token, uid) =>
      var u := Decimal.IntText(uid as int);
      assert ps == [Param("access_token", token), Param("uid", u)];
      LookupQuery(token, "uid", u);
    case GetEmotions(token, emotionType) =>
      assert ps == [Param("access_token", token), Param("type", emotionType), Param("language", "cnname")];
      EmotionsQuery(token, emotionType);
    case GetUserInfoByName(token, screenName) =>
      assert ps == [Param("access_token", token), Param("screen_name", screenName)];
      LookupQuery(token, "screen_name", screenName);
    case GetStatusInteractCount(token, ids) =>
      assert ps == [Param("access_token", token), Param("ids", ids)];
      LookupQuery(token, "ids", ids);
  }

  lemma MessageQuery(token: string, kind: string, data: string, receiver: string, box: string)
    ensures Query([Param("access_token", token), Param("type", kind), Param("data", data),
                   Param("receiver_id", receiver), Param("save_sender_box", box)])
         == "access_token=" + token + "&type=" + kind + "&data=" + data + "&receiver_id=" + receiver
            + "&save_sender_box=" + box
  {
    Query5(Param("access_token", token), Param("type", kind), Param("data", data),
           Param("receiver_id", receiver), Param("save_sender_box", box));
    MessageText(token, kind, data, receiver, box);
  }

  lemma MessageText(token: string, kind: string, data: string, receiver: string, box: string)
    ensures "access_token" + "=" + token + "&" + ("type" + "=" + kind + "&" + ("data" + "=" + data + "&"
              + ("receiver_id" + "=" + receiver + "&" + ("save_sender_box" + "=" + box))))
         == "access_token=" + token + "&type=" + kind + "&data=" + data + "&receiver_id=" + receiver
            + "&save_sender_box=" + box
  {
    var r4 := "receiver_id" + "=" + receiver + "&" + ("save_sender_box" + "=" + box);
    var r3 := "data" + "=" + data + "&" + r4;
    var r2 := "type" + "=" + kind + "&" + r3;
    GlueFirst("access_token", token, "access_token=", r2);
    var t1 := "access_token=" + token;
    GlueNext(t1, "type", kind, "&type=", r3);
    var t2 := t1 + "&type=" + kind;
    GlueNext(t2, "data", data, "&data=", r4);
    var t3 := t2 + "&data=" + data;
    GlueNext(t3, "receiver_id", receiver, "&receiver_id=", "save_sender_box" + "=" + box);
    GlueLast(t3 + "&receiver_id=" + receiver, "save_sender_box", box, "&save_sender_box=");
  }

  /** The two-parameter lookups: the token, then one named value. */
  lemma LookupQuery(token: string, name: string, value: string)
    ensures Query([Param("access_token", token), Param(name, value)])
         == "access_token=" + token + "&" + name + "=" + value
  {
    Query2(Param("access_token", token), Param(name, value));
  }

  lemma EmotionsQuery(token: string, emotionType: string)
    ensures Query([Param("access_token", token), Param("type", emotionType), Param("language", "cnname")])
         == "access_token=" + token + "&type=" + emotionType + "&language=cnname"
  {
    Query3(Param("access_token", token), Param("type", emotionType), Param("language", "cnname"));
  }

  lemma CommentQuery(token: string, comment: string, id: string, ori: string)
    ensures Query([Param("access_token", token), Param("comment", comment), Param("id", id), Param("comment_ori", ori)])
         == "access_token=" + token + "&comment=" + comment + "&id=" + id + "&comment_ori=" + ori
  {
    Query4(Param("access_token", token), Param("comment", comment), Param("id", id), Param("comment_ori", ori));
  }

  lemma TimelineQuery(endpoint: string, token: string, sinceId: int64, maxId: int64, count: int32, page: int32)
    ensures Query(Timeline(endpoint, token, sinceId, maxId, count, page).params)
         == "access_token=" + token + "&since_id=" + Decimal.IntText(sinceId as int)
            + "&max_id=" + Decimal.IntText(maxId as int) + "&count=" + Decimal.IntText(count as int)
            + "&page=" + Decimal.IntText(page as int)
  {
    var s, m, n, p := Decimal.IntText(sinceId as int), Decimal.IntText(maxId as int),
                      Decimal.IntText(count as int), Decimal.IntText(page as int);
    TimelineText(token, s, m, n, p);
  }

  lemma TimelineText(token: string, s: string, m: string, n: string, p: string)
    ensures Query([Param("access_token", token), Param("since_id", s), Param("max_id", m), Param("count", n), Param("page", p)])
         == "access_token=" + token + "&since_id=" + s + "&max_id=" + m + "&count=" + n + "&page=" + p
  {
    Query5(Param("access_token", token), Param("since_id", s), Param("max_id", m), Param("count", n), Param("page", p));
    TimelineRegroup(token, s, m, n, p);
  }

  lemma TimelineRegroup(token: string, s: string, m: string, n: string, p: string)
    ensures "access_token" + "=" + token + "&" + ("since_id" + "=" + s + "&" + ("max_id" + "=" + m + "&"
              + ("count" + "=" + n + "&" + ("page" + "=" + p))))
         == "access_token=" + token + "&since_id=" + s + "&max_id=" + m + "&count=" + n + "&page=" + p
  {
    var r4 := "count" + "=" + n + "&" + ("page" + "=" + p);
    var r3 := "max_id" + "=" + m + "&" + r4;
    var r2 := "since_id" + "=" + s + "&" + r3;
    GlueFirst("access_token", token, "access_token=", r2);
    var t1 := "access_token=" + token;
    GlueNext(t1, "since_id", s, "&since_id=", r3);
    var t2 := t1 + "&since_id=" + s;
    GlueNext(t2, "max_id", m, "&max_id=", r4);
    var t3 := t2 + "&max_id=" + m;
    GlueNext(t3, "count", n, "&count=", "page" + "=" + p);
    GlueLast(t3 + "&count=" + n, "page", p, "&page=");
  }

  /** Rewriting steps from the nested "name=value&rest" form to the left-to-right template text. */
  lemma GlueFirst(name: string, v: string, lit: string, rest: string)
    requires lit == name + "="
    ensures name + "=" + v + "&" + rest == lit + v + "&" + rest
  {
  }

  lemma GlueNext(done: string, name: string, v: string, lit: string, rest: string)
    requires lit == "&" + name + "="
    ensures done + "&" + (name + "=" + v + "&" + rest) == done + lit + v + "&" + rest
  {
  }

  lemma GlueLast(done: string, name: string, v: string, lit: string)
    requires lit == "&" + name + "="
    ensures done + "&" + (name + "=" + v) == done + lit + v
  {
  }

  lemma Query2(a: Param, b: Param)
    ensures Query([a, b]) == a.name + "=" + a.value + "&" + b.name + "=" + b.value
  {
    QueryCons(a, [b]);
  }

  lemma Query3(a: Param, b: Param, c: Param)
    ensures Query([a, b, c]) == a.name + "=" + a.value + "&" + (b.name + "=" + b.value + "&" + c.name + "=" + c.value)
  {
    Query2(b, c);
    QueryCons(a, [b, c]);
    assert [a] + [b, c] == [a, b, c];
  }

  lemma Query4(a: Param, b: Param, c: Param, d: Param)
    ensures Query([a, b, c, d]) == a.name + "=" + a.value + "&" + (b.name + "=" + b.value + "&" + (c.name + "=" + c.value + "&" + d.name + "=" + d.value))
  {
    Query3(b, c, d);
    QueryCons(a, [b, c, d]);
    assert [a] + [b, c, d] == [a, b, c, d];
  }

  lemma Query5(a: Param, b: Param, c: Param, d: Param, e: Param)
    ensures Query([a, b, c, d, e]) == a.name + "=" + a.value + "&" + (b.name + "=" + b.value + "&" + (c.name + "=" + c.value + "&" + (d.name + "=" + d.value + "&" + e.name + "=" + e.value)))
  {
    Query4(b, c, d, e);
    QueryCons(a, [b, c, d, e]);
    assert [a] + [b, c, d, e] == [a, b, c, d, e];
  }
}
