/**
 * The multipart body of a status with a picture: the scalar fields written
 * one after the other, then one file part named "pic" whose bytes come from
 * a remote URL or a local file.
 */
module Multipart {
  import opened Wrappers
  import opened Api
  import opened Http
  import opened Shaping

  /** strings.HasPrefix(pic, "http"): such a picture is fetched; any other is opened as a local file. */
  predicate IsRemote(pic: string): (remote: bool)
    ensures remote <==> exists rest :: pic == "http" + rest
  {
    var remote := |pic| >= 4 && pic[..4] == "http";
    assert remote ==> pic == "http" + pic[4..];
    remote
  }

  /**
   * The bytes copied into the picture part and the interaction that gave
   * them. A remote picture whose fetch fails gives None. A local file that
   * cannot be opened gives no bytes: the open error is ignored, and copying
   * from the nil handle copies nothing.
   */
  function LoadPicture(world: World, pic: string): (loaded: (Option<string>, seq<Effect>))
    ensures loaded.1 == [if IsRemote(pic) then Fetch(pic) else Open(pic)]
    ensures loaded.0.None? <==> IsRemote(pic) && world.fetch(pic).None?
    ensures !IsRemote(pic) ==> loaded.0 == Some(world.open(pic).GetOr(""))
    ensures !IsRemote(pic) && world.open(pic).None? ==> loaded.0 == Some("")
  {
    if IsRemote(pic) then (world.fetch(pic), [Fetch(pic)])
    else (Some(world.open(pic).GetOr("")), [Open(pic)])
  }

  function FieldParts(fields: seq<Param>): (parts: seq<Part>)
    ensures |parts| == |fields|
    ensures forall i :: 0 <= i < |fields| ==> parts[i] == Field(fields[i].name, fields[i].value)
  {
    seq(|fields|, i requires 0 <= i < |fields| => Field(fields[i].name, fields[i].value))
  }

  /**
   * The parts of the body: the fields in order, then one file part named
   * "pic" with the picture's name. None when the picture could not be
   * fetched, in which case nothing is sent.
   */
  function UploadForm(fields: seq<Param>, world: World, pic: string): (built: (Option<seq<Part>>, seq<Effect>))
    ensures built.1 == LoadPicture(world, pic).1
    ensures built.0.None? <==> LoadPicture(world, pic).0.None?
    ensures var form := built.0;
      form.Some? ==>
        && |form.value| == |fields| + 1
        && form.value[..|fields|] == FieldParts(fields)
        && form.value[|fields|].File? && form.value[|fields|].field == "pic"
        && form.value[|fields|].filename == pic
  {
    var (content, effects) := LoadPicture(world, pic);
    if content.None? then (None, effects)
    else (Some(FieldParts(fields) + [File("pic", pic, content.value)]), effects)
  }

  /** A multipart.Writer over a bytes.Buffer, seen as the parts written so far. */
  class FormWriter {
    var parts: seq<Part>
    var closed: bool

    constructor ()
      ensures parts == [] && !closed
    {
      parts := [];
      closed := false;
    }

    method WriteField(name: string, value: string)
      modifies this
      ensures parts == old(parts) + [Field(name, value)]
      ensures closed == old(closed)
    {
      parts := parts + [Field(name, value)];
    }

    /** Opens a file part; what Write writes next goes into it. */
    method CreateFormFile(field: string, filename: string)
      modifies this
      ensures parts == old(parts) + [File(field, filename, "")]
      ensures closed == old(closed)
    {
      parts := parts + [File(field, filename, "")];
    }

    /** Appends bytes to the file part opened last. */
    method Write(data: string)
      requires |parts| > 0 && parts[|parts| - 1].File?
      modifies this
      ensures var n := |old(parts)| - 1;
        parts == old(parts)[..n] + [old(parts)[n].(content := old(parts)[n].content + data)]
      ensures closed == old(closed)
    {
      var last := parts[|parts| - 1];
      parts := parts[..|parts| - 1] + [last.(content := last.content + data)];
    }

    /** Writes the closing boundary; the parts stay as they are. */
    method Close()
      modifies this
      ensures closed && parts == old(parts)
    {
      closed := true;
    }
  }

  /**
   * CreateFormFile("pic", pic), then the picture's bytes copied into it.
   * `ok` is false when the remote fetch failed.
   */
  method AttachPicture(w: FormWriter, world: World, pic: string) returns (ok: bool, effects: seq<Effect>)
    modifies w
    ensures ok == LoadPicture(world, pic).0.Some? && effects == LoadPicture(world, pic).1
    ensures ok ==> w.parts == old(w.parts) + [File("pic", pic, LoadPicture(world, pic).0.value)]
    ensures !ok ==> w.parts == old(w.parts) + [File("pic", pic, "")]
    ensures w.closed == old(w.closed)
  {
    w.CreateFormFile("pic", pic);
    assert w.parts[..|old(w.parts)|] == old(w.parts);
    if IsRemote(pic) {
      effects := [Fetch(pic)];
      var res := world.fetch(pic);
      if res.None? {
        return false, effects;
      }
      w.Write(res.value);
      assert "" + res.value == res.value;
    } else {
      effects := [Open(pic)];
      var fh := world.open(pic);
      if fh.Some? {
        w.Write(fh.value);
        assert "" + fh.value == fh.value;
      }
    }
    ok := true;
  }

  /** The eight WriteField calls of the picture branch, in their order. */
  method WriteScalarFields(w: FormWriter, c: Codecs, s: WeiboStatus)
    modifies w
    ensures w.parts == old(w.parts) + FieldParts(UploadFields(c, s))
    ensures w.closed == old(w.closed)
  {
    w.WriteField("access_token", s.accessToken);
    w.WriteField("status", c.urlEncode(s.status));
    w.WriteField("visible", Decimal.IntText(s.visible as int));
    w.WriteField("list_id", s.listId);
    w.WriteField("lat", c.formatFloat(s.latitude));
    w.WriteField("long", c.formatFloat(s.longitude));
    w.WriteField("annotations", s.annotations);
    w.WriteField("rip", s.realIp);
  }

  /**
   * The picture branch of SendStatus up to the POST: the eight scalar fields,
   * then the picture, then Close.
   */
  method EncodeUploadForm(c: Codecs, world: World, s: WeiboStatus) returns (form: Option<seq<Part>>, effects: seq<Effect>)
    ensures (form, effects) == UploadForm(UploadFields(c, s), world, s.pic)
  {
    var w := new FormWriter();
    WriteScalarFields(w, c, s);
    ghost var fieldParts := FieldParts(UploadFields(c, s));
    assert w.parts == fieldParts;
    var ok;
    ok, effects := AttachPicture(w, world, s.pic);
    if !ok {
      return None, effects;
    }
    w.Close();
    form := Some(w.parts);
    assert form == Some(fieldParts + [File("pic", s.pic, LoadPicture(world, s.pic).0.value)]);
  }

  /** encodeMultipart: a body holding the picture part alone. */
  method EncodeMultipart(world: World, pic: string) returns (form: Option<seq<Part>>, effects: seq<Effect>)
    ensures (form, effects) == UploadForm([], world, pic)
  {
    var w := new FormWriter();
    var ok;
    ok, effects := AttachPicture(w, world, pic);
    w.Close();
    if !ok {
      return None, effects;
    }
    form := Some(w.parts);
  }

  /**
   * Where the picture comes from: a remote picture is fetched and, when the
   * fetch fails, no body is built; a local picture is never fetched, and a
   * file that cannot be opened still yields a body with an empty picture.
   */
  lemma PictureSource(fields: seq<Param>, world: World, pic: string)
    ensures var (form, effects) := UploadForm(fields, world, pic);
      && (IsRemote(pic) ==> effects == [Fetch(pic)] && (form.None? <==> world.fetch(pic).None?))
      && (IsRemote(pic) && world.fetch(pic).Some? ==>
            form.value[|fields|].content == world.fetch(pic).value)
      && (!IsRemote(pic) ==>
            effects == [Open(pic)] && form.Some?
            && form.value[|fields|].content == (if world.open(pic).Some? then world.open(pic).value else ""))
  {
  }
}
