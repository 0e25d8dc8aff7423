/** The tag operations of internal/client/tag.go: each wrapper is a fixed
    request over the engine, and a Tag's JSON keys follow its struct tags. */
module Tags {
  import opened Results
  import opened Json
  import opened Decimal
  import opened Http
  import opened Engine

  datatype Tag = Tag(id: int, name: string, color: string)

  /** The Tag struct as json.Marshal sees it: `id` is omitempty, `name` and `color` are not. */
  function TagValue(t: Tag): Value {
    VStruct([
      Field("id", VInt(t.id), true),
      Field("name", VString(t.name), false),
      Field("color", VString(t.color), false)])
  }

  /** The error contexts the wrappers prefix their errors with. */
  datatype Op = GetTagsOp | GetTagOp(id: int) | CreateTagOp | DeleteTagOp(id: int)

  function TagPath(id: int): (p: string)
    ensures IdBetween("/tags/", p, "") == Some(id)
  {
    IdBetweenFormat("/tags/", id, "");
    assert "/tags/" + FormatInt(id) + "" == "/tags/" + FormatInt(id);
    "/tags/" + FormatInt(id)
  }

  /** A tag always marshals; `name` and `color` are always written, `id` only when non-zero. */
  lemma TagKeys(t: Tag)
    ensures Marshal(TagValue(t)).Some?
    ensures var doc := Marshal(TagValue(t)).value;
      && ObjectHasKey(doc, "name")
      && ObjectHasKey(doc, "color")
      && (ObjectHasKey(doc, "id") <==> t.id != 0)
  {
    var fs := TagValue(t).fields;
    MarshalSucceedsIff(TagValue(t));
    StructKeyPresence(fs, "id");
    StructKeyPresence(fs, "name");
    StructKeyPresence(fs, "color");
    assert fs[0].key == "id" && fs[1].key == "name" && fs[2].key == "color";
  }

  /** GetTags: GET /tags into a tag list. */
  function GetTags(): (p: Plan<Op>)
    ensures p.op == GetTagsOp && p.call.Some?
    ensures p.call.value.verb == GET && p.call.value.path == "/tags"
    ensures p.call.value.body.None? && p.call.value.hasSink
  {
    Plan(GetTagsOp, Some(Get("/tags", true)))
  }

  /** GetTag: GET /tags/{id}. */
  function GetTag(id: int): (p: Plan<Op>)
    ensures p.op == GetTagOp(id) && p.call.Some?
    ensures p.call.value.verb == GET && IdBetween("/tags/", p.call.value.path, "") == Some(id)
    ensures p.call.value.body.None? && p.call.value.hasSink
  {
    Plan(GetTagOp(id), Some(Get(TagPath(id), true)))
  }

  /** CreateTag: marshal the tag first (a failure sends nothing), then POST a
      reader over the encoded bytes to /tags. */
  function CreateTag(t: Tag): (p: Plan<Op>)
    ensures p.op == CreateTagOp
    ensures p.call.Some? <==> Encodable(TagValue(t))
    ensures p.call.Some? ==>
      && p.call.value.verb == POST && p.call.value.path == "/tags" && p.call.value.hasSink
      && Marshal(TagValue(t)).Some?
      && p.call.value.body == Some(VReader(Marshal(TagValue(t)).value))
  {
    MarshalSucceedsIff(TagValue(t));
    match Marshal(TagValue(t))
    case None => Plan(CreateTagOp, None)
    case Some(doc) => Plan(CreateTagOp, Some(Post("/tags", Some(VReader(doc)), true)))
  }

  /** DeleteTag: DELETE /tags/{id}, no result sink. */
  function DeleteTag(id: int): (p: Plan<Op>)
    ensures p.op == DeleteTagOp(id) && p.call.Some?
    ensures p.call.value.verb == DELETE && IdBetween("/tags/", p.call.value.path, "") == Some(id)
    ensures p.call.value.body.None? && !p.call.value.hasSink
  {
    Plan(DeleteTagOp(id), Some(Delete(TagPath(id), false)))
  }

  /** Distinct tag ids address distinct resources. */
  lemma TagPathsDistinct(a: int, b: int)
    requires a != b
    ensures GetTag(a).call.value.path != GetTag(b).call.value.path
  {
    var pa := GetTag(a).call.value.path;
    var pb := GetTag(b).call.value.path;
    assert IdBetween("/tags/", pa, "") == Some(a);
    assert IdBetween("/tags/", pb, "") == Some(b);
  }

  /** As written, CreateTag's request body is `{}`: the encoded tag, which
      does carry `name` and `color`, never reaches the wire. */
  lemma CreateTagSendsEmptyObject(t: Tag)
    ensures CreateTag(t).call.Some?
    ensures EncodeBody(CreateTag(t).call.value.body) == Ok(Some(JObject([])))
    ensures ObjectHasKey(Marshal(TagValue(t)).value, "name")
  {
    TagKeys(t);
  }

  /** With the streaming body encoder the tag's own encoding is sent, so the
      server sees `name`, `color`, and `id` exactly when it is non-zero. */
  lemma CreateTagStreamsTag(t: Tag)
    ensures CreateTag(t).call.Some?
    ensures var sent := EncodeBodyStreaming(CreateTag(t).call.value.body);
      && sent == Ok(Some(Marshal(TagValue(t)).value))
      && ObjectHasKey(sent.value.value, "name")
      && ObjectHasKey(sent.value.value, "color")
      && (ObjectHasKey(sent.value.value, "id") <==> t.id != 0)
  {
    TagKeys(t);
  }
}
