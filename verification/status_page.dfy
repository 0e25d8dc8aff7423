/** The JSON tags of the status-page structs, kept apart so that facts
    about the literal tag lists are proved in a small context. */
module StatusPageTags {
  import opened Json

  /** The JSON keys of the StatusPage struct's tags, in field order. */
  const StatusPageKeys: seq<string> := [
    "id", "slug", "title", "description", "theme", "published", "showTags",
    "domainNameList", "footerText", "customCSS", "googleAnalyticsId", "icon",
    "showPoweredBy", "publicGroupList"]

  /** Whether each of those tags says omitempty, in the same order. */
  const StatusPageOmitEmpty: seq<bool> := [
    true,  // id
    false, // slug
    false, // title
    true,  // description
    false, // theme
    false, // published
    false, // showTags
    false, // domainNameList
    true,  // footerText
    true,  // customCSS
    true,  // googleAnalyticsId
    true,  // icon
    false, // showPoweredBy
    true   // publicGroupList
  ]

  lemma StatusPageKeysUnique0()
    ensures forall j :: 0 <= j < 7 ==> UniqueKeyAt(StatusPageKeys, j)
  {
    assert UniqueKeyAt(StatusPageKeys, 0);
    assert UniqueKeyAt(StatusPageKeys, 1);
    assert UniqueKeyAt(StatusPageKeys, 2);
    assert UniqueKeyAt(StatusPageKeys, 3);
    assert UniqueKeyAt(StatusPageKeys, 4);
    assert UniqueKeyAt(StatusPageKeys, 5);
    assert UniqueKeyAt(StatusPageKeys, 6);
  }

  lemma StatusPageKeysUnique7()
    ensures forall j :: 7 <= j < 14 ==> UniqueKeyAt(StatusPageKeys, j)
  {
    assert UniqueKeyAt(StatusPageKeys, 7);
    assert UniqueKeyAt(StatusPageKeys, 8);
    assert UniqueKeyAt(StatusPageKeys, 9);
    assert UniqueKeyAt(StatusPageKeys, 10);
    assert UniqueKeyAt(StatusPageKeys, 11);
    assert UniqueKeyAt(StatusPageKeys, 12);
    assert UniqueKeyAt(StatusPageKeys, 13);
  }

  /** The StatusPage struct's tags name distinct keys. */
  lemma StatusPageKeysDistinct()
    ensures forall j :: 0 <= j < |StatusPageKeys| ==> UniqueKeyAt(StatusPageKeys, j)
  {
    StatusPageKeysUnique0();
    StatusPageKeysUnique7();
  }

  /** The StatusPage keys tagged without omitempty. */
  const StatusPagePlainKeys: set<string> := {
    "slug", "title", "theme", "published", "showTags", "domainNameList",
    "showPoweredBy"}

  /** Each of them is the key of a StatusPage field without omitempty. */
  lemma StatusPagePlainKeysTagged()
    ensures forall k :: k in StatusPagePlainKeys ==>
      exists j :: 0 <= j < |StatusPageKeys| && StatusPageKeys[j] == k && !StatusPageOmitEmpty[j]
  {
    forall k | k in StatusPagePlainKeys
      ensures exists j :: 0 <= j < |StatusPageKeys| && StatusPageKeys[j] == k && !StatusPageOmitEmpty[j]
    {
      if k == "slug" {
        assert StatusPageKeys[1] == k && !StatusPageOmitEmpty[1];
      } else if k == "title" {
        assert StatusPageKeys[2] == k && !StatusPageOmitEmpty[2];
      } else if k == "theme" {
        assert StatusPageKeys[4] == k && !StatusPageOmitEmpty[4];
      } else if k == "published" {
        assert StatusPageKeys[5] == k && !StatusPageOmitEmpty[5];
      } else if k == "showTags" {
        assert StatusPageKeys[6] == k && !StatusPageOmitEmpty[6];
      } else if k == "domainNameList" {
        assert StatusPageKeys[7] == k && !StatusPageOmitEmpty[7];
      } else if k == "showPoweredBy" {
        assert StatusPageKeys[12] == k && !StatusPageOmitEmpty[12];
      }
    }
  }

  /** The JSON keys of the SaveStatusPageRequest struct's tags, in field
      order; every one of them says omitempty. */
  const SaveRequestKeys: seq<string> := [
    "title", "description", "theme", "published", "showTags", "domainNameList",
    "footerText", "customCSS", "googleAnalyticsId", "icon", "showPoweredBy",
    "publicGroupList"]

  lemma SaveRequestKeysUnique0()
    ensures forall j :: 0 <= j < 6 ==> UniqueKeyAt(SaveRequestKeys, j)
  {
    assert UniqueKeyAt(SaveRequestKeys, 0);
    assert UniqueKeyAt(SaveRequestKeys, 1);
    assert UniqueKeyAt(SaveRequestKeys, 2);
    assert UniqueKeyAt(SaveRequestKeys, 3);
    assert UniqueKeyAt(SaveRequestKeys, 4);
    assert UniqueKeyAt(SaveRequestKeys, 5);
  }

  lemma SaveRequestKeysUnique6()
    ensures forall j :: 6 <= j < 12 ==> UniqueKeyAt(SaveRequestKeys, j)
  {
    assert UniqueKeyAt(SaveRequestKeys, 6);
    assert UniqueKeyAt(SaveRequestKeys, 7);
    assert UniqueKeyAt(SaveRequestKeys, 8);
    assert UniqueKeyAt(SaveRequestKeys, 9);
    assert UniqueKeyAt(SaveRequestKeys, 10);
    assert UniqueKeyAt(SaveRequestKeys, 11);
  }

  /** The SaveStatusPageRequest struct's tags name distinct keys. */
  lemma SaveRequestKeysDistinct()
    ensures forall j :: 0 <= j < |SaveRequestKeys| ==> UniqueKeyAt(SaveRequestKeys, j)
  {
    SaveRequestKeysUnique0();
    SaveRequestKeysUnique6();
  }
}

/** The status-page operations of internal/client/status_page.go: the
    structs' JSON keys, and the fixed request each wrapper issues. */
module StatusPages {
  import opened Results
  import opened Json
  import opened Http
  import opened Auth
  import opened Engine
  import opened StatusPageTags

  // ---------------------------------------------------------------------------
  // Data

  datatype PublicGroup = PublicGroup(id: int, name: string, weight: int, monitorList: seq<int>)

  datatype StatusPage = StatusPage(
    id: int,
    slug: string,
    title: string,
    description: string,
    theme: string,
    published: bool,
    showTags: bool,
    domainNameList: seq<string>,
    footerText: string,
    customCSS: string,
    googleAnalyticsID: string,
    icon: string,
    showPoweredBy: bool,
    publicGroupList: seq<PublicGroup>)

  /** The list response: its pages sit under `statuspages`. */
  datatype StatusPageList = StatusPageList(statusPages: seq<StatusPage>)

  datatype AddStatusPageRequest = AddStatusPageRequest(slug: string, title: string, msg: string)

  datatype AddStatusPageResponse = AddStatusPageResponse(msg: string)

  datatype SaveStatusPageRequest = SaveStatusPageRequest(
    title: string,
    description: string,
    theme: string,
    published: bool,
    showTags: bool,
    domainNameList: seq<string>,
    footerText: string,
    customCSS: string,
    googleAnalyticsID: string,
    icon: string,
    showPoweredBy: bool,
    publicGroupList: seq<PublicGroup>)

  /** `detail` is an arbitrary JSON value. */
  datatype SaveStatusPageResponse = SaveStatusPageResponse(detail: Json)

  datatype DeleteStatusPageResponse = DeleteStatusPageResponse(detail: string)

  datatype PostIncidentRequest = PostIncidentRequest(title: string, content: string, style: string)

  datatype PostIncidentResponse = PostIncidentResponse(
    id: int, title: string, content: string, style: string, createdDate: string, pin: bool)

  datatype UnpinIncidentResponse = UnpinIncidentResponse(detail: string)

  // ---------------------------------------------------------------------------
  // Encodings

  function IntList(xs: seq<int>): (v: Value)
    ensures v.VList? && |v.items| == |xs|
    ensures forall i :: 0 <= i < |xs| ==> v.items[i] == VInt(xs[i])
  {
    VList(seq(|xs|, i requires 0 <= i < |xs| => VInt(xs[i])))
  }

  function StringList(xs: seq<string>): (v: Value)
    ensures v.VList? && |v.items| == |xs|
    ensures forall i :: 0 <= i < |xs| ==> v.items[i] == VString(xs[i])
  {
    VList(seq(|xs|, i requires 0 <= i < |xs| => VString(xs[i])))
  }

  /** PublicGroup: `id` is omitempty; `name`, `weight` and `monitorList` are not. */
  function PublicGroupValue(g: PublicGroup): Value {
    VStruct([
      Field("id", VInt(g.id), true),
      Field("name", VString(g.name), false),
      Field("weight", VInt(g.weight), false),
      Field("monitorList", IntList(g.monitorList), false)])
  }

  function GroupList(gs: seq<PublicGroup>): (v: Value)
    ensures v.VList? && |v.items| == |gs|
    ensures forall i :: 0 <= i < |gs| ==> v.items[i] == PublicGroupValue(gs[i])
  {
    VList(seq(|gs|, i requires 0 <= i < |gs| => PublicGroupValue(gs[i])))
  }

  function StatusPageFieldValues(p: StatusPage): (vs: seq<Value>)
    ensures |vs| == |StatusPageKeys|
  {
    [VInt(p.id), VString(p.slug), VString(p.title), VString(p.description), VString(p.theme),
     VBool(p.published), VBool(p.showTags), StringList(p.domainNameList), VString(p.footerText),
     VString(p.customCSS), VString(p.googleAnalyticsID), VString(p.icon), VBool(p.showPoweredBy),
     GroupList(p.publicGroupList)]
  }

  /** The StatusPage struct as json.Marshal sees it. */
  function StatusPageValue(p: StatusPage): Value {
    TaggedStruct(StatusPageKeys, StatusPageOmitEmpty, StatusPageFieldValues(p))
  }

  function SaveRequestFieldValues(r: SaveStatusPageRequest): (vs: seq<Value>)
    ensures |vs| == |SaveRequestKeys|
  {
    [VString(r.title), VString(r.description), VString(r.theme), VBool(r.published),
     VBool(r.showTags), StringList(r.domainNameList), VString(r.footerText), VString(r.customCSS),
     VString(r.googleAnalyticsID), VString(r.icon), VBool(r.showPoweredBy),
     GroupList(r.publicGroupList)]
  }

  /** The SaveStatusPageRequest struct as json.Marshal sees it: every field omitempty. */
  function SaveRequestValue(r: SaveStatusPageRequest): Value {
    TaggedStruct(SaveRequestKeys, seq(|SaveRequestKeys|, _ => true), SaveRequestFieldValues(r))
  }

  /** AddStatusPageRequest: `slug` and `title` always, `msg` omitempty. */
  function AddRequestValue(r: AddStatusPageRequest): Value {
    VStruct([
      Field("slug", VString(r.slug), false),
      Field("title", VString(r.title), false),
      Field("msg", VString(r.msg), true)])
  }

  /** PostIncidentRequest: `title` and `content` always, `style` omitempty. */
  function IncidentRequestValue(r: PostIncidentRequest): Value {
    VStruct([
      Field("title", VString(r.title), false),
      Field("content", VString(r.content), false),
      Field("style", VString(r.style), true)])
  }

  // ---------------------------------------------------------------------------
  // Key presence

  /** Every public group marshals, and so does any list of them. */
  lemma GroupListEncodable(gs: seq<PublicGroup>)
    ensures Encodable(GroupList(gs))
  {
    forall i | 0 <= i < |gs| ensures Encodable(GroupList(gs).items[i]) {
      var fs := PublicGroupValue(gs[i]).fields;
      assert Encodable(fs[3].value);
    }
  }

  /** A status page always marshals: it holds only strings, numbers, flags
      and lists of those. */
  lemma StatusPageEncodable(p: StatusPage)
    ensures Marshal(StatusPageValue(p)).Some?
  {
    var vs := StatusPageFieldValues(p);
    GroupListEncodable(p.publicGroupList);
    assert Encodable(vs[7]) && Encodable(vs[13]);
    TaggedEncodable(StatusPageKeys, StatusPageOmitEmpty, vs);
  }

  /** `slug`, `title`, `theme`, the three flags and `domainNameList` are
      written whatever their values. */
  lemma StatusPageAlwaysKeys(p: StatusPage)
    ensures Marshal(StatusPageValue(p)).Some?
    ensures forall k :: k in StatusPagePlainKeys ==> ObjectHasKey(Marshal(StatusPageValue(p)).value, k)
  {
    StatusPageEncodable(p);
    forall j | 0 <= j < |StatusPageKeys| && !StatusPageOmitEmpty[j]
      ensures ObjectHasKey(Marshal(StatusPageValue(p)).value, StatusPageKeys[j])
    {
      TaggedPlainKey(StatusPageKeys, StatusPageOmitEmpty, StatusPageFieldValues(p), j);
    }
    StatusPagePlainKeysTagged();
  }

  /** `id`, `description`, `footerText`, `customCSS`, `googleAnalyticsId`,
      `icon` and `publicGroupList` are written exactly when non-empty. */
  lemma StatusPageOptionalKeys(p: StatusPage)
    ensures Marshal(StatusPageValue(p)).Some?
    ensures forall j :: 0 <= j < |StatusPageKeys| && StatusPageOmitEmpty[j] ==>
      (ObjectHasKey(Marshal(StatusPageValue(p)).value, StatusPageKeys[j]) <==> !IsEmpty(StatusPageFieldValues(p)[j]))
  {
    StatusPageEncodable(p);
    StatusPageKeysDistinct();
    forall j | 0 <= j < |StatusPageKeys| && StatusPageOmitEmpty[j]
      ensures ObjectHasKey(Marshal(StatusPageValue(p)).value, StatusPageKeys[j]) <==> !IsEmpty(StatusPageFieldValues(p)[j])
    {
      TaggedKeyPresence(StatusPageKeys, StatusPageOmitEmpty, StatusPageFieldValues(p), j);
    }
  }

  /** `id` and `publicGroupList` in particular: present exactly when the id
      is non-zero and the group list non-empty. */
  lemma StatusPageIdAndGroupKeys(p: StatusPage)
    ensures Marshal(StatusPageValue(p)).Some?
    ensures ObjectHasKey(Marshal(StatusPageValue(p)).value, "id") <==> p.id != 0
    ensures ObjectHasKey(Marshal(StatusPageValue(p)).value, "publicGroupList") <==> |p.publicGroupList| > 0
  {
    StatusPageEncodable(p);
    StatusPageKeysDistinct();
    TaggedKeyPresence(StatusPageKeys, StatusPageOmitEmpty, StatusPageFieldValues(p), 0);
    TaggedKeyPresence(StatusPageKeys, StatusPageOmitEmpty, StatusPageFieldValues(p), 13);
  }

  /** A save request always marshals. */
  lemma SaveRequestEncodable(r: SaveStatusPageRequest)
    ensures Marshal(SaveRequestValue(r)).Some?
  {
    var vs := SaveRequestFieldValues(r);
    GroupListEncodable(r.publicGroupList);
    assert Encodable(vs[5]) && Encodable(vs[11]);
    TaggedEncodable(SaveRequestKeys, seq(|SaveRequestKeys|, _ => true), vs);
  }

  /** Every key of a save request is written exactly when its value is
      non-empty, and no other key is written. */
  lemma SaveRequestKeyPresence(r: SaveStatusPageRequest)
    ensures Marshal(SaveRequestValue(r)).Some?
    ensures forall j :: 0 <= j < |SaveRequestKeys| ==>
      (ObjectHasKey(Marshal(SaveRequestValue(r)).value, SaveRequestKeys[j]) <==> !IsEmpty(SaveRequestFieldValues(r)[j]))
    ensures forall k :: ObjectHasKey(Marshal(SaveRequestValue(r)).value, k) ==> k in SaveRequestKeys
  {
    var omits := seq(|SaveRequestKeys|, _ => true);
    SaveRequestEncodable(r);
    SaveRequestKeysDistinct();
    forall j | 0 <= j < |SaveRequestKeys|
      ensures ObjectHasKey(Marshal(SaveRequestValue(r)).value, SaveRequestKeys[j]) <==> !IsEmpty(SaveRequestFieldValues(r)[j])
    {
      TaggedKeyPresence(SaveRequestKeys, omits, SaveRequestFieldValues(r), j);
    }
    forall k | ObjectHasKey(Marshal(SaveRequestValue(r)).value, k) ensures k in SaveRequestKeys {
      TaggedKeysOnly(SaveRequestKeys, omits, SaveRequestFieldValues(r), k);
    }
  }

  /** A false `published`, `showTags` or `showPoweredBy` is left out of a
      save request, so it cannot switch a flag off. */
  lemma SaveRequestFlags(r: SaveStatusPageRequest)
    ensures Marshal(SaveRequestValue(r)).Some?
    ensures var doc := Marshal(SaveRequestValue(r)).value;
      && (ObjectHasKey(doc, "published") <==> r.published)
      && (ObjectHasKey(doc, "showTags") <==> r.showTags)
      && (ObjectHasKey(doc, "showPoweredBy") <==> r.showPoweredBy)
  {
    SaveRequestKeyPresence(r);
    var vs := SaveRequestFieldValues(r);
    assert SaveRequestKeys[3] == "published" && vs[3] == VBool(r.published);
    assert SaveRequestKeys[4] == "showTags" && vs[4] == VBool(r.showTags);
    assert SaveRequestKeys[10] == "showPoweredBy" && vs[10] == VBool(r.showPoweredBy);
  }

  /** A public group always carries `name`, `weight` and `monitorList`,
      and `id` exactly when it is non-zero. */
  lemma PublicGroupKeys(g: PublicGroup)
    ensures Marshal(PublicGroupValue(g)).Some?
    ensures var doc := Marshal(PublicGroupValue(g)).value;
      && ObjectHasKey(doc, "name") && ObjectHasKey(doc, "weight") && ObjectHasKey(doc, "monitorList")
      && (ObjectHasKey(doc, "id") <==> g.id != 0)
  {
    var fs := PublicGroupValue(g).fields;
    GroupListEncodable([g]);
    assert GroupList([g]).items[0] == PublicGroupValue(g);
    MarshalSucceedsIff(PublicGroupValue(g));
    StructKeyPresence(fs, "id");
    StructKeyPresence(fs, "name");
    StructKeyPresence(fs, "weight");
    StructKeyPresence(fs, "monitorList");
    assert fs[0].key == "id" && fs[1].key == "name" && fs[2].key == "weight" && fs[3].key == "monitorList";
  }

  /** A create request always carries `slug` and `title`, and `msg` exactly
      when it is non-empty. */
  lemma AddRequestKeys(r: AddStatusPageRequest)
    ensures Marshal(AddRequestValue(r)).Some?
    ensures var doc := Marshal(AddRequestValue(r)).value;
      && ObjectHasKey(doc, "slug") && ObjectHasKey(doc, "title")
      && (ObjectHasKey(doc, "msg") <==> r.msg != "")
  {
    var fs := AddRequestValue(r).fields;
    MarshalSucceedsIff(AddRequestValue(r));
    StructKeyPresence(fs, "slug");
    StructKeyPresence(fs, "title");
    StructKeyPresence(fs, "msg");
    assert fs[0].key == "slug" && fs[1].key == "title" && fs[2].key == "msg";
  }

  /** An incident always carries `title` and `content`, and `style` exactly
      when it is non-empty. */
  lemma IncidentRequestKeys(r: PostIncidentRequest)
    ensures Marshal(IncidentRequestValue(r)).Some?
    ensures var doc := Marshal(IncidentRequestValue(r)).value;
      && ObjectHasKey(doc, "title") && ObjectHasKey(doc, "content")
      && (ObjectHasKey(doc, "style") <==> r.style != "")
  {
    var fs := IncidentRequestValue(r).fields;
    MarshalSucceedsIff(IncidentRequestValue(r));
    StructKeyPresence(fs, "title");
    StructKeyPresence(fs, "content");
    StructKeyPresence(fs, "style");
    assert fs[0].key == "title" && fs[1].key == "content" && fs[2].key == "style";
  }

  // ---------------------------------------------------------------------------
  // Requests

  /** The error contexts the wrappers prefix their errors with. */
  datatype Op =
    | GetStatusPagesOp
    | GetStatusPageOp(slug: string)
    | CreateStatusPageOp
    | UpdateStatusPageOp(slug: string)
    | DeleteStatusPageOp(slug: string)
    | PostIncidentOp(slug: string)
    | UnpinIncidentOp(slug: string)

  const StatusPagesPrefix := "/status-pages/"

  /** `/status-pages/%s` followed by `suffix`: the slug goes in verbatim. */
  function StatusPagePath(slug: string, suffix: string): (p: string)
    ensures |p| == |StatusPagesPrefix| + |slug| + |suffix|
    ensures p[..|StatusPagesPrefix|] == StatusPagesPrefix
    ensures p[|StatusPagesPrefix|..|StatusPagesPrefix| + |slug|] == slug
    ensures p[|StatusPagesPrefix| + |slug|..] == suffix
  {
    StatusPagesPrefix + slug + suffix
  }

  /** The single path segment a router matching `/status-pages/{slug}`
      would bind, or None when the rest of the path is not one segment. */
  function SlugSegment(path: string): Option<string> {
    if |StatusPagesPrefix| <= |path| && path[..|StatusPagesPrefix|] == StatusPagesPrefix
       && '/' !in path[|StatusPagesPrefix|..]
    then Some(path[|StatusPagesPrefix|..])
    else None
  }

  /** GetStatusPages: GET /status-pages into the list response. */
  function GetStatusPages(): (p: Plan<Op>)
    ensures p.op == GetStatusPagesOp && p.call.Some?
    ensures p.call.value.verb == GET && p.call.value.path == "/status-pages"
    ensures p.call.value.body.None? && p.call.value.hasSink
  {
    Plan(GetStatusPagesOp, Some(Get("/status-pages", true)))
  }

  /** What GetStatusPages returns: the `statuspages` member of the decoded
      list, or nothing with the wrapped error. */
  function ListedPages(r: Result<Option<StatusPageList>, OpError<Op>>): (pages: Result<seq<StatusPage>, OpError<Op>>)
    ensures r.Err? ==> pages == Err(r.error)
    ensures r.Ok? && r.value.Some? ==> pages == Ok(r.value.value.statusPages)
    ensures r.Ok? && r.value.None? ==> pages == Ok([])
  {
    match r
    case Err(e) => Err(e)
    case Ok(None) => Ok([])
    case Ok(Some(list)) => Ok(list.statusPages)
  }

  /** GetStatusPage: GET /status-pages/{slug}. */
  function GetStatusPage(slug: string): (p: Plan<Op>)
    ensures p.op == GetStatusPageOp(slug) && p.call.Some?
    ensures p.call.value.verb == GET && p.call.value.path == StatusPagesPrefix + slug
    ensures p.call.value.body.None? && p.call.value.hasSink
  {
    Plan(GetStatusPageOp(slug), Some(Get(StatusPagePath(slug, ""), true)))
  }

  /** CreateStatusPage: POST a reader over the encoded request to
      /status-pages. The request always marshals. */
  function CreateStatusPage(r: AddStatusPageRequest): (p: Plan<Op>)
    ensures p.op == CreateStatusPageOp && p.call.Some?
    ensures p.call.value.verb == POST && p.call.value.path == "/status-pages" && p.call.value.hasSink
    ensures Marshal(AddRequestValue(r)).Some?
    ensures p.call.value.body == Some(VReader(Marshal(AddRequestValue(r)).value))
  {
    AddRequestKeys(r);
    Plan(CreateStatusPageOp, Some(Post("/status-pages", Some(VReader(Marshal(AddRequestValue(r)).value)), true)))
  }

  /** UpdateStatusPage: POST (neither PUT nor PATCH) a reader over the
      encoded request to /status-pages/{slug}. */
  function UpdateStatusPage(slug: string, r: SaveStatusPageRequest): (p: Plan<Op>)
    ensures p.op == UpdateStatusPageOp(slug) && p.call.Some?
    ensures p.call.value.verb == POST && p.call.value.path == StatusPagesPrefix + slug && p.call.value.hasSink
    ensures Marshal(SaveRequestValue(r)).Some?
    ensures p.call.value.body == Some(VReader(Marshal(SaveRequestValue(r)).value))
  {
    SaveRequestEncodable(r);
    Plan(UpdateStatusPageOp(slug), Some(Post(StatusPagePath(slug, ""), Some(VReader(Marshal(SaveRequestValue(r)).value)), true)))
  }

  /** DeleteStatusPage: DELETE /status-pages/{slug} into a detail response. */
  function DeleteStatusPage(slug: string): (p: Plan<Op>)
    ensures p.op == DeleteStatusPageOp(slug) && p.call.Some?
    ensures p.call.value.verb == DELETE && p.call.value.path == StatusPagesPrefix + slug
    ensures p.call.value.body.None? && p.call.value.hasSink
  {
    Plan(DeleteStatusPageOp(slug), Some(Delete(StatusPagePath(slug, ""), true)))
  }

  /** PostIncident: POST a reader over the encoded incident to
      /status-pages/{slug}/incident. */
  function PostIncident(slug: string, r: PostIncidentRequest): (p: Plan<Op>)
    ensures p.op == PostIncidentOp(slug) && p.call.Some?
    ensures p.call.value.verb == POST && p.call.value.path == StatusPagesPrefix + slug + "/incident"
    ensures p.call.value.hasSink
    ensures Marshal(IncidentRequestValue(r)).Some?
    ensures p.call.value.body == Some(VReader(Marshal(IncidentRequestValue(r)).value))
  {
    IncidentRequestKeys(r);
    Plan(PostIncidentOp(slug), Some(Post(StatusPagePath(slug, "/incident"), Some(VReader(Marshal(IncidentRequestValue(r)).value)), true)))
  }

  /** UnpinIncident: DELETE /status-pages/{slug}/incident/unpin. */
  function UnpinIncident(slug: string): (p: Plan<Op>)
    ensures p.op == UnpinIncidentOp(slug) && p.call.Some?
    ensures p.call.value.verb == DELETE && p.call.value.path == StatusPagesPrefix + slug + "/incident/unpin"
    ensures p.call.value.body.None? && p.call.value.hasSink
  {
    Plan(UnpinIncidentOp(slug), Some(Delete(StatusPagePath(slug, "/incident/unpin"), true)))
  }

  // ---------------------------------------------------------------------------
  // Properties of the requests

  /** A slug without `/` is exactly the segment a router binds, for every
      wrapper addressing /status-pages/{slug}; and distinct slugs always give
      distinct paths. */
  lemma SlugRoutesBack(slug: string, other: string, save: SaveStatusPageRequest)
    ensures '/' !in slug ==> SlugSegment(GetStatusPage(slug).call.value.path) == Some(slug)
    ensures '/' !in slug ==> SlugSegment(UpdateStatusPage(slug, save).call.value.path) == Some(slug)
    ensures '/' !in slug ==> SlugSegment(DeleteStatusPage(slug).call.value.path) == Some(slug)
    ensures slug != other ==> StatusPagePath(slug, "") != StatusPagePath(other, "")
  {
    var p := StatusPagePath(slug, "");
    var q := StatusPagePath(other, "");
    if p == q {
      assert slug == p[|StatusPagesPrefix|..] == other;
    }
  }

  /** Because the slug goes in verbatim, a slug holding `/` reaches another
      route: deleting the page "main/incident/unpin" issues exactly the
      request that unpins main's incident, and no router would bind that
      path as a single slug. */
  lemma SlugCollision()
    ensures DeleteStatusPage("main/incident/unpin").call == UnpinIncident("main").call
    ensures SlugSegment(DeleteStatusPage("main/incident/unpin").call.value.path).None?
  {
    assert "main/incident/unpin" == "main" + "/incident/unpin";
    assert StatusPagePath("main/incident/unpin", "") == StatusPagePath("main", "/incident/unpin");
    var path := DeleteStatusPage("main/incident/unpin").call.value.path;
    assert path[|StatusPagesPrefix|..][4] == '/';
  }

  /** With slugs free of `/`, unpinning never addresses the page itself. */
  lemma UnpinNeverDeletesPage(a: string, b: string)
    requires '/' !in b
    ensures UnpinIncident(a).call.value.path != DeleteStatusPage(b).call.value.path
  {
    var u := UnpinIncident(a).call.value.path;
    assert u[|StatusPagesPrefix| + |a|] == '/';
  }

  /** GetStatusPages hands back the decoded list's `statuspages` member,
      and on failure nothing but the error wrapped in its context. */
  lemma GetStatusPagesReturnsInner(env: Env<StatusPageList>)
    ensures var o := Perform(env, GetStatusPages());
      && (o.result.Ok? ==>
            env.reply.Reply? && env.reply.decoded.Ok?
            && ListedPages(o.result) == Ok(env.reply.decoded.value.statusPages))
      && (o.result.Err? ==> ListedPages(o.result).Err? && ListedPages(o.result).error.op == GetStatusPagesOp)
  {
  }

  /** As written, the create, update and incident bodies are all `{}`;
      streaming would send the encoded request. */
  lemma StatusPageBodiesAreLost(slug: string, add: AddStatusPageRequest, save: SaveStatusPageRequest, incident: PostIncidentRequest)
    ensures EncodeBody(CreateStatusPage(add).call.value.body) == Ok(Some(JObject([])))
    ensures EncodeBody(UpdateStatusPage(slug, save).call.value.body) == Ok(Some(JObject([])))
    ensures EncodeBody(PostIncident(slug, incident).call.value.body) == Ok(Some(JObject([])))
    ensures var sent := EncodeBodyStreaming(CreateStatusPage(add).call.value.body);
      sent.Ok? && sent.value.Some? && ObjectHasKey(sent.value.value, "slug") && ObjectHasKey(sent.value.value, "title")
    ensures var sent := EncodeBodyStreaming(PostIncident(slug, incident).call.value.body);
      sent.Ok? && sent.value.Some? && ObjectHasKey(sent.value.value, "title") && ObjectHasKey(sent.value.value, "content")
  {
    AddRequestKeys(add);
    IncidentRequestKeys(incident);
  }
}
