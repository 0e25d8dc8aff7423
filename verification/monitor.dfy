/** The JSON tags of the Monitor struct, kept apart so that facts about
    the literal tag list are proved in a small context. */
module MonitorTags {
  import opened Json

  /** The JSON keys of the Monitor struct's tags, in field order. */
  const MonitorKeys: seq<string> := [
    "id", "type", "name", "description", "url", "method", "hostname", "port",
    "interval", "retryInterval", "resendInterval", "maxretries", "upsideDown",
    "notificationIDList", "expiryNotification", "ignoreTls", "maxredirects",
    "accepted_statuscodes", "proxyId", "body", "headers", "authMethod",
    "basic_auth_user", "basic_auth_pass", "authDomain", "authWorkstation", "keyword",
    "dns_resolve_server", "dns_resolve_type", "docker_container", "docker_host"]

  /** Whether each of those tags says omitempty, in the same order. */
  const MonitorOmitEmpty: seq<bool> := [
    true,  // id
    false, // type
    false, // name
    false, // description
    true,  // url
    true,  // method
    true,  // hostname
    true,  // port
    false, // interval
    false, // retryInterval
    false, // resendInterval
    false, // maxretries
    false, // upsideDown
    false, // notificationIDList
    false, // expiryNotification
    false, // ignoreTls
    true,  // maxredirects
    true,  // accepted_statuscodes
    true,  // proxyId
    true,  // body
    true,  // headers
    true,  // authMethod
    true,  // basic_auth_user
    true,  // basic_auth_pass
    true,  // authDomain
    true,  // authWorkstation
    true,  // keyword
    true,  // dns_resolve_server
    true,  // dns_resolve_type
    true,  // docker_container
    true   // docker_host
  ]

  // Key uniqueness. Each lemma below compares one key of the 31-entry
  // literal list with the other 30. A single quantified lemma over all
  // positions, or one over a group of four, makes the solver compare
  // every pair of literal strings at once, which costs too much. So each
  // position is proved on its own (Dafny needs no hints for one position),
  // groups of eight collect them, and MonitorKeysDistinct collects the
  // groups.

  lemma KeyUnique0()
    ensures UniqueKeyAt(MonitorKeys, 0)
  {
  }

  lemma KeyUnique1()
    ensures UniqueKeyAt(MonitorKeys, 1)
  {
  }

  lemma KeyUnique2()
    ensures UniqueKeyAt(MonitorKeys, 2)
  {
  }

  lemma KeyUnique3()
    ensures UniqueKeyAt(MonitorKeys, 3)
  {
  }

  lemma KeyUnique4()
    ensures UniqueKeyAt(MonitorKeys, 4)
  {
  }

  lemma KeyUnique5()
    ensures UniqueKeyAt(MonitorKeys, 5)
  {
  }

  lemma KeyUnique6()
    ensures UniqueKeyAt(MonitorKeys, 6)
  {
  }

  lemma KeyUnique7()
    ensures UniqueKeyAt(MonitorKeys, 7)
  {
  }

  lemma KeyUnique8()
    ensures UniqueKeyAt(MonitorKeys, 8)
  {
  }

  lemma KeyUnique9()
    ensures UniqueKeyAt(MonitorKeys, 9)
  {
  }

  lemma KeyUnique10()
    ensures UniqueKeyAt(MonitorKeys, 10)
  {
  }

  lemma KeyUnique11()
    ensures UniqueKeyAt(MonitorKeys, 11)
  {
  }

  lemma KeyUnique12()
    ensures UniqueKeyAt(MonitorKeys, 12)
  {
  }

  lemma KeyUnique13()
    ensures UniqueKeyAt(MonitorKeys, 13)
  {
  }

  lemma KeyUnique14()
    ensures UniqueKeyAt(MonitorKeys, 14)
  {
  }

  lemma KeyUnique15()
    ensures UniqueKeyAt(MonitorKeys, 15)
  {
  }

  lemma KeyUnique16()
    ensures UniqueKeyAt(MonitorKeys, 16)
  {
  }

  lemma KeyUnique17()
    ensures UniqueKeyAt(MonitorKeys, 17)
  {
  }

  lemma KeyUnique18()
    ensures UniqueKeyAt(MonitorKeys, 18)
  {
  }

  lemma KeyUnique19()
    ensures UniqueKeyAt(MonitorKeys, 19)
  {
  }

  lemma KeyUnique20()
    ensures UniqueKeyAt(MonitorKeys, 20)
  {
  }

  lemma KeyUnique21()
    ensures UniqueKeyAt(MonitorKeys, 21)
  {
  }

  lemma KeyUnique22()
    ensures UniqueKeyAt(MonitorKeys, 22)
  {
  }

  lemma KeyUnique23()
    ensures UniqueKeyAt(MonitorKeys, 23)
  {
  }

  lemma KeyUnique24()
    ensures UniqueKeyAt(MonitorKeys, 24)
  {
  }

  lemma KeyUnique25()
    ensures UniqueKeyAt(MonitorKeys, 25)
  {
  }

  lemma KeyUnique26()
    ensures UniqueKeyAt(MonitorKeys, 26)
  {
  }

  lemma KeyUnique27()
    ensures UniqueKeyAt(MonitorKeys, 27)
  {
  }

  lemma KeyUnique28()
    ensures UniqueKeyAt(MonitorKeys, 28)
  {
  }

  lemma KeyUnique29()
    ensures UniqueKeyAt(MonitorKeys, 29)
  {
  }

  lemma KeyUnique30()
    ensures UniqueKeyAt(MonitorKeys, 30)
  {
  }

  lemma KeysDistinct0()
    ensures forall j :: 0 <= j < 8 ==> UniqueKeyAt(MonitorKeys, j)
  {
    KeyUnique0();
    KeyUnique1();
    KeyUnique2();
    KeyUnique3();
    KeyUnique4();
    KeyUnique5();
    KeyUnique6();
    KeyUnique7();
  }

  lemma KeysDistinct8()
    ensures forall j :: 8 <= j < 16 ==> UniqueKeyAt(MonitorKeys, j)
  {
    KeyUnique8();
    KeyUnique9();
    KeyUnique10();
    KeyUnique11();
    KeyUnique12();
    KeyUnique13();
    KeyUnique14();
    KeyUnique15();
  }

  lemma KeysDistinct16()
    ensures forall j :: 16 <= j < 24 ==> UniqueKeyAt(MonitorKeys, j)
  {
    KeyUnique16();
    KeyUnique17();
    KeyUnique18();
    KeyUnique19();
    KeyUnique20();
    KeyUnique21();
    KeyUnique22();
    KeyUnique23();
  }

  lemma KeysDistinct24()
    ensures forall j :: 24 <= j < 31 ==> UniqueKeyAt(MonitorKeys, j)
  {
    KeyUnique24();
    KeyUnique25();
    KeyUnique26();
    KeyUnique27();
    KeyUnique28();
    KeyUnique29();
    KeyUnique30();
  }

  /** The Monitor struct's tags name 31 distinct keys. */
  lemma MonitorKeysDistinct()
    ensures forall j :: 0 <= j < |MonitorKeys| ==> UniqueKeyAt(MonitorKeys, j)
  {
    KeysDistinct0();
    KeysDistinct8();
    KeysDistinct16();
    KeysDistinct24();
  }

  /** The keys tagged without omitempty: the descriptive and scheduling
      keys, then the flags and the notification list. */
  const PlainKeysLow: set<string> := {
    "type", "name", "description", "interval", "retryInterval", "resendInterval"}
  const PlainKeysHigh: set<string> := {
    "maxretries", "upsideDown", "notificationIDList", "expiryNotification", "ignoreTls"}
  const PlainKeys: set<string> := PlainKeysLow + PlainKeysHigh

  /** The descriptive and scheduling plain keys, with their positions. */
  lemma PlainKeysTaggedLow()
    ensures forall k :: k in PlainKeysLow ==>
      exists j :: 0 <= j < |MonitorKeys| && MonitorKeys[j] == k && !MonitorOmitEmpty[j]
  {
    forall k | k in PlainKeysLow
      ensures exists j :: 0 <= j < |MonitorKeys| && MonitorKeys[j] == k && !MonitorOmitEmpty[j]
    {
      if k == "type" {
        assert MonitorKeys[1] == k && !MonitorOmitEmpty[1];
      } else if k == "name" {
        assert MonitorKeys[2] == k && !MonitorOmitEmpty[2];
      } else if k == "description" {
        assert MonitorKeys[3] == k && !MonitorOmitEmpty[3];
      } else if k == "interval" {
        assert MonitorKeys[8] == k && !MonitorOmitEmpty[8];
      } else if k == "retryInterval" {
        assert MonitorKeys[9] == k && !MonitorOmitEmpty[9];
      } else if k == "resendInterval" {
        assert MonitorKeys[10] == k && !MonitorOmitEmpty[10];
      }
    }
  }

  /** The flag and list plain keys, with their positions. */
  lemma PlainKeysTaggedHigh()
    ensures forall k :: k in PlainKeysHigh ==>
      exists j :: 0 <= j < |MonitorKeys| && MonitorKeys[j] == k && !MonitorOmitEmpty[j]
  {
    forall k | k in PlainKeysHigh
      ensures exists j :: 0 <= j < |MonitorKeys| && MonitorKeys[j] == k && !MonitorOmitEmpty[j]
    {
      if k == "maxretries" {
        assert MonitorKeys[11] == k && !MonitorOmitEmpty[11];
      } else if k == "upsideDown" {
        assert MonitorKeys[12] == k && !MonitorOmitEmpty[12];
      } else if k == "notificationIDList" {
        assert MonitorKeys[13] == k && !MonitorOmitEmpty[13];
      } else if k == "expiryNotification" {
        assert MonitorKeys[14] == k && !MonitorOmitEmpty[14];
      } else if k == "ignoreTls" {
        assert MonitorKeys[15] == k && !MonitorOmitEmpty[15];
      }
    }
  }

  /** Each plain key is the key of a field without omitempty. */
  lemma PlainKeysTagged()
    ensures forall k :: k in PlainKeys ==>
      exists j :: 0 <= j < |MonitorKeys| && MonitorKeys[j] == k && !MonitorOmitEmpty[j]
  {
    PlainKeysTaggedLow();
    PlainKeysTaggedHigh();
  }
}

/** The monitor operations of internal/client/monitor.go: the Monitor
    struct's JSON keys, and the fixed request each wrapper issues. */
module Monitors {
  import opened Results
  import opened Json
  import opened Decimal
  import opened Http
  import opened Auth
  import opened Engine
  import opened MonitorTags

  /** A monitor as the client exchanges it. The two `[]interface{}` fields
      hold arbitrary values, which is how a monitor can fail to marshal. */
  datatype Monitor = Monitor(
    id: int,
    monitorType: string,
    name: string,
    description: string,
    url: string,
    httpMethod: string,
    hostname: string,
    port: int,
    interval: int,
    retryInterval: int,
    resendInterval: int,
    maxRetries: int,
    upsideDown: bool,
    notificationIDList: seq<Value>,
    expiryNotification: bool,
    ignoreTLS: bool,
    maxRedirects: int,
    acceptedStatusCodes: seq<Value>,
    proxyID: int,
    body: string,
    headers: string,
    authMethod: string,
    basicAuthUser: string,
    basicAuthPass: string,
    authDomain: string,
    authWorkstation: string,
    keyword: string,
    dnsResolveServer: string,
    dnsResolveType: string,
    dockerContainer: string,
    dockerHost: int)

  /** The monitor's field values in struct order, as json.Marshal reads them. */
  function MonitorFieldValues(m: Monitor): (vs: seq<Value>)
    ensures |vs| == |MonitorKeys|
  {
    [
      VInt(m.id),
      VString(m.monitorType),
      VString(m.name),
      VString(m.description),
      VString(m.url),
      VString(m.httpMethod),
      VString(m.hostname),
      VInt(m.port),
      VInt(m.interval),
      VInt(m.retryInterval),
      VInt(m.resendInterval),
      VInt(m.maxRetries),
      VBool(m.upsideDown),
      VList(m.notificationIDList),
      VBool(m.expiryNotification),
      VBool(m.ignoreTLS),
      VInt(m.maxRedirects),
      VList(m.acceptedStatusCodes),
      VInt(m.proxyID),
      VString(m.body),
      VString(m.headers),
      VString(m.authMethod),
      VString(m.basicAuthUser),
      VString(m.basicAuthPass),
      VString(m.authDomain),
      VString(m.authWorkstation),
      VString(m.keyword),
      VString(m.dnsResolveServer),
      VString(m.dnsResolveType),
      VString(m.dockerContainer),
      VInt(m.dockerHost)]
  }

  /** The Monitor struct as json.Marshal sees it: each value under its tag. */
  function MonitorValue(m: Monitor): Value {
    TaggedStruct(MonitorKeys, MonitorOmitEmpty, MonitorFieldValues(m))
  }

  /** Every element of the list marshals. */
  predicate AllEncodable(items: seq<Value>) {
    forall i :: 0 <= i < |items| ==> Encodable(items[i])
  }

  /** Apart from the two lists, every field holds a scalar, which always marshals. */
  lemma ScalarFields(m: Monitor)
    ensures forall i :: 0 <= i < |MonitorKeys| && i != 13 && i != 17 ==> Encodable(MonitorFieldValues(m)[i])
  {
  }

  /** A monitor marshals exactly when both of its free-form lists do. */
  lemma MonitorEncodableIff(m: Monitor)
    ensures Encodable(MonitorValue(m)) <==> AllEncodable(m.notificationIDList) && AllEncodable(m.acceptedStatusCodes)
  {
    var vs := MonitorFieldValues(m);
    ScalarFields(m);
    TaggedEncodableExcept(MonitorKeys, MonitorOmitEmpty, vs, 13, 17);
    MarshalSucceedsIff(MonitorValue(m));
    assert vs[13] == VList(m.notificationIDList) && !MonitorOmitEmpty[13];
    assert vs[17] == VList(m.acceptedStatusCodes) && MonitorOmitEmpty[17];
  }

  /** The key of field `j` is written exactly when its value survives the
      field's omitempty rule. */
  lemma FieldKeyPresence(m: Monitor, j: int)
    requires Encodable(MonitorValue(m))
    requires 0 <= j < |MonitorKeys|
    ensures Marshal(MonitorValue(m)).Some?
    ensures ObjectHasKey(Marshal(MonitorValue(m)).value, MonitorKeys[j]) <==>
      !MonitorOmitEmpty[j] || !IsEmpty(MonitorFieldValues(m)[j])
  {
    MonitorKeysDistinct();
    MarshalSucceedsIff(MonitorValue(m));
    TaggedKeyPresence(MonitorKeys, MonitorOmitEmpty, MonitorFieldValues(m), j);
  }

  /** `type`, `name`, `description`, the intervals, `maxretries`, the flags
      and the notification list are written whatever their values. */
  lemma MonitorAlwaysKeys(m: Monitor)
    requires Encodable(MonitorValue(m))
    ensures Marshal(MonitorValue(m)).Some?
    ensures forall k :: k in PlainKeys ==> ObjectHasKey(Marshal(MonitorValue(m)).value, k)
  {
    MarshalSucceedsIff(MonitorValue(m));
    forall j | 0 <= j < |MonitorKeys| && !MonitorOmitEmpty[j]
      ensures ObjectHasKey(Marshal(MonitorValue(m)).value, MonitorKeys[j])
    {
      TaggedPlainKey(MonitorKeys, MonitorOmitEmpty, MonitorFieldValues(m), j);
    }
    PlainKeysTagged();
  }

  /** Every omitempty key is written exactly when its value is non-empty. */
  lemma MonitorOptionalKeys(m: Monitor)
    requires Encodable(MonitorValue(m))
    ensures Marshal(MonitorValue(m)).Some?
    ensures forall j :: 0 <= j < |MonitorKeys| && MonitorOmitEmpty[j] ==>
      (ObjectHasKey(Marshal(MonitorValue(m)).value, MonitorKeys[j]) <==> !IsEmpty(MonitorFieldValues(m)[j]))
  {
    MarshalSucceedsIff(MonitorValue(m));
    forall j | 0 <= j < |MonitorKeys| && MonitorOmitEmpty[j]
      ensures ObjectHasKey(Marshal(MonitorValue(m)).value, MonitorKeys[j]) <==> !IsEmpty(MonitorFieldValues(m)[j])
    {
      FieldKeyPresence(m, j);
    }
  }

  /** The encoded monitor carries no key outside the struct's tags. */
  lemma MonitorKeysOnly(m: Monitor)
    requires Encodable(MonitorValue(m))
    ensures Marshal(MonitorValue(m)).Some?
    ensures forall k :: ObjectHasKey(Marshal(MonitorValue(m)).value, k) ==> k in MonitorKeys
  {
    MarshalSucceedsIff(MonitorValue(m));
    forall k | ObjectHasKey(Marshal(MonitorValue(m)).value, k) ensures k in MonitorKeys {
      TaggedKeysOnly(MonitorKeys, MonitorOmitEmpty, MonitorFieldValues(m), k);
    }
  }

  /** `id` is written exactly when it is non-zero. */
  lemma MonitorIdKey(m: Monitor)
    requires Encodable(MonitorValue(m))
    ensures Marshal(MonitorValue(m)).Some?
    ensures ObjectHasKey(Marshal(MonitorValue(m)).value, "id") <==> m.id != 0
  {
    FieldKeyPresence(m, 0);
  }

  /** `type` is always written. */
  lemma MonitorTypeKey(m: Monitor)
    requires Encodable(MonitorValue(m))
    ensures Marshal(MonitorValue(m)).Some?
    ensures ObjectHasKey(Marshal(MonitorValue(m)).value, "type")
  {
    MarshalSucceedsIff(MonitorValue(m));
    TaggedPlainKey(MonitorKeys, MonitorOmitEmpty, MonitorFieldValues(m), 1);
  }

  /** `url` is written exactly when it is non-empty. */
  lemma MonitorUrlKey(m: Monitor)
    requires Encodable(MonitorValue(m))
    ensures Marshal(MonitorValue(m)).Some?
    ensures ObjectHasKey(Marshal(MonitorValue(m)).value, "url") <==> m.url != ""
  {
    FieldKeyPresence(m, 4);
  }

  /** `method` is written exactly when it is non-empty. */
  lemma MonitorMethodKey(m: Monitor)
    requires Encodable(MonitorValue(m))
    ensures Marshal(MonitorValue(m)).Some?
    ensures ObjectHasKey(Marshal(MonitorValue(m)).value, "method") <==> m.httpMethod != ""
  {
    FieldKeyPresence(m, 5);
  }

  /** `hostname` is written exactly when it is non-empty. */
  lemma MonitorHostnameKey(m: Monitor)
    requires Encodable(MonitorValue(m))
    ensures Marshal(MonitorValue(m)).Some?
    ensures ObjectHasKey(Marshal(MonitorValue(m)).value, "hostname") <==> m.hostname != ""
  {
    FieldKeyPresence(m, 6);
  }

  /** `port` is written exactly when it is non-zero. */
  lemma MonitorPortKey(m: Monitor)
    requires Encodable(MonitorValue(m))
    ensures Marshal(MonitorValue(m)).Some?
    ensures ObjectHasKey(Marshal(MonitorValue(m)).value, "port") <==> m.port != 0
  {
    FieldKeyPresence(m, 7);
  }

  // ---------------------------------------------------------------------------
  // Requests

  /** The error contexts the wrappers prefix their errors with. */
  datatype Op =
    | GetMonitorsOp
    | GetMonitorOp(id: int)
    | CreateMonitorOp
    | UpdateMonitorOp(id: int)
    | DeleteMonitorOp(id: int)
    | PauseMonitorOp(id: int)
    | ResumeMonitorOp(id: int)
    | GetMonitorBeatsOp(id: int)
    | AddMonitorTagOp(monitorID: int, tagID: int)
    | DeleteMonitorTagOp(monitorID: int, tagID: int)

  /** `/monitors/%d` followed by `suffix`: the id routes back out of it. */
  function MonitorPath(id: int, suffix: string): (p: string)
    ensures IdBetween("/monitors/", p, suffix) == Some(id)
  {
    IdBetweenFormat("/monitors/", id, suffix);
    "/monitors/" + FormatInt(id) + suffix
  }

  /** GetMonitors: GET /monitors into a monitor list. */
  function GetMonitors(): (p: Plan<Op>)
    ensures p.op == GetMonitorsOp && p.call.Some?
    ensures p.call.value.verb == GET && p.call.value.path == "/monitors"
    ensures p.call.value.body.None? && p.call.value.hasSink
  {
    Plan(GetMonitorsOp, Some(Get("/monitors", true)))
  }

  /** GetMonitor: GET /monitors/{id} into a monitor. */
  function GetMonitor(id: int): (p: Plan<Op>)
    ensures p.op == GetMonitorOp(id) && p.call.Some?
    ensures p.call.value.verb == GET && IdBetween("/monitors/", p.call.value.path, "") == Some(id)
    ensures p.call.value.body.None? && p.call.value.hasSink
  {
    Plan(GetMonitorOp(id), Some(Get(MonitorPath(id, ""), true)))
  }

  /** CreateMonitor: marshal first (a failure sends nothing), then POST a
      reader over the encoded bytes to /monitors. */
  function CreateMonitor(m: Monitor): (p: Plan<Op>)
    ensures p.op == CreateMonitorOp
    ensures p.call.Some? <==> AllEncodable(m.notificationIDList) && AllEncodable(m.acceptedStatusCodes)
    ensures p.call.Some? ==>
      && p.call.value.verb == POST && p.call.value.path == "/monitors" && p.call.value.hasSink
      && Marshal(MonitorValue(m)).Some?
      && p.call.value.body == Some(VReader(Marshal(MonitorValue(m)).value))
  {
    MonitorEncodableIff(m);
    MarshalSucceedsIff(MonitorValue(m));
    match Marshal(MonitorValue(m))
    case None => Plan(CreateMonitorOp, None)
    case Some(doc) => Plan(CreateMonitorOp, Some(Post("/monitors", Some(VReader(doc)), true)))
  }

  /** UpdateMonitor: marshal first, then PATCH a reader over the encoded
      bytes to /monitors/{id}. */
  function UpdateMonitor(id: int, m: Monitor): (p: Plan<Op>)
    ensures p.op == UpdateMonitorOp(id)
    ensures p.call.Some? <==> AllEncodable(m.notificationIDList) && AllEncodable(m.acceptedStatusCodes)
    ensures p.call.Some? ==>
      && p.call.value.verb == PATCH && IdBetween("/monitors/", p.call.value.path, "") == Some(id)
      && p.call.value.hasSink
      && Marshal(MonitorValue(m)).Some?
      && p.call.value.body == Some(VReader(Marshal(MonitorValue(m)).value))
  {
    MonitorEncodableIff(m);
    MarshalSucceedsIff(MonitorValue(m));
    match Marshal(MonitorValue(m))
    case None => Plan(UpdateMonitorOp(id), None)
    case Some(doc) => Plan(UpdateMonitorOp(id), Some(Patch(MonitorPath(id, ""), Some(VReader(doc)), true)))
  }

  /** DeleteMonitor: DELETE /monitors/{id}, no result sink. */
  function DeleteMonitor(id: int): (p: Plan<Op>)
    ensures p.op == DeleteMonitorOp(id) && p.call.Some?
    ensures p.call.value.verb == DELETE && IdBetween("/monitors/", p.call.value.path, "") == Some(id)
    ensures p.call.value.body.None? && !p.call.value.hasSink
  {
    Plan(DeleteMonitorOp(id), Some(Delete(MonitorPath(id, ""), false)))
  }

  /** PauseMonitor: POST /monitors/{id}/pause with neither body nor sink. */
  function PauseMonitor(id: int): (p: Plan<Op>)
    ensures p.op == PauseMonitorOp(id) && p.call.Some?
    ensures p.call.value.verb == POST && IdBetween("/monitors/", p.call.value.path, "/pause") == Some(id)
    ensures p.call.value.body.None? && !p.call.value.hasSink
  {
    Plan(PauseMonitorOp(id), Some(Post(MonitorPath(id, "/pause"), None, false)))
  }

  /** ResumeMonitor: POST /monitors/{id}/resume with neither body nor sink. */
  function ResumeMonitor(id: int): (p: Plan<Op>)
    ensures p.op == ResumeMonitorOp(id) && p.call.Some?
    ensures p.call.value.verb == POST && IdBetween("/monitors/", p.call.value.path, "/resume") == Some(id)
    ensures p.call.value.body.None? && !p.call.value.hasSink
  {
    Plan(ResumeMonitorOp(id), Some(Post(MonitorPath(id, "/resume"), None, false)))
  }

  /** GetMonitorBeats: GET /monitors/{id}/beats?hours=H into an arbitrary
      JSON value, where `hours` is the text the float formatter produced. */
  function GetMonitorBeats(id: int, hours: string): (p: Plan<Op>)
    ensures p.op == GetMonitorBeatsOp(id) && p.call.Some?
    ensures p.call.value.verb == GET
    ensures IdBetween("/monitors/", p.call.value.path, "/beats?hours=" + hours) == Some(id)
    ensures p.call.value.body.None? && p.call.value.hasSink
  {
    Plan(GetMonitorBeatsOp(id), Some(Get(MonitorPath(id, "/beats?hours=" + hours), true)))
  }

  /** The anonymous struct AddMonitorTag marshals: `tag_id` always, `value`
      only when non-empty. */
  function MonitorTagValue(tagID: int, value: string): Value {
    VStruct([
      Field("tag_id", VInt(tagID), false),
      Field("value", VString(value), true)])
  }

  /** AddMonitorTag: POST a reader over `{tag_id, value}` to
      /monitors/{id}/tag, no result sink. The payload always marshals. */
  function AddMonitorTag(monitorID: int, tagID: int, value: string): (p: Plan<Op>)
    ensures p.op == AddMonitorTagOp(monitorID, tagID) && p.call.Some?
    ensures p.call.value.verb == POST && IdBetween("/monitors/", p.call.value.path, "/tag") == Some(monitorID)
    ensures !p.call.value.hasSink
    ensures Marshal(MonitorTagValue(tagID, value)).Some?
    ensures p.call.value.body == Some(VReader(Marshal(MonitorTagValue(tagID, value)).value))
  {
    MarshalSucceedsIff(MonitorTagValue(tagID, value));
    var doc := Marshal(MonitorTagValue(tagID, value)).value;
    Plan(AddMonitorTagOp(monitorID, tagID), Some(Post(MonitorPath(monitorID, "/tag"), Some(VReader(doc)), false)))
  }

  /** The tag link document carries `tag_id`, and `value` exactly when it is non-empty. */
  lemma MonitorTagKeys(tagID: int, value: string)
    ensures Marshal(MonitorTagValue(tagID, value)).Some?
    ensures var doc := Marshal(MonitorTagValue(tagID, value)).value;
      && ObjectHasKey(doc, "tag_id")
      && (ObjectHasKey(doc, "value") <==> value != "")
      && (forall k :: ObjectHasKey(doc, k) ==> k == "tag_id" || k == "value")
  {
    var fs := MonitorTagValue(tagID, value).fields;
    MarshalSucceedsIff(MonitorTagValue(tagID, value));
    forall k | true
      ensures ObjectHasKey(Marshal(MonitorTagValue(tagID, value)).value, k) <==>
        exists j :: 0 <= j < |fs| && fs[j].key == k && Kept(fs[j])
    {
      StructKeyPresence(fs, k);
    }
    assert fs[0].key == "tag_id" && Kept(fs[0]);
    assert fs[1].key == "value";
  }

  /** DeleteMonitorTag as written: the encoded `{tag_id}` reader is handed
      to Delete as its RESULT argument, so the DELETE carries no body and
      its reply must decode into that reader. */
  function DeleteMonitorTag(monitorID: int, tagID: int): (p: Plan<Op>)
    ensures p.op == DeleteMonitorTagOp(monitorID, tagID) && p.call.Some?
    ensures p.call.value.verb == DELETE && IdBetween("/monitors/", p.call.value.path, "/tag") == Some(monitorID)
    ensures p.call.value.body.None? && p.call.value.hasSink
  {
    Plan(DeleteMonitorTagOp(monitorID, tagID), Some(Delete(MonitorPath(monitorID, "/tag"), true)))
  }

  /** The tag link document DeleteMonitorTag builds: `tag_id` only. */
  function TagRefValue(tagID: int): Value {
    VStruct([Field("tag_id", VInt(tagID), false)])
  }

  /** DeleteMonitorTag as evidently intended: the DELETE itself carries
      `{tag_id}` and no result is decoded. */
  function DeleteMonitorTagWithBody(monitorID: int, tagID: int): (p: Plan<Op>)
    ensures p.op == DeleteMonitorTagOp(monitorID, tagID) && p.call.Some?
    ensures p.call.value.verb == DELETE && IdBetween("/monitors/", p.call.value.path, "/tag") == Some(monitorID)
    ensures p.call.value.body == Some(TagRefValue(tagID)) && !p.call.value.hasSink
  {
    Plan(DeleteMonitorTagOp(monitorID, tagID), Some(Call(DELETE, MonitorPath(monitorID, "/tag"), Some(TagRefValue(tagID)), false)))
  }

  // ---------------------------------------------------------------------------
  // Properties of the requests

  /** Monitor routes with the same suffix and different ids differ, and a
      pause never addresses the same path as a resume. */
  lemma MonitorPathsDistinct(a: int, b: int, suffix: string)
    ensures a != b ==> MonitorPath(a, suffix) != MonitorPath(b, suffix)
    ensures PauseMonitor(a).call.value.path != ResumeMonitor(b).call.value.path
  {
    var pause := PauseMonitor(a).call.value.path;
    var resume := ResumeMonitor(b).call.value.path;
    assert pause[|pause| - 2] == 's';
    assert resume[|resume| - 2] == 'm';
  }

  /** As written, CreateMonitor's and UpdateMonitor's request body is `{}`:
      the encoded monitor, which always carries `type` and `name`, never
      reaches the wire. */
  lemma CreateMonitorSendsEmptyObject(id: int, m: Monitor)
    requires AllEncodable(m.notificationIDList) && AllEncodable(m.acceptedStatusCodes)
    ensures CreateMonitor(m).call.Some? && UpdateMonitor(id, m).call.Some?
    ensures EncodeBody(CreateMonitor(m).call.value.body) == Ok(Some(JObject([])))
    ensures EncodeBody(UpdateMonitor(id, m).call.value.body) == Ok(Some(JObject([])))
    ensures ObjectHasKey(Marshal(MonitorValue(m)).value, "type")
    ensures !ObjectHasKey(JObject([]), "type")
  {
    MonitorEncodableIff(m);
    MonitorTypeKey(m);
  }

  /** With the streaming body encoder the monitor's own encoding is sent:
      every plain key, and `id` exactly when it is non-zero. */
  lemma CreateMonitorStreamsMonitor(m: Monitor)
    requires AllEncodable(m.notificationIDList) && AllEncodable(m.acceptedStatusCodes)
    ensures CreateMonitor(m).call.Some?
    ensures var sent := EncodeBodyStreaming(CreateMonitor(m).call.value.body);
      && sent == Ok(Some(Marshal(MonitorValue(m)).value))
      && (forall k :: k in PlainKeys ==> ObjectHasKey(sent.value.value, k))
      && (ObjectHasKey(sent.value.value, "id") <==> m.id != 0)
  {
    MonitorEncodableIff(m);
    MonitorAlwaysKeys(m);
    MonitorIdKey(m);
  }

  /** As written, AddMonitorTag's request body is `{}` too, so the server
      never learns which tag to attach; streaming would send `tag_id`. */
  lemma AddMonitorTagSendsEmptyObject(monitorID: int, tagID: int, value: string)
    ensures EncodeBody(AddMonitorTag(monitorID, tagID, value).call.value.body) == Ok(Some(JObject([])))
    ensures var sent := EncodeBodyStreaming(AddMonitorTag(monitorID, tagID, value).call.value.body);
      sent.Ok? && sent.value.Some? && ObjectHasKey(sent.value.value, "tag_id")
  {
    MonitorTagKeys(tagID, value);
  }

  /** As written, DeleteMonitorTag's request does not depend on the tag at
      all: two different tags produce the same DELETE, which carries neither
      body nor Content-Type, and which succeeds only if the reply decodes. */
  lemma DeleteMonitorTagIgnoresTag<T>(c: Client, s: TokenState, clock: Clock, login: LoginOutcome,
                                      monitorID: int, a: int, b: int, reply: Reply<T>)
    ensures DeleteMonitorTag(monitorID, a).call == DeleteMonitorTag(monitorID, b).call
    ensures var r := Execute(c, s, clock, login, DeleteMonitorTag(monitorID, a).call.value, reply);
      && (r.sent.Some? ==> r.sent.value.request.body.None? && ContentTypeHeader !in r.sent.value.request.headers)
      && (r.result.Ok? ==> reply.Reply? && reply.decoded.Ok?)
  {
  }

  /** With the body attached, the DELETE carries exactly `{"tag_id": tagID}`
      under a JSON Content-Type, and no reply decoding is needed. */
  lemma DeleteMonitorTagWithBodySendsTag<T>(c: Client, s: TokenState, clock: Clock, login: LoginOutcome,
                                            monitorID: int, tagID: int, reply: Reply<T>)
    ensures var r := Execute(c, s, clock, login, DeleteMonitorTagWithBody(monitorID, tagID).call.value, reply);
      && (r.sent.Some? ==>
            && r.sent.value.request.body == Some(JObject([Member("tag_id", JNumber(tagID))]))
            && ContentTypeHeader in r.sent.value.request.headers)
      && (r.result.Ok? ==> r.result.value.None?)
      && (reply.Reply? && Is2xx(reply.status) && r.sent.Some? ==> r.result.Ok?)
  {
    var call := DeleteMonitorTagWithBody(monitorID, tagID).call.value;
    var fs := TagRefValue(tagID).fields;
    assert fs[1..] == [];
    assert MarshalFields(fs[1..]) == Some([]);
    assert Kept(fs[0]) && Marshal(fs[0].value) == Some(JNumber(tagID));
    assert MarshalFields(fs) == Some([Member("tag_id", JNumber(tagID))] + []);
    assert [Member("tag_id", JNumber(tagID))] + [] == [Member("tag_id", JNumber(tagID))];
    assert Marshal(TagRefValue(tagID)) == Some(JObject([Member("tag_id", JNumber(tagID))]));
  }
}
