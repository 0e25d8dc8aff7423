/** What encoding/json's Marshal does with the values the client hands it:
    which keys a struct's tags keep (`omitempty`), which values it refuses,
    and how a reader object is encoded. Number formatting, escaping and byte
    layout are not modelled: a document is a tree. */
module Json {
  import opened Results

  /** A JSON document as written on the wire. Object members keep the order
      of the struct fields they come from. */
  datatype Json =
    | JNull
    | JBool(b: bool)
    | JNumber(n: int)
    | JString(s: string)
    | JArray(items: seq<Json>)
    | JObject(members: seq<Member>)

  datatype Member = Member(key: string, value: Json)

  /** A Go value passed to json.Marshal, at the granularity the client uses. */
  datatype Value =
    | VNil                        // nil pointer, nil interface element
    | VBool(b: bool)
    | VInt(n: int)
    | VString(s: string)
    | VList(items: seq<Value>)    // a slice
    | VStruct(fields: seq<Field>) // a struct: its exported fields with their tags, in declaration order
    | VReader(doc: Json)          // a *bytes.Reader over an already-encoded document: no exported fields
    | VUnsupported                // a value Marshal rejects (channel, function, NaN)

  /** One exported struct field with its `json:"key[,omitempty]"` tag. */
  datatype Field = Field(key: string, value: Value, omitEmpty: bool)

  /** encoding/json's notion of an empty value, which `omitempty` drops:
      false, 0, "", an empty slice and nil. Structs and pointers are never empty. */
  predicate IsEmpty(v: Value) {
    match v
    case VNil => true
    case VBool(b) => !b
    case VInt(n) => n == 0
    case VString(s) => |s| == 0
    case VList(items) => |items| == 0
    case _ => false
  }

  /** A field reaches the output unless it is tagged omitempty and holds an empty value. */
  predicate Kept(f: Field) {
    !f.omitEmpty || !IsEmpty(f.value)
  }

  /** Reference description of when Marshal succeeds: no unsupported value
      sits anywhere it would be written. */
  predicate Encodable(v: Value)
    decreases v
  {
    match v
    case VList(items) => forall i :: 0 <= i < |items| ==> Encodable(items[i])
    case VStruct(fields) => forall i :: 0 <= i < |fields| ==> Kept(fields[i]) ==> Encodable(fields[i].value)
    case VUnsupported => false
    case _ => true
  }

  /** json.Marshal: the document, or None when Marshal returns an error. */
  function Marshal(v: Value): Option<Json>
    decreases v
  {
    match v
    case VNil => Some(JNull)
    case VBool(b) => Some(JBool(b))
    case VInt(n) => Some(JNumber(n))
    case VString(s) => Some(JString(s))
    case VList(items) =>
      var r := MarshalList(items);
      if r.None? then None else Some(JArray(r.value))
    case VStruct(fields) =>
      var r := MarshalFields(fields);
      if r.None? then None else Some(JObject(r.value))
    case VReader(_) => Some(JObject([]))
    case VUnsupported => None
  }

  function MarshalList(items: seq<Value>): Option<seq<Json>>
    decreases items
  {
    if |items| == 0 then Some([])
    else
      var h := Marshal(items[0]);
      var t := MarshalList(items[1..]);
      if h.None? || t.None? then None else Some([h.value] + t.value)
  }

  function MarshalFields(fields: seq<Field>): Option<seq<Member>>
    decreases fields
  {
    if |fields| == 0 then Some([])
    else if !Kept(fields[0]) then MarshalFields(fields[1..])
    else
      var h := Marshal(fields[0].value);
      var t := MarshalFields(fields[1..]);
      if h.None? || t.None? then None else Some([Member(fields[0].key, h.value)] + t.value)
  }

  predicate HasKey(members: seq<Member>, k: string) {
    exists i :: 0 <= i < |members| && members[i].key == k
  }

  /** The document is an object with a member named `k`. */
  predicate ObjectHasKey(doc: Json, k: string) {
    doc.JObject? && HasKey(doc.members, k)
  }

  /** Marshal fails exactly on the values the reference description rules out. */
  lemma {:induction false} MarshalSucceedsIff(v: Value)
    ensures Marshal(v).Some? <==> Encodable(v)
    decreases v
  {
    match v
    case VList(items) => MarshalListSucceedsIff(items);
    case VStruct(fields) => MarshalFieldsSucceedsIff(fields);
    case _ =>
  }

  lemma {:induction false} MarshalListSucceedsIff(items: seq<Value>)
    ensures MarshalList(items).Some? <==> forall i :: 0 <= i < |items| ==> Encodable(items[i])
    decreases items
  {
    if |items| > 0 {
      MarshalSucceedsIff(items[0]);
      MarshalListSucceedsIff(items[1..]);
      if forall i :: 0 <= i < |items[1..]| ==> Encodable(items[1..][i]) {
        forall i | 0 < i < |items| ensures Encodable(items[i]) {
          assert items[i] == items[1..][i - 1];
        }
      }
    }
  }

  lemma {:induction false} MarshalFieldsSucceedsIff(fields: seq<Field>)
    ensures MarshalFields(fields).Some? <==>
      forall i :: 0 <= i < |fields| ==> Kept(fields[i]) ==> Encodable(fields[i].value)
    decreases fields
  {
    if |fields| > 0 {
      MarshalSucceedsIff(fields[0].value);
      MarshalFieldsSucceedsIff(fields[1..]);
      var rest := fields[1..];
      if forall i :: 0 <= i < |rest| ==> Kept(rest[i]) ==> Encodable(rest[i].value) {
        forall i | 0 < i < |fields| && Kept(fields[i]) ensures Encodable(fields[i].value) {
          assert fields[i] == rest[i - 1];
        }
      }
    }
  }

  /** A struct's encoding carries key `k` exactly when some field tagged `k`
      survives omitempty. */
  lemma {:induction false} KeyPresence(fields: seq<Field>, k: string)
    requires MarshalFields(fields).Some?
    ensures HasKey(MarshalFields(fields).value, k) <==>
      exists j :: 0 <= j < |fields| && fields[j].key == k && Kept(fields[j])
    decreases fields
  {
    if |fields| > 0 {
      var rest := fields[1..];
      KeyPresence(rest, k);
      var ms := MarshalFields(fields).value;
      if HasKey(ms, k) {
        var i :| 0 <= i < |ms| && ms[i].key == k;
        if Kept(fields[0]) && i == 0 {
        } else if Kept(fields[0]) {
          assert MarshalFields(rest).value[i - 1].key == k;
          var j :| 0 <= j < |rest| && rest[j].key == k && Kept(rest[j]);
          assert fields[j + 1] == rest[j];
        } else {
          var j :| 0 <= j < |rest| && rest[j].key == k && Kept(rest[j]);
          assert fields[j + 1] == rest[j];
        }
      }
      if exists j :: 0 <= j < |fields| && fields[j].key == k && Kept(fields[j]) {
        var j :| 0 <= j < |fields| && fields[j].key == k && Kept(fields[j]);
        if j == 0 {
          assert ms[0].key == k;
        } else {
          assert rest[j - 1] == fields[j];
          var t := MarshalFields(rest).value;
          var i :| 0 <= i < |t| && t[i].key == k;
          if Kept(fields[0]) { assert ms[i + 1] == t[i]; } else { assert ms[i] == t[i]; }
        }
      }
    }
  }

  /** Key presence for a whole struct value, in the form the resource models use. */
  lemma StructKeyPresence(fields: seq<Field>, k: string)
    requires Marshal(VStruct(fields)).Some?
    ensures ObjectHasKey(Marshal(VStruct(fields)).value, k) <==>
      exists j :: 0 <= j < |fields| && fields[j].key == k && Kept(fields[j])
  {
    KeyPresence(fields, k);
  }

  // ---------------------------------------------------------------------------
  // Structs described by their tag lists

  /** A struct given as its tag keys, its omitempty flags and its field
      values, all in declaration order. */
  function TaggedStruct(keys: seq<string>, omits: seq<bool>, vs: seq<Value>): (v: Value)
    requires |keys| == |omits| == |vs|
    ensures v.VStruct? && |v.fields| == |keys|
    ensures forall i :: 0 <= i < |keys| ==> v.fields[i] == Field(keys[i], vs[i], omits[i])
  {
    VStruct(seq(|keys|, i requires 0 <= i < |keys| => Field(keys[i], vs[i], omits[i])))
  }

  /** No other tag in the list carries the key at position `j`. */
  predicate UniqueKeyAt(keys: seq<string>, j: int)
    requires 0 <= j < |keys|
  {
    forall i :: 0 <= i < |keys| && i != j ==> keys[i] != keys[j]
  }

  /** A tagged struct marshals exactly when every value it writes does. */
  lemma TaggedEncodable(keys: seq<string>, omits: seq<bool>, vs: seq<Value>)
    requires |keys| == |omits| == |vs|
    ensures Marshal(TaggedStruct(keys, omits, vs)).Some? <==>
      forall i :: 0 <= i < |vs| && (!omits[i] || !IsEmpty(vs[i])) ==> Encodable(vs[i])
  {
    var v := TaggedStruct(keys, omits, vs);
    MarshalSucceedsIff(v);
    assert forall i :: 0 <= i < |vs| ==> (Kept(v.fields[i]) <==> !omits[i] || !IsEmpty(vs[i]));
  }

  /** When every value but those at `a` and `b` is known to marshal, the
      struct marshals exactly when those two do, wherever they are written. */
  lemma TaggedEncodableExcept(keys: seq<string>, omits: seq<bool>, vs: seq<Value>, a: int, b: int)
    requires |keys| == |omits| == |vs|
    requires 0 <= a < |vs| && 0 <= b < |vs|
    requires forall i :: 0 <= i < |vs| && i != a && i != b ==> Encodable(vs[i])
    ensures Marshal(TaggedStruct(keys, omits, vs)).Some? <==>
      ((!omits[a] || !IsEmpty(vs[a])) ==> Encodable(vs[a])) &&
      ((!omits[b] || !IsEmpty(vs[b])) ==> Encodable(vs[b]))
  {
    TaggedEncodable(keys, omits, vs);
  }

  /** The key at a position no other tag shares is written exactly when the
      field survives its omitempty rule. */
  lemma TaggedKeyPresence(keys: seq<string>, omits: seq<bool>, vs: seq<Value>, j: int)
    requires |keys| == |omits| == |vs|
    requires Marshal(TaggedStruct(keys, omits, vs)).Some?
    requires 0 <= j < |keys| && UniqueKeyAt(keys, j)
    ensures ObjectHasKey(Marshal(TaggedStruct(keys, omits, vs)).value, keys[j]) <==> !omits[j] || !IsEmpty(vs[j])
  {
    var v := TaggedStruct(keys, omits, vs);
    StructKeyPresence(v.fields, keys[j]);
    assert v.fields[j] == Field(keys[j], vs[j], omits[j]);
  }

  /** A field without omitempty always has its key written. */
  lemma TaggedPlainKey(keys: seq<string>, omits: seq<bool>, vs: seq<Value>, j: int)
    requires |keys| == |omits| == |vs|
    requires Marshal(TaggedStruct(keys, omits, vs)).Some?
    requires 0 <= j < |keys| && !omits[j]
    ensures ObjectHasKey(Marshal(TaggedStruct(keys, omits, vs)).value, keys[j])
  {
    var v := TaggedStruct(keys, omits, vs);
    StructKeyPresence(v.fields, keys[j]);
    assert v.fields[j].key == keys[j] && Kept(v.fields[j]);
  }

  /** A tagged struct's encoding carries no key outside its tags. */
  lemma TaggedKeysOnly(keys: seq<string>, omits: seq<bool>, vs: seq<Value>, k: string)
    requires |keys| == |omits| == |vs|
    requires Marshal(TaggedStruct(keys, omits, vs)).Some?
    ensures ObjectHasKey(Marshal(TaggedStruct(keys, omits, vs)).value, k) ==> k in keys
  {
    var v := TaggedStruct(keys, omits, vs);
    StructKeyPresence(v.fields, k);
    if ObjectHasKey(Marshal(v).value, k) {
      var j :| 0 <= j < |v.fields| && v.fields[j].key == k && Kept(v.fields[j]);
      assert keys[j] == k;
    }
  }
}
