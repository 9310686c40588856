/**
 Messages and features (proto/message.go, proto/capability.go), and the validation
 every feature name passes before it can become a routing key.
 */
module Proto {
  import opened Wrappers
  import opened Json

  type Topic = string
  type Id = string

  datatype DataType = DataType(kind: string, range: seq<real>, enumValues: seq<string>)

  datatype Method = Method(inputSchema: map<string, DataType>, outputSchema: map<string, DataType>) {
    predicate IsDefined() {
      |inputSchema| > 0 || |outputSchema| > 0
    }
  }

  datatype Feature = Feature(
    name: string,
    description: string,
    data: Method,
    status: Method,
    command: Method,
    query: Method)

  datatype IdentifyPayload = IdentifyPayload(proposedName: string, firmware: string, features: seq<Feature>)

  datatype AckPayload = AckPayload(assignedId: Id, status: string)

  /** A raw JSON payload together with what decoding it as each payload type yields; None is a decoding error. */
  datatype Payload = Payload(
    raw: string,
    asIdentify: Option<IdentifyPayload>,
    asSubscription: Option<seq<Topic>>,
    asAck: Option<AckPayload>)

  datatype Message = Message(
    kind: string,
    topic: Topic,
    sender: Id,
    recipient: Id,
    correlationId: string,
    payload: Payload)

  /** The JSON of an acknowledgement; fields that another payload type lacks decode to zero values. */
  function EncodeAck(ack: AckPayload): Payload {
    Payload("{\"assigned_id\":" + Quote(ack.assignedId) + ",\"status\":" + Quote(ack.status) + "}",
            Some(IdentifyPayload("", "", [])), Some([]), Some(ack))
  }

  /** The JSON of a subscription payload. */
  function EncodeSubscription(topics: seq<Topic>): Payload {
    Payload(EncodeTopics(topics), Some(IdentifyPayload("", "", [])), Some(topics), Some(AckPayload("", "")))
  }

  /** The text decodes to the topics it was made for, whatever characters they have. */
  lemma SubscriptionDecodes(topics: seq<Topic>)
    ensures DecodeTopics(EncodeSubscription(topics).raw) == EncodeSubscription(topics).asSubscription
  {
    EncodeDecode(topics);
  }

  /** An acknowledgement decodes to what it was made of, and its text is an object with just these two strings. */
  lemma AckDecodes(ack: AckPayload)
    ensures EncodeAck(ack).asAck == Some(ack)
    ensures ParseText(EncodeAck(ack).raw) == Some(Obj([("assigned_id", Str(ack.assignedId)), ("status", Str(ack.status))]))
  {
    hide ParseText, Quote;
    var start := "{\"assigned_id\":" + Quote(ack.assignedId);
    assert "{\"" + "assigned_id" + "\":" == "{\"assigned_id\":" && ",\"" + "status" + "\":" == ",\"status\":";
    assert start + ",\"" + "status" + "\":" == start + (",\"" + "status" + "\":");
    TwoMembers("assigned_id", ack.assignedId, "status", ack.status);
  }

  datatype ValidationError =
    | NameRequired
    | NameHasSlash
    | NameHasChar(c: char)
    | NameTooLong
    | NoMethod
    | InvalidType(path: string)
    | EmptyEnum(path: string)
    | BadRange(path: string)

  const MAX_NAME_BYTES := 64
  const INVALID_CHARS: seq<char> := [' ', '?', '#', '&', '%']
  const DATA_TYPES: set<string> := {"number", "string", "bool", "enum", "object"}

  // ---------- names ----------

  /** Unicode white space, as strings.TrimSpace sees it. */
  predicate IsSpace(c: char) {
    var code := c as int;
    || 9 <= code <= 13 || code == 0x20 || code == 0x85 || code == 0xA0
    || code == 0x1680 || 0x2000 <= code <= 0x200A || code == 0x2028 || code == 0x2029
    || code == 0x202F || code == 0x205F || code == 0x3000
  }

  function TrimLeft(s: string): string {
    if s != "" && IsSpace(s[0]) then TrimLeft(s[1..]) else s
  }

  function TrimRight(s: string): string {
    if s != "" && IsSpace(s[|s| - 1]) then TrimRight(s[..|s| - 1]) else s
  }

  function TrimSpace(s: string): string {
    TrimRight(TrimLeft(s))
  }

  function Utf8Width(c: char): nat {
    var code := c as int;
    if code < 0x80 then 1 else if code < 0x800 then 2 else if code < 0x1_0000 then 3 else 4
  }

  /** The length of a Go string is its number of UTF-8 bytes. */
  function ByteLength(s: string): nat {
    if s == "" then 0 else Utf8Width(s[0]) + ByteLength(s[1..])
  }

  predicate HasInk(name: string) {
    exists i :: 0 <= i < |name| && !IsSpace(name[i])
  }

  /** What a routing key looks like: non-blank, at most 64 bytes, none of the characters that break URLs. */
  predicate GoodName(name: string) {
    && HasInk(name)
    && '/' !in name
    && (forall c :: c in INVALID_CHARS ==> c !in name)
    && ByteLength(name) <= MAX_NAME_BYTES
  }

  lemma {:induction false} TrimLeftKeepsInk(s: string)
    ensures (exists c :: c in s && !IsSpace(c)) <==> (exists c :: c in TrimLeft(s) && !IsSpace(c))
    ensures TrimLeft(s) == "" || !IsSpace(TrimLeft(s)[0])
  {
    if s != "" && IsSpace(s[0]) {
      TrimLeftKeepsInk(s[1..]);
      assert forall c :: c in s ==> c == s[0] || c in s[1..];
    }
  }

  lemma {:induction false} TrimRightStopsAtInk(s: string)
    ensures TrimRight(s) == "" <==> forall c :: c in s ==> IsSpace(c)
  {
    if s != "" && IsSpace(s[|s| - 1]) {
      TrimRightStopsAtInk(s[..|s| - 1]);
      assert forall c :: c in s ==> c == s[|s| - 1] || c in s[..|s| - 1];
    } else if s != "" {
      assert s[|s| - 1] in s;
    }
  }

  /** Trimming leaves nothing exactly when every character is white space. */
  lemma TrimSpaceEmpty(s: string)
    ensures TrimSpace(s) == "" <==> forall i :: 0 <= i < |s| ==> IsSpace(s[i])
  {
    TrimLeftKeepsInk(s);
    TrimRightStopsAtInk(TrimLeft(s));
    assert (forall i :: 0 <= i < |s| ==> IsSpace(s[i])) <==> forall c :: c in s ==> IsSpace(c);
  }

  /** The one error that the checks report for this name: that of the first check that fails. */
  ghost predicate NameError(name: string, e: ValidationError) {
    match e
    case NameRequired => !HasInk(name)
    case NameHasSlash => HasInk(name) && '/' in name
    case NameHasChar(c) =>
      && HasInk(name) && '/' !in name
      && exists i :: 0 <= i < |INVALID_CHARS| && c == INVALID_CHARS[i] && c in name
                     && forall k :: 0 <= k < i ==> INVALID_CHARS[k] !in name
    case NameTooLong =>
      HasInk(name) && '/' !in name && (forall c :: c in INVALID_CHARS ==> c !in name) && ByteLength(name) > MAX_NAME_BYTES
    case _ => false
  }

  /** The name checks of Feature.Validate, in the source's order. */
  method ValidateName(name: string) returns (err: Option<ValidationError>)
    ensures err.None? <==> GoodName(name)
    ensures err.Some? ==> NameError(name, err.value)
  {
    TrimSpaceEmpty(name);
    if TrimSpace(name) == "" {
      return Some(NameRequired);
    }
    if '/' in name {
      return Some(NameHasSlash);
    }
    for i := 0 to |INVALID_CHARS|
      invariant forall k :: 0 <= k < i ==> INVALID_CHARS[k] !in name
    {
      if INVALID_CHARS[i] in name {
        return Some(NameHasChar(INVALID_CHARS[i]));
      }
    }
    if ByteLength(name) > MAX_NAME_BYTES {
      return Some(NameTooLong);
    }
    return None;
  }

  // ---------- schemas ----------

  predicate GoodDataType(dt: DataType) {
    && dt.kind in DATA_TYPES
    && (dt.kind == "enum" ==> dt.enumValues != [])
    && (dt.kind == "number" ==> |dt.range| == 0 || |dt.range| == 2)
  }

  predicate GoodSchema(schema: map<string, DataType>) {
    forall field :: field in schema ==> GoodDataType(schema[field])
  }

  predicate HasMethod(f: Feature) {
    f.data.IsDefined() || f.status.IsDefined() || f.command.IsDefined() || f.query.IsDefined()
  }

  predicate GoodMethod(m: Method) {
    GoodSchema(m.inputSchema) && GoodSchema(m.outputSchema)
  }

  /** The quantified specification of Feature.Validate. */
  predicate ValidFeature(f: Feature) {
    && GoodName(f.name)
    && HasMethod(f)
    && GoodMethod(f.data) && GoodMethod(f.status) && GoodMethod(f.command) && GoodMethod(f.query)
  }

  predicate IsTypeError(e: ValidationError) {
    e.InvalidType? || e.EmptyEnum? || e.BadRange?
  }

  function ValidateDataType(path: string, dt: DataType): (err: Option<ValidationError>)
    ensures err.None? <==> GoodDataType(dt)
    ensures err.Some? ==> IsTypeError(err.value)
    ensures err == Some(EmptyEnum(path)) <==> dt.kind == "enum" && dt.enumValues == []
    ensures err == Some(BadRange(path)) <==> dt.kind == "number" && |dt.range| != 0 && |dt.range| != 2
    ensures err == Some(InvalidType(path)) <==> dt.kind !in ["number", "string", "bool", "enum", "object"]
  {
    if dt.kind !in DATA_TYPES then Some(InvalidType(path))
    else if dt.kind == "enum" && |dt.enumValues| == 0 then Some(EmptyEnum(path))
    else if dt.kind == "number" && |dt.range| > 0 && |dt.range| != 2 then Some(BadRange(path))
    else None
  }

  /** One search loop of Method.Validate: whatever order the map is visited in, the verdict is the same. */
  method ValidateSchema(prefix: string, schema: map<string, DataType>) returns (err: Option<ValidationError>)
    ensures err.None? <==> GoodSchema(schema)
    ensures err.Some? ==> SchemaError(prefix, schema, err) && IsTypeError(err.value)
  {
    var remaining := schema.Keys;
    while remaining != {}
      invariant remaining <= schema.Keys
      invariant forall field :: field in schema && field !in remaining ==> GoodDataType(schema[field])
      decreases remaining
    {
      var field :| field in remaining;
      err := ValidateDataType(prefix + field, schema[field]);
      if err.Some? {
        return;
      }
      remaining := remaining - {field};
    }
    return None;
  }

  /** The error is that of some field of the schema. */
  ghost predicate SchemaError(prefix: string, schema: map<string, DataType>, err: Option<ValidationError>) {
    exists field :: field in schema && err == ValidateDataType(prefix + field, schema[field])
  }

  /** The error is that of some field, an input field if any is bad. */
  ghost predicate MethodError(name: string, m: Method, err: Option<ValidationError>) {
    if !GoodSchema(m.inputSchema) then SchemaError(name + ".input.", m.inputSchema, err)
    else SchemaError(name + ".output.", m.outputSchema, err)
  }

  method ValidateMethod(m: Method, name: string) returns (err: Option<ValidationError>)
    ensures err.None? <==> GoodMethod(m)
    ensures err.Some? ==> MethodError(name, m, err) && IsTypeError(err.value)
  {
    err := ValidateSchema(name + ".input.", m.inputSchema);
    if err.Some? {
      return;
    }
    err := ValidateSchema(name + ".output.", m.outputSchema);
  }

  /** The first check that fails decides which error is reported; one search loop may report any field that fails it. */
  method Validate(f: Feature) returns (err: Option<ValidationError>)
    ensures err.None? <==> ValidFeature(f)
    ensures !GoodName(f.name) ==> err.Some? && NameError(f.name, err.value)
    ensures GoodName(f.name) && !HasMethod(f) <==> err == Some(NoMethod)
    ensures GoodName(f.name) && HasMethod(f) ==>
      && (!GoodMethod(f.data) ==> err.Some? && MethodError("data", f.data, err))
      && (GoodMethod(f.data) && !GoodMethod(f.status) ==> err.Some? && MethodError("status", f.status, err))
      && (GoodMethod(f.data) && GoodMethod(f.status) && !GoodMethod(f.command) ==>
            err.Some? && MethodError("command", f.command, err))
      && (GoodMethod(f.data) && GoodMethod(f.status) && GoodMethod(f.command) && !GoodMethod(f.query) ==>
            err.Some? && MethodError("query", f.query, err))
  {
    hide GoodName, GoodMethod, MethodError;
    err := ValidateName(f.name);
    if err.Some? {
      return;
    }
    if !f.data.IsDefined() && !f.status.IsDefined() && !f.command.IsDefined() && !f.query.IsDefined() {
      return Some(NoMethod);
    }
    err := ValidateMethod(f.data, "data");
    if err.Some? {
      return;
    }
    err := ValidateMethod(f.status, "status");
    if err.Some? {
      return;
    }
    err := ValidateMethod(f.command, "command");
    if err.Some? {
      return;
    }
    err := ValidateMethod(f.query, "query");
  }

  // ---------- the rules, spelled out ----------

  lemma SpacesExactly(c: char)
    ensures IsSpace(c) <==> c as int in {
      0x9, 0xA, 0xB, 0xC, 0xD, 0x20, 0x85, 0xA0, 0x1680, 0x2000, 0x2001, 0x2002, 0x2003, 0x2004, 0x2005, 0x2006, 0x2007,
      0x2008, 0x2009, 0x200A, 0x2028, 0x2029, 0x202F, 0x205F, 0x3000}
  {
  }

  /** Bytes add up; a character takes one byte up to U+007F, two up to U+07FF, three up to U+FFFF and four beyond. */
  lemma {:induction false} BytesAddUp(s: string, t: string)
    ensures ByteLength(s + t) == ByteLength(s) + ByteLength(t)
    ensures |s| <= ByteLength(s) <= 4 * |s|
    ensures (forall i :: 0 <= i < |s| ==> s[i] as int <= 0x7F) ==> ByteLength(s) == |s|
    ensures (forall i :: 0 <= i < |s| ==> 0x80 <= s[i] as int <= 0x7FF) ==> ByteLength(s) == 2 * |s|
    ensures (forall i :: 0 <= i < |s| ==> 0x800 <= s[i] as int <= 0xFFFF) ==> ByteLength(s) == 3 * |s|
    ensures (forall i :: 0 <= i < |s| ==> s[i] as int > 0xFFFF) ==> ByteLength(s) == 4 * |s|
  {
    if s == "" {
      assert s + t == t;
    } else {
      BytesAddUp(s[1..], t);
      assert (s + t)[1..] == s[1..] + t;
    }
  }

  /** A good name: something visible, at most 64 bytes, and no slash, space, question mark, hash, ampersand or percent sign. */
  lemma GoodNameExactly(name: string)
    ensures GoodName(name) <==>
      && (exists i :: 0 <= i < |name| && !IsSpace(name[i]))
      && ByteLength(name) <= 64
      && forall i :: 0 <= i < |name| ==> name[i] !in "/ ?#&%"
  {
    hide ByteLength, IsSpace;
    var bad := "/ ?#&%";
    assert forall k :: 0 <= k < 5 ==> INVALID_CHARS[k] == bad[k + 1];
    assert bad[0] == '/';
    forall c ensures c in bad <==> c == '/' || c in INVALID_CHARS {
      if c in INVALID_CHARS {
        var k :| 0 <= k < 5 && INVALID_CHARS[k] == c;
        assert bad[k + 1] == c;
      }
    }
  }

  /** A valid feature: a good name, at least one method with a schema, and in all its schemas only proper types. */
  lemma ValidFeatureExactly(f: Feature)
    ensures ValidFeature(f) <==>
      && GoodName(f.name)
      && (exists schema :: schema in Schemas(f) && |schema| > 0)
      && forall schema, field :: schema in Schemas(f) && field in schema ==> ProperType(schema[field])
  {
    hide GoodName, ProperType;
    var all := Schemas(f);
    assert all[0] == f.data.inputSchema && all[1] == f.data.outputSchema && all[2] == f.status.inputSchema && all[3] == f.status.outputSchema;
    assert all[4] == f.command.inputSchema && all[5] == f.command.outputSchema && all[6] == f.query.inputSchema && all[7] == f.query.outputSchema;
    forall schema ensures GoodSchema(schema) <==> forall field :: field in schema ==> ProperType(schema[field]) {
      ProperSchemas(schema);
    }
    hide GoodSchema;
    assert HasMethod(f) <==> exists i :: 0 <= i < 8 && |all[i]| > 0;
    assert (forall i :: 0 <= i < 8 ==> GoodSchema(all[i])) <==> forall schema :: schema in all ==> GoodSchema(schema);
  }

  lemma ProperSchemas(schema: map<string, DataType>)
    ensures GoodSchema(schema) <==> forall field :: field in schema ==> ProperType(schema[field])
  {
  }

  function Schemas(f: Feature): seq<map<string, DataType>> {
    [f.data.inputSchema, f.data.outputSchema, f.status.inputSchema, f.status.outputSchema,
     f.command.inputSchema, f.command.outputSchema, f.query.inputSchema, f.query.outputSchema]
  }

  /** One of five kinds; an enum has values, and a number has no range or one with two ends. */
  ghost predicate ProperType(dt: DataType) {
    || dt.kind == "string" || dt.kind == "bool" || dt.kind == "object"
    || (dt.kind == "enum" && |dt.enumValues| >= 1)
    || (dt.kind == "number" && (|dt.range| == 0 || |dt.range| == 2))
  }
}
