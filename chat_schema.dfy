/**
 * The request schema of the chat endpoint (MessagePartSchema, UIMessageSchema and
 * ChatRequestSchema), validated the way zod's `safeParse` does it: every violation
 * becomes an issue with a path and a code, collected in the order the schema lists
 * its keys; a payload without issues is decoded into typed data, unknown keys dropped.
 */
module ChatSchema {
  import opened Base
  import opened JsStrings

  /** A parsed JSON value. */
  datatype Json =
    | JNull
    | JBool(b: bool)
    | JNumber(n: real)
    | JString(s: string)
    | JArray(items: seq<Json>)
    | JObject(fields: map<string, Json>)

  datatype PathSegment = Key(name: string) | Index(i: nat)
  type Path = seq<PathSegment>

  datatype ExpectedType = ObjectType | ArrayType | StringType

  /** zod issue codes, with the constraint metadata the core's callers inspect. */
  datatype IssueCode =
    | InvalidType(expected: ExpectedType)
    | InvalidValue
    | InvalidUnion
    | TooSmall(minimum: nat, inclusive: bool)
    | TooBig(maximum: nat, inclusive: bool)

  datatype Issue = Issue(path: Path, code: IssueCode)

  datatype Role = User | Assistant | System | Tool
  datatype MessagePart = TextPart(text: string) | StepStart | StepEnd
  datatype UIMessage = UIMessage(id: string, role: Role, parts: seq<MessagePart>)
  datatype ChatRequest = ChatRequest(id: Option<string>, messages: seq<UIMessage>, trigger: Option<string>)

  const MinTextLength: nat := 1
  const MaxTextLength: nat := 2000
  const MinMessages: nat := 1

  function Get(v: Json, key: string): Option<Json>
    requires v.JObject?
  {
    if key in v.fields then Some(v.fields[key]) else None
  }

  /** The value at `key` when it is a string. */
  function GetString(v: Json, key: string): Option<string>
    requires v.JObject?
  {
    if key in v.fields && v.fields[key].JString? then Some(v.fields[key].s) else None
  }

  /** The items at `key` when it holds an array. */
  function GetArray(v: Json, key: string): Option<seq<Json>>
    requires v.JObject?
  {
    if key in v.fields && v.fields[key].JArray? then Some(v.fields[key].items) else None
  }

  /** `z.enum(['user', 'assistant', 'system', 'tool'])`: the role a name denotes, if any. */
  function RoleOf(name: string): (r: Option<Role>)
    ensures r.Some? <==> name in {"user", "assistant", "system", "tool"}
  {
    if name == "user" then Some(User)
    else if name == "assistant" then Some(Assistant)
    else if name == "system" then Some(System)
    else if name == "tool" then Some(Tool)
    else None
  }

  function RoleName(r: Role): (name: string)
    ensures RoleOf(name) == Some(r)
  {
    match r
    case User => "user"
    case Assistant => "assistant"
    case System => "system"
    case Tool => "tool"
  }

  /** The role enum and its names are inverse: a role is decoded back to the name it came from. */
  lemma RoleOfName(name: string)
    requires RoleOf(name).Some?
    ensures RoleName(RoleOf(name).value) == name
  {
  }

  // ---------------------------------------------------------------------------
  // The schema as predicates on JSON values

  /** `z.string().min(1).max(2000)`, lengths in UTF-16 code units. */
  predicate TextLengthOk(t: string) {
    MinTextLength <= Utf16Length(t) <= MaxTextLength
  }

  /** An object whose `type` is "text" and whose `text` is a string. */
  predicate IsTextShaped(v: Json) {
    v.JObject? && Get(v, "type") == Some(JString("text")) && GetString(v, "text").Some?
  }

  /** An object whose `type` is "step-start" or "step-end" (no payload required). */
  predicate IsStepShaped(v: Json) {
    v.JObject? && (Get(v, "type") == Some(JString("step-start")) || Get(v, "type") == Some(JString("step-end")))
  }

  /** MessagePartSchema: a bounded text part, or a step marker. */
  predicate ValidPart(v: Json) {
    (IsTextShaped(v) && TextLengthOk(GetString(v, "text").value)) || IsStepShaped(v)
  }

  /** UIMessageSchema: a string id, a role of the enum, and an array of valid parts (possibly empty). */
  predicate ValidMessage(v: Json) {
    && v.JObject?
    && GetString(v, "id").Some?
    && GetString(v, "role").Some? && RoleOf(GetString(v, "role").value).Some?
    && GetArray(v, "parts").Some?
    && forall k :: 0 <= k < |GetArray(v, "parts").value| ==> ValidPart(GetArray(v, "parts").value[k])
  }

  /** An optional string field: absent, or a string. */
  predicate OptionalStringOk(v: Json, key: string)
    requires v.JObject?
  {
    key !in v.fields || v.fields[key].JString?
  }

  /** ChatRequestSchema: optional string id and trigger, and at least one valid message. */
  predicate ValidRequest(v: Json) {
    && v.JObject?
    && OptionalStringOk(v, "id")
    && OptionalStringOk(v, "trigger")
    && GetArray(v, "messages").Some?
    && |GetArray(v, "messages").value| >= MinMessages
    && forall k :: 0 <= k < |GetArray(v, "messages").value| ==> ValidMessage(GetArray(v, "messages").value[k])
  }

  // ---------------------------------------------------------------------------
  // The issues safeParse reports

  /** The checks of `z.string().min(1).max(2000)` on a string at `path`. */
  function TextIssues(t: string, path: Path): (r: seq<Issue>)
    ensures r == [] <==> TextLengthOk(t)
    ensures Utf16Length(t) < MinTextLength ==> Issue(path, TooSmall(MinTextLength, true)) in r
    ensures Utf16Length(t) > MaxTextLength ==> Issue(path, TooBig(MaxTextLength, true)) in r
  {
    var n := Utf16Length(t);
    (if n < MinTextLength then [Issue(path, TooSmall(MinTextLength, true))] else [])
    + (if n > MaxTextLength then [Issue(path, TooBig(MaxTextLength, true))] else [])
  }

  /**
   * The issues of the part union. A text-shaped part that fails a length check reports that
   * check under its `text` key (the only union option that got past its type checks); any
   * other mismatch is one `invalid_union` issue at the part itself.
   */
  function PartIssues(v: Json, path: Path): (r: seq<Issue>)
    ensures r == [] <==> ValidPart(v)
  {
    if ValidPart(v) then []
    else if IsTextShaped(v) then TextIssues(GetString(v, "text").value, path + [Key("text")])
    else [Issue(path, InvalidUnion)]
  }

  /** `z.array(elem)`: the issues of the items from index `from` on, each under its index. */
  function ElementIssues(items: seq<Json>, path: Path, elem: (Json, Path) -> seq<Issue>, from: nat): (r: seq<Issue>)
    requires from <= |items|
    ensures forall issue :: issue in r ==> exists k :: from <= k < |items| && issue in elem(items[k], path + [Index(k)])
    decreases |items| - from
  {
    if from == |items| then [] else elem(items[from], path + [Index(from)]) + ElementIssues(items, path, elem, from + 1)
  }

  lemma {:induction false} ElementIssuesEmpty(items: seq<Json>, path: Path, elem: (Json, Path) -> seq<Issue>, from: nat)
    requires from <= |items|
    ensures ElementIssues(items, path, elem, from) == []
            <==> forall k :: from <= k < |items| ==> elem(items[k], path + [Index(k)]) == []
    decreases |items| - from
  {
    if from < |items| {
      ElementIssuesEmpty(items, path, elem, from + 1);
    }
  }

  lemma {:induction false} ElementIssuesInclude(items: seq<Json>, path: Path, elem: (Json, Path) -> seq<Issue>,
                                                from: nat, k: nat, issue: Issue)
    requires from <= k < |items|
    requires issue in elem(items[k], path + [Index(k)])
    ensures issue in ElementIssues(items, path, elem, from)
    decreases k - from
  {
    var here := elem(items[from], path + [Index(from)]);
    assert ElementIssues(items, path, elem, from) == here + ElementIssues(items, path, elem, from + 1);
    if from < k {
      ElementIssuesInclude(items, path, elem, from + 1, k, issue);
    }
  }

  /** `z.string()` on the field `key`. */
  function StringFieldIssues(v: Json, key: string, path: Path): seq<Issue>
    requires v.JObject?
  {
    if GetString(v, key).Some? then [] else [Issue(path + [Key(key)], InvalidType(StringType))]
  }

  /** `z.string().optional()` on the field `key`. */
  function OptionalStringFieldIssues(v: Json, key: string, path: Path): seq<Issue>
    requires v.JObject?
  {
    if OptionalStringOk(v, key) then [] else [Issue(path + [Key(key)], InvalidType(StringType))]
  }

  /** `z.enum(['user', 'assistant', 'system', 'tool'])` on the field `role`. */
  function RoleFieldIssues(v: Json, path: Path): seq<Issue>
    requires v.JObject?
  {
    if GetString(v, "role").Some? && RoleOf(GetString(v, "role").value).Some? then []
    else [Issue(path + [Key("role")], InvalidValue)]
  }

  /** `z.array(MessagePartSchema)` on the field `parts`. */
  function PartsFieldIssues(v: Json, path: Path): seq<Issue>
    requires v.JObject?
  {
    match GetArray(v, "parts")
    case Some(items) => ElementIssues(items, path + [Key("parts")], PartIssues, 0)
    case None => [Issue(path + [Key("parts")], InvalidType(ArrayType))]
  }

  /** UIMessageSchema's issues, keys in schema order: id, role, parts. */
  function MessageIssues(v: Json, path: Path): (r: seq<Issue>)
    ensures !v.JObject? ==> r == [Issue(path, InvalidType(ObjectType))]
    ensures v.JObject? && GetString(v, "id").None? ==> Issue(path + [Key("id")], InvalidType(StringType)) in r
    ensures v.JObject? && (GetString(v, "role").None? || RoleOf(GetString(v, "role").value).None?)
            ==> Issue(path + [Key("role")], InvalidValue) in r
    ensures v.JObject? && GetArray(v, "parts").None? ==> Issue(path + [Key("parts")], InvalidType(ArrayType)) in r
  {
    if !v.JObject? then [Issue(path, InvalidType(ObjectType))]
    else StringFieldIssues(v, "id", path) + RoleFieldIssues(v, path) + PartsFieldIssues(v, path)
  }

  /**
   * The `length` JavaScript reads off a value that is not an array, when it is a number:
   * a string's UTF-16 length, or an object's numeric `length` field.
   */
  function NonArrayLength(v: Json): Option<real> {
    match v
    case JString(s) => Some(Utf16Length(s) as real)
    case JObject(fields) => if "length" in fields && fields["length"].JNumber? then Some(fields["length"].n) else None
    case _ => None
  }

  /**
   * `z.array(UIMessageSchema).min(1)` on the field `messages`: the items first, then the length
   * check. The length check is guarded only by "the value is present and has a length", so it
   * also runs after the array type check failed: a string or an object whose length is below 1
   * gets too_small after invalid_type.
   */
  function MessagesFieldIssues(v: Json): (r: seq<Issue>)
    requires v.JObject?
    ensures GetArray(v, "messages") == Some([]) ==> r == [Issue([Key("messages")], TooSmall(MinMessages, true))]
    ensures GetArray(v, "messages").None? ==> r != [] && r[0] == Issue([Key("messages")], InvalidType(ArrayType))
    ensures Get(v, "messages") == Some(JString("")) ==> r == [Issue([Key("messages")], InvalidType(ArrayType)),
                                                            Issue([Key("messages")], TooSmall(MinMessages, true))]
    ensures Get(v, "messages") == None ==> r == [Issue([Key("messages")], InvalidType(ArrayType))]
  {
    var tooSmall := [Issue([Key("messages")], TooSmall(MinMessages, true))];
    match GetArray(v, "messages")
    case Some(items) =>
      ElementIssues(items, [Key("messages")], MessageIssues, 0) + (if |items| < MinMessages then tooSmall else [])
    case None =>
      var length := if "messages" in v.fields then NonArrayLength(v.fields["messages"]) else None;
      [Issue([Key("messages")], InvalidType(ArrayType))]
      + (if length.Some? && length.value < MinMessages as real then tooSmall else [])
  }

  /** ChatRequestSchema's issues, keys in schema order: id, messages, trigger. */
  function RequestIssues(v: Json): (r: seq<Issue>)
    ensures !v.JObject? ==> r == [Issue([], InvalidType(ObjectType))]
    ensures v.JObject? && !OptionalStringOk(v, "id") ==> Issue([Key("id")], InvalidType(StringType)) in r
    ensures v.JObject? && GetArray(v, "messages").None? ==> Issue([Key("messages")], InvalidType(ArrayType)) in r
    ensures v.JObject? && !OptionalStringOk(v, "trigger") ==> Issue([Key("trigger")], InvalidType(StringType)) in r
  {
    if !v.JObject? then [Issue([], InvalidType(ObjectType))]
    else
      assert [] + [Key("id")] == [Key("id")] && [] + [Key("trigger")] == [Key("trigger")];
      OptionalStringFieldIssues(v, "id", []) + MessagesFieldIssues(v) + OptionalStringFieldIssues(v, "trigger", [])
  }

  /** A message is free of issues exactly when it satisfies UIMessageSchema. */
  lemma MessageIssuesEmptyIff(v: Json, path: Path)
    ensures MessageIssues(v, path) == [] <==> ValidMessage(v)
  {
    if v.JObject? && GetArray(v, "parts").Some? {
      ElementIssuesEmpty(GetArray(v, "parts").value, path + [Key("parts")], PartIssues, 0);
    }
  }

  /** A request is free of issues exactly when it satisfies ChatRequestSchema. */
  lemma RequestIssuesEmptyIff(v: Json)
    ensures RequestIssues(v) == [] <==> ValidRequest(v)
  {
    if v.JObject? && GetArray(v, "messages").Some? {
      var items := GetArray(v, "messages").value;
      ElementIssuesEmpty(items, [Key("messages")], MessageIssues, 0);
      forall k | 0 <= k < |items|
        ensures MessageIssues(items[k], [Key("messages")] + [Index(k)]) == [] <==> ValidMessage(items[k])
      {
        MessageIssuesEmptyIff(items[k], [Key("messages")] + [Index(k)]);
      }
      assert (ElementIssues(items, [Key("messages")], MessageIssues, 0) == [])
             <==> (forall k :: 0 <= k < |items| ==> ValidMessage(items[k]));
    }
  }

  /** An empty `messages` array is reported as too_small at ["messages"], minimum 1, inclusive. */
  lemma EmptyMessagesIssue(v: Json)
    requires v.JObject? && GetArray(v, "messages") == Some([])
    ensures Issue([Key("messages")], TooSmall(1, true)) in RequestIssues(v)
  {
  }

  /**
   * A text part whose text is empty or longer than 2000 code units is reported at
   * ["messages", i, "parts", j, "text"].
   */
  lemma TextLengthIssueAt(v: Json, i: nat, j: nat)
    requires v.JObject? && GetArray(v, "messages").Some? && i < |GetArray(v, "messages").value|
    requires GetArray(v, "messages").value[i].JObject?
    requires GetArray(GetArray(v, "messages").value[i], "parts").Some?
    requires j < |GetArray(GetArray(v, "messages").value[i], "parts").value|
    requires IsTextShaped(GetArray(GetArray(v, "messages").value[i], "parts").value[j])
    ensures var t := GetString(GetArray(GetArray(v, "messages").value[i], "parts").value[j], "text").value;
            var path := [Key("messages"), Index(i), Key("parts"), Index(j), Key("text")];
            && (Utf16Length(t) == 0 ==> Issue(path, TooSmall(1, true)) in RequestIssues(v))
            && (Utf16Length(t) > 2000 ==> Issue(path, TooBig(2000, true)) in RequestIssues(v))
  {
    var messages := GetArray(v, "messages").value;
    var m := messages[i];
    var parts := GetArray(m, "parts").value;
    var p := parts[j];
    var t := GetString(p, "text").value;
    var mPath := [Key("messages")] + [Index(i)];
    var path := mPath + [Key("parts")] + [Index(j)] + [Key("text")];
    assert path == [Key("messages"), Index(i), Key("parts"), Index(j), Key("text")];
    if !TextLengthOk(t) {
      var issue := if Utf16Length(t) == 0 then Issue(path, TooSmall(1, true)) else Issue(path, TooBig(2000, true));
      if Utf16Length(t) == 0 || Utf16Length(t) > 2000 {
        assert issue in PartIssues(p, mPath + [Key("parts")] + [Index(j)]);
        ElementIssuesInclude(parts, mPath + [Key("parts")], PartIssues, 0, j, issue);
        assert issue in PartsFieldIssues(m, mPath);
        assert issue in MessageIssues(m, mPath);
        ElementIssuesInclude(messages, [Key("messages")], MessageIssues, 0, i, issue);
      }
    }
  }

  // ---------------------------------------------------------------------------
  // Typed data: decoding what passed, encoding it back

  /** The typed invariants of the schema. */
  predicate WellFormedPart(p: MessagePart) {
    p.TextPart? ==> TextLengthOk(p.text)
  }

  predicate WellFormedMessage(m: UIMessage) {
    forall k :: 0 <= k < |m.parts| ==> WellFormedPart(m.parts[k])
  }

  predicate WellFormedRequest(r: ChatRequest) {
    |r.messages| >= MinMessages && forall k :: 0 <= k < |r.messages| ==> WellFormedMessage(r.messages[k])
  }

  /** The fields of object `v` under `keys`: what a zod object schema passes on. */
  function Restrict(v: Json, keys: set<string>): (r: Json)
    requires v.JObject?
    ensures r.JObject? && r.fields.Keys == v.fields.Keys * keys
    ensures forall k :: k in r.fields ==> r.fields[k] == v.fields[k]
  {
    JObject(map k | k in v.fields.Keys * keys :: v.fields[k])
  }

  /** A valid part with the keys of the union option it matched first, and no others. */
  function StripPart(v: Json): Json
    requires ValidPart(v)
  {
    Restrict(v, if IsTextShaped(v) then {"type", "text"} else {"type"})
  }

  /** A valid message with its unknown keys dropped, in the message and in each part. */
  function StripMessage(v: Json): Json
    requires ValidMessage(v)
  {
    var parts := GetArray(v, "parts").value;
    JObject(Restrict(v, {"id", "role"}).fields["parts" := JArray(seq(|parts|, k requires 0 <= k < |parts| => StripPart(parts[k])))])
  }

  /** A valid request with its unknown keys dropped, at every level. */
  function StripRequest(v: Json): Json
    requires ValidRequest(v)
  {
    var messages := GetArray(v, "messages").value;
    JObject(Restrict(v, {"id", "trigger"}).fields["messages" := JArray(seq(|messages|, k requires 0 <= k < |messages| => StripMessage(messages[k])))])
  }

  /** The data of a valid part: the text of a text part, or which step marker it is. */
  function DecodePart(v: Json): (p: MessagePart)
    requires ValidPart(v)
    ensures WellFormedPart(p)
    ensures p.TextPart? <==> IsTextShaped(v)
    ensures p.TextPart? ==> p.text == GetString(v, "text").value
    ensures !p.TextPart? ==> Get(v, "type") == Some(JString(if p.StepStart? then "step-start" else "step-end"))
  {
    if IsTextShaped(v) && TextLengthOk(GetString(v, "text").value) then TextPart(GetString(v, "text").value)
    else if Get(v, "type") == Some(JString("step-start")) then StepStart
    else StepEnd
  }

  function DecodeParts(items: seq<Json>): (ps: seq<MessagePart>)
    requires forall k :: 0 <= k < |items| ==> ValidPart(items[k])
    ensures |ps| == |items| && forall k :: 0 <= k < |items| ==> ps[k] == DecodePart(items[k])
  {
    if items == [] then [] else [DecodePart(items[0])] + DecodeParts(items[1..])
  }

  /** The data of a valid message: the payload's id, the role its name denotes, its parts in order. */
  function DecodeMessage(v: Json): (m: UIMessage)
    requires ValidMessage(v)
    ensures WellFormedMessage(m)
    ensures m.id == GetString(v, "id").value && RoleName(m.role) == GetString(v, "role").value
    ensures |m.parts| == |GetArray(v, "parts").value|
            && forall k :: 0 <= k < |m.parts| ==> m.parts[k] == DecodePart(GetArray(v, "parts").value[k])
  {
    RoleOfName(GetString(v, "role").value);
    UIMessage(GetString(v, "id").value, RoleOf(GetString(v, "role").value).value, DecodeParts(GetArray(v, "parts").value))
  }

  function DecodeMessages(items: seq<Json>): (ms: seq<UIMessage>)
    requires forall k :: 0 <= k < |items| ==> ValidMessage(items[k])
    ensures |ms| == |items| && forall k :: 0 <= k < |items| ==> ms[k] == DecodeMessage(items[k])
  {
    if items == [] then [] else [DecodeMessage(items[0])] + DecodeMessages(items[1..])
  }

  /** The data of a valid request: the payload's optional id and trigger, and its messages in order. */
  function DecodeRequest(v: Json): (r: ChatRequest)
    requires ValidRequest(v)
    ensures WellFormedRequest(r)
    ensures r.id == GetString(v, "id") && r.trigger == GetString(v, "trigger")
    ensures |r.messages| == |GetArray(v, "messages").value|
            && forall k :: 0 <= k < |r.messages| ==> r.messages[k] == DecodeMessage(GetArray(v, "messages").value[k])
  {
    ChatRequest(GetString(v, "id"), DecodeMessages(GetArray(v, "messages").value), GetString(v, "trigger"))
  }

  /** Decoding a valid part keeps exactly what the schema names: encoding the data gives the stripped payload. */
  lemma DecodePartStrips(v: Json)
    requires ValidPart(v)
    ensures EncodePart(DecodePart(v)) == StripPart(v)
  {
    var e, w := EncodePart(DecodePart(v)), StripPart(v);
    assert e.fields.Keys == w.fields.Keys;
  }

  lemma {:induction false} DecodeMessageStrips(v: Json)
    requires ValidMessage(v)
    ensures EncodeMessage(DecodeMessage(v)) == StripMessage(v)
  {
    var m := DecodeMessage(v);
    var parts := GetArray(v, "parts").value;
    forall k | 0 <= k < |parts| ensures EncodePart(m.parts[k]) == StripPart(parts[k]) {
      DecodePartStrips(parts[k]);
    }
    var e, w := EncodeMessage(m), StripMessage(v);
    assert e.fields["parts"] == w.fields["parts"];
    assert e.fields.Keys == w.fields.Keys;
  }

  /**
   * Decoding a valid request drops the unknown keys and nothing else: encoding the data
   * gives the payload with only the schema's keys, at every level.
   */
  lemma {:induction false} DecodeRequestStrips(v: Json)
    requires ValidRequest(v)
    ensures EncodeRequest(DecodeRequest(v)) == StripRequest(v)
  {
    var r := DecodeRequest(v);
    var messages := GetArray(v, "messages").value;
    forall k | 0 <= k < |messages| ensures EncodeMessage(r.messages[k]) == StripMessage(messages[k]) {
      DecodeMessageStrips(messages[k]);
    }
    var e, w := EncodeRequest(r), StripRequest(v);
    assert e.fields["messages"] == w.fields["messages"];
    assert e.fields.Keys == w.fields.Keys;
  }

  /**
   * `ChatRequestSchema.safeParse`: the typed request when there are no issues, the full
   * list of issues otherwise.
   */
  function ParseRequest(v: Json): (r: Result<ChatRequest, seq<Issue>>)
    ensures r.Success? <==> ValidRequest(v)
    ensures r.Success? ==> WellFormedRequest(r.value) && EncodeRequest(r.value) == StripRequest(v)
    ensures r.Failure? ==> r.error != [] && r.error == RequestIssues(v)
  {
    RequestIssuesEmptyIff(v);
    var issues := RequestIssues(v);
    if issues == [] then DecodeRequestStrips(v); Success(DecodeRequest(v)) else Failure(issues)
  }

  function EncodePart(p: MessagePart): Json {
    match p
    case TextPart(t) => JObject(map["type" := JString("text"), "text" := JString(t)])
    case StepStart => JObject(map["type" := JString("step-start")])
    case StepEnd => JObject(map["type" := JString("step-end")])
  }

  function EncodeMessage(m: UIMessage): Json {
    JObject(map["id" := JString(m.id), "role" := JString(RoleName(m.role)),
                "parts" := JArray(seq(|m.parts|, k requires 0 <= k < |m.parts| => EncodePart(m.parts[k])))])
  }

  function EncodeOptional(key: string, o: Option<string>): map<string, Json> {
    if o.Some? then map[key := JString(o.value)] else map[]
  }

  /** The JSON a client sends for a typed request. */
  function EncodeRequest(r: ChatRequest): Json {
    JObject(EncodeOptional("id", r.id) + EncodeOptional("trigger", r.trigger)
            + map["messages" := JArray(seq(|r.messages|, k requires 0 <= k < |r.messages| => EncodeMessage(r.messages[k])))])
  }

  lemma PartRoundTrip(p: MessagePart)
    requires WellFormedPart(p)
    ensures ValidPart(EncodePart(p)) && DecodePart(EncodePart(p)) == p
  {
  }

  lemma {:induction false} MessageRoundTrip(m: UIMessage)
    requires WellFormedMessage(m)
    ensures ValidMessage(EncodeMessage(m)) && DecodeMessage(EncodeMessage(m)) == m
  {
    var v := EncodeMessage(m);
    var items := GetArray(v, "parts").value;
    forall k | 0 <= k < |items| ensures ValidPart(items[k]) && DecodePart(items[k]) == m.parts[k] {
      PartRoundTrip(m.parts[k]);
    }
    assert DecodeParts(items) == m.parts;
  }

  /** Every well-formed request, sent as JSON, passes the schema and decodes to itself. */
  lemma {:induction false} RequestRoundTrip(r: ChatRequest)
    requires WellFormedRequest(r)
    ensures ParseRequest(EncodeRequest(r)) == Success(r)
  {
    var v := EncodeRequest(r);
    var items := GetArray(v, "messages").value;
    forall k | 0 <= k < |items| ensures ValidMessage(items[k]) && DecodeMessage(items[k]) == r.messages[k] {
      MessageRoundTrip(r.messages[k]);
    }
    assert DecodeMessages(items) == r.messages;
    assert GetString(v, "id") == r.id;
    assert GetString(v, "trigger") == r.trigger;
  }

  /**
   * safeParse's data is the one well-formed request whose JSON is the payload with its
   * unknown keys dropped: stripping pins the decoded value down completely.
   */
  lemma {:induction false} ParsedDataIsStrippedPayload(v: Json, r: ChatRequest)
    requires ValidRequest(v) && WellFormedRequest(r)
    ensures EncodeRequest(r) == StripRequest(v) <==> ParseRequest(v) == Success(r)
  {
    var d := ParseRequest(v).value;
    RequestRoundTrip(r);
    RequestRoundTrip(d);
  }
}
