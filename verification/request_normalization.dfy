/** Validation and normalization of a Responses request, over JSON values. */
module RequestNormalization {
  import opened Common
  import opened Json

  /** imageURL, which URL and base64 parsing decide. */
  type Urls = string -> bool

  // ----- Shared checks -----

  /** allowed */
  predicate Only(fields: Fields, names: set<string>) {
    fields.Keys <= names
  }

  /** omitNull */
  function OmitNull(fields: Fields, names: set<string>): Fields {
    map name | name in fields && !(name in names && fields[name].Null?) :: fields[name]
  }

  predicate Text(fields: Fields, name: string) {
    TextValue(Lookup(fields, name), true).Some?
  }

  predicate NonBlank(fields: Fields, name: string) {
    TextValue(Lookup(fields, name), false).Some?
  }

  /** enumValue */
  predicate Enum(fields: Fields, name: string, names: set<string>) {
    NonBlank(fields, name) && fields[name].s in names
  }

  predicate Missing(fields: Fields, name: string) {
    name !in fields
  }

  predicate Nothing(fields: Fields, name: string) {
    name in fields ==> fields[name].Null?
  }

  // ----- Content parts -----

  /** The type of a part or item; "" when it has none. */
  function TypeOf(fields: Fields): string {
    var kind := TextValue(Lookup(fields, "type"), false);
    if kind.Some? then kind.value else ""
  }

  const DETAILS := {"auto", "low", "high", "original"}

  predicate ImageOk(fields: Fields, urls: Urls) {
    && Only(fields, {"type", "image_url", "detail"})
    && NonBlank(fields, "image_url") && urls(fields["image_url"].s)
    && (Missing(fields, "detail") || Enum(fields, "detail", DETAILS))
  }

  predicate OutputTextOk(fields: Fields) {
    && Only(fields, {"type", "text", "annotations", "logprobs"}) && Text(fields, "text")
    && ("annotations" in fields ==> fields["annotations"].Arr?)
    && ("logprobs" in fields ==> fields["logprobs"].Arr? || fields["logprobs"].Null?)
  }

  predicate PartOk(part: Json, outputText: bool, urls: Urls) {
    part.Obj? &&
    var kind := TypeOf(part.fields);
    if kind == "input_text" then Only(part.fields, {"type", "text"}) && Text(part.fields, "text")
    else if kind == "output_text" then outputText && OutputTextOk(part.fields)
    else if kind == "refusal" then outputText && Only(part.fields, {"type", "refusal"}) && Text(part.fields, "refusal")
    else kind == "input_image" && ImageOk(part.fields, urls)
  }

  predicate PartsOk(parts: seq<Json>, outputText: bool, urls: Urls) {
    forall k :: 0 <= k < |parts| ==> PartOk(parts[k], outputText, urls)
  }

  predicate ContentOk(v: Option<Json>, outputText: bool, urls: Urls) {
    v.Some? && (v.value.Str? || (v.value.Arr? && PartsOk(v.value.items, outputText, urls)))
  }

  predicate TextPartOk(part: Json, kind: string) {
    part.Obj? && Only(part.fields, {"type", "text"}) && Enum(part.fields, "type", {kind}) && Text(part.fields, "text")
  }

  predicate TextPartsOk(v: Option<Json>, kind: string) {
    v.Some? && v.value.Arr? && forall k :: 0 <= k < |v.value.items| ==> TextPartOk(v.value.items[k], kind)
  }

  // ----- Input items -----

  const ROLES := {"user", "assistant", "system", "developer"}
  const STATUSES := {"in_progress", "completed", "incomplete"}

  /** An item without a type is a message. */
  function ItemKind(fields: Fields): string {
    if "type" in fields then TypeOf(fields) else "message"
  }

  predicate MessageOk(fields: Fields, urls: Urls) {
    && Only(fields, {"type", "id", "role", "content", "status", "phase"})
    && Enum(fields, "role", ROLES)
    && ContentOk(Lookup(fields, "content"), true, urls)
    && (Nothing(fields, "phase") || Enum(fields, "phase", {"commentary", "final_answer"}))
  }

  predicate CallOk(fields: Fields) {
    && Only(fields, {"type", "id", "call_id", "name", "arguments", "status"})
    && NonBlank(fields, "call_id") && NonBlank(fields, "name") && Text(fields, "arguments")
  }

  predicate CallOutputOk(fields: Fields, urls: Urls) {
    && Only(fields, {"type", "id", "call_id", "output", "status"})
    && NonBlank(fields, "call_id") && ContentOk(Lookup(fields, "output"), false, urls)
  }

  predicate ReasoningItemOk(fields: Fields) {
    && Only(fields, {"type", "id", "summary", "encrypted_content", "content", "status"})
    && (Nothing(fields, "encrypted_content") || Text(fields, "encrypted_content"))
    && TextPartsOk(Lookup(fields, "summary"), "summary_text")
    && (Nothing(fields, "content") || TextPartsOk(Lookup(fields, "content"), "reasoning_text"))
  }

  predicate KindOk(fields: Fields, kind: string, urls: Urls) {
    if kind == "message" then MessageOk(fields, urls)
    else if kind == "function_call" then CallOk(fields)
    else if kind == "function_call_output" then CallOutputOk(fields, urls)
    else kind == "reasoning" && ReasoningItemOk(fields)
  }

  /** The checks of id and status that follow the switch; null passes only for some kinds. */
  predicate TailOk(fields: Fields, kind: string) {
    && (Missing(fields, "id") || (kind == "function_call_output" && fields["id"].Null?) || NonBlank(fields, "id"))
    && (Missing(fields, "status") || (kind != "message" && fields["status"].Null?) || Enum(fields, "status", STATUSES))
  }

  predicate ItemOk(item: Json, urls: Urls) {
    item.Obj? && KindOk(item.fields, ItemKind(item.fields), urls) && TailOk(item.fields, ItemKind(item.fields))
  }

  /** A system message becomes a developer message. */
  function ItemNormal(item: Json): Json {
    if item.Obj? && ItemKind(item.fields) == "message" && Lookup(item.fields, "role") == Some(Str("system"))
    then Obj(item.fields["role" := Str("developer")]) else item
  }

  predicate ItemsOk(items: seq<Json>, urls: Urls) {
    forall k :: 0 <= k < |items| ==> ItemOk(items[k], urls)
  }

  function ItemsNormal(items: seq<Json>): (r: seq<Json>)
    ensures |r| == |items| && forall k :: 0 <= k < |items| ==> r[k] == ItemNormal(items[k])
  {
    seq(|items|, k requires 0 <= k < |items| => ItemNormal(items[k]))
  }

  predicate InputOk(v: Option<Json>, urls: Urls) {
    v.Some? && (v.value.Str? || (v.value.Arr? && ItemsOk(v.value.items, urls)))
  }

  function UserMessage(text: string): Json {
    var part := Obj(map["type" := Str("input_text"), "text" := Str(text)]);
    Obj(map["type" := Str("message"), "role" := Str("user"), "content" := Arr([part])])
  }

  /** A text input becomes one user message. */
  function InputNormal(v: Json): Json {
    if v.Str? then Arr([UserMessage(v.s)]) else if v.Arr? then Arr(ItemsNormal(v.items)) else v
  }

  // ----- Controls -----

  const TOOL_OPTIONALS := {"description", "parameters", "strict"}

  predicate ToolOk(tool: Json) {
    tool.Obj? && Only(tool.fields, {"type", "name", "description", "parameters", "strict"}) &&
    Enum(tool.fields, "type", {"function"}) &&
    var fields := OmitNull(tool.fields, TOOL_OPTIONALS);
    && NonBlank(fields, "name")
    && (Missing(fields, "description") || Text(fields, "description"))
    && (Missing(fields, "parameters") || fields["parameters"].Obj?)
    && (Missing(fields, "strict") || fields["strict"].Bool?)
  }

  function ToolNormal(tool: Json): Json {
    if tool.Obj? then Obj(OmitNull(tool.fields, TOOL_OPTIONALS)) else tool
  }

  predicate ToolsOk(v: Json) {
    v.Arr? && forall k :: 0 <= k < |v.items| ==> ToolOk(v.items[k])
  }

  function ToolsNormal(tools: seq<Json>): (r: seq<Json>)
    ensures |r| == |tools| && forall k :: 0 <= k < |tools| ==> r[k] == ToolNormal(tools[k])
  {
    seq(|tools|, k requires 0 <= k < |tools| => ToolNormal(tools[k]))
  }

  predicate ToolChoiceOk(v: Json) {
    if v.Str? then v.s in {"auto", "none", "required"}
    else
      && v.Obj? && Only(v.fields, {"type", "name"})
      && Enum(v.fields, "type", {"function"}) && NonBlank(v.fields, "name")
  }

  const REASONING_NAMES := {"effort", "summary"}

  predicate ReasoningOk(v: Json) {
    v.Obj? && Only(v.fields, REASONING_NAMES) &&
    var fields := OmitNull(v.fields, REASONING_NAMES);
    && (Missing(fields, "effort") || NonBlank(fields, "effort"))
    && (Missing(fields, "summary") || Enum(fields, "summary", {"auto", "concise", "detailed"}))
  }

  predicate SchemaOk(format: Fields) {
    var fields := OmitNull(format, {"strict"});
    && NonBlank(fields, "name") && "schema" in fields && fields["schema"].Obj?
    && (Missing(fields, "description") || Text(fields, "description"))
    && (Missing(fields, "strict") || fields["strict"].Bool?)
  }

  predicate FormatOk(v: Json) {
    && v.Obj? && Only(v.fields, {"type", "name", "schema", "description", "strict"})
    && Enum(v.fields, "type", {"text", "json_object", "json_schema"})
    && if v.fields["type"].s == "json_schema" then SchemaOk(v.fields) else Only(v.fields, {"type"})
  }

  function FormatNormal(v: Json): Json {
    if v.Obj? && TypeOf(v.fields) == "json_schema" then Obj(OmitNull(v.fields, {"strict"})) else v
  }

  predicate TextOk(v: Json) {
    v.Obj? && Only(v.fields, {"verbosity", "format"}) &&
    var fields := OmitNull(v.fields, {"verbosity"});
    && (Missing(fields, "verbosity") || Enum(fields, "verbosity", {"low", "medium", "high"}))
    && (Missing(fields, "format") || FormatOk(fields["format"]))
  }

  function TextNormal(fields: Fields): Fields {
    var rest := OmitNull(fields, {"verbosity"});
    if "format" in rest then rest["format" := FormatNormal(rest["format"])] else rest
  }

  // ----- The request -----

  datatype Request = Request(
    body: Fields, model: string, stream: bool, omittedCap: bool, effort: string,
    summary: bool, verbosity: bool, originalImage: bool, image: bool)

  const REQUEST_NAMES := {
    "model", "input", "instructions", "stream", "store", "background", "max_output_tokens", "prompt_cache_key",
    "tools", "tool_choice", "parallel_tool_calls", "reasoning", "include", "text"}

  const NULLABLE := {
    "instructions", "stream", "store", "background", "max_output_tokens", "prompt_cache_key",
    "parallel_tool_calls", "reasoning", "include"}

  predicate IncludeOk(v: Json) {
    v.Arr? && forall k :: 0 <= k < |v.items| ==> v.items[k] == Str("reasoning.encrypted_content")
  }

  /** The switch of ParseRequest's loop over the fields. */
  predicate FieldOk(name: string, v: Json) {
    if name in {"instructions", "prompt_cache_key"} then v.Str?
    else if name in {"stream", "parallel_tool_calls"} then v.Bool?
    else if name in {"store", "background"} then v == Bool(false)
    else if name == "max_output_tokens" then v.Int? && 1 <= v.n <= MAX_INT64
    else if name == "tools" then ToolsOk(v)
    else if name == "tool_choice" then ToolChoiceOk(v)
    else if name == "reasoning" then ReasoningOk(v)
    else if name == "include" then IncludeOk(v)
    else if name == "text" then TextOk(v)
    else true
  }

  function FieldNormal(name: string, v: Json): Json {
    if name == "tools" && v.Arr? then Arr(ToolsNormal(v.items))
    else if name == "reasoning" && v.Obj? then Obj(OmitNull(v.fields, REASONING_NAMES))
    else if name == "text" && v.Obj? then Obj(TextNormal(v.fields))
    else v
  }

  predicate FieldsOk(fields: Fields) {
    forall name :: name in fields ==> FieldOk(name, fields[name])
  }

  function FieldsNormal(fields: Fields): Fields {
    map name | name in fields :: FieldNormal(name, fields[name])
  }

  /** The body that is dispatched. */
  function Body(fields: Fields): Fields
    requires "input" in fields
  {
    var body := FieldsNormal(fields)["input" := InputNormal(fields["input"])];
    body["stream" := Bool(true)]["store" := Bool(false)] - {"max_output_tokens"}
  }

  // The flags that parsing collects.

  function EffortOf(fields: Fields): string {
    if "reasoning" in fields && fields["reasoning"].Obj? then
      var effort := Lookup(fields["reasoning"].fields, "effort");
      if effort.Some? && effort.value.Str? then effort.value.s else ""
    else ""
  }

  /** A member of an object field that is present and not null. */
  predicate Sets(fields: Fields, name: string, member: string) {
    name in fields && fields[name].Obj? && member in fields[name].fields && !fields[name].fields[member].Null?
  }

  predicate ImagePart(part: Json) {
    part.Obj? && TypeOf(part.fields) == "input_image"
  }

  predicate OriginalPart(part: Json) {
    ImagePart(part) && Lookup(part.fields, "detail") == Some(Str("original"))
  }

  predicate ContentImage(v: Option<Json>) {
    v.Some? && v.value.Arr? && exists k :: 0 <= k < |v.value.items| && ImagePart(v.value.items[k])
  }

  predicate ContentOriginal(v: Option<Json>) {
    v.Some? && v.value.Arr? && exists k :: 0 <= k < |v.value.items| && OriginalPart(v.value.items[k])
  }

  /** The content that an item's kind has. */
  function ItemContent(item: Json): Option<Json> {
    if !item.Obj? then None
    else if ItemKind(item.fields) == "message" then Lookup(item.fields, "content")
    else if ItemKind(item.fields) == "function_call_output" then Lookup(item.fields, "output")
    else None
  }

  predicate InputImage(v: Json) {
    v.Arr? && exists k :: 0 <= k < |v.items| && ContentImage(ItemContent(v.items[k]))
  }

  predicate InputOriginal(v: Json) {
    v.Arr? && exists k :: 0 <= k < |v.items| && ContentOriginal(ItemContent(v.items[k]))
  }

  /** The request that an accepted body gives. */
  function RequestOf(fields: Fields): Request
    requires "input" in fields && "model" in fields && fields["model"].Str?
  {
    Request(Body(fields), fields["model"].s, Lookup(fields, "stream") == Some(Bool(true)),
        "max_output_tokens" in fields,
            EffortOf(fields), Sets(fields, "reasoning", "summary"), Sets(fields, "text", "verbosity"),
            InputOriginal(fields["input"]), InputImage(fields["input"]))
  }

  predicate Accepted(fields: Fields, urls: Urls) {
    && Only(fields, REQUEST_NAMES) && NonBlank(fields, "model") && FieldsOk(fields)
    && InputOk(Lookup(fields, "input"), urls)
  }

  /** ParseRequest: None is any ValidationError. */
  function Parse(data: Option<Json>, size: nat, urls: Urls): Option<Request> {
    if size > MAX_PAYLOAD || data.None? || !data.value.Obj? then None
    else
      var fields := OmitNull(data.value.fields, NULLABLE);
      if Only(data.value.fields, REQUEST_NAMES) && Accepted(fields, urls) then Some(RequestOf(fields)) else None
  }

  // ----- Normal forms are stable -----

  lemma OmitNullTwice(fields: Fields, names: set<string>)
    ensures OmitNull(OmitNull(fields, names), names) == OmitNull(fields, names)
  {
  }

  lemma ToolStable(tool: Json)
    requires ToolOk(tool)
    ensures ToolOk(ToolNormal(tool)) && ToolNormal(ToolNormal(tool)) == ToolNormal(tool)
  {
    OmitNullTwice(tool.fields, TOOL_OPTIONALS);
    var fields := OmitNull(tool.fields, TOOL_OPTIONALS);
    assert fields.Keys <= tool.fields.Keys;
    assert "type" in fields && fields["type"] == tool.fields["type"];
  }

  lemma ToolsStable(v: Json)
    requires ToolsOk(v)
    ensures
      var r := Arr(ToolsNormal(v.items));
      ToolsOk(r) && ToolsNormal(r.items) == r.items
  {
    forall k | 0 <= k < |v.items|
      ensures ToolOk(ToolNormal(v.items[k])) && ToolNormal(ToolNormal(v.items[k])) == ToolNormal(v.items[k])
    {
      ToolStable(v.items[k]);
    }
  }

  lemma ReasoningStable(v: Json)
    requires ReasoningOk(v)
    ensures
      var r := Obj(OmitNull(v.fields, REASONING_NAMES));
      ReasoningOk(r) && OmitNull(r.fields, REASONING_NAMES) == r.fields
  {
    OmitNullTwice(v.fields, REASONING_NAMES);
    assert OmitNull(v.fields, REASONING_NAMES).Keys <= v.fields.Keys;
  }

  lemma FormatStable(v: Json)
    requires FormatOk(v)
    ensures FormatOk(FormatNormal(v)) && FormatNormal(FormatNormal(v)) == FormatNormal(v)
  {
    if TypeOf(v.fields) == "json_schema" {
      OmitNullTwice(v.fields, {"strict"});
      var fields := OmitNull(v.fields, {"strict"});
      assert fields.Keys <= v.fields.Keys;
      assert "type" in fields && fields["type"] == v.fields["type"];
    }
  }

  lemma TextStable(v: Json)
    requires TextOk(v)
    ensures
      var r := Obj(TextNormal(v.fields));
      TextOk(r) && TextNormal(r.fields) == r.fields
  {
    var rest := OmitNull(v.fields, {"verbosity"});
    var r := TextNormal(v.fields);
    assert rest.Keys <= v.fields.Keys;
    if "format" in rest {
      FormatStable(rest["format"]);
    }
    assert OmitNull(r, {"verbosity"}) == r;
  }

  /** A normalized field is accepted again and left as it is. */
  lemma FieldStable(name: string, v: Json)
    requires FieldOk(name, v)
    ensures FieldOk(name, FieldNormal(name, v)) && FieldNormal(name, FieldNormal(name, v)) == FieldNormal(name, v)
  {
    if name == "tools" {
      ToolsStable(v);
    } else if name == "reasoning" {
      ReasoningStable(v);
    } else if name == "text" {
      TextStable(v);
    }
  }

  lemma ItemStable(item: Json, urls: Urls)
    requires ItemOk(item, urls)
    ensures ItemOk(ItemNormal(item), urls) && ItemNormal(ItemNormal(item)) == ItemNormal(item)
    ensures ItemContent(ItemNormal(item)) == ItemContent(item)
  {
    if ItemNormal(item) != item {
      var fields := item.fields["role" := Str("developer")];
      assert fields.Keys == item.fields.Keys;
      assert 'd' in "developer" && !IsSpace("developer"[0]);
      assert MessageOk(fields, urls);
      assert TailOk(fields, "message");
    }
  }

  lemma InputTextPartOk(text: string, urls: Urls)
    ensures
      var part := Obj(map["type" := Str("input_text"), "text" := Str(text)]);
      PartOk(part, true, urls) && !ImagePart(part)
  {
    assert !IsSpace("input_text"[0]);
    var part := Obj(map["type" := Str("input_text"), "text" := Str(text)]);
    assert TypeOf(part.fields) == "input_text";
  }

  lemma UserMessageOk(text: string, urls: Urls)
    ensures ItemOk(UserMessage(text), urls) && ItemNormal(UserMessage(text)) == UserMessage(text)
    ensures !ContentImage(ItemContent(UserMessage(text))) && !ContentOriginal(ItemContent(UserMessage(text)))
  {
    InputTextPartOk(text, urls);
    assert !IsSpace("message"[0]) && !IsSpace("user"[0]);
    var part := Obj(map["type" := Str("input_text"), "text" := Str(text)]);
    assert ItemKind(UserMessage(text).fields) == "message";
    assert Lookup(UserMessage(text).fields, "content") == Some(Arr([part]));
  }

  lemma ItemsStable(items: seq<Json>, urls: Urls)
    requires ItemsOk(items, urls)
    ensures
      var r := ItemsNormal(items);
      && ItemsOk(r, urls) && ItemsNormal(r) == r
      && InputImage(Arr(r)) == InputImage(Arr(items)) && InputOriginal(Arr(r)) == InputOriginal(Arr(items))
  {
    var r := ItemsNormal(items);
    forall k | 0 <= k < |items|
      ensures ItemOk(r[k], urls) && ItemNormal(r[k]) == r[k] && ItemContent(r[k]) == ItemContent(items[k])
    {
      ItemStable(items[k], urls);
    }
    forall k | 0 <= k < |items| && ContentImage(ItemContent(items[k])) ensures InputImage(Arr(r)) {
      assert ContentImage(ItemContent(Arr(r).items[k]));
    }
    forall k | 0 <= k < |items| && ContentOriginal(ItemContent(items[k])) ensures InputOriginal(Arr(r)) {
      assert ContentOriginal(ItemContent(Arr(r).items[k]));
    }
  }

  /** A normalized input is accepted again, left as it is, and shows the same images. */
  lemma InputStable(v: Json, urls: Urls)
    requires InputOk(Some(v), urls)
    ensures InputOk(Some(InputNormal(v)), urls) && InputNormal(InputNormal(v)) == InputNormal(v) && InputNormal(v).Arr?
    ensures InputImage(InputNormal(v)) == InputImage(v) && InputOriginal(InputNormal(v)) == InputOriginal(v)
  {
    if v.Str? {
      UserMessageOk(v.s, urls);
    } else {
      ItemsStable(v.items, urls);
    }
  }

  // ----- Parsing again -----

  lemma BodyAt(fields: Fields, name: string)
    requires "input" in fields
    ensures Lookup(Body(fields), name) ==
            if name == "max_output_tokens" then None
            else if name == "store" then Some(Bool(false))
            else if name == "stream" then Some(Bool(true))
            else if name == "input" then Some(InputNormal(fields["input"]))
            else if name in fields then Some(FieldNormal(name, fields[name]))
            else None
  {
  }

  /** A field that parsing again accepts and leaves alone. */
  predicate Settled(name: string, v: Json) {
    FieldOk(name, v) && FieldNormal(name, v) == v && name in REQUEST_NAMES && !(name in NULLABLE && v.Null?)
  }

  predicate AllSettled(fields: Fields) {
    forall name :: name in fields ==> Settled(name, fields[name])
  }

  lemma NullableIsNotNull(name: string, v: Json)
    requires FieldOk(name, v) && name in NULLABLE
    ensures !v.Null?
  {
  }

  lemma BodySettled(fields: Fields, urls: Urls)
    requires Accepted(fields, urls)
    ensures AllSettled(Body(fields))
  {
    forall name | name in Body(fields) ensures Settled(name, Body(fields)[name]) {
      BodyAt(fields, name);
      if name != "store" && name != "stream" && name != "input" {
        assert name in fields && FieldOk(name, fields[name]);
        FieldStable(name, fields[name]);
        if name in NULLABLE {
          NullableIsNotNull(name, FieldNormal(name, fields[name]));
        }
      }
    }
  }

  lemma SettledIsKept(fields: Fields)
    requires AllSettled(fields)
    ensures Only(fields, REQUEST_NAMES) && FieldsOk(fields)
    ensures OmitNull(fields, NULLABLE) == fields && FieldsNormal(fields) == fields
  {
    assert forall name :: name in fields ==> Settled(name, fields[name]);
  }

  lemma BodyAccepted(fields: Fields, urls: Urls)
    requires Accepted(fields, urls)
    ensures Accepted(Body(fields), urls) && OmitNull(Body(fields), NULLABLE) == Body(fields)
    ensures FieldsNormal(Body(fields)) == Body(fields)
  {
    BodySettled(fields, urls);
    SettledIsKept(Body(fields));
    BodyAt(fields, "model");
    BodyAt(fields, "input");
    InputStable(fields["input"], urls);
  }

  lemma BodyOfBody(fields: Fields, urls: Urls)
    requires Accepted(fields, urls)
    ensures "input" in Body(fields) && Body(Body(fields)) == Body(fields)
  {
    var b := Body(fields);
    BodyAccepted(fields, urls);
    BodyAt(fields, "input");
    InputStable(fields["input"], urls);
    BodyAt(fields, "stream");
    BodyAt(fields, "store");
    BodyAt(fields, "max_output_tokens");
    assert "max_output_tokens" !in b && "stream" in b && "store" in b;
  }

  lemma FlagsOfBody(fields: Fields, urls: Urls)
    requires Accepted(fields, urls)
    ensures
      var b := Body(fields);
      && EffortOf(b) == EffortOf(fields)
      && Sets(b, "reasoning", "summary") == Sets(fields, "reasoning", "summary")
      && Sets(b, "text", "verbosity") == Sets(fields, "text", "verbosity")
  {
    BodyAt(fields, "reasoning");
    BodyAt(fields, "text");
    if "reasoning" in fields {
      assert FieldOk("reasoning", fields["reasoning"]);
    }
    if "text" in fields {
      assert FieldOk("text", fields["text"]);
    }
  }

  lemma RequestOfBody(fields: Fields, urls: Urls)
    requires Accepted(fields, urls)
    ensures Accepted(Body(fields), urls)
    ensures RequestOf(Body(fields)) == RequestOf(fields).(stream := true, omittedCap := false)
  {
    BodyAccepted(fields, urls);
    BodyOfBody(fields, urls);
    FlagsOfBody(fields, urls);
    ScalarsOfBody(fields, urls);
    ImagesOfBody(fields, urls);
  }

  lemma ScalarsOfBody(fields: Fields, urls: Urls)
    requires Accepted(fields, urls)
    ensures
      var b := Body(fields);
      && Lookup(b, "model") == Lookup(fields, "model") && Lookup(b, "stream") == Some(Bool(true))
      && "max_output_tokens" !in b
  {
    BodyAt(fields, "model");
    BodyAt(fields, "stream");
    BodyAt(fields, "max_output_tokens");
  }

  lemma ImagesOfBody(fields: Fields, urls: Urls)
    requires Accepted(fields, urls)
    ensures
      var b := Body(fields);
      && "input" in b && InputImage(b["input"]) == InputImage(fields["input"])
      && InputOriginal(b["input"]) == InputOriginal(fields["input"])
  {
    BodyAt(fields, "input");
    InputStable(fields["input"], urls);
  }

  /**
   Apart from the size limit, the dispatched body is itself an accepted request, and parsing it gives the
   same body, model and uses; only the client's wish to stream and its dropped cap are gone.
   */
  lemma ParseTwice(data: Option<Json>, size: nat, urls: Urls, size2: nat)
    requires Parse(data, size, urls).Some? && size2 <= MAX_PAYLOAD
    ensures
      var r := Parse(data, size, urls).value;
      Parse(Some(Obj(r.body)), size2, urls) == Some(r.(stream := true, omittedCap := false))
  {
    var fields := OmitNull(data.value.fields, NULLABLE);
    RequestOfBody(fields, urls);
    BodyAccepted(fields, urls);
  }

  // ----- What the dispatched body keeps -----

  /** `now` is `was` without the named members that are null. */
  ghost predicate LessNulls(was: Json, now: Json, names: set<string>) {
    && was.Obj? && now.Obj?
    && forall k :: Lookup(now.fields, k) ==
                   if k in names && Lookup(was.fields, k) == Some(Null) then None else Lookup(was.fields, k)
  }

  predicate SystemMessage(fields: Fields) {
    && (Missing(fields, "type") || fields["type"] == Str("message"))
    && Lookup(fields, "role") == Some(Str("system"))
  }

  /** An item goes on as it is, but for the role of a system message. */
  ghost predicate ItemKept(was: Json, now: Json) {
    && was.Obj? && now.Obj?
    && forall k :: Lookup(now.fields, k) ==
                   if k == "role" && SystemMessage(was.fields) then Some(Str("developer")) else Lookup(was.fields, k)
  }

  /** One user message that says exactly the text. */
  predicate SaysText(item: Json, text: string) {
    && item.Obj? && item.fields.Keys == {"type", "role", "content"}
    && item.fields["type"] == Str("message") && item.fields["role"] == Str("user") && item.fields["content"].Arr?
    && var parts := item.fields["content"].items;
    && |parts| == 1 && parts[0] == Obj(map["type" := Str("input_text"), "text" := Str(text)])
  }

  ghost predicate InputKept(was: Json, now: Json) {
    && now.Arr? && (was.Str? || was.Arr?)
    && (was.Str? ==> |now.items| == 1 && SaysText(now.items[0], was.s))
    && (was.Arr? ==>
          |now.items| == |was.items| && forall k :: 0 <= k < |was.items| ==> ItemKept(was.items[k], now.items[k]))
  }

  ghost predicate ToolsKept(was: Json, now: Json) {
    && was.Arr? && now.Arr? && |was.items| == |now.items|
    && forall k :: 0 <= k < |was.items| ==>
         LessNulls(was.items[k], now.items[k], {"description", "parameters", "strict"})
  }

  ghost predicate FormatKept(was: Json, now: Json) {
    if was.Obj? && Lookup(was.fields, "type") == Some(Str("json_schema")) then LessNulls(was, now, {"strict"})
    else now == was
  }

  ghost predicate TextKept(was: Json, now: Json) {
    && was.Obj? && now.Obj?
    && (forall k :: k != "format" ==>
          Lookup(now.fields, k) ==
          if k == "verbosity" && Lookup(was.fields, k) == Some(Null) then None else Lookup(was.fields, k))
    && ("format" in now.fields <==> "format" in was.fields)
    && ("format" in was.fields ==> FormatKept(was.fields["format"], now.fields["format"]))
  }

  /** What becomes of a member that the client set. */
  ghost predicate MemberKept(name: string, was: Json, now: Json) {
    if name == "stream" then now == Bool(true)
    else if name == "store" then was == now == Bool(false)
    else if name == "input" then InputKept(was, now)
    else if name == "tools" then ToolsKept(was, now)
    else if name == "reasoning" then LessNulls(was, now, {"effort", "summary"})
    else if name == "text" then TextKept(was, now)
    else now == was
  }

  lemma ItemIsKept(item: Json)
    requires item.Obj?
    ensures ItemKept(item, ItemNormal(item))
  {
    assert !Blank("message") by { assert !IsSpace("message"[0]); }
  }

  lemma InputIsKept(v: Json, urls: Urls)
    requires InputOk(Some(v), urls)
    ensures InputKept(v, InputNormal(v))
  {
    if v.Arr? {
      forall k | 0 <= k < |v.items| ensures ItemKept(v.items[k], ItemsNormal(v.items)[k]) {
        ItemIsKept(v.items[k]);
      }
    }
  }

  lemma TextIsKept(v: Json)
    requires TextOk(v)
    ensures TextKept(v, Obj(TextNormal(v.fields)))
  {
    assert !Blank("json_schema") by { assert !IsSpace("json_schema"[0]); }
  }

  lemma MemberIsKept(name: string, v: Json)
    requires FieldOk(name, v) && name !in {"stream", "input"}
    ensures MemberKept(name, v, FieldNormal(name, v))
  {
    if name == "text" {
      TextIsKept(v);
    }
  }

  lemma AcceptedHasNoNull(fields: Fields, name: string, urls: Urls)
    requires Accepted(fields, urls) && OmitNull(fields, NULLABLE) == fields && name in fields
    ensures !fields[name].Null?
  {
    assert FieldOk(name, fields[name]);
  }

  /**
   The dispatched body of an accepted request says what the client said: of the members that were set and not null
   all but the cap, each as `MemberKept` puts it, and otherwise only `stream` and `store`. A text input is one user
   message of exactly that text.
   */
  lemma BodyKeepsTheRequest(data: Option<Json>, size: nat, urls: Urls, name: string)
    requires Parse(data, size, urls).Some?
    ensures data.Some? && data.value.Obj?
    ensures
      var given, r := data.value.fields, Parse(data, size, urls).value;
      if name in given && !given[name].Null? && name != "max_output_tokens"
      then name in r.body && MemberKept(name, given[name], r.body[name])
      else Lookup(r.body, name) ==
           (if name == "stream" then Some(Bool(true)) else if name == "store" then Some(Bool(false)) else None)
  {
    var given, fields := data.value.fields, OmitNull(data.value.fields, NULLABLE);
    OmitNullTwice(given, NULLABLE);
    BodyAt(fields, name);
    if name in fields {
      AcceptedHasNoNull(fields, name, urls);
      assert FieldOk(name, fields[name]);
      if name == "input" {
        InputIsKept(fields[name], urls);
      } else if name != "stream" {
        MemberIsKept(name, fields[name]);
      }
    }
  }

  /** What parsing notes of the client's wishes that the body no longer shows. */
  lemma WishesAreNoted(data: Option<Json>, size: nat, urls: Urls)
    requires Parse(data, size, urls).Some?
    ensures data.Some? && data.value.Obj?
    ensures
      var given, r := data.value.fields, Parse(data, size, urls).value;
      && Lookup(given, "model") == Some(Str(r.model)) && !Blank(r.model)
      && (r.stream <==> Lookup(given, "stream") == Some(Bool(true)))
      && (r.omittedCap <==> "max_output_tokens" in given && !given["max_output_tokens"].Null?)
  {
    var fields := OmitNull(data.value.fields, NULLABLE);
    assert "model" in fields && "model" in data.value.fields;
  }

  // ----- What the dispatched body uses -----

  datatype Model = Model(id: string, efforts: seq<string>, summary: bool, verbosity: bool, original: bool,
      modalities: seq<string>)

  predicate ValidateModel(r: Request, m: Model) {
    && r.body != map[] && r.model == m.id
    && (r.effort != "" ==> r.effort in m.efforts)
    && (r.summary ==> m.summary)
    && (r.verbosity ==> m.verbosity)
    && (r.originalImage ==> m.original)
    && (r.image ==> "image" in m.modalities)
  }

  function Member(body: Fields, name: string, member: string): Option<Json> {
    if name in body && body[name].Obj? then Lookup(body[name].fields, member) else None
  }

  predicate DetailPart(part: Json) {
    part.Obj? && Lookup(part.fields, "detail") == Some(Str("original"))
  }

  predicate HoldsImage(v: Json) {
    v.Arr? && exists k :: 0 <= k < |v.items| && ImagePart(v.items[k])
  }

  predicate HoldsOriginal(v: Json) {
    v.Arr? && exists k :: 0 <= k < |v.items| && DetailPart(v.items[k])
  }

  /** Some list of parts in the item, under any name, holds an image. */
  predicate ItemImage(item: Json) {
    item.Obj? && exists name :: name in item.fields && HoldsImage(item.fields[name])
  }

  predicate ItemOriginal(item: Json) {
    item.Obj? && exists name :: name in item.fields && HoldsOriginal(item.fields[name])
  }

  predicate BodyImage(body: Fields) {
    && "input" in body && body["input"].Arr?
    && exists k :: 0 <= k < |body["input"].items| && ItemImage(body["input"].items[k])
  }

  predicate BodyOriginal(body: Fields) {
    && "input" in body && body["input"].Arr?
    && exists k :: 0 <= k < |body["input"].items| && ItemOriginal(body["input"].items[k])
  }

  /** The model supports every use that the body makes of it. */
  predicate Supports(m: Model, body: Fields) {
    && Lookup(body, "model") == Some(Str(m.id))
    && (var effort := Member(body, "reasoning", "effort"); effort.Some? ==>
        effort.value.Str? && effort.value.s in m.efforts)
    && (Member(body, "reasoning", "summary").Some? ==> m.summary)
    && (Member(body, "text", "verbosity").Some? ==> m.verbosity)
    && (BodyOriginal(body) ==> m.original)
    && (BodyImage(body) ==> "image" in m.modalities)
  }

  lemma PartUses(part: Json, outputText: bool, urls: Urls)
    requires PartOk(part, outputText, urls)
    ensures OriginalPart(part) <==> DetailPart(part)
  {
  }

  lemma ContentUses(v: Json, outputText: bool, urls: Urls)
    requires ContentOk(Some(v), outputText, urls)
    ensures ContentImage(Some(v)) <==> HoldsImage(v)
    ensures ContentOriginal(Some(v)) <==> HoldsOriginal(v)
  {
    if v.Arr? {
      forall k | 0 <= k < |v.items| ensures OriginalPart(v.items[k]) <==> DetailPart(v.items[k]) {
        PartUses(v.items[k], outputText, urls);
      }
    }
  }

  lemma TextPartsUseNothing(v: Json, kind: string)
    requires TextPartsOk(Some(v), kind) && kind in {"summary_text", "reasoning_text"}
    ensures !HoldsImage(v) && !HoldsOriginal(v)
  {
    forall k | 0 <= k < |v.items| ensures !ImagePart(v.items[k]) && !DetailPart(v.items[k]) {
      assert TextPartOk(v.items[k], kind);
    }
  }

  /** A field of an accepted item that is not its content holds no parts that count. */
  lemma OtherFieldUsesNothing(item: Json, urls: Urls, name: string)
    requires ItemOk(item, urls) && name in item.fields
    requires
      var kind := ItemKind(item.fields);
      !(kind == "message" && name == "content") && !(kind == "function_call_output" && name == "output")
    ensures !HoldsImage(item.fields[name]) && !HoldsOriginal(item.fields[name])
  {
    var fields := item.fields;
    var kind := ItemKind(fields);
    if kind == "reasoning" {
      if name == "summary" {
        TextPartsUseNothing(fields[name], "summary_text");
      } else if name == "content" && !fields[name].Null? {
        TextPartsUseNothing(fields[name], "reasoning_text");
      } else {
        OtherFieldOfReasoning(fields, name);
      }
    } else {
      OtherFieldIsNoList(fields, kind, urls, name);
    }
  }

  lemma OtherFieldOfReasoning(fields: Fields, name: string)
    requires ReasoningItemOk(fields) && TailOk(fields, "reasoning") && ItemKind(fields) == "reasoning"
    requires name in fields && name != "summary" && (name == "content" ==> fields[name].Null?)
    ensures !fields[name].Arr?
  {
    assert name in {"type", "id", "encrypted_content", "content", "status"};
  }

  lemma OtherFieldIsNoList(fields: Fields, kind: string, urls: Urls, name: string)
    requires KindOk(fields, kind, urls) && TailOk(fields, kind) && kind == ItemKind(fields) && kind != "reasoning"
    requires name in fields && !(kind == "message" && name == "content") &&
        !(kind == "function_call_output" && name == "output")
    ensures !fields[name].Arr?
  {
    if kind == "message" {
      assert name in {"type", "id", "role", "status", "phase"};
    } else if kind == "function_call" {
      assert name in {"type", "id", "call_id", "name", "arguments", "status"};
    } else {
      assert name in {"type", "id", "call_id", "status"};
    }
  }

  lemma ItemUses(item: Json, urls: Urls)
    requires ItemOk(item, urls)
    ensures ItemImage(item) <==> ContentImage(ItemContent(item))
    ensures ItemOriginal(item) <==> ContentOriginal(ItemContent(item))
  {
    var fields := item.fields;
    var kind := ItemKind(fields);
    var content := if kind == "message" then "content" else "output";
    if kind == "message" || kind == "function_call_output" {
      ContentUses(fields[content], kind == "message", urls);
      assert content in fields && ItemContent(item) == Some(fields[content]);
    }
    forall name | name in fields && !((kind == "message" || kind == "function_call_output") && name == content)
      ensures !HoldsImage(fields[name]) && !HoldsOriginal(fields[name])
    {
      OtherFieldUsesNothing(item, urls, name);
    }
  }

  lemma InputUses(body: Fields, urls: Urls)
    requires "input" in body && body["input"].Arr? && ItemsOk(body["input"].items, urls)
    ensures BodyImage(body) <==> InputImage(body["input"])
    ensures BodyOriginal(body) <==> InputOriginal(body["input"])
  {
    var items := body["input"].items;
    forall k | 0 <= k < |items|
      ensures (ItemImage(items[k]) <==> ContentImage(ItemContent(items[k]))) &&
          (ItemOriginal(items[k]) <==> ContentOriginal(ItemContent(items[k])))
    {
      ItemUses(items[k], urls);
    }
  }

  lemma ControlUses(fields: Fields, urls: Urls)
    requires Accepted(fields, urls) && OmitNull(fields, NULLABLE) == fields && FieldsNormal(fields) == fields
    ensures
      var effort := Member(fields, "reasoning", "effort");
      if effort.Some? then effort.value == Str(EffortOf(fields)) && EffortOf(fields) != "" else EffortOf(fields) == ""
    ensures Member(fields, "reasoning", "summary").Some? <==> Sets(fields, "reasoning", "summary")
    ensures Member(fields, "text", "verbosity").Some? <==> Sets(fields, "text", "verbosity")
  {
    if "reasoning" in fields {
      assert FieldOk("reasoning", fields["reasoning"]);
      assert FieldsNormal(fields)["reasoning"] == FieldNormal("reasoning", fields["reasoning"]);
      assert OmitNull(fields["reasoning"].fields, REASONING_NAMES) == fields["reasoning"].fields;
    }
    if "text" in fields {
      assert FieldOk("text", fields["text"]);
      assert FieldsNormal(fields)["text"] == FieldNormal("text", fields["text"]);
      assert TextNormal(fields["text"].fields) == fields["text"].fields;
    }
  }

  /** ValidateModel accepts a parsed request exactly when the model supports every use in the dispatched body. */
  lemma ValidatedIffSupported(data: Option<Json>, size: nat, urls: Urls, m: Model)
    requires Parse(data, size, urls).Some?
    ensures
      var r := Parse(data, size, urls).value;
      ValidateModel(r, m) <==> Supports(m, r.body)
  {
    var fields := OmitNull(data.value.fields, NULLABLE);
    var b := Body(fields);
    RequestOfBody(fields, urls);
    BodyAccepted(fields, urls);
    BodyAt(fields, "input");
    BodyAt(fields, "model");
    InputStable(fields["input"], urls);
    InputUses(b, urls);
    ControlUses(b, urls);
    FlagsOfBody(fields, urls);
  }

  // ----- The parser -----

  /** What one accepted field contributes to the request. */
  datatype Flags = Flags(stream: bool, omittedCap: bool, effort: string, summary: bool, verbosity: bool,
      originalImage: bool, image: bool)

  const NO_FLAGS := Flags(false, false, "", false, false, false, false)

  function FieldFlags(flags: Flags, name: string, v: Json): Flags {
    if name == "stream" then flags.(stream := v == Bool(true))
    else if name == "max_output_tokens" then flags.(omittedCap := true)
    else if name == "reasoning" then
        flags.(effort := EffortOf(map[name := v]), summary := Sets(map[name := v], name, "summary"))
    else if name == "text" then flags.(verbosity := Sets(map[name := v], name, "verbosity"))
    else flags
  }

  /** The flags once every field has been visited except those pending. */
  function FlagsWithout(fields: Fields, pending: set<string>): Flags {
    var done := fields - pending;
    Flags(Lookup(done, "stream") == Some(Bool(true)), "max_output_tokens" in done, EffortOf(done),
          Sets(done, "reasoning", "summary"), Sets(done, "text", "verbosity"), false, false)
  }

  lemma VisitField(fields: Fields, pending: set<string>, name: string)
    requires name in pending && pending <= fields.Keys
    ensures FieldFlags(FlagsWithout(fields, pending), name, fields[name]) == FlagsWithout(fields, pending - {name})
  {
    var before, after := fields - pending, fields - (pending - {name});
    assert after == before[name := fields[name]];
    assert name !in before;
  }

  predicate ImageBefore(parts: seq<Json>, n: nat)
    requires n <= |parts|
  {
    exists k :: 0 <= k < n && ImagePart(parts[k])
  }

  predicate OriginalBefore(parts: seq<Json>, n: nat)
    requires n <= |parts|
  {
    exists k :: 0 <= k < n && OriginalPart(parts[k])
  }

  lemma UsesBefore(parts: seq<Json>, n: nat)
    requires n < |parts|
    ensures ImageBefore(parts, n + 1) <==> ImageBefore(parts, n) || ImagePart(parts[n])
    ensures OriginalBefore(parts, n + 1) <==> OriginalBefore(parts, n) || OriginalPart(parts[n])
  {
  }

  lemma BadPart(parts: seq<Json>, n: nat, outputText: bool, urls: Urls)
    requires n < |parts| && !PartOk(parts[n], outputText, urls)
    ensures !PartsOk(parts, outputText, urls)
  {
  }

  lemma GoodPart(parts: seq<Json>, n: nat, outputText: bool, urls: Urls)
    requires n < |parts| && PartsOk(parts[..n], outputText, urls) && PartOk(parts[n], outputText, urls)
    ensures PartsOk(parts[..n + 1], outputText, urls)
  {
    assert forall k :: 0 <= k < n ==> parts[..n][k] == parts[k];
  }

  /** Request while ParseRequest fills it in. */
  class Parser {
    const urls: Urls
    var stream: bool
    var omittedCap: bool
    var effort: string
    var summary: bool
    var verbosity: bool
    var originalImage: bool
    var image: bool

    constructor (urls: Urls)
      ensures this.urls == urls && Snap() == NO_FLAGS
    {
      this.urls := urls;
      stream, omittedCap, effort, summary, verbosity := false, false, "", false, false;
      originalImage, image := false, false;
    }

    function Snap(): Flags
      reads this
    {
      Flags(stream, omittedCap, effort, summary, verbosity, originalImage, image)
    }

    /** The switch over one content part. */
    method ValidatePart(part: Json, outputText: bool) returns (ok: bool)
      modifies this`image, this`originalImage
      ensures ok <==> PartOk(part, outputText, urls)
      ensures ok ==>
          image == (old(image) || ImagePart(part)) && originalImage == (old(originalImage) || OriginalPart(part))
    {
      if !part.Obj? {
        return false;
      }
      var fields := part.fields;
      var kind := TypeOf(fields);
      if kind == "input_text" {
        ok := Only(fields, {"type", "text"}) && Text(fields, "text");
      } else if kind == "output_text" {
        ok := outputText && OutputTextOk(fields);
      } else if kind == "refusal" {
        ok := outputText && Only(fields, {"type", "refusal"}) && Text(fields, "refusal");
      } else if kind == "input_image" {
        image := true;
        if !Only(fields, {"type", "image_url", "detail"}) || !NonBlank(fields, "image_url") ||
            !urls(fields["image_url"].s) {
          return false;
        }
        ok := true;
        if "detail" in fields {
          ok := Enum(fields, "detail", DETAILS);
          if ok && fields["detail"].s == "original" {
            originalImage := true;
          }
        }
      } else {
        ok := false;
      }
    }

    method ValidateContent(v: Option<Json>, outputText: bool) returns (ok: bool)
      modifies this`image, this`originalImage
      ensures ok <==> ContentOk(v, outputText, urls)
      ensures ok ==>
          image == (old(image) || ContentImage(v)) && originalImage == (old(originalImage) || ContentOriginal(v))
    {
      if v.Some? && v.value.Str? {
        return true;
      }
      if v.None? || !v.value.Arr? {
        return false;
      }
      ok := ValidateParts(v.value.items, outputText);
    }

    /** validateContent's loop. */
    method ValidateParts(parts: seq<Json>, outputText: bool) returns (ok: bool)
      modifies this`image, this`originalImage
      ensures ok <==> PartsOk(parts, outputText, urls)
      ensures ok ==>
          image == (old(image) || ImageBefore(parts, |parts|)) &&
          originalImage == (old(originalImage) || OriginalBefore(parts, |parts|))
    {
      for k := 0 to |parts|
        invariant PartsOk(parts[..k], outputText, urls)
        invariant image == (old(image) || ImageBefore(parts, k)) &&
            originalImage == (old(originalImage) || OriginalBefore(parts, k))
      {
        UsesBefore(parts, k);
        ok := ValidatePart(parts[k], outputText);
        if !ok {
          BadPart(parts, k, outputText, urls);
          return;
        }
        GoodPart(parts, k, outputText, urls);
      }
      assert parts[..|parts|] == parts;
      ok := true;
    }

    method ValidateTextParts(v: Option<Json>, kind: string) returns (ok: bool)
      ensures ok <==> TextPartsOk(v, kind)
    {
      if v.None? || !v.value.Arr? {
        return false;
      }
      var parts := v.value.items;
      for k := 0 to |parts|
        invariant forall i :: 0 <= i < k ==> TextPartOk(parts[i], kind)
      {
        if !TextPartOk(parts[k], kind) {
          return false;
        }
      }
      ok := true;
    }

    /** The switch over one input item's kind. */
    method ValidateKind(fields: Fields, kind: string) returns (ok: bool)
      requires kind == ItemKind(fields)
      modifies this`image, this`originalImage
      ensures ok <==> KindOk(fields, kind, urls)
      ensures ok ==> image == (old(image) || ContentImage(ItemContent(Obj(fields))))
      ensures ok ==> originalImage == (old(originalImage) || ContentOriginal(ItemContent(Obj(fields))))
    {
      if kind == "message" {
        if !Only(fields, {"type", "id", "role", "content", "status", "phase"}) || !Enum(fields, "role", ROLES) {
          return false;
        }
        ok := ValidateContent(Lookup(fields, "content"), true);
        ok := ok && (Nothing(fields, "phase") || Enum(fields, "phase", {"commentary", "final_answer"}));
      } else if kind == "function_call" {
        ok := CallOk(fields);
      } else if kind == "function_call_output" {
        if !Only(fields, {"type", "id", "call_id", "output", "status"}) || !NonBlank(fields, "call_id") {
          return false;
        }
        ok := ValidateContent(Lookup(fields, "output"), false);
      } else if kind == "reasoning" {
        ok := ValidateReasoningItem(fields);
      } else {
        ok := false;
      }
    }

    method ValidateReasoningItem(fields: Fields) returns (ok: bool)
      ensures ok <==> ReasoningItemOk(fields)
    {
      if !Only(fields, {"type", "id", "summary", "encrypted_content", "content", "status"}) {
        return false;
      }
      if !Nothing(fields, "encrypted_content") && !Text(fields, "encrypted_content") {
        return false;
      }
      ok := ValidateTextParts(Lookup(fields, "summary"), "summary_text");
      if ok && !Nothing(fields, "content") {
        ok := ValidateTextParts(Lookup(fields, "content"), "reasoning_text");
      }
    }

    /** The body of validateInput's loop: None refuses the item. */
    method ValidateItem(item: Json) returns (r: Option<Json>)
      modifies this`image, this`originalImage
      ensures r == if ItemOk(item, urls) then Some(ItemNormal(item)) else None
      ensures r.Some? ==> image == (old(image) || ContentImage(ItemContent(item)))
      ensures r.Some? ==> originalImage == (old(originalImage) || ContentOriginal(ItemContent(item)))
    {
      if !item.Obj? {
        return None;
      }
      var fields := item.fields;
      var kind := ItemKind(fields);
      assert Obj(fields) == item;
      var ok := ValidateKind(fields, kind);
      if !ok {
        return None;
      }
      if kind == "message" && fields["role"].s == "system" {
        fields := fields["role" := Str("developer")];
      }
      if !TailOk(fields, kind) {
        return None;
      }
      r := Some(Obj(fields));
    }

    /** validateInput */
    method ValidateInput(v: Option<Json>) returns (r: Option<Json>)
      modifies this`image, this`originalImage
      ensures r.Some? <==> InputOk(v, urls)
      ensures r.Some? ==> r.value == InputNormal(v.value)
      ensures r.Some? ==>
          image == (old(image) || InputImage(v.value)) &&
          originalImage == (old(originalImage) || InputOriginal(v.value))
    {
      if v.Some? && v.value.Str? {
        return Some(Arr([UserMessage(v.value.s)]));
      }
      if v.None? || !v.value.Arr? {
        return None;
      }
      var items := v.value.items;
      ghost var given := items;
      for k := 0 to |items|
        invariant |items| == |given|
        invariant forall i :: k <= i < |items| ==> items[i] == given[i]
        invariant forall i :: 0 <= i < k ==> ItemOk(given[i], urls) && items[i] == ItemNormal(given[i])
        invariant image == (old(image) || exists i :: 0 <= i < k && ContentImage(ItemContent(given[i])))
        invariant originalImage ==
                  (old(originalImage) || exists i :: 0 <= i < k && ContentOriginal(ItemContent(given[i])))
      {
        var item := ValidateItem(items[k]);
        if item.None? {
          return None;
        }
        items := items[k := item.value];
      }
      assert items == ItemsNormal(given);
      r := Some(Arr(items));
    }

    /** validateTools */
    method ValidateTools(v: Json) returns (r: Option<Json>)
      ensures r == if ToolsOk(v) then Some(Arr(ToolsNormal(v.items))) else None
    {
      if !v.Arr? {
        return None;
      }
      var tools := v.items;
      for k := 0 to |tools|
        invariant |tools| == |v.items|
        invariant forall i :: k <= i < |tools| ==> tools[i] == v.items[i]
        invariant forall i :: 0 <= i < k ==> ToolOk(v.items[i]) && tools[i] == ToolNormal(v.items[i])
      {
        if !ToolOk(tools[k]) {
          return None;
        }
        tools := tools[k := ToolNormal(tools[k])];
      }
      assert tools == ToolsNormal(v.items);
      r := Some(Arr(tools));
    }

    /** validateReasoning */
    method ValidateReasoning(v: Json) returns (r: Option<Json>)
      requires effort == "" && !summary
      modifies this`effort, this`summary
      ensures r == if ReasoningOk(v) then Some(FieldNormal("reasoning", v)) else None
      ensures r.Some? ==>
          effort == EffortOf(map["reasoning" := v]) && summary == Sets(map["reasoning" := v], "reasoning", "summary")
    {
      if !v.Obj? || !Only(v.fields, REASONING_NAMES) {
        return None;
      }
      var fields := OmitNull(v.fields, REASONING_NAMES);
      if "effort" in fields {
        if !NonBlank(fields, "effort") {
          return None;
        }
        effort := fields["effort"].s;
      }
      if "summary" in fields {
        if !Enum(fields, "summary", {"auto", "concise", "detailed"}) {
          return None;
        }
        summary := true;
      }
      r := Some(Obj(fields));
    }

    /** validateText */
    method ValidateText(v: Json) returns (r: Option<Json>)
      requires !verbosity
      modifies this`verbosity
      ensures r == if TextOk(v) then Some(FieldNormal("text", v)) else None
      ensures r.Some? ==> verbosity == Sets(map["text" := v], "text", "verbosity")
    {
      if !v.Obj? || !Only(v.fields, {"verbosity", "format"}) {
        return None;
      }
      var fields := OmitNull(v.fields, {"verbosity"});
      if "verbosity" in fields {
        if !Enum(fields, "verbosity", {"low", "medium", "high"}) {
          return None;
        }
        verbosity := true;
      }
      if "format" in fields {
        if !FormatOk(fields["format"]) {
          return None;
        }
        fields := fields["format" := FormatNormal(fields["format"])];
      }
      r := Some(Obj(fields));
    }

    /** The switch of ParseRequest's loop. */
    method ValidateField(name: string, v: Json) returns (r: Option<Json>)
      requires effort == "" || name != "reasoning"
      requires !summary || name != "reasoning"
      requires !verbosity || name != "text"
      modifies this
      ensures r == if FieldOk(name, v) then Some(FieldNormal(name, v)) else None
      ensures r.Some? ==> Snap() == FieldFlags(old(Snap()), name, v)
    {
      if name == "tools" {
        r := ValidateTools(v);
      } else if name == "reasoning" {
        r := ValidateReasoning(v);
      } else if name == "text" {
        r := ValidateText(v);
      } else {
        if !FieldOk(name, v) {
          return None;
        }
        if name == "stream" {
          stream := v.b;
        } else if name == "max_output_tokens" {
          omittedCap := true;
        }
        r := Some(v);
      }
    }

    /**
     ParseRequest's loop over the fields map. Each turn takes any pending field, so the result holds
     for every order in which the map may be iterated.
     */
    method ValidateFields(given: Fields) returns (r: Option<Fields>)
      requires Snap() == NO_FLAGS
      modifies this
      ensures r == if FieldsOk(given) then Some(FieldsNormal(given)) else None
      ensures r.Some? ==> Snap() == FlagsWithout(given, {})
    {
      var fields := given;
      var pending := fields.Keys;
      assert given - pending == map[];
      while pending != {}
        invariant pending <= given.Keys && fields.Keys == given.Keys
        invariant forall name :: name in given ==>
                    fields[name] == if name in pending then given[name] else FieldNormal(name, given[name])
        invariant forall name :: name in given && name !in pending ==> FieldOk(name, given[name])
        invariant Snap() == FlagsWithout(given, pending)
        decreases pending
      {
        var name :| name in pending;
        VisitField(given, pending, name);
        var v := ValidateField(name, fields[name]);
        if v.None? {
          return None;
        }
        fields := fields[name := v.value];
        pending := pending - {name};
      }
      assert fields == FieldsNormal(given);
      r := Some(fields);
    }

    /** ParseRequest, of a request that no field has been read into. */
    method ParseRequest(data: Option<Json>, size: nat) returns (r: Option<Request>)
      requires Snap() == NO_FLAGS
      modifies this
      ensures r == Parse(data, size, urls)
    {
      if size > MAX_PAYLOAD || data.None? || !data.value.Obj? || !Only(data.value.fields, REQUEST_NAMES) {
        return None;
      }
      var fields := OmitNull(data.value.fields, NULLABLE);
      ghost var given := fields;
      assert fields.Keys <= data.value.fields.Keys;
      var model := TextValue(Lookup(fields, "model"), false);
      if model.None? {
        return None;
      }
      var checked := ValidateFields(fields);
      if checked.None? {
        return None;
      }
      var input := ValidateInput(Lookup(fields, "input"));
      if input.None? {
        return None;
      }
      assert given - {} == given;
      var body := checked.value["input" := input.value];
      body := body["stream" := Bool(true)]["store" := Bool(false)] - {"max_output_tokens"};
      r := Some(Request(body, model.value, stream, omittedCap, effort, summary, verbosity, originalImage, image));
    }
  }
}
