/**
 The accepted requests as a grammar: for each kind of object a table of what its members may hold and which of
 them it needs. Parsing accepts exactly these requests.
 */
module RequestGrammar {
  import opened Common
  import opened Json
  import opened RequestNormalization

  // ----- Values -----

  predicate Words(v: Json) {
    v.Str? && !Blank(v.s)
  }

  predicate OneOf(v: Json, names: set<string>) {
    v.Str? && v.s in names
  }

  predicate OrNull(v: Json, ok: bool) {
    v.Null? || ok
  }

  /** The text of a member; "" when it is absent or no text. */
  function TextAt(fields: Fields, name: string): string {
    if name in fields && fields[name].Str? then fields[name].s else ""
  }

  // ----- Content -----

  predicate PartMember(kind: string, name: string, v: Json, urls: Urls) {
    || (name == "type" && v == Str(kind))
    || match kind {
         case "input_text" => name == "text" && v.Str?
         case "output_text" =>
           || (name == "text" && v.Str?)
           || (name == "annotations" && v.Arr?)
           || (name == "logprobs" && OrNull(v, v.Arr?))
         case "refusal" => name == "refusal" && v.Str?
         case "input_image" =>
           || (name == "image_url" && Words(v) && urls(v.s))
           || (name == "detail" && OneOf(v, {"auto", "low", "high", "original"}))
         case _ => name == "text" && v.Str?
       }
  }

  function PartNeeds(kind: string): set<string> {
    {"type", if kind == "refusal" then "refusal" else if kind == "input_image" then "image_url" else "text"}
  }

  /** A part of one of the kinds, with the members that it needs and no others than it may have. */
  predicate PartFits(part: Json, kinds: set<string>, urls: Urls) {
    && part.Obj? && TextAt(part.fields, "type") in kinds
    && var kind := TextAt(part.fields, "type");
    && PartNeeds(kind) <= part.fields.Keys
    && forall name :: name in part.fields ==> PartMember(kind, name, part.fields[name], urls)
  }

  predicate PartsFit(v: Json, kinds: set<string>, urls: Urls) {
    v.Arr? && forall k :: 0 <= k < |v.items| ==> PartFits(v.items[k], kinds, urls)
  }

  const MESSAGE_PARTS := {"input_text", "input_image", "output_text", "refusal"}
  const OUTPUT_PARTS := {"input_text", "input_image"}

  lemma NotBlank(s: string)
    requires s != "" && !IsSpace(s[0])
    ensures !Blank(s)
  {
  }

  lemma InputTextIff(part: Json, urls: Urls)
    requires part.Obj? && TextAt(part.fields, "type") == "input_text"
    ensures PartFits(part, OUTPUT_PARTS, urls) <==> PartOk(part, true, urls)
    ensures PartOk(part, false, urls) == PartOk(part, true, urls)
  {
    NotBlank("input_text");
    assert TypeOf(part.fields) == "input_text";
  }

  lemma OutputTextIff(part: Json, urls: Urls)
    requires part.Obj? && TextAt(part.fields, "type") == "output_text"
    ensures PartFits(part, MESSAGE_PARTS, urls) <==> PartOk(part, true, urls)
    ensures !PartOk(part, false, urls)
  {
    NotBlank("output_text");
    assert TypeOf(part.fields) == "output_text";
  }

  lemma RefusalIff(part: Json, urls: Urls)
    requires part.Obj? && TextAt(part.fields, "type") == "refusal"
    ensures PartFits(part, MESSAGE_PARTS, urls) <==> PartOk(part, true, urls)
    ensures !PartOk(part, false, urls)
  {
    NotBlank("refusal");
    assert TypeOf(part.fields) == "refusal";
  }

  lemma ImageFits(part: Json, urls: Urls)
    requires part.Obj? && TextAt(part.fields, "type") == "input_image"
    ensures PartFits(part, OUTPUT_PARTS, urls) <==> ImageOk(part.fields, urls)
  {
    if "detail" in part.fields {
      DetailsNotBlank();
    }
  }

  lemma ImageIff(part: Json, urls: Urls)
    requires part.Obj? && TextAt(part.fields, "type") == "input_image"
    ensures PartFits(part, OUTPUT_PARTS, urls) <==> PartOk(part, true, urls)
    ensures PartOk(part, false, urls) == PartOk(part, true, urls)
  {
    NotBlank("input_image");
    assert TypeOf(part.fields) == "input_image";
    ImageFits(part, urls);
  }

  lemma DetailsNotBlank()
    ensures forall s :: s in DETAILS ==> !Blank(s)
  {
    NotBlank("auto");
    NotBlank("low");
    NotBlank("high");
    NotBlank("original");
  }

  lemma PartIff(part: Json, outputText: bool, urls: Urls)
    ensures PartOk(part, outputText, urls) <==>
            PartFits(part, if outputText then MESSAGE_PARTS else OUTPUT_PARTS, urls)
  {
    if part.Obj? {
      var kind := TextAt(part.fields, "type");
      if kind == "input_text" {
        InputTextIff(part, urls);
      } else if kind == "output_text" {
        OutputTextIff(part, urls);
      } else if kind == "refusal" {
        RefusalIff(part, urls);
      } else if kind == "input_image" {
        ImageIff(part, urls);
      }
    }
  }

  predicate ContentFits(v: Json, kinds: set<string>, urls: Urls) {
    v.Str? || PartsFit(v, kinds, urls)
  }

  lemma ContentIff(v: Json, outputText: bool, urls: Urls)
    ensures ContentOk(Some(v), outputText, urls) <==>
            ContentFits(v, if outputText then MESSAGE_PARTS else OUTPUT_PARTS, urls)
  {
    if v.Arr? {
      forall k | 0 <= k < |v.items|
        ensures PartOk(v.items[k], outputText, urls) <==>
                PartFits(v.items[k], if outputText then MESSAGE_PARTS else OUTPUT_PARTS, urls)
      {
        PartIff(v.items[k], outputText, urls);
      }
    }
  }

  lemma TextPartIff(part: Json, kind: string, urls: Urls)
    requires kind in {"summary_text", "reasoning_text"}
    ensures TextPartOk(part, kind) <==> PartFits(part, {kind}, urls)
  {
    NotBlank("summary_text");
    NotBlank("reasoning_text");
  }

  lemma TextPartsIff(v: Json, kind: string, urls: Urls)
    requires kind in {"summary_text", "reasoning_text"}
    ensures TextPartsOk(Some(v), kind) <==> PartsFit(v, {kind}, urls)
  {
    if v.Arr? {
      forall k | 0 <= k < |v.items| ensures TextPartOk(v.items[k], kind) <==> PartFits(v.items[k], {kind}, urls) {
        TextPartIff(v.items[k], kind, urls);
      }
    }
  }

  // ----- Input items -----

  predicate ItemMember(kind: string, name: string, v: Json, urls: Urls) {
    || (name == "type" && v == Str(kind))
    || (name == "id" && (Words(v) || (kind == "function_call_output" && v.Null?)))
    || (name == "status" && (OneOf(v, {"in_progress", "completed", "incomplete"}) || (kind != "message" && v.Null?)))
    || match kind {
         case "message" =>
           || (name == "role" && OneOf(v, {"user", "assistant", "system", "developer"}))
           || (name == "content" && ContentFits(v, MESSAGE_PARTS, urls))
           || (name == "phase" && OrNull(v, OneOf(v, {"commentary", "final_answer"})))
         case "function_call" => (name in {"call_id", "name"} && Words(v)) || (name == "arguments" && v.Str?)
         case "function_call_output" =>
           || (name == "call_id" && Words(v))
           || (name == "output" && ContentFits(v, OUTPUT_PARTS, urls))
         case _ =>
           || (name == "summary" && PartsFit(v, {"summary_text"}, urls))
           || (name == "encrypted_content" && OrNull(v, v.Str?))
           || (name == "content" && OrNull(v, PartsFit(v, {"reasoning_text"}, urls)))
       }
  }

  const KINDS := {"message", "function_call", "function_call_output", "reasoning"}

  function ItemNeeds(kind: string): set<string> {
    if kind == "message" then {"role", "content"}
    else if kind == "function_call" then {"call_id", "name", "arguments"}
    else if kind == "function_call_output" then {"call_id", "output"}
    else {"summary"}
  }

  predicate KindFits(fields: Fields, kind: string, urls: Urls) {
    && ItemNeeds(kind) <= fields.Keys
    && forall name :: name in fields ==> ItemMember(kind, name, fields[name], urls)
  }

  /** An item of one of the kinds; one without a type is a message. */
  predicate ItemFits(item: Json, urls: Urls) {
    && item.Obj?
    && var kind := if "type" in item.fields then TextAt(item.fields, "type") else "message";
    && kind in KINDS && KindFits(item.fields, kind, urls)
  }

  predicate InputFits(v: Json, urls: Urls) {
    v.Str? || (v.Arr? && forall k :: 0 <= k < |v.items| ==> ItemFits(v.items[k], urls))
  }

  lemma StatusesNotBlank()
    ensures forall s :: s in STATUSES ==> !Blank(s)
  {
    NotBlank("in_progress");
    NotBlank("completed");
    NotBlank("incomplete");
  }

  lemma RolesNotBlank()
    ensures forall s :: s in ROLES ==> !Blank(s)
  {
    NotBlank("user");
    NotBlank("assistant");
    NotBlank("system");
    NotBlank("developer");
  }

  lemma KindsNotBlank()
    ensures forall s :: s in KINDS ==> !Blank(s)
  {
    NotBlank("message");
    NotBlank("function_call");
    NotBlank("function_call_output");
    NotBlank("reasoning");
  }

  predicate KindIs(fields: Fields, kind: string) {
    kind in KINDS && (if "type" in fields then fields["type"] == Str(kind) else kind == "message")
  }

  lemma PhasesNotBlank()
    ensures !Blank("commentary") && !Blank("final_answer")
  {
    NotBlank("commentary");
    NotBlank("final_answer");
  }

  lemma MessageFits(fields: Fields, urls: Urls)
    requires KindIs(fields, "message") && MessageOk(fields, urls) && TailOk(fields, "message")
    ensures KindFits(fields, "message", urls)
  {
    ContentIff(fields["content"], true, urls);
  }

  lemma FittingMessage(fields: Fields, urls: Urls)
    requires KindIs(fields, "message") && KindFits(fields, "message", urls)
    ensures MessageOk(fields, urls) && TailOk(fields, "message")
  {
    StatusesNotBlank();
    RolesNotBlank();
    PhasesNotBlank();
    ContentIff(fields["content"], true, urls);
  }

  lemma MessageIff(fields: Fields, urls: Urls)
    requires KindIs(fields, "message")
    ensures MessageOk(fields, urls) && TailOk(fields, "message") <==> KindFits(fields, "message", urls)
  {
    if KindFits(fields, "message", urls) {
      FittingMessage(fields, urls);
    } else if MessageOk(fields, urls) && TailOk(fields, "message") {
      MessageFits(fields, urls);
    }
  }

  lemma CallIff(fields: Fields, urls: Urls)
    requires KindIs(fields, "function_call")
    ensures CallOk(fields) && TailOk(fields, "function_call") <==> KindFits(fields, "function_call", urls)
  {
    StatusesNotBlank();
  }

  lemma CallOutputIff(fields: Fields, urls: Urls)
    requires KindIs(fields, "function_call_output")
    ensures CallOutputOk(fields, urls) && TailOk(fields, "function_call_output") <==>
            KindFits(fields, "function_call_output", urls)
  {
    StatusesNotBlank();
    if "output" in fields {
      ContentIff(fields["output"], false, urls);
    }
  }

  lemma ReasoningIff(fields: Fields, urls: Urls)
    requires KindIs(fields, "reasoning")
    ensures ReasoningItemOk(fields) && TailOk(fields, "reasoning") <==> KindFits(fields, "reasoning", urls)
  {
    StatusesNotBlank();
    if "summary" in fields {
      TextPartsIff(fields["summary"], "summary_text", urls);
    }
    if "content" in fields {
      TextPartsIff(fields["content"], "reasoning_text", urls);
    }
  }

  lemma ItemIff(item: Json, urls: Urls)
    ensures ItemOk(item, urls) <==> ItemFits(item, urls)
  {
    if item.Obj? {
      KindsNotBlank();
      var fields, kind := item.fields, ItemKind(item.fields);
      if KindIs(fields, kind) {
        if kind == "message" {
          MessageIff(fields, urls);
        } else if kind == "function_call" {
          CallIff(fields, urls);
        } else if kind == "function_call_output" {
          CallOutputIff(fields, urls);
        } else {
          ReasoningIff(fields, urls);
        }
      }
    }
  }

  lemma InputIff(v: Json, urls: Urls)
    ensures InputOk(Some(v), urls) <==> InputFits(v, urls)
  {
    if v.Arr? {
      forall k | 0 <= k < |v.items| ensures ItemOk(v.items[k], urls) <==> ItemFits(v.items[k], urls) {
        ItemIff(v.items[k], urls);
      }
    }
  }

  // ----- Controls -----

  predicate ToolMember(name: string, v: Json) {
    match name
    case "type" => v == Str("function")
    case "name" => Words(v)
    case "description" => OrNull(v, v.Str?)
    case "parameters" => OrNull(v, v.Obj?)
    case "strict" => OrNull(v, v.Bool?)
    case _ => false
  }

  predicate ToolFits(v: Json) {
    v.Obj? && {"type", "name"} <= v.fields.Keys && forall name :: name in v.fields ==> ToolMember(name, v.fields[name])
  }

  predicate ToolChoiceFits(v: Json) {
    || OneOf(v, {"auto", "none", "required"})
    || (v.Obj? && v.fields.Keys == {"type", "name"} && v.fields["type"] == Str("function") && Words(v.fields["name"]))
  }

  predicate ReasoningFits(v: Json) {
    v.Obj? && forall name :: name in v.fields ==>
      || (name == "effort" && OrNull(v.fields[name], Words(v.fields[name])))
      || (name == "summary" && OrNull(v.fields[name], OneOf(v.fields[name], {"auto", "concise", "detailed"})))
  }

  predicate SchemaMember(name: string, v: Json) {
    match name
    case "type" => v == Str("json_schema")
    case "name" => Words(v)
    case "schema" => v.Obj?
    case "description" => v.Str?
    case "strict" => OrNull(v, v.Bool?)
    case _ => false
  }

  predicate FormatFits(v: Json) {
    || v == Obj(map["type" := Str("text")])
    || v == Obj(map["type" := Str("json_object")])
    || (v.Obj? && {"type", "name", "schema"} <= v.fields.Keys &&
        forall name :: name in v.fields ==> SchemaMember(name, v.fields[name]))
  }

  predicate TextFits(v: Json) {
    v.Obj? && forall name :: name in v.fields ==>
      || (name == "verbosity" && OrNull(v.fields[name], OneOf(v.fields[name], {"low", "medium", "high"})))
      || (name == "format" && FormatFits(v.fields[name]))
  }

  lemma ToolIff(v: Json)
    ensures ToolOk(v) <==> ToolFits(v)
  {
    NotBlank("function");
  }

  lemma ToolChoiceIff(v: Json)
    ensures ToolChoiceOk(v) <==> ToolChoiceFits(v)
  {
    NotBlank("function");
  }

  lemma ReasoningControlIff(v: Json)
    ensures ReasoningOk(v) <==> ReasoningFits(v)
  {
    NotBlank("auto");
    NotBlank("concise");
    NotBlank("detailed");
  }

  lemma SchemaIff(v: Json)
    requires v.Obj? && TextAt(v.fields, "type") == "json_schema"
    ensures FormatOk(v) <==> FormatFits(v)
  {
    NotBlank("json_schema");
  }

  lemma FormatIff(v: Json)
    ensures FormatOk(v) <==> FormatFits(v)
  {
    if v.Obj? && TextAt(v.fields, "type") == "json_schema" {
      SchemaIff(v);
    } else {
      NotBlank("text");
      NotBlank("json_object");
      PlainFormat(v);
    }
  }

  /** An object whose one member is `type`. */
  lemma PlainFormat(v: Json)
    ensures v.Obj? && v.fields.Keys == {"type"} ==> v == Obj(map["type" := v.fields["type"]])
  {
  }

  lemma TextControlIff(v: Json)
    ensures TextOk(v) <==> TextFits(v)
  {
    NotBlank("low");
    NotBlank("medium");
    NotBlank("high");
    if v.Obj? && "format" in v.fields {
      FormatIff(v.fields["format"]);
    }
  }

  // ----- The request -----

  predicate RequestMember(name: string, v: Json, urls: Urls) {
    match name
    case "model" => Words(v)
    case "input" => InputFits(v, urls)
    case "instructions" => OrNull(v, v.Str?)
    case "prompt_cache_key" => OrNull(v, v.Str?)
    case "stream" => OrNull(v, v.Bool?)
    case "parallel_tool_calls" => OrNull(v, v.Bool?)
    case "store" => OrNull(v, v == Bool(false))
    case "background" => OrNull(v, v == Bool(false))
    case "max_output_tokens" => OrNull(v, v.Int? && 1 <= v.n <= MAX_INT64)
    case "reasoning" => OrNull(v, ReasoningFits(v))
    case "include" =>
      OrNull(v, v.Arr? && forall k :: 0 <= k < |v.items| ==> v.items[k] == Str("reasoning.encrypted_content"))
    case "tools" => v.Arr? && forall k :: 0 <= k < |v.items| ==> ToolFits(v.items[k])
    case "tool_choice" => ToolChoiceFits(v)
    case "text" => TextFits(v)
    case _ => false
  }

  predicate RequestFits(fields: Fields, urls: Urls) {
    {"model", "input"} <= fields.Keys && forall name :: name in fields ==> RequestMember(name, fields[name], urls)
  }

  lemma ToolsIff(v: Json)
    ensures ToolsOk(v) <==> (v.Arr? && forall k :: 0 <= k < |v.items| ==> ToolFits(v.items[k]))
  {
    if v.Arr? {
      forall k | 0 <= k < |v.items| ensures ToolOk(v.items[k]) <==> ToolFits(v.items[k]) {
        ToolIff(v.items[k]);
      }
    }
  }

  /** The checks of one member, null included. */
  lemma MemberIff(name: string, v: Json, urls: Urls)
    requires name !in {"model", "input"}
    ensures RequestMember(name, v, urls) <==>
            name in REQUEST_NAMES && ((name in NULLABLE && v.Null?) || FieldOk(name, v))
  {
    if name == "tools" {
      ToolsIff(v);
    } else if name == "tool_choice" {
      ToolChoiceIff(v);
    } else if name == "reasoning" {
      ReasoningControlIff(v);
    } else if name == "text" {
      TextControlIff(v);
    }
  }

  lemma FitsIsAccepted(given: Fields, urls: Urls)
    requires RequestFits(given, urls)
    ensures Only(given, REQUEST_NAMES) && Accepted(OmitNull(given, NULLABLE), urls)
  {
    var fields := OmitNull(given, NULLABLE);
    forall name | name in given
      ensures name in REQUEST_NAMES && (name in fields ==> FieldOk(name, fields[name]))
    {
      assert RequestMember(name, given[name], urls);
      if name !in {"model", "input"} {
        MemberIff(name, given[name], urls);
      }
    }
    assert RequestMember("model", given["model"], urls) && RequestMember("input", given["input"], urls);
    InputIff(given["input"], urls);
  }

  lemma AcceptedFits(given: Fields, urls: Urls)
    requires Only(given, REQUEST_NAMES) && Accepted(OmitNull(given, NULLABLE), urls)
    ensures RequestFits(given, urls)
  {
    var fields := OmitNull(given, NULLABLE);
    assert "model" in fields && "input" in fields;
    InputIff(given["input"], urls);
    forall name | name in given ensures RequestMember(name, given[name], urls) {
      if name !in {"model", "input"} {
        MemberIff(name, given[name], urls);
        assert name in fields || (name in NULLABLE && given[name].Null?);
      }
    }
  }

  /** Parsing accepts exactly the objects of at most 16 MiB that the grammar describes. */
  lemma AcceptsTheGrammar(data: Option<Json>, size: nat, urls: Urls)
    ensures Parse(data, size, urls).Some? <==>
            size <= 16 * 1024 * 1024 && data.Some? && data.value.Obj? && RequestFits(data.value.fields, urls)
  {
    if data.Some? && data.value.Obj? {
      if RequestFits(data.value.fields, urls) {
        FitsIsAccepted(data.value.fields, urls);
      }
      if Only(data.value.fields, REQUEST_NAMES) && Accepted(OmitNull(data.value.fields, NULLABLE), urls) {
        AcceptedFits(data.value.fields, urls);
      }
    }
  }
}
