/**
 The reader of one provider stream: it keeps finished output items, folds usage counters, assembles
 the terminal response, and after its first terminal event or error answers every read alike.
 */
module StreamAssembly {
  import opened Common
  import opened Json

  /** What the stream cannot see: how error details classify, and whether closing the body fails. */
  datatype Env = Env(classify: Option<Json> -> Category, message: Category -> string, closeFails: bool)

  /** One server-sent event: its event name, its data when that is JSON, and the byte length of its item. */
  datatype Frame = Frame(name: string, data: Option<Json>, itemLength: nat)

  datatype Item = Item(value: Json, length: nat)

  datatype Counter = Unknown | Known(tokens: nat)
  datatype Usage = Usage(input: Counter, output: Counter, total: Counter)

  /** A failure joined with a failed close of the body; nil when it holds neither. */
  datatype Error = Error(failure: Option<Category>, cleanup: bool)

  const NIL := Error(None, false)

  datatype State = State(
    ended: bool, err: Error, closed: bool, items: map<nat, Item>, itemBytes: int,
    response: Option<Json>, status: string, usage: Usage)

  const INITIAL := State(false, NIL, false, map[], 0, None, "", Usage(Unknown, Unknown, Unknown))

  /** What a read returns. */
  datatype Out = Event(raw: Json) | Failed(err: Error) | Eof

  datatype Input = Read(frame: Frame) | Broken(category: Category) | CloseBody | Close(category: Category)

  // ----- One event -----

  predicate TerminalKind(kind: string) {
    kind in {"response.completed", "response.incomplete", "response.failed"}
  }

  /** The event's fields and kind, when it is an object whose type is text and agrees with the event name. */
  function Decode(f: Frame): Option<(Fields, string)> {
    var fields := ObjectValue(f.data);
    if fields.None? then None
    else
      var kind := TextValue(Lookup(fields.value, "type"), false);
      if kind.None? || (f.name != "" && f.name != kind.value) then None else Some((fields.value, kind.value))
  }

  /** The usage object of the event, if it carries one; Err when it is malformed. */
  function UsageFields(fields: Fields): Result<Fields, ()> {
    if "response" !in fields then Ok(map[])
    else if !fields["response"].Obj? then Err(())
    else
      var raw := Lookup(fields["response"].fields, "usage");
      if raw.None? || raw.value.Null? then Ok(map[])
      else if raw.value.Obj? then Ok(raw.value.fields) else Err(())
  }

  function CountIn(usage: Fields, name: string): Option<nat> {
    if name in usage then CountValue(usage[name]) else None
  }

  predicate MalformedCount(usage: Fields, name: string) {
    name in usage && !usage[name].Null? && CountValue(usage[name]).None?
  }

  function Count(previous: Counter, usage: Fields, name: string): Counter {
    var c := CountIn(usage, name);
    if c.Some? then Known(c.value) else previous
  }

  function Observe(u: Usage, usage: Fields): Usage {
    Usage(Count(u.input, usage, "input_tokens"), Count(u.output, usage, "output_tokens"),
        Count(u.total, usage, "total_tokens"))
  }

  predicate Malformed(usage: Fields) {
    || MalformedCount(usage, "input_tokens")
    || MalformedCount(usage, "output_tokens")
    || MalformedCount(usage, "total_tokens")
  }

  /** The index and item of an output_item.done event. */
  function ItemIn(fields: Fields, length: nat): Option<(nat, Item)> {
    var index := Lookup(fields, "output_index");
    var item := ObjectValue(Lookup(fields, "item"));
    if index.None? || CountValue(index.value).None? || item.None? ||
        TextValue(Lookup(item.value, "type"), false).None? then None
    else Some((index.value.n, Item(fields["item"], length)))
  }

  predicate OutputItem(v: Json) {
    v.Obj? && TextValue(Lookup(v.fields, "type"), false).Some?
  }

  predicate OutputItems(items: seq<Json>) {
    forall k :: 0 <= k < |items| ==> OutputItem(items[k])
  }

  function Largest(keys: set<nat>): (k: nat)
    requires keys != {}
    ensures k in keys && forall j :: j in keys ==> j <= k
  {
    HasLargest(keys);
    var k :| k in keys && forall j :: j in keys ==> j <= k;
    k
  }

  lemma {:induction false} HasLargest(keys: set<nat>)
    requires keys != {}
    ensures exists k :: k in keys && forall j :: j in keys ==> j <= k
  {
    var k :| k in keys;
    if keys != {k} {
      HasLargest(keys - {k});
      var m :| m in keys - {k} && forall j :: j in keys - {k} ==> j <= m;
      assert forall j :: j in keys ==> j == k || j in keys - {k};
      assert if k < m then m in keys && forall j :: j in keys ==> j <= m else forall j :: j in keys ==> j <= k;
    }
  }

  /** `slices.Sorted(maps.Keys(m))` */
  function Ascending(keys: set<nat>): seq<nat> {
    if keys == {} then [] else Ascending(keys - {Largest(keys)}) + [Largest(keys)]
  }

  lemma {:induction false} AscendingMembers(keys: set<nat>, k: nat)
    ensures k in Ascending(keys) <==> k in keys
  {
    if keys != {} {
      AscendingMembers(keys - {Largest(keys)}, k);
    }
  }

  lemma {:induction false} AscendingSorted(keys: set<nat>, i: nat, j: nat)
    requires i < j < |Ascending(keys)|
    ensures Ascending(keys)[i] < Ascending(keys)[j]
  {
    var init := Ascending(keys - {Largest(keys)});
    if j < |init| {
      AscendingSorted(keys - {Largest(keys)}, i, j);
    } else {
      assert init[i] in init;
      AscendingMembers(keys - {Largest(keys)}, init[i]);
    }
  }

  /** The kept items at the given indexes. */
  function Values(items: map<nat, Item>, indexes: seq<nat>): seq<Json> {
    if indexes == [] then []
    else
      var k := indexes[|indexes| - 1];
      Values(items, indexes[..|indexes| - 1]) + [if k in items then items[k].value else Null]
  }

  function InOrder(items: map<nat, Item>): seq<Json> {
    Values(items, Ascending(items.Keys))
  }

  lemma {:induction false} ValuesAt(items: map<nat, Item>, indexes: seq<nat>, k: nat)
    ensures |Values(items, indexes)| == |indexes|
    ensures k < |indexes| && indexes[k] in items ==> Values(items, indexes)[k] == items[indexes[k]].value
  {
    if indexes != [] {
      ValuesAt(items, indexes[..|indexes| - 1], k);
    }
  }

  /** terminal's checks of the response it closes. */
  predicate TerminalOk(response: Fields, status: string) {
    && TextValue(Lookup(response, "id"), false).Some?
    && ("status" in response ==> response["status"] == Str(status))
    && ("output" in response ==> response["output"].Arr? && OutputItems(response["output"].items))
  }

  /** The terminal response: its status filled in, kept items for an empty output, a failure's error cleaned. */
  function Assemble(env: Env, items: map<nat, Item>, response: Fields, status: string): Fields {
    var r1 := response["status" := Str(status)];
    var r2 := if "output" in response && response["output"] != Arr([]) then r1 else r1["output" := Arr(InOrder(items))];
    if status == "failed" then r2["error" := SafeError(env, Lookup(response, "error"))] else r2
  }

  function SafeError(env: Env, detail: Option<Json>): Json {
    var category := env.classify(detail);
    Obj(map["code" := Str(category), "message" := Str(env.message(category))])
  }

  function CleanError(env: Env, fields: Fields): Json
    requires "type" in fields
  {
    var category := env.classify(ErrorDetail(fields));
    var clean := map[
      "type" := fields["type"], "code" := Str(category), "message" := Str(env.message(category)), "param" := Null];
    var sequence := Lookup(fields, "sequence_number");
    Obj(if sequence.Some? && CountValue(sequence.value).Some? then clean["sequence_number" := sequence.value]
        else clean)
  }

  function ErrorDetail(fields: Fields): Option<Json> {
    Some(if "error" in fields then fields["error"] else Obj(fields))
  }

  // ----- The stream as a step function -----

  function Finished(env: Env, s: State, failure: Option<Category>): State {
    s.(ended := true, closed := true, err := Error(failure, env.closeFails), items := map[])
  }

  function BadEventStep(env: Env, s: State): (State, Out) {
    var t := Finished(env, s, Some(INVALID_RESPONSE));
    (t, Failed(t.err))
  }

  function Later(s: State): Out {
    if s.err != NIL then Failed(s.err) else Eof
  }

  function LengthAt(items: map<nat, Item>, index: nat): nat {
    if index in items then items[index].length else 0
  }

  function KeepItemStep(env: Env, s: State, fields: Fields, length: nat): (State, Out) {
    var item := ItemIn(fields, length);
    if item.None? then BadEventStep(env, s)
    else
      var (index, x) := item.value;
      var t := s.(itemBytes := s.itemBytes + x.length - LengthAt(s.items, index));
      if t.itemBytes > MAX_PAYLOAD then BadEventStep(env, t)
      else (t.(items := s.items[index := x]), Event(Obj(fields)))
  }

  function StatusOf(kind: string): string
    requires TerminalKind(kind)
  {
    kind[|"response."|..]
  }

  function TerminalStep(env: Env, s: State, fields: Fields, kind: string): (State, Out)
    requires TerminalKind(kind)
  {
    var status := StatusOf(kind);
    var response := ObjectValue(Lookup(fields, "response"));
    if response.None? || !TerminalOk(response.value, status) then BadEventStep(env, s)
    else
      var assembled := Obj(Assemble(env, s.items, response.value, status));
      var failure := if status == "failed" then Some(env.classify(Lookup(response.value, "error"))) else None;
      (Finished(env, s.(response := Some(assembled), status := status), failure),
          Event(Obj(fields["response" := assembled])))
  }

  function DispatchStep(env: Env, s: State, fields: Fields, kind: string, length: nat): (State, Out)
    requires "type" in fields
  {
    if kind == "response.output_item.done" then KeepItemStep(env, s, fields, length)
    else if TerminalKind(kind) then TerminalStep(env, s, fields, kind)
    else if kind == "error" then
        (Finished(env, s, Some(env.classify(ErrorDetail(fields)))), Event(CleanError(env, fields)))
    else (s, Event(Obj(fields)))
  }

  function Observed(s: State, f: Frame): State {
    var d := Decode(f);
    if d.None? then s
    else
      var usage := UsageFields(d.value.0);
      if usage.Err? then s else s.(usage := Observe(s.usage, usage.value))
  }

  predicate Readable(f: Frame) {
    var d := Decode(f);
    d.Some? && var usage := UsageFields(d.value.0); usage.Ok? && !Malformed(usage.value)
  }

  function NextStep(env: Env, s: State, f: Frame): (State, Out) {
    if s.ended then (s, Later(s))
    else
      var t := Observed(s, f);
      if !Readable(f) then BadEventStep(env, t)
      else DispatchStep(env, t, Decode(f).value.0, Decode(f).value.1, f.itemLength)
  }

  function BrokenStep(env: Env, s: State, category: Category): (State, Out) {
    if s.ended then (s, Later(s))
    else
      var t := Finished(env, s, Some(category));
      (t, Failed(t.err))
  }

  function Closed(s: State, category: Category): State {
    s.(closed := true, items := map[], ended := true, err := if s.ended then s.err else Error(Some(category), false))
  }

  function Apply(env: Env, s: State, e: Input): State {
    match e
    case Read(f) => NextStep(env, s, f).0
    case Broken(category) => BrokenStep(env, s, category).0
    case CloseBody => s.(closed := true)
    case Close(category) => Closed(s, category)
  }

  /** What the read of a step returns; None for a close. */
  function OutOf(env: Env, s: State, e: Input): Option<Out> {
    match e
    case Read(f) => Some(NextStep(env, s, f).1)
    case Broken(category) => Some(BrokenStep(env, s, category).1)
    case _ => None
  }

  function Run(env: Env, inputs: seq<Input>): State {
    if inputs == [] then INITIAL else Apply(env, Run(env, inputs[..|inputs| - 1]), inputs[|inputs| - 1])
  }

  function OutAt(env: Env, inputs: seq<Input>, k: nat): Option<Out>
    requires k < |inputs|
  {
    OutOf(env, Run(env, inputs[..k]), inputs[k])
  }

  // ----- The history that an open stream and its usage are folds of -----

  /** The frames that reads took from the body: those before the end. */
  function Taken(env: Env, inputs: seq<Input>): seq<Frame> {
    if inputs == [] then []
    else
      var init := inputs[..|inputs| - 1];
      Taken(env, init) +
          (if inputs[|inputs| - 1].Read? && !Run(env, init).ended then [inputs[|inputs| - 1].frame] else [])
  }

  function ItemOf(f: Frame): Option<(nat, Item)> {
    var d := Decode(f);
    if d.None? || d.value.1 != "response.output_item.done" then None else ItemIn(d.value.0, f.itemLength)
  }

  function LastItem(frames: seq<Frame>, index: nat): Option<Item> {
    if frames == [] then None
    else
      var x := ItemOf(frames[|frames| - 1]);
      if x.Some? && x.value.0 == index then Some(x.value.1) else LastItem(frames[..|frames| - 1], index)
  }

  function CountOf(f: Frame, name: string): Option<nat> {
    var d := Decode(f);
    if d.None? || UsageFields(d.value.0).Err? then None else CountIn(UsageFields(d.value.0).value, name)
  }

  function LastCount(frames: seq<Frame>, name: string): Counter {
    if frames == [] then Unknown
    else
      var c := CountOf(frames[|frames| - 1], name);
      if c.Some? then Known(c.value) else LastCount(frames[..|frames| - 1], name)
  }

  /** The total length of the items of a map. */
  ghost function Total(items: map<nat, Item>): nat {
    if items == map[] then 0
    else
      var k :| k in items;
      items[k].length + Total(items - {k})
  }

  lemma {:induction false} TotalWithout(items: map<nat, Item>, k: nat)
    requires k in items
    ensures Total(items) == items[k].length + Total(items - {k})
    decreases |items|
  {
    var j :| j in items && Total(items) == items[j].length + Total(items - {j});
    if j != k {
      TotalWithout(items - {j}, k);
      TotalWithout(items - {k}, j);
      assert items - {j} - {k} == items - {k} - {j};
    }
  }

  lemma TotalUpdate(items: map<nat, Item>, k: nat, x: Item)
    ensures Total(items[k := x]) == Total(items) - LengthAt(items, k) + x.length
  {
    TotalWithout(items[k := x], k);
    if k in items {
      TotalWithout(items, k);
      assert items[k := x] - {k} == items - {k};
    } else {
      assert items[k := x] - {k} == items;
    }
  }

  // ----- What an open stream keeps -----

  ghost predicate OpenInv(s: State, frames: seq<Frame>) {
    && s.itemBytes == Total(s.items) <= MAX_PAYLOAD
    && s.err == NIL
    && forall i: nat :: Lookup(s.items, i) == LastItem(frames, i)
  }

  predicate UsageInv(s: State, frames: seq<Frame>) {
    s.usage == Usage(LastCount(frames, "input_tokens"), LastCount(frames, "output_tokens"),
        LastCount(frames, "total_tokens"))
  }

  lemma ObservedUsage(s: State, f: Frame, frames: seq<Frame>)
    requires UsageInv(s, frames)
    ensures UsageInv(Observed(s, f), frames + [f])
  {
    assert (frames + [f])[..|frames|] == frames;
  }

  lemma NextUsage(env: Env, s: State, f: Frame)
    requires !s.ended
    ensures NextStep(env, s, f).0.usage == Observed(s, f).usage
  {
  }

  lemma NextOpen(env: Env, s: State, f: Frame)
    requires !s.ended && !NextStep(env, s, f).0.ended
    ensures
      var t := NextStep(env, s, f).0;
      var x := ItemOf(f);
      && t.err == s.err
      && match x {
           case None => t.items == s.items && t.itemBytes == s.itemBytes
           case Some((i, item)) => t.items == s.items[i := item] &&
               t.itemBytes == s.itemBytes + item.length - LengthAt(s.items, i) <= MAX_PAYLOAD
         }
  {
  }

  lemma OpenStep(env: Env, s: State, f: Frame, frames: seq<Frame>)
    requires !s.ended && OpenInv(s, frames) && !NextStep(env, s, f).0.ended
    ensures OpenInv(NextStep(env, s, f).0, frames + [f])
  {
    NextOpen(env, s, f);
    var x := ItemOf(f);
    if x.Some? {
      TotalUpdate(s.items, x.value.0, x.value.1);
    }
    assert (frames + [f])[..|frames|] == frames;
  }

  /** While the stream is open its items are the last one of each index, and their bytes are counted and bounded. */
  lemma {:induction false} OpenStreamIsItsHistory(env: Env, inputs: seq<Input>)
    ensures
      var s := Run(env, inputs);
      !s.ended ==> OpenInv(s, Taken(env, inputs))
  {
    if inputs != [] {
      var n := |inputs| - 1;
      var s := Run(env, inputs[..n]);
      OpenStreamIsItsHistory(env, inputs[..n]);
      var frames := Taken(env, inputs[..n]);
      assert frames + [] == frames;
      if inputs[n].Read? && !Run(env, inputs).ended {
        OpenStep(env, s, inputs[n].frame, frames);
      }
    }
  }

  /** Each counter is the last valid value that an event carried, whether or not that event was refused. */
  lemma {:induction false} UsageIsLastValid(env: Env, inputs: seq<Input>)
    ensures UsageInv(Run(env, inputs), Taken(env, inputs))
  {
    if inputs != [] {
      var n := |inputs| - 1;
      var s := Run(env, inputs[..n]);
      UsageIsLastValid(env, inputs[..n]);
      var frames := Taken(env, inputs[..n]);
      assert frames + [] == frames;
      if inputs[n].Read? && !s.ended {
        NextUsage(env, s, inputs[n].frame);
        ObservedUsage(s, inputs[n].frame, frames);
      }
    }
  }

  /** A kept item ends the stream exactly when the kept items would pass 16 MiB. */
  lemma ItemRefusedIff(env: Env, inputs: seq<Input>, f: Frame)
    requires !Run(env, inputs).ended && Readable(f) && ItemOf(f).Some?
    ensures
      var s := Run(env, inputs);
      var (i, x) := ItemOf(f).value;
      NextStep(env, s, f).1.Failed? <==> Total(s.items[i := x]) > MAX_PAYLOAD
  {
    OpenStreamIsItsHistory(env, inputs);
    var s := Run(env, inputs);
    var (i, x) := ItemOf(f).value;
    TotalUpdate(s.items, i, x);
  }

  // ----- The terminal response -----

  predicate EmptyOutput(response: Fields) {
    "output" in response ==> response["output"] == Arr([])
  }

  /** An index list names, in ascending order, exactly the indexes that some event finished. */
  ghost predicate ListsIndexes(indexes: seq<nat>, frames: seq<Frame>) {
    && (forall i, j :: 0 <= i < j < |indexes| ==> indexes[i] < indexes[j])
    && (forall i: nat :: i in indexes <==> LastItem(frames, i).Some?)
  }

  ghost predicate IsOutput(output: seq<Json>, indexes: seq<nat>, frames: seq<Frame>) {
    && ListsIndexes(indexes, frames) && |output| == |indexes|
    && forall k :: 0 <= k < |output| ==>
        LastItem(frames, indexes[k]).Some? && output[k] == LastItem(frames, indexes[k]).value.value
  }

  lemma InOrderIsOutput(s: State, frames: seq<Frame>)
    requires OpenInv(s, frames)
    ensures IsOutput(InOrder(s.items), Ascending(s.items.Keys), frames)
  {
    var indexes := Ascending(s.items.Keys);
    forall i: nat ensures i in indexes <==> LastItem(frames, i).Some? {
      AscendingMembers(s.items.Keys, i);
      assert Lookup(s.items, i) == LastItem(frames, i);
    }
    forall i, j | 0 <= i < j < |indexes| ensures indexes[i] < indexes[j] {
      AscendingSorted(s.items.Keys, i, j);
    }
    ValuesAt(s.items, indexes, 0);
    forall k | 0 <= k < |indexes|
      ensures LastItem(frames, indexes[k]).Some? && InOrder(s.items)[k] == LastItem(frames, indexes[k]).value.value
    {
      AscendingMembers(s.items.Keys, indexes[k]);
      ValuesAt(s.items, indexes, k);
      assert Lookup(s.items, indexes[k]) == LastItem(frames, indexes[k]);
    }
  }

  /** The terminal event closes a response that passes the checks of terminal. */
  predicate AcceptableTerminal(fields: Fields, kind: string)
    requires TerminalKind(kind)
  {
    "response" in fields && fields["response"].Obj? && TerminalOk(fields["response"].fields, StatusOf(kind))
  }

  /** The assembled response and the event that carries it. */
  ghost predicate Assembled(t: State, out: Out, fields: Fields, kind: string, frames: seq<Frame>)
    requires TerminalKind(kind) && AcceptableTerminal(fields, kind)
  {
    && out.Event? && t.ended && t.response.Some? && t.response.value.Obj?
    && out.raw == Obj(fields["response" := t.response.value])
    && t.status == StatusOf(kind) && Lookup(t.response.value.fields, "status") == Some(Str(StatusOf(kind)))
    && var output := Lookup(t.response.value.fields, "output");
    && output.Some? && output.value.Arr?
    && if EmptyOutput(fields["response"].fields)
       then exists indexes :: IsOutput(output.value.items, indexes, frames)
       else output.value == fields["response"].fields["output"]
  }

  lemma AssembledFields(env: Env, items: map<nat, Item>, response: Fields, status: string)
    requires TerminalOk(response, status)
    ensures
      var r := Assemble(env, items, response, status);
      && Lookup(r, "status") == Some(Str(status))
      && Lookup(r, "output") == Some(if EmptyOutput(response) then Arr(InOrder(items)) else response["output"])
  {
  }

  lemma TerminalStepAssembles(env: Env, s: State, fields: Fields, kind: string, frames: seq<Frame>)
    requires OpenInv(s, frames) && TerminalKind(kind) && AcceptableTerminal(fields, kind)
    ensures Assembled(TerminalStep(env, s, fields, kind).0, TerminalStep(env, s, fields, kind).1, fields, kind, frames)
  {
    AssembledFields(env, s.items, fields["response"].fields, StatusOf(kind));
    InOrderIsOutput(s, frames);
  }

  lemma TerminalIsDispatched(env: Env, s: State, f: Frame)
    requires !s.ended && Readable(f) && TerminalKind(Decode(f).value.1)
    ensures NextStep(env, s, f) == TerminalStep(env, Observed(s, f), Decode(f).value.0, Decode(f).value.1)
  {
  }

  /**
   A terminal event of an open stream is refused, or closes a response; a response with no output of
   its own gets the last item of each index, in ascending index order.
   */
  lemma TerminalIsAssembled(env: Env, inputs: seq<Input>, f: Frame)
    requires !Run(env, inputs).ended && Readable(f) && TerminalKind(Decode(f).value.1)
    ensures
      var (t, out) := NextStep(env, Run(env, inputs), f);
      var (fields, kind) := Decode(f).value;
      if AcceptableTerminal(fields, kind) then Assembled(t, out, fields, kind, Taken(env, inputs))
      else out.Failed? && t.response == Run(env, inputs).response
  {
    OpenStreamIsItsHistory(env, inputs);
    TerminalAfter(env, Run(env, inputs), f, Taken(env, inputs));
  }

  lemma TerminalAfter(env: Env, s: State, f: Frame, frames: seq<Frame>)
    requires !s.ended && OpenInv(s, frames) && Readable(f) && TerminalKind(Decode(f).value.1)
    ensures
      var (t, out) := NextStep(env, s, f);
      var (fields, kind) := Decode(f).value;
      if AcceptableTerminal(fields, kind) then Assembled(t, out, fields, kind, frames)
      else out.Failed? && t.response == s.response
  {
    var (fields, kind) := Decode(f).value;
    TerminalIsDispatched(env, s, f);
    if AcceptableTerminal(fields, kind) {
      TerminalStepAssembles(env, Observed(s, f), fields, kind, frames);
    }
  }

  // ----- Ends -----

  function KindOf(raw: Json): string {
    if raw.Obj? && "type" in raw.fields && raw.fields["type"].Str? then raw.fields["type"].s else ""
  }

  predicate FinalKind(kind: string) {
    TerminalKind(kind) || kind == "error"
  }

  /** A read returned a terminal or error event, or no event. */
  predicate Final(out: Out) {
    out.Event? ==> FinalKind(KindOf(out.raw))
  }

  predicate Succeeded(out: Out) {
    out.Event? && KindOf(out.raw) in {"response.completed", "response.incomplete"}
  }

  /** How a step of an open stream may end it. */
  predicate EndsAs(env: Env, t: State, out: Out) {
    && !out.Eof?
    && (t.ended <==> Final(out))
    && (out.Event? && t.ended ==> t.err.cleanup == env.closeFails && (t.err.failure.None? <==> Succeeded(out)))
    && (out.Failed? ==> t.err == out.err && t.err != NIL)
  }

  lemma KeepItemEnds(env: Env, s: State, fields: Fields, length: nat)
    requires !s.ended && Lookup(fields, "type") == Some(Str("response.output_item.done"))
    ensures EndsAs(env, KeepItemStep(env, s, fields, length).0, KeepItemStep(env, s, fields, length).1)
  {
  }

  lemma TerminalEnds(env: Env, s: State, fields: Fields, kind: string)
    requires !s.ended && TerminalKind(kind) && Lookup(fields, "type") == Some(Str(kind))
    ensures EndsAs(env, TerminalStep(env, s, fields, kind).0, TerminalStep(env, s, fields, kind).1)
  {
  }

  lemma DispatchEnds(env: Env, s: State, fields: Fields, kind: string, length: nat)
    requires !s.ended && Lookup(fields, "type") == Some(Str(kind))
    ensures EndsAs(env, DispatchStep(env, s, fields, kind, length).0, DispatchStep(env, s, fields, kind, length).1)
  {
    if kind == "response.output_item.done" {
      KeepItemEnds(env, s, fields, length);
    } else if TerminalKind(kind) {
      TerminalEnds(env, s, fields, kind);
    }
  }

  lemma NextEnds(env: Env, s: State, f: Frame)
    requires !s.ended
    ensures EndsAs(env, NextStep(env, s, f).0, NextStep(env, s, f).1)
  {
    if Readable(f) {
      DispatchEnds(env, Observed(s, f), Decode(f).value.0, Decode(f).value.1, f.itemLength);
    }
  }

  lemma {:induction false} EndIsFixed(env: Env, inputs: seq<Input>, n: nat)
    requires n <= |inputs| && Run(env, inputs[..n]).ended
    ensures Run(env, inputs).ended && Run(env, inputs).err == Run(env, inputs[..n]).err
  {
    if n < |inputs| {
      var m := |inputs| - 1;
      assert inputs[..m][..n] == inputs[..n];
      EndIsFixed(env, inputs[..m], n);
    } else {
      assert inputs[..n] == inputs;
    }
  }

  lemma StepOf(env: Env, inputs: seq<Input>, k: nat)
    requires k < |inputs|
    ensures Run(env, inputs[..k + 1]) == Apply(env, Run(env, inputs[..k]), inputs[k])
  {
    assert inputs[..k + 1][..k] == inputs[..k];
  }

  lemma FinalEnds(env: Env, inputs: seq<Input>, i: nat)
    requires i < |inputs| && OutAt(env, inputs, i).Some? && Final(OutAt(env, inputs, i).value)
    ensures
      var out := OutAt(env, inputs, i).value;
      var t := Run(env, inputs[..i + 1]);
      && t.ended
      && (!out.Event? ==> Later(t) == out)
      && (out.Event? && Later(t).Eof? ==> !env.closeFails && Succeeded(out))
      && (out.Event? && !env.closeFails && Succeeded(out) ==> Later(t).Eof?)
  {
    StepOf(env, inputs, i);
    var s := Run(env, inputs[..i]);
    if inputs[i].Read? && !s.ended {
      NextEnds(env, s, inputs[i].frame);
    }
  }

  /**
   After the first terminal event, error event or failed read no read returns an event: a failed read
   is repeated for ever, and an event is followed by EOF if it succeeded and closing did not fail,
   and by one fixed failure otherwise.
   */
  lemma NothingFollowsTheEnd(env: Env, inputs: seq<Input>, i: nat, j: nat)
    requires i < j < |inputs| && OutAt(env, inputs, i).Some? && Final(OutAt(env, inputs, i).value)
    ensures
      var first := OutAt(env, inputs, i).value;
      var later := OutAt(env, inputs, j);
      later.Some? ==>
        && later.value == Later(Run(env, inputs[..i + 1]))
        && !later.value.Event?
        && (!first.Event? ==> later.value == first)
        && (first.Event? ==> (later.value.Eof? <==> Succeeded(first) && !env.closeFails))
  {
    FinalEnds(env, inputs, i);
    assert inputs[..j][..i + 1] == inputs[..i + 1];
    EndIsFixed(env, inputs[..j], i + 1);
  }

  predicate ReturnedSuccess(env: Env, inputs: seq<Input>) {
    exists i :: 0 <= i < |inputs| && OutAt(env, inputs, i).Some? && Succeeded(OutAt(env, inputs, i).value)
  }

  lemma {:induction false} NilNeedsSuccess(env: Env, inputs: seq<Input>)
    ensures Run(env, inputs).ended && Run(env, inputs).err == NIL ==> ReturnedSuccess(env, inputs) && !env.closeFails
  {
    if inputs != [] {
      var n := |inputs| - 1;
      var s := Run(env, inputs[..n]);
      NilNeedsSuccess(env, inputs[..n]);
      if s.ended && s.err == NIL {
        var i :| 0 <= i < n && OutAt(env, inputs[..n], i).Some? && Succeeded(OutAt(env, inputs[..n], i).value);
        assert inputs[..n][..i] == inputs[..i];
        assert OutAt(env, inputs, i).Some? && Succeeded(OutAt(env, inputs, i).value);
      } else if inputs[n].Read? && !s.ended {
        NextEnds(env, s, inputs[n].frame);
        if Run(env, inputs).ended && Run(env, inputs).err == NIL {
          assert OutAt(env, inputs, n).Some? && Succeeded(OutAt(env, inputs, n).value);
        }
      }
    }
  }

  /** A read ends in EOF only after a completed or incomplete response was returned and the body closed cleanly. */
  lemma EofMeansSuccess(env: Env, inputs: seq<Input>, j: nat)
    requires j < |inputs| && OutAt(env, inputs, j) == Some(Eof)
    ensures ReturnedSuccess(env, inputs[..j]) && !env.closeFails
  {
    var s := Run(env, inputs[..j]);
    if inputs[j].Read? && !s.ended {
      NextEnds(env, s, inputs[j].frame);
    }
    NilNeedsSuccess(env, inputs[..j]);
  }

  // ----- The stream object -----

  const COUNT_NAMES := ["input_tokens", "output_tokens", "total_tokens"]

  /** codex.Stream: `readMu` makes every read and close one step, except that Close closes the body first. */
  class Stream {
    const env: Env
    var ended: bool
    var err: Error
    var closed: bool
    var items: map<nat, Item>
    var itemBytes: int
    var response: Option<Json>
    var status: string
    var usage: Usage

    constructor (env: Env)
      ensures Snap() == INITIAL && this.env == env
    {
      this.env := env;
      ended, err, closed, items, itemBytes := false, NIL, false, map[], 0;
      response, status, usage := None, "", Usage(Unknown, Unknown, Unknown);
    }

    function Snap(): State
      reads this
    {
      State(ended, err, closed, items, itemBytes, response, status, usage)
    }

    method Finish(failure: Option<Category>)
      modifies this
      ensures Snap() == Finished(env, old(Snap()), failure)
    {
      ended := true;
      err := Error(failure, false);
      closed := true;
      err := Error(err.failure, env.closeFails);
      items := map[];
    }

    method BadEvent() returns (out: Out)
      modifies this
      ensures (Snap(), out) == BadEventStep(env, old(Snap()))
    {
      Finish(Some(INVALID_RESPONSE));
      out := Failed(err);
    }

    /** observeUsage: every valid counter is taken even when another one is malformed. */
    method ObserveUsage(raw: Fields) returns (malformed: bool)
      modifies this`usage
      ensures usage == Observe(old(usage), raw) && malformed == Malformed(raw)
    {
      malformed := false;
      ghost var u := usage;
      for i := 0 to |COUNT_NAMES|
        invariant usage.input == if i > 0 then Count(u.input, raw, "input_tokens") else u.input
        invariant usage.output == if i > 1 then Count(u.output, raw, "output_tokens") else u.output
        invariant usage.total == if i > 2 then Count(u.total, raw, "total_tokens") else u.total
        invariant malformed == (
                    || (i > 0 && MalformedCount(raw, "input_tokens"))
                    || (i > 1 && MalformedCount(raw, "output_tokens"))
                    || (i > 2 && MalformedCount(raw, "total_tokens")))
      {
        var name := COUNT_NAMES[i];
        if name in raw && !raw[name].Null? {
          var tokens := CountValue(raw[name]);
          if tokens.None? {
            malformed := true;
          } else if i == 0 {
            usage := usage.(input := Known(tokens.value));
          } else if i == 1 {
            usage := usage.(output := Known(tokens.value));
          } else {
            usage := usage.(total := Known(tokens.value));
          }
        }
      }
    }

    /** terminal's loop over the output items that the response carries. */
    method CheckOutput(output: seq<Json>) returns (ok: bool)
      ensures ok <==> OutputItems(output)
    {
      for i := 0 to |output|
        invariant forall k :: 0 <= k < i ==> OutputItem(output[k])
      {
        if !output[i].Obj? || TextValue(Lookup(output[i].fields, "type"), false).None? {
          assert !OutputItem(output[i]);
          return false;
        }
      }
      ok := true;
    }

    /** terminal's output of kept items, for a response without one. */
    method KeptOutput() returns (output: seq<Json>)
      ensures output == InOrder(items)
    {
      var indexes := Ascending(items.Keys);
      output := [];
      for i := 0 to |indexes|
        invariant output == Values(items, indexes[..i])
      {
        AscendingMembers(items.Keys, indexes[i]);
        assert indexes[..i + 1][..i] == indexes[..i];
        output := output + [items[indexes[i]].value];
      }
      assert indexes[..|indexes|] == indexes;
    }

    /** The part of terminal that fills in a response it accepted. */
    method AssembleResponse(given: Fields, status: string) returns (response: Fields)
      requires TerminalOk(given, status)
      ensures response == Assemble(env, items, given, status)
    {
      response := given;
      if "status" !in response {
        response := response["status" := Str(status)];
      }
      if "output" !in response || |response["output"].items| == 0 {
        var output := KeptOutput();
        response := response["output" := Arr(output)];
      }
      if status == "failed" {
        response := response["error" := SafeError(env, Lookup(response, "error"))];
      }
    }

    /** terminal: None when the response is refused, else the event and the failure that ends the stream. */
    method Terminal(fields: Fields, kind: string) returns (r: Option<(Json, Option<Category>)>)
      requires TerminalKind(kind)
      modifies this`response, this`status
      ensures
        var (t, out) := TerminalStep(env, old(Snap()), fields, kind);
        if r.Some? then out == Event(r.value.0) && t == Finished(env, Snap(), r.value.1)
        else Snap() == old(Snap()) && (t, out) == BadEventStep(env, Snap())
    {
      var value := ObjectValue(Lookup(fields, "response"));
      if value.None? || TextValue(Lookup(value.value, "id"), false).None? {
        return None;
      }
      var given := value.value;
      var status := kind[|"response."|..];
      if "status" in given && given["status"] != Str(status) {
        return None;
      }
      if "output" in given {
        if !given["output"].Arr? {
          return None;
        }
        var ok := CheckOutput(given["output"].items);
        if !ok {
          return None;
        }
      }
      var failure := if status == "failed" then Some(env.classify(Lookup(given, "error"))) else None;
      var response := AssembleResponse(given, status);
      this.response := Some(Obj(response));
      this.status := status;
      r := Some((Obj(fields["response" := Obj(response)]), failure));
    }

    /** The item that one output_item.done event finishes. */
    method KeepItem(fields: Fields, length: nat) returns (out: Out)
      modifies this
      ensures (Snap(), out) == KeepItemStep(env, old(Snap()), fields, length)
    {
      var item := ItemIn(fields, length);
      if item.None? {
        out := BadEvent();
        return;
      }
      var (index, x) := item.value;
      itemBytes := itemBytes + x.length - LengthAt(items, index);
      if itemBytes > MAX_PAYLOAD {
        out := BadEvent();
        return;
      }
      items := items[index := x];
      out := Event(Obj(fields));
    }

    method Next(f: Frame) returns (out: Out)
      modifies this
      ensures (Snap(), out) == NextStep(env, old(Snap()), f)
    {
      if ended {
        if err != NIL {
          return Failed(err);
        }
        return Eof;
      }
      var d := Decode(f);
      if d.None? {
        out := BadEvent();
        return;
      }
      var (fields, kind) := d.value;
      var usageFields := UsageFields(fields);
      if usageFields.Err? {
        out := BadEvent();
        return;
      }
      var malformed := ObserveUsage(usageFields.value);
      assert Snap() == Observed(old(Snap()), f);
      if malformed {
        out := BadEvent();
        return;
      }
      out := Dispatch(fields, kind, f.itemLength);
    }

    /** The switch over the event's kind. */
    method Dispatch(fields: Fields, kind: string, length: nat) returns (out: Out)
      requires "type" in fields
      modifies this
      ensures (Snap(), out) == DispatchStep(env, old(Snap()), fields, kind, length)
    {
      if kind == "response.output_item.done" {
        out := KeepItem(fields, length);
      } else if TerminalKind(kind) {
        var assembled := Terminal(fields, kind);
        if assembled.None? {
          out := BadEvent();
          return;
        }
        Finish(assembled.value.1);
        out := Event(assembled.value.0);
      } else if kind == "error" {
        Finish(Some(env.classify(ErrorDetail(fields))));
        out := Event(CleanError(env, fields));
      } else {
        out := Event(Obj(fields));
      }
    }

    /** A read of the body that failed or met its end. */
    method NextBroken(category: Category) returns (out: Out)
      modifies this
      ensures (Snap(), out) == BrokenStep(env, old(Snap()), category)
    {
      if ended {
        if err != NIL {
          return Failed(err);
        }
        return Eof;
      }
      Finish(Some(category));
      out := Failed(err);
    }

    method CloseBody()
      modifies this`closed
      ensures Snap() == Apply(env, old(Snap()), Input.CloseBody)
    {
      closed := true;
    }

    /** Close; it reports whether closing the body failed. */
    method Close(category: Category) returns (closeErr: bool)
      modifies this
      ensures Snap() == Apply(env, old(Snap()), Input.Close(category)) && closeErr == env.closeFails
    {
      CloseBody();
      items := map[];
      if !ended {
        ended := true;
        err := Error(Some(category), false);
      }
      closeErr := env.closeFails;
    }

    function CleanupError(): bool
      reads this
    {
      ended && closed && env.closeFails
    }
  }
}
