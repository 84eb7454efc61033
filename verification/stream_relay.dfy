/**
 From the provider's frames to what the client gets: which frames a read accepts and hands on as they
 are, what an ending keeps of them, and that every event sent is the frame that was read in its turn.
 */
module StreamRelay {
  import opened Common
  import opened Json
  import opened Delivery
  import SA = StreamAssembly

  // ----- Frames -----

  predicate GoodCounter(v: Option<Json>) {
    v.None? || v.value.Null? || (v.value.Int? && 0 <= v.value.n <= MAX_INT64)
  }

  predicate GoodUsage(v: Option<Json>) {
    || v.None?
    || v.value.Null?
    || (v.value.Obj? && GoodCounter(Lookup(v.value.fields, "input_tokens")) &&
        GoodCounter(Lookup(v.value.fields, "output_tokens")) && GoodCounter(Lookup(v.value.fields, "total_tokens")))
  }

  /** An object whose type is text and agrees with the event's name, and whose response carries no malformed usage. */
  predicate GoodFrame(f: SA.Frame) {
    && f.data.Some? && f.data.value.Obj?
    && var fields := f.data.value.fields;
    && "type" in fields && fields["type"].Str? && !Blank(fields["type"].s)
    && (f.name == "" || f.name == fields["type"].s)
    && ("response" in fields ==>
          fields["response"].Obj? && GoodUsage(Lookup(fields["response"].fields, "usage")))
  }

  lemma CounterIff(usage: Fields, name: string)
    ensures SA.MalformedCount(usage, name) <==> !GoodCounter(Lookup(usage, name))
  {
  }

  lemma ReadableIff(f: SA.Frame)
    ensures SA.Readable(f) <==> GoodFrame(f)
    ensures GoodFrame(f) ==> SA.Decode(f) == Some((f.data.value.fields, SA.KindOf(f.data.value)))
  {
    if f.data.Some? && f.data.value.Obj? && SA.Decode(f).Some? {
      var usage := SA.UsageFields(f.data.value.fields);
      if usage.Ok? {
        CounterIff(usage.value, "input_tokens");
        CounterIff(usage.value, "output_tokens");
        CounterIff(usage.value, "total_tokens");
      }
    }
  }

  /** What a finished item needs besides: an index of at least 0 and an object with a type. */
  predicate GoodItem(fields: Fields) {
    && "output_index" in fields && GoodCounter(Some(fields["output_index"])) && !fields["output_index"].Null?
    && "item" in fields && fields["item"].Obj?
    && "type" in fields["item"].fields && fields["item"].fields["type"].Str? && !Blank(fields["item"].fields["type"].s)
  }

  lemma ItemIff(fields: Fields, length: nat)
    ensures SA.ItemIn(fields, length).Some? <==> GoodItem(fields)
    ensures GoodItem(fields) ==>
        SA.ItemIn(fields, length) == Some((fields["output_index"].n, SA.Item(fields["item"], length)))
  {
  }

  const ITEM_DONE := "response.output_item.done"

  /** The open stream hands the frame on as it is. */
  ghost predicate HandsOn(s: SA.State, f: SA.Frame) {
    && GoodFrame(f) && !SA.FinalKind(SA.KindOf(f.data.value))
    && (SA.KindOf(f.data.value) == ITEM_DONE ==>
          && var fields := f.data.value.fields;
          && GoodItem(fields)
          && SA.Total(s.items[fields["output_index"].n := SA.Item(fields["item"], f.itemLength)]) <= MAX_PAYLOAD)
  }

  /** What a read of an open stream makes of a frame that does not end it in an orderly way. */
  lemma DispatchOrdinary(env: SA.Env, s: SA.State, f: SA.Frame)
    requires s.itemBytes == SA.Total(s.items) && GoodFrame(f) && !SA.FinalKind(SA.KindOf(f.data.value))
    ensures
      var (t, out) := SA.DispatchStep(env, s, f.data.value.fields, SA.KindOf(f.data.value), f.itemLength);
      if HandsOn(s, f) then out == SA.Event(f.data.value) && t.ended == s.ended
      else out == SA.Failed(SA.Error(Some(INVALID_RESPONSE), env.closeFails)) && t.ended
  {
    var fields := f.data.value.fields;
    if SA.KindOf(f.data.value) == ITEM_DONE {
      ItemIff(fields, f.itemLength);
      if GoodItem(fields) {
        SA.TotalUpdate(s.items, fields["output_index"].n, SA.Item(fields["item"], f.itemLength));
      }
    }
  }

  lemma NextOrdinary(env: SA.Env, s: SA.State, f: SA.Frame)
    requires !s.ended && s.itemBytes == SA.Total(s.items)
    requires GoodFrame(f) ==> !SA.FinalKind(SA.KindOf(f.data.value))
    ensures
      var (t, out) := SA.NextStep(env, s, f);
      if HandsOn(s, f) then out == SA.Event(f.data.value) && !t.ended
      else out == SA.Failed(SA.Error(Some(INVALID_RESPONSE), env.closeFails)) && t.ended
  {
    ReadableIff(f);
    if GoodFrame(f) {
      DispatchOrdinary(env, SA.Observed(s, f), f);
    }
  }

  /**
   In every run of an open stream a frame that is neither terminal nor error is handed on as it is, and the stream
   stays open, exactly if it is readable and, where it finishes an item, that item is well formed and the kept items
   still fit into 16 MiB. Every other such frame ends the stream as an invalid response.
   */
  lemma OrdinaryFrameIsHandedOn(env: SA.Env, inputs: seq<SA.Input>, f: SA.Frame)
    requires !SA.Run(env, inputs).ended && (GoodFrame(f) ==> !SA.FinalKind(SA.KindOf(f.data.value)))
    ensures
      var (t, out) := SA.NextStep(env, SA.Run(env, inputs), f);
      if HandsOn(SA.Run(env, inputs), f) then out == SA.Event(f.data.value) && !t.ended
      else out == SA.Failed(SA.Error(Some(INVALID_RESPONSE), env.closeFails)) && t.ended
  {
    SA.OpenStreamIsItsHistory(env, inputs);
    NextOrdinary(env, SA.Run(env, inputs), f);
  }

  // ----- Endings -----

  /** An assembled response keeps every member of the provider's response but its status, output and error. */
  lemma AssembledKeepsRest(env: SA.Env, items: map<nat, SA.Item>, response: Fields, status: string, name: string)
    requires name != "status" && name != "output"
    ensures
      Lookup(SA.Assemble(env, items, response, status), name) ==
      if name == "error" && status == "failed"
      then Some(SafeErrorOf(env.classify(Lookup(response, "error")), env)) else Lookup(response, name)
  {
  }

  /** All that a client learns of a provider's error: its category and our message for it. */
  function SafeErrorOf(category: Category, env: SA.Env): Json {
    Obj(map["code" := Str(category), "message" := Str(env.message(category))])
  }

  /** What is to be assembled anew of a response. */
  predicate IsAssembled(name: string, kind: string) {
    name == "status" || name == "output" || (name == "error" && kind == "response.failed")
  }

  function FailureOf(env: SA.Env, fields: Fields, kind: string): Option<Category>
    requires "response" in fields && fields["response"].Obj?
  {
    if kind == "response.failed" then Some(env.classify(Lookup(fields["response"].fields, "error"))) else None
  }

  lemma StatusFailed(kind: string)
    requires SA.TerminalKind(kind)
    ensures SA.StatusOf(kind) == "failed" <==> kind == "response.failed"
  {
    assert SA.StatusOf("response.failed") == "failed" && SA.StatusOf("response.completed") == "completed";
    assert SA.StatusOf("response.incomplete") == "incomplete";
  }

  lemma TerminalStepKeeps(env: SA.Env, s: SA.State, fields: Fields, kind: string, name: string)
    requires SA.TerminalKind(kind) && SA.AcceptableTerminal(fields, kind)
    ensures
      var (t, out) := SA.TerminalStep(env, s, fields, kind);
      && out.Event? && out.raw.Obj? && out.raw.fields - {"response"} == fields - {"response"}
      && t.response.Some? && t.response.value.Obj? && Lookup(out.raw.fields, "response") == t.response
      && t.ended && t.err == SA.Error(FailureOf(env, fields, kind), env.closeFails)
      && (!IsAssembled(name, kind) ==>
            Lookup(t.response.value.fields, name) == Lookup(fields["response"].fields, name))
  {
    StatusFailed(kind);
    if name != "status" && name != "output" {
      AssembledKeepsRest(env, s.items, fields["response"].fields, SA.StatusOf(kind), name);
    }
  }

  predicate TypedObject(v: Json) {
    v.Obj? && "type" in v.fields && v.fields["type"].Str? && !Blank(v.fields["type"].s)
  }

  /** A response with an ID, of the status that the event's kind names, whose output lists typed objects. */
  predicate GoodResponse(fields: Fields, kind: string) {
    && "response" in fields && fields["response"].Obj?
    && var response := fields["response"].fields;
    && "id" in response && response["id"].Str? && !Blank(response["id"].s)
    && ("status" in response ==> response["status"].Str? && "response." + response["status"].s == kind)
    && ("output" in response ==>
          response["output"].Arr? &&
          forall k :: 0 <= k < |response["output"].items| ==> TypedObject(response["output"].items[k]))
  }

  lemma StatusIs(kind: string, status: string)
    requires SA.TerminalKind(kind)
    ensures status == SA.StatusOf(kind) <==> "response." + status == kind
  {
    assert kind == "response." + SA.StatusOf(kind);
    assert ("response." + status)[|"response."|..] == status;
  }

  lemma TypedIff(items: seq<Json>)
    ensures SA.OutputItems(items) <==> forall k :: 0 <= k < |items| ==> TypedObject(items[k])
  {
    assert forall k :: 0 <= k < |items| ==> (SA.OutputItem(items[k]) <==> TypedObject(items[k]));
  }

  lemma AcceptableIff(fields: Fields, kind: string)
    requires SA.TerminalKind(kind)
    ensures SA.AcceptableTerminal(fields, kind) <==> GoodResponse(fields, kind)
  {
    if "response" in fields && fields["response"].Obj? {
      var response := fields["response"].fields;
      if "status" in response && response["status"].Str? {
        StatusIs(kind, response["status"].s);
      }
      if "output" in response && response["output"].Arr? {
        TypedIff(response["output"].items);
      }
    }
  }

  /** An open stream refuses a readable terminal event exactly if its response is none to close with. */
  lemma TerminalRefusedIff(env: SA.Env, inputs: seq<SA.Input>, f: SA.Frame)
    requires !SA.Run(env, inputs).ended && GoodFrame(f) && SA.TerminalKind(SA.KindOf(f.data.value))
    ensures
      SA.NextStep(env, SA.Run(env, inputs), f).1.Failed? <==>
      !GoodResponse(f.data.value.fields, SA.KindOf(f.data.value))
  {
    ReadableIff(f);
    AcceptableIff(f.data.value.fields, SA.KindOf(f.data.value));
    SA.TerminalIsAssembled(env, inputs, f);
  }

  /** A terminal event keeps everything but its response, and the response everything that is not assembled. */
  lemma TerminalKeepsRest(env: SA.Env, inputs: seq<SA.Input>, f: SA.Frame, name: string)
    requires !SA.Run(env, inputs).ended && GoodFrame(f) && SA.TerminalKind(SA.KindOf(f.data.value))
    requires SA.AcceptableTerminal(f.data.value.fields, SA.KindOf(f.data.value))
    ensures
      var (t, out) := SA.NextStep(env, SA.Run(env, inputs), f);
      var fields, kind := f.data.value.fields, SA.KindOf(f.data.value);
      && out.Event? && out.raw.Obj? && out.raw.fields - {"response"} == fields - {"response"}
      && t.response.Some? && t.response.value.Obj? && Lookup(out.raw.fields, "response") == t.response
      && t.ended && t.err == SA.Error(FailureOf(env, fields, kind), env.closeFails)
      && (!IsAssembled(name, kind) ==>
            Lookup(t.response.value.fields, name) == Lookup(fields["response"].fields, name))
  {
    ReadableIff(f);
    var s := SA.Run(env, inputs);
    SA.TerminalIsDispatched(env, s, f);
    TerminalStepKeeps(env, SA.Observed(s, f), f.data.value.fields, SA.KindOf(f.data.value), name);
  }

  /** The details that an error event is classified by. */
  function DetailOf(fields: Fields): Option<Json> {
    if "error" in fields then Some(fields["error"]) else Some(Obj(fields))
  }

  /** An error event is passed on as its category, our message, and its own number if that is valid; nothing else. */
  lemma ErrorIsCleaned(env: SA.Env, inputs: seq<SA.Input>, f: SA.Frame)
    requires !SA.Run(env, inputs).ended && GoodFrame(f) && SA.KindOf(f.data.value) == "error"
    ensures
      var (t, out) := SA.NextStep(env, SA.Run(env, inputs), f);
      var category := env.classify(DetailOf(f.data.value.fields));
      && t.ended && t.err == SA.Error(Some(category), env.closeFails)
      && out.Event? && out.raw.Obj?
      && out.raw.fields - {"sequence_number"} ==
         map["type" := Str("error"), "code" := Str(category), "message" := Str(env.message(category)), "param" := Null]
      && SequenceOf(out.raw) == SequenceOf(f.data.value)
  {
    ReadableIff(f);
  }

  /** A failed read of an open stream and a close of it end it, each with exactly its own category. */
  lemma BreaksAndClosesEndIt(env: SA.Env, inputs: seq<SA.Input>, category: Category)
    requires !SA.Run(env, inputs).ended
    ensures
      var (t, out) := SA.BrokenStep(env, SA.Run(env, inputs), category);
      t.ended && t.closed && t.err == SA.Error(Some(category), env.closeFails) && out == SA.Failed(t.err)
    ensures
      var t := SA.Apply(env, SA.Run(env, inputs), SA.Close(category));
      t.ended && t.closed && t.err == SA.Error(Some(category), false)
  {
  }

  // ----- The gateway's reads are reads of the stream -----

  function InputOf(a: Abort): SA.Input {
    match a
    case AbortBody => SA.CloseBody
    case AbortClose(category) => SA.Close(category)
  }

  function AbortInputs(aborts: seq<Abort>): seq<SA.Input> {
    seq(|aborts|, i requires 0 <= i < |aborts| => InputOf(aborts[i]))
  }

  function ReadInput(r: Read): SA.Input {
    match r
    case Got(frame) => SA.Read(frame)
    case Broke(category) => SA.Broken(category)
  }

  /** What one turn does to the stream. */
  function TurnInputs(t: Turn): seq<SA.Input> {
    AbortInputs(t.aborts) + if t.canceled then [] else [ReadInput(t.read)] + AbortInputs(t.late)
  }

  function Inputs(env: Env, begun: State, turns: seq<Turn>): seq<SA.Input> {
    if turns == [] then []
    else
      var init := turns[..|turns| - 1];
      Inputs(env, begun, init) + if Run(env, begun, init).done then [] else TurnInputs(turns[|turns| - 1])
  }

  lemma {:induction false} AbortsAreInputs(env: SA.Env, inputs: seq<SA.Input>, aborts: seq<Abort>)
    ensures AfterAborts(SA.Run(env, inputs), aborts) == SA.Run(env, inputs + AbortInputs(aborts))
  {
    if aborts == [] {
      assert inputs + AbortInputs(aborts) == inputs;
    } else {
      var init := aborts[..|aborts| - 1];
      AbortsAreInputs(env, inputs, init);
      var all := inputs + AbortInputs(aborts);
      assert all[..|all| - 1] == inputs + AbortInputs(init);
    }
  }

  lemma ReadIsInput(env: Env, inputs: seq<SA.Input>, r: Read)
    ensures ReadStep(env, SA.Run(env.upstream, inputs), r).0 == SA.Run(env.upstream, inputs + [ReadInput(r)])
  {
    assert (inputs + [ReadInput(r)])[..|inputs|] == inputs;
  }

  lemma CanceledTurnIsInputs(env: Env, inputs: seq<SA.Input>, t: Turn)
    requires t.canceled
    ensures NextStep(env, SA.Run(env.upstream, inputs), t).0 == SA.Run(env.upstream, inputs + TurnInputs(t))
  {
    AbortsAreInputs(env.upstream, inputs, t.aborts);
    assert inputs + TurnInputs(t) == inputs + AbortInputs(t.aborts);
  }

  /** The stream after the read of a turn that was not canceled. */
  lemma ReadOfTurn(env: Env, s: SA.State, t: Turn)
    requires !t.canceled
    ensures NextStep(env, s, t).0 == AfterAborts(ReadStep(env, AfterAborts(s, t.aborts), t.read).0, t.late)
  {
  }

  lemma SplitTurn(inputs: seq<SA.Input>, t: Turn)
    requires !t.canceled
    ensures inputs + TurnInputs(t) == inputs + AbortInputs(t.aborts) + [ReadInput(t.read)] + AbortInputs(t.late)
  {
  }

  lemma ReadsAreInputs(env: Env, inputs: seq<SA.Input>, r: Read, late: seq<Abort>)
    ensures
      AfterAborts(ReadStep(env, SA.Run(env.upstream, inputs), r).0, late) ==
      SA.Run(env.upstream, inputs + [ReadInput(r)] + AbortInputs(late))
  {
    ReadIsInput(env, inputs, r);
    AbortsAreInputs(env.upstream, inputs + [ReadInput(r)], late);
  }

  lemma ReadTurnIsInputs(env: Env, inputs: seq<SA.Input>, t: Turn)
    requires !t.canceled
    ensures NextStep(env, SA.Run(env.upstream, inputs), t).0 == SA.Run(env.upstream, inputs + TurnInputs(t))
  {
    SplitTurn(inputs, t);
    ReadOfTurn(env, SA.Run(env.upstream, inputs), t);
    AbortsAreInputs(env.upstream, inputs, t.aborts);
    ReadsAreInputs(env, inputs + AbortInputs(t.aborts), t.read, t.late);
  }

  lemma SendErrorKeepsStream(env: Env, d: State, problem: Problem, w: Write)
    ensures SendErrorStep(env, d, problem, w).stream == d.stream
  {
  }

  lemma ReceiveKeepsStream(env: Env, d: State, raw: Json, t: Turn)
    ensures ReceiveStep(env, d, raw, t).stream == d.stream
  {
    var d1 := d.(read := d.read + [raw]);
    SendErrorKeepsStream(env, d1.(failed := true), ByCategory(INVALID_RESPONSE), t.errorWrite);
  }

  lemma StepReads(env: Env, d: State, t: Turn)
    ensures Step(env, d, t).stream == if d.done then d.stream else NextStep(env, d.stream, t).0
  {
    if !d.done {
      var (s, next) := NextStep(env, d.stream, t);
      match next
      case Forward(raw) => ReceiveKeepsStream(env, d.(stream := s), raw, t);
      case Stop(problem) => SendErrorKeepsStream(env, d.(stream := s), problem, t.errorWrite);
    }
  }

  /** The stream under a delivery is a run of the reader, so everything proved of such runs holds of it. */
  lemma {:induction false} DeliveryReadsTheStream(env: Env, openFailed: bool, w: Write, turns: seq<Turn>)
    ensures
      var begun := Begin(env, openFailed, w);
      Run(env, begun, turns).stream == SA.Run(env.upstream, Inputs(env, begun, turns))
  {
    if turns != [] {
      var begun, init := Begin(env, openFailed, w), turns[..|turns| - 1];
      DeliveryReadsTheStream(env, openFailed, w, init);
      StepReads(env, Run(env, begun, init), turns[|turns| - 1]);
      var inputs := Inputs(env, begun, init);
      assert inputs + [] == inputs;
      if turns[|turns| - 1].canceled {
        CanceledTurnIsInputs(env, inputs, turns[|turns| - 1]);
      } else {
        ReadTurnIsInputs(env, inputs, turns[|turns| - 1]);
      }
    }
  }

  // ----- What the client gets -----

  /** An ordinary event is the turn's frame itself; a completed or incomplete one is it but for the response. */
  predicate FromFrame(x: Sent, t: Turn) {
    x.Sse? && !ErrorKind(x.kind) ==>
      && t.read.Got? && t.read.frame.data.Some?
      && if SA.FinalKind(x.kind)
         then x.body.Obj? && t.read.frame.data.value.Obj?
              && x.body.fields - {"response"} == t.read.frame.data.value.fields - {"response"}
         else x.body == t.read.frame.data.value
  }

  lemma EventIsFrame(env: SA.Env, s: SA.State, f: SA.Frame)
    ensures
      var out := SA.NextStep(env, s, f).1;
      out.Event? ==>
        && GoodFrame(f) && out.raw.Obj? && SA.KindOf(out.raw) == SA.KindOf(f.data.value)
        && (!SA.FinalKind(SA.KindOf(out.raw)) ==> out.raw == f.data.value)
        && (SA.TerminalKind(SA.KindOf(out.raw)) ==> out.raw.fields - {"response"} == f.data.value.fields - {"response"})
  {
    ReadableIff(f);
  }

  lemma ReadsFrame(env: Env, s: SA.State, t: Turn)
    ensures
      var next := NextStep(env, s, t).1;
      next.Forward? ==>
        && !t.canceled && t.read.Got? && GoodFrame(t.read.frame) && next.raw.Obj?
        && SA.KindOf(next.raw) == SA.KindOf(t.read.frame.data.value)
        && FromFrame(Sse(SA.KindOf(next.raw), next.raw, false, true), t)
  {
    if !t.canceled && t.read.Got? {
      EventIsFrame(env.upstream, AfterAborts(s, t.aborts), t.read.frame);
    }
  }

  ghost predicate Paired(d: State, turns: seq<Turn>) {
    && (!d.done ==> |d.sent| == |turns|)
    && forall i :: 0 <= i < |d.sent| && d.sent[i].Sse? && !ErrorKind(d.sent[i].kind) ==>
         i < |turns| && FromFrame(d.sent[i], turns[i])
  }

  lemma SendErrorPaired(env: Env, d: State, problem: Problem, w: Write, turns: seq<Turn>)
    requires forall i :: 0 <= i < |d.sent| && d.sent[i].Sse? && !ErrorKind(d.sent[i].kind) ==>
               i < |turns| && FromFrame(d.sent[i], turns[i])
    ensures Paired(SendErrorStep(env, d, problem, w), turns)
  {
    var r := SendErrorStep(env, d, problem, w);
    forall i | 0 <= i < |r.sent| && r.sent[i].Sse? && !ErrorKind(r.sent[i].kind)
      ensures i < |turns| && FromFrame(r.sent[i], turns[i])
    {
      assert i < |d.sent| && r.sent[i] == d.sent[i];
    }
  }

  lemma SendEventPaired(d: State, p: Prepared, madeUp: bool, w: Write, turns: seq<Turn>)
    requires turns != [] && Paired(d, turns[..|turns| - 1]) && !d.done
    requires FromFrame(Sse(p.kind, p.body, madeUp, w.Whole?), turns[|turns| - 1])
    ensures Paired(SendEvent(d, p, madeUp, w), turns)
  {
    var n, r := |turns| - 1, SendEvent(d, p, madeUp, w);
    forall i | 0 <= i < |r.sent| && r.sent[i].Sse? && !ErrorKind(r.sent[i].kind)
      ensures i < |turns| && FromFrame(r.sent[i], turns[i])
    {
      if i < n {
        assert turns[..n][i] == turns[i] && r.sent[i] == d.sent[i];
      }
    }
  }

  lemma ReceivePaired(env: Env, d: State, raw: Json, turns: seq<Turn>)
    requires turns != [] && Paired(d, turns[..|turns| - 1]) && !d.done && raw.Obj?
    requires FromFrame(Sse(SA.KindOf(raw), raw, false, true), turns[|turns| - 1])
    ensures Paired(ReceiveStep(env, d, raw, turns[|turns| - 1]), turns)
  {
    var t, n := turns[|turns| - 1], |turns| - 1;
    var d1 := d.(read := d.read + [raw]);
    var p := Prepare(env, raw, d.sequence);
    assert forall i :: 0 <= i < n ==> turns[..n][i] == turns[i];
    if p.None? {
      SendErrorPaired(env, d1.(failed := true), ByCategory(INVALID_RESPONSE), t.errorWrite, turns);
    } else {
      SendEventPaired(d1, p.value, ErrorKind(p.value.kind) && SequenceOf(raw).None?, t.write, turns);
    }
  }

  lemma StepPaired(env: Env, d: State, turns: seq<Turn>)
    requires turns != [] && Paired(d, turns[..|turns| - 1])
    ensures Paired(Step(env, d, turns[|turns| - 1]), turns)
  {
    var t, n := turns[|turns| - 1], |turns| - 1;
    assert forall i :: 0 <= i < n ==> turns[..n][i] == turns[i];
    if !d.done {
      ReadsFrame(env, d.stream, t);
      var (s, next) := NextStep(env, d.stream, t);
      match next
      case Forward(raw) => ReceivePaired(env, d.(stream := s), raw, turns);
      case Stop(problem) => SendErrorPaired(env, d.(stream := s), problem, t.errorWrite, turns);
    }
  }

  lemma {:induction false} PairedRun(env: Env, openFailed: bool, w: Write, turns: seq<Turn>)
    ensures Paired(Run(env, Begin(env, openFailed, w), turns), turns)
  {
    if turns != [] {
      PairedRun(env, openFailed, w, turns[..|turns| - 1]);
      StepPaired(env, Run(env, Begin(env, openFailed, w), turns[..|turns| - 1]), turns);
    }
  }

  /**
   However reads, aborts and writes interleave, the i-th thing sent, unless it is a JSON error, an error or a failed
   response, is the data of the frame that the i-th turn read, unchanged; of a completed or incomplete response only
   its `response` member is not.
   */
  lemma EventsAreRelayed(env: Env, openFailed: bool, w: Write, turns: seq<Turn>, i: nat)
    ensures
      var d := Run(env, Begin(env, openFailed, w), turns);
      i < |d.sent| && d.sent[i].Sse? && !ErrorKind(d.sent[i].kind) ==> i < |turns| && FromFrame(d.sent[i], turns[i])
  {
    PairedRun(env, openFailed, w, turns);
  }

  /** A turn that nothing interferes with. */
  predicate Undisturbed(t: Turn) {
    t.aborts == [] && t.late == [] && !t.canceled && t.read.Got? && t.write.Whole?
  }

  /** The gateway may number and name the event. */
  predicate Sendable(raw: Json, previous: int) {
    && EventName(SA.KindOf(raw)) && raw.Obj?
    && (SequenceOf(raw).Some? || ("sequence_number" !in raw.fields && previous < MAX_INT64))
  }

  lemma SendsWhole(env: Env, d: State, t: Turn, raw: Json)
    requires !d.done && t.write.Whole? && Sendable(raw, d.sequence) && !SA.FinalKind(SA.KindOf(raw))
    ensures
      var r := ReceiveStep(env, d, raw, t);
      r.sent == d.sent + [Sse(SA.KindOf(raw), raw, false, true)] && !r.done && r.started && !r.failed == !d.failed
  {
  }

  lemma ForwardsFrame(env: Env, s: SA.State, t: Turn)
    requires Undisturbed(t) && !s.ended && s.itemBytes == SA.Total(s.items) && HandsOn(s, t.read.frame)
    ensures NextStep(env, s, t).1 == Forward(t.read.frame.data.value)
  {
    NextOrdinary(env.upstream, s, t.read.frame);
  }

  /**
   Nothing that could be delivered is held back: while the loop runs and the stream is open, a frame that the reader
   hands on and that the gateway may name and number is sent as it is, and the loop goes on.
   */
  lemma GoodFrameIsDelivered(env: Env, openFailed: bool, w: Write, turns: seq<Turn>, t: Turn)
    requires
      var d := Run(env, Begin(env, openFailed, w), turns);
      && !d.done && !d.stream.ended && Undisturbed(t) && HandsOn(d.stream, t.read.frame)
      && Sendable(t.read.frame.data.value, d.sequence)
    ensures
      var d, raw := Run(env, Begin(env, openFailed, w), turns), t.read.frame.data.value;
      var r := Step(env, d, t);
      r.sent == d.sent + [Sse(SA.KindOf(raw), raw, false, true)] && !r.done && r.started && !r.failed
  {
    DeliveryReadsTheStream(env, openFailed, w, turns);
    SA.OpenStreamIsItsHistory(env.upstream, Inputs(env, Begin(env, openFailed, w), turns));
    InvRun(env, openFailed, w, turns);
    var d := Run(env, Begin(env, openFailed, w), turns);
    ForwardsFrame(env, d.stream, t);
    SendsWhole(env, d.(stream := NextStep(env, d.stream, t).0), t, t.read.frame.data.value);
  }

  // ----- Final events -----

  /** The error object that the gateway shows for a problem. */
  predicate Tells(fields: Fields, e: ClientError) {
    && Lookup(fields, "code") == Some(Str(e.code)) && Lookup(fields, "message") == Some(Str(e.message))
    && Lookup(fields, "param") == Some(e.param)
  }

  /** Nothing but the members that name the problem and the number differs. */
  const TOLD := {"code", "message", "param", "sequence_number"}

  /** The body that a client gets of an error or failed response in the place of `raw`. */
  predicate TellsInstead(body: Fields, raw: Fields, kind: string, e: ClientError) {
    if kind == "error" then Tells(body, e) && body - TOLD == raw - TOLD
    else
      && body - {"response", "sequence_number"} == raw - {"response", "sequence_number"}
      && "response" in body && body["response"].Obj? && "response" in raw && raw["response"].Obj?
      && body["response"].fields - {"error"} == raw["response"].fields - {"error"}
      && Lookup(body["response"].fields, "error") == Some(Obj(ErrorFields(e)))
  }

  /** Where an error or failed response says what went wrong. */
  function ProblemIn(raw: Fields, kind: string): Option<Json> {
    if kind == "error" then Some(Obj(raw))
    else if "response" in raw && raw["response"].Obj? then Lookup(raw["response"].fields, "error") else None
  }

  /** The number of an error is its own, or one past the previous. */
  predicate MayBeNumbered(raw: Json, previous: int) {
    SequenceOf(raw).Some? || previous < MAX_INT64
  }

  /** The category of an error or failed response that the reader cleaned. */
  predicate NamesCategory(raw: Json, category: Category) {
    && raw.Obj? && (SA.KindOf(raw) == "response.failed" ==> "response" in raw.fields && raw.fields["response"].Obj?)
    && var problem := ProblemIn(raw.fields, SA.KindOf(raw));
    && problem.Some? && problem.value.Obj? && Lookup(problem.value.fields, "code") == Some(Str(category))
  }

  lemma BodyTells(env: Env, raw: Json, category: Category)
    requires ErrorKind(SA.KindOf(raw)) && NamesCategory(raw, category)
    ensures
      var body := ErrorBody(env, raw.fields, SA.KindOf(raw));
      body.Some? && TellsInstead(body.value, raw.fields, SA.KindOf(raw), env.classify(ByCategory(category)))
  {
  }

  lemma NumberedTells(body: Fields, raw: Fields, kind: string, e: ClientError, number: int)
    requires TellsInstead(body, raw, kind, e)
    ensures TellsInstead(Numbered(body, number), raw, kind, e)
  {
    assert Numbered(body, number) - {"sequence_number"} == body - {"sequence_number"};
    assert Numbered(body, number) - TOLD == body - TOLD;
    assert Numbered(body, number) - {"response", "sequence_number"} == body - {"response", "sequence_number"};
  }

  /** What the gateway makes of an error that the reader cleaned: the problem told in its place, and a number. */
  lemma PreparesError(env: Env, raw: Json, previous: int, category: Category)
    requires ErrorKind(SA.KindOf(raw)) && NamesCategory(raw, category) && MayBeNumbered(raw, previous)
    ensures
      var p := Prepare(env, raw, previous);
      && p.Some? && p.value.kind == SA.KindOf(raw) && p.value.body.Obj?
      && TellsInstead(p.value.body.fields, raw.fields, SA.KindOf(raw), env.classify(ByCategory(category)))
  {
    BodyTells(env, raw, category);
    var kind := SA.KindOf(raw);
    NumberedTells(ErrorBody(env, raw.fields, kind).value, raw.fields, kind, env.classify(ByCategory(category)),
        NumberOf(raw, kind, previous).value);
  }

  /** A prepared event that is written whole. */
  lemma ReceiveWhole(env: Env, d: State, raw: Json, t: Turn)
    requires t.write.Whole? && Prepare(env, raw, d.sequence).Some?
    ensures
      var r, p := ReceiveStep(env, d, raw, t), Prepare(env, raw, d.sequence).value;
      && r.sent == d.sent + [Sse(p.kind, p.body, ErrorKind(p.kind) && SequenceOf(raw).None?, true)]
      && r.started && r.done == SA.FinalKind(p.kind) && r.failed == d.failed && r.sequence == p.sequence
  {
  }

  /** An undisturbed turn gets what the reader hands on, unless the body could not be closed after the last event. */
  lemma UndisturbedRead(env: Env, s: SA.State, t: Turn)
    requires Undisturbed(t)
    ensures
      var (s1, out) := SA.NextStep(env.upstream, s, t.read.frame);
      && NextStep(env, s, t).0 == s1
      && (out.Event? && !(s1.ended && env.upstream.closeFails && s1.closed) ==>
            NextStep(env, s, t).1 == Forward(out.raw))
  {
  }

  /** The stream that a running delivery reads from has the history of a run. */
  lemma DeliveryStream(env: Env, openFailed: bool, w: Write, turns: seq<Turn>)
    returns (inputs: seq<SA.Input>)
    ensures Run(env, Begin(env, openFailed, w), turns).stream == SA.Run(env.upstream, inputs)
  {
    DeliveryReadsTheStream(env, openFailed, w, turns);
    inputs := Inputs(env, Begin(env, openFailed, w), turns);
  }

  /** An event that the reader hands on and the gateway prepares is sent, and the loop ends with a final event. */
  lemma PreparedIsSent(env: Env, d: State, t: Turn)
    requires !d.done && Undisturbed(t) && !env.upstream.closeFails
    requires SA.NextStep(env.upstream, d.stream, t.read.frame).1.Event?
    requires Prepare(env, SA.NextStep(env.upstream, d.stream, t.read.frame).1.raw, d.sequence).Some?
    ensures
      var raw := SA.NextStep(env.upstream, d.stream, t.read.frame).1.raw;
      var r, p := Step(env, d, t), Prepare(env, raw, d.sequence).value;
      && r.sent == d.sent + [Sse(p.kind, p.body, ErrorKind(p.kind) && SequenceOf(raw).None?, true)]
      && r.done == SA.FinalKind(p.kind) && r.failed == d.failed && r.stream == NextStep(env, d.stream, t).0
  {
    var raw := SA.NextStep(env.upstream, d.stream, t.read.frame).1.raw;
    UndisturbedRead(env, d.stream, t);
    ReceiveWhole(env, d.(stream := NextStep(env, d.stream, t).0), raw, t);
    ReceiveKeepsStream(env, d.(stream := NextStep(env, d.stream, t).0), raw, t);
  }

  /** The last thing sent is an error or failed response that tells of the problem in the place of `raw`. */
  predicate EndsWith(r: State, d: State, raw: Json, e: ClientError) {
    && r.done && !r.failed && |r.sent| == |d.sent| + 1 && r.sent[..|d.sent|] == d.sent
    && var x := r.sent[|d.sent|];
    && x.Sse? && x.kind == SA.KindOf(raw) && x.whole && x.body.Obj? && raw.Obj?
    && TellsInstead(x.body.fields, raw.fields, x.kind, e)
  }

  lemma CleanedIsSent(env: Env, d: State, t: Turn, raw: Json, category: Category)
    requires !d.done && !d.failed && Undisturbed(t) && !env.upstream.closeFails
    requires SA.NextStep(env.upstream, d.stream, t.read.frame).1 == SA.Event(raw)
    requires ErrorKind(SA.KindOf(raw)) && NamesCategory(raw, category) && MayBeNumbered(raw, d.sequence)
    ensures EndsWith(Step(env, d, t), d, raw, env.classify(ByCategory(category)))
  {
    PreparesError(env, raw, d.sequence, category);
    PreparedIsSent(env, d, t);
  }

  /** What the reader makes of an error frame. */
  lemma ErrorNamesCategory(env: SA.Env, inputs: seq<SA.Input>, f: SA.Frame)
    requires !SA.Run(env, inputs).ended && GoodFrame(f) && SA.KindOf(f.data.value) == "error"
    ensures
      var out := SA.NextStep(env, SA.Run(env, inputs), f).1;
      && out.Event? && SA.KindOf(out.raw) == "error"
      && NamesCategory(out.raw, env.classify(DetailOf(f.data.value.fields)))
  {
    ErrorIsCleaned(env, inputs, f);
    var raw := SA.NextStep(env, SA.Run(env, inputs), f).1.raw;
    var rest := raw.fields - {"sequence_number"};
    assert rest["type"] == raw.fields["type"] && rest["code"] == raw.fields["code"];
  }

  /** A frame of an open, running delivery that nothing disturbs and that may be numbered. */
  ghost predicate Arrives(env: Env, d: State, t: Turn) {
    && !d.done && !d.stream.ended && Undisturbed(t) && !env.upstream.closeFails && GoodFrame(t.read.frame)
    && MayBeNumbered(t.read.frame.data.value, d.sequence)
  }

  /** The client gets an error event with the members of ours, and with our code and message. */
  predicate EndsWithError(r: State, d: State, e: ClientError) {
    && r.done && !r.failed && |r.sent| == |d.sent| + 1 && r.sent[..|d.sent|] == d.sent
    && var x := r.sent[|d.sent|];
    && x.Sse? && x.kind == "error" && x.whole && x.body.Obj? && Tells(x.body.fields, e)
    && x.body.fields.Keys - TOLD == {"type"}
  }

  /**
   The provider's error reaches the client as the category it falls under and the gateway's words for that category,
   with nothing else of the provider's, and is the last thing the client gets.
   */
  lemma ErrorIsDelivered(env: Env, openFailed: bool, w: Write, turns: seq<Turn>, t: Turn)
    requires Arrives(env, Run(env, Begin(env, openFailed, w), turns), t)
    requires SA.KindOf(t.read.frame.data.value) == "error"
    ensures
      var d, category := Run(env, Begin(env, openFailed, w), turns),
          env.upstream.classify(DetailOf(t.read.frame.data.value.fields));
      EndsWithError(Step(env, d, t), d, env.classify(ByCategory(category)))
  {
    InvRun(env, openFailed, w, turns);
    var d, f := Run(env, Begin(env, openFailed, w), turns), t.read.frame;
    var inputs := DeliveryStream(env, openFailed, w, turns);
    ErrorIsCleaned(env.upstream, inputs, f);
    ErrorNamesCategory(env.upstream, inputs, f);
    var raw := SA.NextStep(env.upstream, d.stream, f).1.raw;
    CleanedIsSent(env, d, t, raw, env.upstream.classify(DetailOf(f.data.value.fields)));
    OnlyTypeIsLeft(raw.fields, Step(env, d, t).sent[|d.sent|].body.fields);
  }

  lemma OnlyTypeIsLeft(raw: Fields, body: Fields)
    requires (raw - {"sequence_number"}).Keys == {"type", "code", "message", "param"} && body - TOLD == raw - TOLD
    ensures body.Keys - TOLD == {"type"}
  {
    assert (body - TOLD).Keys == (raw - {"sequence_number"} - TOLD).Keys;
  }

  /** What the reader makes of an acceptable terminal frame. */
  lemma TerminalIsHandedOn(env: SA.Env, inputs: seq<SA.Input>, f: SA.Frame)
    requires !SA.Run(env, inputs).ended && GoodFrame(f) && SA.TerminalKind(SA.KindOf(f.data.value))
    requires SA.AcceptableTerminal(f.data.value.fields, SA.KindOf(f.data.value))
    ensures
      var (t, out) := SA.NextStep(env, SA.Run(env, inputs), f);
      && out.Event? && out.raw.Obj? && SA.KindOf(out.raw) == SA.KindOf(f.data.value)
      && SequenceOf(out.raw) == SequenceOf(f.data.value)
      && Lookup(out.raw.fields, "sequence_number") == Lookup(f.data.value.fields, "sequence_number")
      && Lookup(out.raw.fields, "response") == t.response
      && (SA.KindOf(out.raw) == "response.failed" ==>
            NamesCategory(out.raw, env.classify(Lookup(f.data.value.fields["response"].fields, "error"))))
  {
    TerminalKeepsRest(env, inputs, f, "id");
    var raw := SA.NextStep(env, SA.Run(env, inputs), f).1.raw;
    SameBut(raw.fields, f.data.value.fields, "type");
    SameBut(raw.fields, f.data.value.fields, "sequence_number");
    if SA.KindOf(f.data.value) == "response.failed" {
      FailureIsNamed(env, inputs, f);
    }
  }

  lemma SameBut(a: Fields, b: Fields, name: string)
    requires a - {"response"} == b - {"response"} && name != "response"
    ensures Lookup(a, name) == Lookup(b, name)
  {
    assert Lookup(a, name) == Lookup(a - {"response"}, name) && Lookup(b, name) == Lookup(b - {"response"}, name);
  }

  lemma FailureIsNamed(env: SA.Env, inputs: seq<SA.Input>, f: SA.Frame)
    requires !SA.Run(env, inputs).ended && GoodFrame(f) && SA.KindOf(f.data.value) == "response.failed"
    requires SA.AcceptableTerminal(f.data.value.fields, "response.failed")
    ensures
      var out := SA.NextStep(env, SA.Run(env, inputs), f).1;
      out.Event? && NamesCategory(out.raw, env.classify(Lookup(f.data.value.fields["response"].fields, "error")))
  {
    ReadableIff(f);
    var s := SA.Run(env, inputs);
    SA.TerminalIsDispatched(env, s, f);
    StatusFailed("response.failed");
    AssembledKeepsRest(env, s.items, f.data.value.fields["response"].fields, "failed", "error");
  }

  /** A failed response reaches the client, and its error is the gateway's words for the category it falls under. */
  lemma FailureIsDelivered(env: Env, openFailed: bool, w: Write, turns: seq<Turn>, t: Turn)
    requires Arrives(env, Run(env, Begin(env, openFailed, w), turns), t)
    requires SA.KindOf(t.read.frame.data.value) == "response.failed"
    requires SA.AcceptableTerminal(t.read.frame.data.value.fields, "response.failed")
    ensures
      var d := Run(env, Begin(env, openFailed, w), turns);
      var raw := SA.NextStep(env.upstream, d.stream, t.read.frame).1.raw;
      var category := env.upstream.classify(Lookup(t.read.frame.data.value.fields["response"].fields, "error"));
      EndsWith(Step(env, d, t), d, raw, env.classify(ByCategory(category)))
  {
    InvRun(env, openFailed, w, turns);
    var d, f := Run(env, Begin(env, openFailed, w), turns), t.read.frame;
    var inputs := DeliveryStream(env, openFailed, w, turns);
    TerminalIsHandedOn(env.upstream, inputs, f);
    var raw := SA.NextStep(env.upstream, d.stream, f).1.raw;
    CleanedIsSent(env, d, t, raw, env.upstream.classify(Lookup(f.data.value.fields["response"].fields, "error")));
  }

  /** A completed or incomplete response reaches the client with the assembled response, and ends the delivery. */
  lemma ResponseIsDelivered(env: Env, openFailed: bool, w: Write, turns: seq<Turn>, t: Turn)
    requires Arrives(env, Run(env, Begin(env, openFailed, w), turns), t)
    requires SA.KindOf(t.read.frame.data.value) in {"response.completed", "response.incomplete"}
    requires SA.AcceptableTerminal(t.read.frame.data.value.fields, SA.KindOf(t.read.frame.data.value))
    requires "sequence_number" in t.read.frame.data.value.fields ==> SequenceOf(t.read.frame.data.value).Some?
    ensures
      var d, kind := Run(env, Begin(env, openFailed, w), turns), SA.KindOf(t.read.frame.data.value);
      var r := Step(env, d, t);
      && r.done && !r.failed && |r.sent| == |d.sent| + 1 && r.sent[..|d.sent|] == d.sent
      && var x := r.sent[|d.sent|];
      && x.Sse? && x.kind == kind && x.whole && !x.madeUp && x.body.Obj?
      && x.body.fields - {"response"} == t.read.frame.data.value.fields - {"response"}
      && r.stream.response.Some? && Lookup(x.body.fields, "response") == r.stream.response
  {
    InvRun(env, openFailed, w, turns);
    var d, f := Run(env, Begin(env, openFailed, w), turns), t.read.frame;
    var inputs := DeliveryStream(env, openFailed, w, turns);
    TerminalKeepsRest(env.upstream, inputs, f, "id");
    TerminalIsHandedOn(env.upstream, inputs, f);
    UndisturbedRead(env, d.stream, t);
    ResponsesAreNames();
    PreparesResponse(env, SA.NextStep(env.upstream, d.stream, f).1.raw, d.sequence);
    PreparedIsSent(env, d, t);
  }

  lemma ResponsesAreNames()
    ensures EventName("response.completed") && EventName("response.incomplete")
  {
  }

  lemma PreparesResponse(env: Env, raw: Json, previous: int)
    requires raw.Obj? && EventName(SA.KindOf(raw)) && !ErrorKind(SA.KindOf(raw))
    requires MayBeNumbered(raw, previous) && ("sequence_number" in raw.fields ==> SequenceOf(raw).Some?)
    ensures
      var p := Prepare(env, raw, previous);
      p.Some? && p.value.kind == SA.KindOf(raw) && p.value.body == raw
  {
  }

  // ----- What the client is told of a failure -----

  /** A stream that could not be opened is told as a JSON error and nothing else; an opened one has sent nothing yet. */
  lemma OpeningIsTold(env: Env, w: Write)
    ensures
      var r := Begin(env, true, w);
      && r.done && (r.failed <==> !w.Whole?)
      && r.sent == if w.NotBegun? then [] else [Reply(env.classify(OpenFailed), w.Whole?)]
    ensures Begin(env, false, w).sent == [] && !Begin(env, false, w).done && !Begin(env, false, w).stream.ended
  {
  }

  /**
   A loop that stops on a problem tells the client of it: with a JSON error while nothing was sent, with an error
   event under the next number after that; a plain end of the stream needs no word, and without a number left
   the delivery has failed.
   */
  lemma StopIsTold(env: Env, d: State, t: Turn)
    requires !d.done && NextStep(env, d.stream, t).1.Stop? && t.errorWrite.Whole?
    ensures
      var problem, r := NextStep(env, d.stream, t).1.problem, Step(env, d, t);
      var e := env.classify(problem);
      && r.done
      && if !d.started then r.sent == d.sent + [Reply(e, true)] && r.failed == d.failed
         else if problem.EndOfStream? then r.sent == d.sent && r.failed == d.failed
         else if d.sequence == MAX_INT64 then r.sent == d.sent && r.failed
         else
           && |r.sent| == |d.sent| + 1 && r.sent[..|d.sent|] == d.sent && r.failed == d.failed
           && var x := r.sent[|d.sent|];
           && x.Sse? && x.kind == "error" && x.madeUp && x.whole && SequenceOf(x.body) == (
                if 0 <= d.sequence + 1 <= MAX_INT64 then Some(d.sequence + 1) else None)
           && x.body.Obj? && SA.KindOf(x.body) == "error" && Tells(x.body.fields, e)
  {
  }
}
