/**
 Delivery of one provider stream to the client: execution's Stream.Next over the assembled stream, and
 the gateway's loop that numbers events, writes them, and ends the response.
 */
module Delivery {
  import opened Common
  import opened Json
  import SA = StreamAssembly

  // ----- Errors -----

  datatype Problem =
    | OpenFailed
    | RequestCanceled
    | EndOfStream
    | ByCategory(category: Category)
    | Upstream(err: SA.Error)

  datatype ClientError = ClientError(kind: string, code: string, message: string, param: Json)

  datatype Env = Env(upstream: SA.Env, classify: Problem -> ClientError)

  function ErrorFields(e: ClientError): Fields {
    map["type" := Str(e.kind), "code" := Str(e.code), "message" := Str(e.message), "param" := e.param]
  }

  /** wireFailure: the category named by an error object, or None when it cannot be decoded. */
  function WireCategory(raw: Option<Json>): Option<Category> {
    if raw.None? then None
    else match raw.value
      case Null => Some("")
      case Obj(fields) =>
        var code := Lookup(fields, "code");
        if code.None? || code.value.Null? then Some("") else if code.value.Str? then Some(code.value.s) else None
      case _ => None
  }

  // ----- Event preparation -----

  predicate ErrorKind(kind: string) {
    kind == "error" || kind == "response.failed"
  }

  /** Server-sent event names are single lines. */
  predicate EventName(kind: string) {
    kind != "" && '\n' !in kind && '\r' !in kind
  }

  function SequenceOf(raw: Json): Option<nat> {
    if raw.Obj? && "sequence_number" in raw.fields then CountValue(raw.fields["sequence_number"]) else None
  }

  datatype Prepared = Prepared(body: Json, kind: string, sequence: int)

  /** The number of an event: its own, or one past the previous when it may be made up. */
  function NumberOf(raw: Json, kind: string, previous: int): Option<int> {
    var own := SequenceOf(raw);
    if own.Some? then Some(own.value)
    else if (raw.Obj? && "sequence_number" in raw.fields && !ErrorKind(kind)) || previous == MAX_INT64 then None
    else Some(previous + 1)
  }

  /** normalizeFailedResponse */
  function FailedResponse(env: Env, raw: Option<Json>): Option<Json> {
    var fields := ObjectValue(raw);
    if fields.None? then None
    else
      var category := WireCategory(Lookup(fields.value, "error"));
      if category.None? then None
      else Some(Obj(fields.value["error" := Obj(ErrorFields(env.classify(ByCategory(category.value))))]))
  }

  function ErrorBody(env: Env, fields: Fields, kind: string): Option<Fields> {
    if kind == "response.failed" then
      var response := FailedResponse(env, Lookup(fields, "response"));
      if response.None? then None else Some(fields["response" := response.value])
    else
      var category := WireCategory(Some(Obj(fields)));
      if category.None? then None
      else
        var e := env.classify(ByCategory(category.value));
        Some(fields["code" := Str(e.code)]["message" := Str(e.message)]["param" := e.param])
  }

  function Numbered(fields: Fields, number: int): Fields {
    if SequenceOf(Obj(fields)).Some? then fields else fields["sequence_number" := Int(number)]
  }

  /** prepareEvent */
  function Prepare(env: Env, raw: Json, previous: int): Option<Prepared> {
    var kind := SA.KindOf(raw);
    var number := NumberOf(raw, kind, previous);
    if !EventName(kind) || number.None? then None
    else if !ErrorKind(kind) then Some(Prepared(raw, kind, Max(previous, number.value)))
    else
      var body := ErrorBody(env, raw.fields, kind);
      if body.None? then None
      else Some(Prepared(Obj(Numbered(body.value, number.value)), kind, Max(previous, number.value)))
  }

  predicate PreparedFrom(p: Prepared, raw: Json, previous: int) {
    && p.kind == SA.KindOf(raw) && p.body.Obj?
    && previous <= p.sequence <= MAX_INT64
    && (!ErrorKind(p.kind) ==> p.body == raw)
    && match SequenceOf(raw) {
         case Some(n) => SequenceOf(p.body) == Some(n) && p.sequence == if n < previous then previous else n
         case None =>
           && p.sequence == previous + 1
           && if ErrorKind(p.kind) then SequenceOf(p.body) == Some(previous + 1) else SequenceOf(p.body).None?
       }
  }

  lemma ErrorBodyKeeps(env: Env, fields: Fields, kind: string)
    requires ErrorKind(kind)
    ensures
      var body := ErrorBody(env, fields, kind);
      body.Some? ==> Lookup(body.value, "sequence_number") == Lookup(fields, "sequence_number")
  {
  }

  /** A valid number is kept; an absent or bad one becomes one past the previous, which never passes int64. */
  lemma PrepareSound(env: Env, raw: Json, previous: int)
    requires -1 <= previous <= MAX_INT64
    ensures
      var p := Prepare(env, raw, previous);
      && (p.Some? ==> PreparedFrom(p.value, raw, previous))
      && (previous == MAX_INT64 && SequenceOf(raw).None? ==> p.None?)
  {
    var p := Prepare(env, raw, previous);
    if p.Some? && ErrorKind(SA.KindOf(raw)) {
      ErrorBodyKeeps(env, raw.fields, SA.KindOf(raw));
    }
  }

  // ----- One turn of the loop -----

  /** NotBegun wrote nothing; Torn may have written a part; Whole was written and flushed. */
  datatype Write = NotBegun | Torn | Whole

  datatype Abort = AbortBody | AbortClose(category: Category)

  datatype Read = Got(frame: SA.Frame) | Broke(category: Category)

  /**
   What the environment does in one turn: aborts of the stream before the read, cancellation, the read,
   aborts between the read and the check of its cleanup, and the writes.
   */
  datatype Turn = Turn(
    aborts: seq<Abort>, canceled: bool, read: Read, late: seq<Abort>, write: Write, errorWrite: Write)

  /** What was written: a JSON error reply, or one event; a made-up number is not the provider's. */
  datatype Sent =
    | Reply(error: ClientError, whole: bool)
    | Sse(kind: string, body: Json, madeUp: bool, whole: bool)

  datatype State = State(
    stream: SA.State, started: bool, sequence: int, failed: bool, committed: bool, done: bool,
    sent: seq<Sent>, read: seq<Json>)

  const INITIAL := State(SA.INITIAL, false, -1, false, false, false, [], [])

  datatype Next = Forward(raw: Json) | Stop(problem: Problem)

  function AfterAbort(s: SA.State, a: Abort): SA.State {
    match a
    case AbortBody => s.(closed := true)
    case AbortClose(category) => SA.Closed(s, category)
  }

  function AfterAborts(s: SA.State, aborts: seq<Abort>): SA.State {
    if aborts == [] then s else AfterAbort(AfterAborts(s, aborts[..|aborts| - 1]), aborts[|aborts| - 1])
  }

  function ReadStep(env: Env, s: SA.State, r: Read): (SA.State, SA.Out) {
    match r
    case Got(frame) => SA.NextStep(env.upstream, s, frame)
    case Broke(category) => SA.BrokenStep(env.upstream, s, category)
  }

  /** execution's Stream.Next: an event is withheld when the body could not be closed after it. */
  function Withhold(env: Env, s: SA.State, out: SA.Out): Next {
    match out
    case Event(raw) =>
      if s.ended && s.closed && env.upstream.closeFails then Stop(Upstream(s.err.(cleanup := true))) else Forward(raw)
    case Failed(err) => Stop(Upstream(err))
    case Eof => Stop(EndOfStream)
  }

  function NextStep(env: Env, s: SA.State, t: Turn): (SA.State, Next) {
    var s1 := AfterAborts(s, t.aborts);
    if t.canceled then (s1, Stop(RequestCanceled))
    else
      var (s2, out) := ReadStep(env, s1, t.read);
      var s3 := AfterAborts(s2, t.late);
      (s3, Withhold(env, s3, out))
  }

  function Written(d: State, sent: Sent): State {
    d.(committed := true, sent := d.sent + [sent])
  }

  function StreamError(e: ClientError, sequence: int): Json {
    Obj(map["type" := Str("error"), "sequence_number" := Int(sequence), "code" := Str(e.code),
        "message" := Str(e.message), "param" := e.param])
  }

  /** sendError, after which the loop returns. */
  function SendErrorStep(env: Env, d: State, problem: Problem, w: Write): State {
    var e := env.classify(problem);
    var ended := d.(done := true);
    if !d.started then
      match w
      case NotBegun => ended.(failed := true)
      case Torn => Written(ended.(failed := true), Reply(e, false))
      case Whole => Written(ended, Reply(e, true))
    else if problem.EndOfStream? then ended
    else if d.sequence == MAX_INT64 then ended.(failed := true)
    else
      match w
      case NotBegun => ended.(failed := true)
      case Torn => ended.(failed := true, sent := d.sent + [Sse("error", StreamError(e, d.sequence + 1), true, false)])
      case Whole => ended.(sent := d.sent + [Sse("error", StreamError(e, d.sequence + 1), true, true)])
  }

  /** The write of a prepared event. */
  function SendEvent(d: State, p: Prepared, madeUp: bool, w: Write): State {
    var d1 := d.(sequence := p.sequence);
    match w
    case NotBegun => d1.(failed := true, done := true)
    case Torn => Written(d1.(failed := true, done := true), Sse(p.kind, p.body, madeUp, false))
    case Whole => Written(d1.(started := true, done := SA.FinalKind(p.kind)), Sse(p.kind, p.body, madeUp, true))
  }

  function ReceiveStep(env: Env, d: State, raw: Json, t: Turn): State {
    var d1 := d.(read := d.read + [raw]);
    var p := Prepare(env, raw, d.sequence);
    if p.None? then SendErrorStep(env, d1.(failed := true), ByCategory(INVALID_RESPONSE), t.errorWrite)
    else SendEvent(d1, p.value, ErrorKind(p.value.kind) && SequenceOf(raw).None?, t.write)
  }

  /** One turn; nothing happens after the loop has returned. */
  function Step(env: Env, d: State, t: Turn): State {
    if d.done then d
    else
      var (s, next) := NextStep(env, d.stream, t);
      match next
      case Forward(raw) => ReceiveStep(env, d.(stream := s), raw, t)
      case Stop(problem) => SendErrorStep(env, d.(stream := s), problem, t.errorWrite)
  }

  /** Opening may fail before the loop. */
  function Begin(env: Env, openFailed: bool, w: Write): State {
    if openFailed then SendErrorStep(env, INITIAL, OpenFailed, w) else INITIAL
  }

  function Run(env: Env, d: State, turns: seq<Turn>): State {
    if turns == [] then d else Step(env, Run(env, d, turns[..|turns| - 1]), turns[|turns| - 1])
  }

  // ----- What every turn keeps -----

  predicate Ordinary(x: Sent) {
    x.Sse? && !SA.FinalKind(x.kind) && x.whole && !x.madeUp
  }

  /** Only the last thing written may be a reply, a terminal or error event, torn, or freshly numbered. */
  predicate OnlyLastIsSpecial(sent: seq<Sent>) {
    forall i :: 0 <= i < |sent| - 1 ==> Ordinary(sent[i])
  }

  predicate AllOrdinary(sent: seq<Sent>) {
    forall i :: 0 <= i < |sent| ==> Ordinary(sent[i])
  }

  /** The response ended as a client can tell: one error reply, or events closed by one final event. */
  predicate ProperEnd(d: State) {
    && |d.sent| > 0 && OnlyLastIsSpecial(d.sent)
    && var last := d.sent[|d.sent| - 1];
    && last.whole
    && if d.started then last.Sse? && SA.FinalKind(last.kind) else |d.sent| == 1 && last.Reply?
  }

  predicate Shape(d: State) {
    && (d.started ==> |d.sent| > 0 && d.sent[0].Sse?)
    && (d.committed <==> |d.sent| > 0)
    && if d.done then OnlyLastIsSpecial(d.sent) && (!d.failed ==> ProperEnd(d))
       else !d.failed && AllOrdinary(d.sent) && (d.started <==> |d.sent| > 0)
  }

  /** While the loop runs, the upstream has not ended in success. */
  predicate Awaiting(d: State) {
    !d.done ==> (d.stream.ended ==> d.stream.err != SA.NIL)
  }

  /** A terminal response was sent only if the body closed cleanly, and it is the one the stream holds. */
  predicate TerminalIsClean(env: Env, x: Sent, stream: SA.State) {
    x.Sse? && SA.TerminalKind(x.kind) ==>
      && !env.upstream.closeFails && stream.ended && stream.status == SA.StatusOf(x.kind)
      && (x.kind != "response.failed" ==> x.body.Obj? && Lookup(x.body.fields, "response") == stream.response)
  }

  predicate Clean(env: Env, d: State) {
    |d.sent| > 0 ==> TerminalIsClean(env, d.sent[|d.sent| - 1], d.stream)
  }

  /** The provider's own valid number of a written event. */
  predicate NumberedBelow(x: Sent, bound: int) {
    x.Sse? && SequenceOf(x.body).Some? ==> SequenceOf(x.body).value <= bound
  }

  predicate AllBelow(sent: seq<Sent>, bound: int) {
    forall i :: 0 <= i < |sent| ==> NumberedBelow(sent[i], bound)
  }

  predicate FreshNumber(sent: seq<Sent>) {
    |sent| > 0 && sent[|sent| - 1].Sse? && sent[|sent| - 1].madeUp ==>
      var n := SequenceOf(sent[|sent| - 1].body);
      n.Some? && AllBelow(sent[..|sent| - 1], n.value - 1)
  }

  predicate Sequenced(d: State) {
    -1 <= d.sequence <= MAX_INT64 && FreshNumber(d.sent) && (!d.done ==> AllBelow(d.sent, d.sequence))
  }

  /** Events other than errors are the provider's, unchanged and in order. */
  predicate Unchanged(x: Sent, read: seq<Json>, i: nat) {
    x.Sse? && !ErrorKind(x.kind) ==> i < |read| && x.body == read[i]
  }

  predicate Relayed(d: State) {
    && (forall i :: 0 <= i < |d.sent| ==> Unchanged(d.sent[i], d.read, i))
    && (!d.done ==> |d.read| == |d.sent|)
  }

  predicate Inv(env: Env, d: State) {
    Shape(d) && Awaiting(d) && Clean(env, d) && Sequenced(d) && Relayed(d)
  }

  // ----- Upstream reads -----

  lemma {:induction false} AbortsAwait(s: SA.State, aborts: seq<Abort>)
    requires s.ended ==> s.err != SA.NIL
    ensures var t := AfterAborts(s, aborts); t.ended ==> t.err != SA.NIL
  {
    if aborts != [] {
      AbortsAwait(s, aborts[..|aborts| - 1]);
    }
  }

  /** A read of a stream that has not ended in success does not meet EOF, and forwards only what Clean allows. */
  predicate GoodNext(env: Env, s: SA.State, next: Next) {
    match next
    case Stop(problem) => !problem.EndOfStream?
    case Forward(raw) =>
      && raw.Obj?
      && (s.ended && s.err == SA.NIL ==> SA.FinalKind(SA.KindOf(raw)))
      && (SA.TerminalKind(SA.KindOf(raw)) ==>
            !env.upstream.closeFails && s.ended && s.status == SA.StatusOf(SA.KindOf(raw)) &&
                Lookup(raw.fields, "response") == s.response)
  }

  /** An event that closes a response carries the response that the stream then holds. */
  predicate CarriesResponse(t: SA.State, out: SA.Out) {
    out.Event? ==>
      && out.raw.Obj?
      && (SA.TerminalKind(SA.KindOf(out.raw)) ==>
            && t.ended && t.closed && t.status == SA.StatusOf(SA.KindOf(out.raw))
            && Lookup(out.raw.fields, "response") == t.response)
  }

  lemma TerminalCarries(env: SA.Env, s: SA.State, fields: Fields, kind: string)
    requires SA.TerminalKind(kind) && Lookup(fields, "type") == Some(Str(kind))
    ensures CarriesResponse(SA.TerminalStep(env, s, fields, kind).0, SA.TerminalStep(env, s, fields, kind).1)
  {
  }

  lemma OtherCarries(env: SA.Env, s: SA.State, fields: Fields, kind: string, length: nat)
    requires !SA.TerminalKind(kind) && Lookup(fields, "type") == Some(Str(kind))
    ensures
      var r := SA.DispatchStep(env, s, fields, kind, length);
      CarriesResponse(r.0, r.1)
  {
    var out := SA.DispatchStep(env, s, fields, kind, length).1;
    assert out.Event? ==> out.raw.Obj? && SA.KindOf(out.raw) == kind;
  }

  lemma TerminalHolds(env: SA.Env, s: SA.State, f: SA.Frame)
    requires !s.ended
    ensures CarriesResponse(SA.NextStep(env, s, f).0, SA.NextStep(env, s, f).1)
  {
    if SA.Readable(f) {
      var (fields, kind) := SA.Decode(f).value;
      if SA.TerminalKind(kind) {
        TerminalCarries(env, SA.Observed(s, f), fields, kind);
      } else {
        OtherCarries(env, SA.Observed(s, f), fields, kind, f.itemLength);
      }
    }
  }

  lemma NextIsGood(env: Env, s: SA.State, t: Turn)
    requires s.ended ==> s.err != SA.NIL
    ensures GoodNext(env, NextStep(env, s, t).0, NextStep(env, s, t).1)
  {
    AbortsAwait(s, t.aborts);
    var s1 := AfterAborts(s, t.aborts);
    if !t.canceled {
      var (s2, out) := ReadStep(env, s1, t.read);
      ReadIsGood(env, s1, t.read);
      LateAborts(s2, t.late);
    }
  }

  /** What a read of a stream that has not ended in success gives. */
  predicate GoodRead(env: Env, s: SA.State, out: SA.Out) {
    && !out.Eof?
    && (out.Event? ==>
         && out.raw.Obj?
         && (s.ended && s.err == SA.NIL ==> SA.FinalKind(SA.KindOf(out.raw)))
         && (SA.TerminalKind(SA.KindOf(out.raw)) ==>
               && s.ended && s.closed && s.status == SA.StatusOf(SA.KindOf(out.raw))
               && Lookup(out.raw.fields, "response") == s.response))
  }

  lemma ReadIsGood(env: Env, s: SA.State, r: Read)
    requires s.ended ==> s.err != SA.NIL
    ensures GoodRead(env, ReadStep(env, s, r).0, ReadStep(env, s, r).1)
  {
    if !s.ended && r.Got? {
      TerminalHolds(env.upstream, s, r.frame);
      SA.NextEnds(env.upstream, s, r.frame);
    }
  }

  /** A late abort may end the stream, but only in failure, and it changes neither the response nor an earlier end. */
  lemma {:induction false} LateAborts(s: SA.State, aborts: seq<Abort>)
    ensures
      var t := AfterAborts(s, aborts);
      && t.response == s.response && t.status == s.status && (s.closed ==> t.closed)
      && (s.ended ==> t.ended && t.err == s.err)
      && (t.ended && t.err == SA.NIL ==> s.ended)
  {
    if aborts != [] {
      LateAborts(s, aborts[..|aborts| - 1]);
    }
  }

  lemma DispatchedErrorDecodes(env: Env, s: SA.State, fields: Fields, kind: string, length: nat)
    requires ErrorKind(kind) && Lookup(fields, "type") == Some(Str(kind))
    ensures
      var out := SA.DispatchStep(env.upstream, s, fields, kind, length).1;
      out.Event? ==> SA.KindOf(out.raw) == kind && ErrorBody(env, out.raw.fields, kind).Some?
  {
  }

  /**
   The gateway refuses an event of the assembled stream exactly when its type is no event name, or it
   has no valid number and may not be given one; errors that the stream cleaned always decode.
   */
  lemma RefusedIff(env: Env, s: SA.State, f: SA.Frame, previous: int)
    requires !s.ended && SA.NextStep(env.upstream, s, f).1.Event?
    ensures
      var raw := SA.NextStep(env.upstream, s, f).1.raw;
      var kind := SA.KindOf(raw);
      && raw.Obj?
      && (Prepare(env, raw, previous).None? <==>
            || !EventName(kind)
            || (SequenceOf(raw).None? &&
                (previous == MAX_INT64 || ("sequence_number" in raw.fields && !ErrorKind(kind)))))
  {
    var raw := SA.NextStep(env.upstream, s, f).1.raw;
    TerminalHolds(env.upstream, s, f);
    var (fields, kind) := SA.Decode(f).value;
    assert Lookup(fields, "type") == Some(Str(kind));
    if ErrorKind(kind) {
      DispatchedErrorDecodes(env, SA.Observed(s, f), fields, kind, f.itemLength);
    } else {
      DispatchedKind(env.upstream, SA.Observed(s, f), fields, kind, f.itemLength);
    }
  }

  lemma DispatchedKind(env: SA.Env, s: SA.State, fields: Fields, kind: string, length: nat)
    requires !ErrorKind(kind) && Lookup(fields, "type") == Some(Str(kind))
    ensures
      var out := SA.DispatchStep(env, s, fields, kind, length).1;
      out.Event? ==> SA.KindOf(out.raw) == kind
  {
  }

  // ----- Each step, by what it keeps -----

  /** The loop still runs and has just read, so that `read` may be one event ahead of `sent`. */
  predicate Mid(d: State) {
    && !d.done && AllOrdinary(d.sent) && (d.started <==> |d.sent| > 0) && (d.committed <==> |d.sent| > 0)
    && -1 <= d.sequence <= MAX_INT64 && AllBelow(d.sent, d.sequence)
    && (forall i :: 0 <= i < |d.sent| ==> Unchanged(d.sent[i], d.read, i))
    && |d.sent| <= |d.read|
  }

  lemma SendErrorShape(env: Env, d: State, problem: Problem, w: Write)
    requires Mid(d) && !problem.EndOfStream?
    ensures Shape(SendErrorStep(env, d, problem, w))
  {
    var r := SendErrorStep(env, d, problem, w);
    if |r.sent| > |d.sent| {
      assert r.sent[..|d.sent|] == d.sent;
      assert OnlyLastIsSpecial(r.sent);
    } else {
      assert r.sent == d.sent && OnlyLastIsSpecial(r.sent);
    }
  }

  lemma StreamErrorNumber(e: ClientError, n: nat)
    requires n <= MAX_INT64
    ensures SequenceOf(StreamError(e, n)) == Some(n)
  {
  }

  lemma OrdinaryFresh(sent: seq<Sent>)
    requires AllOrdinary(sent)
    ensures FreshNumber(sent)
  {
    assert |sent| > 0 ==> Ordinary(sent[|sent| - 1]);
  }

  /** A state that ends the loop with at most one more thing written. */
  lemma EndSequenced(d: State, r: State, x: Sent)
    requires Mid(d) && r.done && r.sequence == d.sequence && (r.sent == d.sent || r.sent == d.sent + [x])
    requires x.Sse? && x.madeUp ==> SequenceOf(x.body) == Some(d.sequence + 1)
    ensures Sequenced(r)
  {
    OrdinaryFresh(d.sent);
    AppendSequenced(d.sent, x, d.sequence, d.sequence);
  }

  lemma SendErrorSequenced(env: Env, d: State, problem: Problem, w: Write)
    requires Mid(d) && !problem.EndOfStream?
    ensures Sequenced(SendErrorStep(env, d, problem, w))
  {
    var e, r := env.classify(problem), SendErrorStep(env, d, problem, w);
    if d.started && d.sequence < MAX_INT64 {
      StreamErrorNumber(e, d.sequence + 1);
      EndSequenced(d, r, Sse("error", StreamError(e, d.sequence + 1), true, w.Whole?));
    } else {
      EndSequenced(d, r, Reply(e, w.Whole?));
    }
  }

  lemma SendErrorClean(env: Env, d: State, problem: Problem, w: Write)
    requires Mid(d)
    ensures Clean(env, SendErrorStep(env, d, problem, w))
  {
    assert |d.sent| > 0 ==> Ordinary(d.sent[|d.sent| - 1]);
  }

  lemma SendErrorRelayed(env: Env, d: State, problem: Problem, w: Write)
    requires Mid(d)
    ensures Relayed(SendErrorStep(env, d, problem, w))
  {
    assert forall i :: 0 <= i < |d.sent| ==> Unchanged(d.sent[i], d.read, i);
  }

  lemma SendErrorKeeps(env: Env, d: State, problem: Problem, w: Write)
    requires Mid(d) && !problem.EndOfStream?
    ensures Inv(env, SendErrorStep(env, d, problem, w))
  {
    SendErrorShape(env, d, problem, w);
    SendErrorSequenced(env, d, problem, w);
    SendErrorClean(env, d, problem, w);
    SendErrorRelayed(env, d, problem, w);
    assert Awaiting(SendErrorStep(env, d, problem, w));
  }

  function Sending(d: State, raw: Json, p: Prepared, w: Write): State {
    SendEvent(d, p, ErrorKind(p.kind) && SequenceOf(raw).None?, w)
  }

  lemma SendEventShape(d: State, raw: Json, p: Prepared, w: Write)
    requires Mid(d) && !d.failed
    ensures Shape(Sending(d, raw, p, w))
  {
    var r := Sending(d, raw, p, w);
    if w.NotBegun? {
      assert OnlyLastIsSpecial(r.sent);
    } else {
      assert r.sent[..|d.sent|] == d.sent;
      assert OnlyLastIsSpecial(r.sent);
    }
  }

  lemma AppendSequenced(sent: seq<Sent>, x: Sent, previous: int, bound: int)
    requires AllBelow(sent, previous) && previous <= bound
    ensures NumberedBelow(x, bound) ==> AllBelow(sent + [x], bound)
    ensures (x.Sse? && x.madeUp ==> SequenceOf(x.body) == Some(previous + 1)) ==> FreshNumber(sent + [x])
  {
    assert (sent + [x])[..|sent|] == sent;
    assert forall i :: 0 <= i < |sent| ==> NumberedBelow(sent[i], previous);
  }

  lemma SendEventSequenced(d: State, raw: Json, p: Prepared, w: Write)
    requires Mid(d) && PreparedFrom(p, raw, d.sequence)
    ensures Sequenced(Sending(d, raw, p, w))
  {
    PreparedNumber(p, raw, d.sequence);
    if w.NotBegun? {
      assert |d.sent| > 0 ==> Ordinary(d.sent[|d.sent| - 1]);
    } else {
      var x := Sse(p.kind, p.body, ErrorKind(p.kind) && SequenceOf(raw).None?, w.Whole?);
      assert NumberedBelow(x, p.sequence);
      AppendSequenced(d.sent, x, d.sequence, p.sequence);
      assert Sending(d, raw, p, w).sent == d.sent + [x];
    }
  }

  lemma PreparedNumber(p: Prepared, raw: Json, previous: int)
    requires PreparedFrom(p, raw, previous)
    ensures SequenceOf(p.body).Some? ==> SequenceOf(p.body).value <= p.sequence
    ensures ErrorKind(p.kind) && SequenceOf(raw).None? ==> SequenceOf(p.body) == Some(previous + 1)
  {
  }

  lemma SendEventKeeps(env: Env, d: State, raw: Json, p: Prepared, w: Write)
    requires Mid(d) && !d.failed && |d.read| == |d.sent| + 1 && d.read[|d.sent|] == raw
    requires PreparedFrom(p, raw, d.sequence) && GoodNext(env, d.stream, Forward(raw))
    ensures Inv(env, Sending(d, raw, p, w))
  {
    SendEventShape(d, raw, p, w);
    SendEventSequenced(d, raw, p, w);
    SendEventClean(env, d, raw, p, w);
    var r := Sending(d, raw, p, w);
    assert forall i :: 0 <= i < |d.sent| ==> Unchanged(d.sent[i], d.read, i);
    assert Relayed(r);
    assert Awaiting(r);
  }

  lemma SendEventClean(env: Env, d: State, raw: Json, p: Prepared, w: Write)
    requires Mid(d) && PreparedFrom(p, raw, d.sequence) && GoodNext(env, d.stream, Forward(raw))
    ensures Clean(env, Sending(d, raw, p, w))
  {
    assert |d.sent| > 0 ==> Ordinary(d.sent[|d.sent| - 1]);
  }

  lemma StepKeeps(env: Env, d: State, t: Turn)
    requires Inv(env, d)
    ensures Inv(env, Step(env, d, t))
  {
    if !d.done {
      NextIsGood(env, d.stream, t);
      var (s, next) := NextStep(env, d.stream, t);
      var d1 := d.(stream := s);
      if next.Stop? {
        SendErrorKeeps(env, d1, next.problem, t.errorWrite);
      } else {
        ReceiveKeeps(env, d1, next.raw, t);
      }
    }
  }

  lemma ReceiveKeeps(env: Env, d: State, raw: Json, t: Turn)
    requires Mid(d) && !d.failed && |d.read| == |d.sent| && GoodNext(env, d.stream, Forward(raw))
    ensures Inv(env, ReceiveStep(env, d, raw, t))
  {
    var d1 := d.(read := d.read + [raw]);
    PrepareSound(env, raw, d.sequence);
    var p := Prepare(env, raw, d.sequence);
    if p.None? {
      SendErrorKeeps(env, d1.(failed := true), ByCategory(INVALID_RESPONSE), t.errorWrite);
    } else {
      SendEventKeeps(env, d1, raw, p.value, t.write);
    }
  }

  lemma {:induction false} InvRun(env: Env, openFailed: bool, w: Write, turns: seq<Turn>)
    ensures Inv(env, Run(env, Begin(env, openFailed, w), turns))
  {
    if turns == [] {
      SendErrorKeeps(env, INITIAL, OpenFailed, w);
    } else {
      InvRun(env, openFailed, w, turns[..|turns| - 1]);
      StepKeeps(env, Run(env, Begin(env, openFailed, w), turns[..|turns| - 1]), turns[|turns| - 1]);
    }
  }

  // ----- Main results -----

  /**
   However the upstream, the aborts and the writes interleave, nothing is written after a reply, a
   terminal or error event, or a torn write; and a response that was ended without a recorded delivery
   failure is either one whole JSON error, or whole events of which the last, and only the last, is final.
   */
  lemma OneEnding(env: Env, openFailed: bool, w: Write, turns: seq<Turn>)
    ensures
      var d := Run(env, Begin(env, openFailed, w), turns);
      && OnlyLastIsSpecial(d.sent)
      && (d.done && !d.failed ==> ProperEnd(d))
      && (!d.done ==> AllOrdinary(d.sent) && !d.failed)
  {
    InvRun(env, openFailed, w, turns);
  }

  /** A terminal response reaches the client only after a clean close, and it is the response that is recorded. */
  lemma CompletedOnlyAfterCleanClose(env: Env, openFailed: bool, w: Write, turns: seq<Turn>)
    ensures
      var d := Run(env, Begin(env, openFailed, w), turns);
      forall i :: 0 <= i < |d.sent| ==> TerminalIsClean(env, d.sent[i], d.stream)
  {
    InvRun(env, openFailed, w, turns);
    var d := Run(env, Begin(env, openFailed, w), turns);
    forall i | 0 <= i < |d.sent| ensures TerminalIsClean(env, d.sent[i], d.stream) {
      CleanAt(env, d, i);
    }
  }

  lemma CleanAt(env: Env, d: State, i: nat)
    requires Inv(env, d) && i < |d.sent|
    ensures TerminalIsClean(env, d.sent[i], d.stream)
  {
    assert i < |d.sent| - 1 ==> Ordinary(d.sent[i]);
  }

  /** A made-up number lies above every valid number sent before it, and within int64. */
  lemma MadeUpNumbersAreFresh(env: Env, openFailed: bool, w: Write, turns: seq<Turn>)
    ensures
      var sent := Run(env, Begin(env, openFailed, w), turns).sent;
      forall j :: 0 <= j < |sent| && sent[j].Sse? && sent[j].madeUp ==> AboveAllBefore(sent, j)
  {
    InvRun(env, openFailed, w, turns);
    OneEnding(env, openFailed, w, turns);
    var sent := Run(env, Begin(env, openFailed, w), turns).sent;
    forall j | 0 <= j < |sent| && sent[j].Sse? && sent[j].madeUp ensures AboveAllBefore(sent, j) {
      FreshAt(sent, j);
    }
  }

  /** The number of event `j` is an int64 above every valid number of the events before it. */
  predicate AboveAllBefore(sent: seq<Sent>, j: nat)
    requires j < |sent| && sent[j].Sse?
  {
    var number := SequenceOf(sent[j].body);
    number.Some? && number.value <= MAX_INT64 && AllBelow(sent[..j], number.value - 1)
  }

  lemma FreshAt(sent: seq<Sent>, j: nat)
    requires OnlyLastIsSpecial(sent) && FreshNumber(sent) && j < |sent| && sent[j].Sse? && sent[j].madeUp
    ensures AboveAllBefore(sent, j)
  {
    assert j == |sent| - 1;
  }

  // ----- The gateway's loop -----

  class Responder {
    const env: Env
    const attempt: SA.Stream
    var started: bool
    var sequence: int
    var failed: bool
    var committed: bool
    var done: bool
    var sent: seq<Sent>
    var read: seq<Json>

    constructor (env: Env)
      ensures Snap() == INITIAL && this.env == env && attempt.env == env.upstream && fresh(attempt)
    {
      this.env := env;
      attempt := new SA.Stream(env.upstream);
      started, sequence, failed, committed, done, sent, read := false, -1, false, false, false, [], [];
    }

    function Snap(): State
      reads this, attempt
    {
      State(attempt.Snap(), started, sequence, failed, committed, done, sent, read)
    }

    /** What execution aborts in the background when the request is canceled. */
    method RunAborts(aborts: seq<Abort>)
      modifies attempt
      ensures attempt.Snap() == AfterAborts(old(attempt.Snap()), aborts)
    {
      for i := 0 to |aborts|
        invariant attempt.Snap() == AfterAborts(old(attempt.Snap()), aborts[..i])
      {
        assert aborts[..i + 1][..i] == aborts[..i];
        match aborts[i]
        case AbortBody => attempt.CloseBody();
        case AbortClose(category) => var _ := attempt.Close(category);
      }
      assert aborts[..|aborts|] == aborts;
    }

    /** execution's Stream.Next */
    method ReadNext(t: Turn) returns (next: Next)
      requires attempt.env == env.upstream
      modifies attempt
      ensures (attempt.Snap(), next) == NextStep(env, old(attempt.Snap()), t)
    {
      RunAborts(t.aborts);
      if t.canceled {
        return Stop(RequestCanceled);
      }
      var out;
      match t.read {
        case Got(frame) => out := attempt.Next(frame);
        case Broke(category) => out := attempt.NextBroken(category);
      }
      RunAborts(t.late);
      if out.Event? && attempt.CleanupError() {
        return Stop(Upstream(attempt.err.(cleanup := true)));
      }
      next := match out
        case Event(raw) => Forward(raw)
        case Failed(err) => Stop(Upstream(err))
        case Eof => Stop(EndOfStream);
    }

    method SendError(problem: Problem, w: Write)
      modifies this
      ensures Snap() == SendErrorStep(env, old(Snap()), problem, w)
    {
      var e := env.classify(problem);
      done := true;
      if !started {
        if !w.NotBegun? {
          committed := true;
          sent := sent + [Reply(e, w.Whole?)];
        }
        if !w.Whole? {
          failed := true;
        }
      } else if !problem.EndOfStream? {
        if sequence == MAX_INT64 {
          failed := true;
        } else {
          if !w.NotBegun? {
            sent := sent + [Sse("error", StreamError(e, sequence + 1), true, w.Whole?)];
          }
          if !w.Whole? {
            failed := true;
          }
        }
      }
    }

    /** The body of the gateway's loop. */
    method TakeTurn(t: Turn)
      requires attempt.env == env.upstream && !done
      modifies this, attempt
      ensures Snap() == Step(env, old(Snap()), t)
    {
      var next := ReadNext(t);
      if next.Stop? {
        SendError(next.problem, t.errorWrite);
        return;
      }
      Receive(next.raw, t);
    }

    /** The loop's work on one event. */
    method Receive(raw: Json, t: Turn)
      requires !done
      modifies this
      ensures Snap() == ReceiveStep(env, old(Snap()), raw, t)
    {
      read := read + [raw];
      var p := Prepare(env, raw, sequence);
      if p.None? {
        failed := true;
        SendError(ByCategory(INVALID_RESPONSE), t.errorWrite);
        return;
      }
      sequence := p.value.sequence;
      if !t.write.NotBegun? {
        committed := true;
        sent := sent +
            [Sse(p.value.kind, p.value.body, ErrorKind(p.value.kind) && SequenceOf(raw).None?, t.write.Whole?)];
      }
      if !t.write.Whole? {
        failed := true;
        done := true;
        return;
      }
      started := true;
      if SA.FinalKind(p.value.kind) {
        done := true;
      }
    }

    /** stream: the loop runs until it returns or the supplied turns are used up. */
    method Deliver(openFailed: bool, w: Write, turns: seq<Turn>)
      requires attempt.env == env.upstream && Snap() == INITIAL
      modifies this, attempt
      ensures Snap() == Run(env, Begin(env, openFailed, w), turns)
    {
      if openFailed {
        SendError(OpenFailed, w);
      }
      ghost var d := Begin(env, openFailed, w);
      for i := 0 to |turns|
        invariant Snap() == Run(env, d, turns[..i])
      {
        assert turns[..i + 1][..i] == turns[..i];
        if !done {
          TakeTurn(turns[i]);
        }
      }
      assert turns[..|turns|] == turns;
    }
  }
}
