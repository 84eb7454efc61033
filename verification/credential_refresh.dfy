/**
 The OAuth manager's on-demand refresh protocol as a step system. Calls of
 `CurrentAccount` and refresh jobs run concurrently; each step is one region under
 the manager's lock, one store statement or one provider exchange. Steps that do not
 apply leave the state unchanged, so every sequence of events is a run.
 */
module CredentialRefresh {
  import opened Common
  import DB = AccountStore

  type ID = DB.ID
  /** A pointer to a refresh state: an index into `State.states`. */
  type Ref = nat
  type CallID = nat

  datatype RefreshState = RefreshState(
    previous: DB.Record, done: Option<nat>, replacement: Option<DB.Credentials>,
    needsSignIn: bool, retryAt: nat, retryBlocked: bool)

  datatype Failure = SignInRequired | SaveConflict | SaveFailed | Provider(transient: bool, retryAfter: Cooldown)

  /** Where a refresh job stands: before its provider call, in it, before its save, before its last region. */
  datatype Job =
    | Starting
    | Calling
    | Ready(outcome: Result<DB.Credentials, Failure>)
    | Ending(error: Option<Failure>, replacement: Option<DB.Credentials>)

  datatype CallError = Closed | Disabled | NeedsSignIn | TemporarilyUnavailable | Canceled | Store(error: DB.Error)

  /** Where one `CurrentAccount` call stands, with its local variables. */
  datatype Call =
    | Looking(id: ID, waited: bool)
    | Captured(id: ID, waited: bool, before: Option<Ref>, revision: nat)
    | Fetched(id: ID, waited: bool, before: Option<Ref>, revision: nat, got: Result<DB.Record, DB.Error>)
    | Holding(id: ID, waited: bool, record: DB.Record, ref: Ref)
    | Waiting(id: ID, ref: Ref, job: nat)
    | Returned(id: ID, result: Result<DB.Record, CallError>)

  /** History of the jobs of each refresh state. */
  datatype Note =
    | Started(ref: Ref)
    | Called(ref: Ref)
    | Gave(ref: Ref, credentials: DB.Credentials)
    | Saved(ref: Ref, credentials: DB.Credentials, outcome: Result<(), DB.Error>)
    | Ended(ref: Ref)

  datatype State = State(
    store: DB.State, refreshes: map<ID, Ref>, states: seq<RefreshState>, revision: nat, closed: bool,
    calls: map<CallID, Call>, jobs: map<Ref, Job>, nextJob: nat, clock: nat, log: seq<Note>)

  const INITIAL := State(DB.State(map[], 0), map[], [], 0, false, map[], map[], 0, 0, [])

  datatype Reply = Tokens(credentials: DB.Credentials) | Refused(transient: bool, retryAfter: Cooldown)

  datatype Event =
    | Begin(call: CallID, id: ID)
    | Cancel(call: CallID)
    | Capture(call: CallID)
    | Fetch(call: CallID, failed: bool)
    | Check(call: CallID)
    | Decide(call: CallID, lag: nat)
    | Resume(call: CallID)
    | JobBegin(ref: Ref)
    | JobReply(ref: Ref, reply: Reply)
    | JobSave(ref: Ref, fault: DB.Fault)
    | JobEnd(ref: Ref)
    | StoreWrite(op: DB.Op)
    | DisableDone(id: ID)
    | DeleteDone(id: ID)
    | LoginDone(id: ID)
    | Stop
    | ClearStates
    | Tick(seconds: nat)

  // ----- Steps -----

  function StateOf(s: State, ref: Option<Ref>): Option<RefreshState> {
    if ref.Some? && ref.value < |s.states| then Some(s.states[ref.value]) else None
  }

  predicate NeedsSignInFor(state: Option<RefreshState>, record: DB.Record) {
    state.Some? && state.value.needsSignIn && state.value.previous.credentials == record.credentials
  }

  function Invalidated(s: State, id: ID): State {
    s.(revision := s.revision + 1, refreshes := s.refreshes - {id})
  }

  function InvalidatedKeeping(s: State, id: ID, preserveSignIn: bool): State {
    var ref := Lookup(s.refreshes, id);
    var state := StateOf(s, ref);
    var s' := Invalidated(s, id);
    if preserveSignIn && state.Some? && state.value.needsSignIn
    then s'.(refreshes := s'.refreshes[id := ref.value]) else s'
  }

  function Move(s: State, c: CallID, call: Call): State {
    s.(calls := s.calls[c := call])
  }

  function CaptureStep(s: State, c: CallID, call: Call): State
    requires call.Looking?
  {
    if s.closed then Move(s, c, Returned(call.id, Err(Closed)))
    else Move(s, c, Captured(call.id, call.waited, Lookup(s.refreshes, call.id), s.revision))
  }

  function FetchStep(s: State, c: CallID, call: Call, failed: bool): State
    requires call.Captured?
  {
    var got := if failed then Err(DB.Unavailable) else DB.Read(s.store, call.id);
    Move(s, c, Fetched(call.id, call.waited, call.before, call.revision, got))
  }

  function CheckStep(s: State, c: CallID, call: Call): State
    requires call.Fetched?
  {
    var id, before := call.id, call.before;
    var same := Lookup(s.refreshes, id) == before && s.revision == call.revision;
    match call.got
    case Err(e) =>
      Move(if e.NotFound? && same then Invalidated(s, id) else s, c, Returned(id, Err(Store(e))))
    case Ok(record) =>
      var state := StateOf(s, before);
      if s.closed then Move(s, c, Returned(id, Err(Closed)))
      else if !same then Move(s, c, Looking(id, call.waited))
      else if !record.enabled then
        Move(if NeedsSignInFor(state, record) then s else Invalidated(s, id), c, Returned(id, Err(Disabled)))
      else if state.None? || state.value.previous != record then
        var created := RefreshState(record, None, None, NeedsSignInFor(state, record), 0, false);
        var s' := Invalidated(s, id);
        Move(s'.(states := s.states + [created], refreshes := s'.refreshes[id := |s.states|]), c,
             Holding(id, call.waited, record, |s.states|))
      else Move(s, c, Holding(id, call.waited, record, before.value))
  }

  function DecideStep(s: State, c: CallID, call: Call, lag: nat): State
    requires call.Holding? && call.ref < |s.states|
  {
    var id, record, ref := call.id, call.record, call.ref;
    var state := s.states[ref];
    var expires := record.credentials.expiresAt;
    if s.closed then Move(s, c, Returned(id, Err(Closed)))
    else if Lookup(s.refreshes, id) != Some(ref) then Move(s, c, Looking(id, call.waited))
    else if state.needsSignIn then Move(s, c, Returned(id, Err(NeedsSignIn)))
    else if expires > s.clock + 5 * MINUTE || call.waited || state.retryBlocked || s.clock < state.retryAt then
      Move(s, c, Returned(id,
        if state.replacement.Some? || expires <= s.clock + lag then Err(TemporarilyUnavailable) else Ok(record)))
    else if state.done.None? then
      Move(s.(states := s.states[ref := state.(done := Some(s.nextJob))], jobs := s.jobs[ref := Starting],
              nextJob := s.nextJob + 1, log := s.log + [Started(ref)]), c, Waiting(id, ref, s.nextJob))
    else Move(s, c, Waiting(id, ref, state.done.value))
  }

  /** A provider identity other than the stored one needs a new sign-in. */
  function Checked(state: RefreshState, outcome: Result<DB.Credentials, Failure>): Result<DB.Credentials, Failure> {
    if outcome.Ok? && outcome.value.chatGPTAccountID != state.previous.credentials.chatGPTAccountID
    then Err(SignInRequired) else outcome
  }

  function JobBeginStep(s: State, ref: Ref): State
    requires ref < |s.states|
  {
    var state := s.states[ref];
    match state.replacement
    case Some(kept) =>
      var outcome := if kept.expiresAt > s.clock then Ok(kept) else Err(SignInRequired);
      s.(jobs := s.jobs[ref := Ready(Checked(state, outcome))])
    case None => s.(jobs := s.jobs[ref := Calling], log := s.log + [Called(ref)])
  }

  function JobReplyStep(s: State, ref: Ref, reply: Reply): State
    requires ref < |s.states|
  {
    var outcome := match reply
      case Tokens(credentials) => Checked(s.states[ref], Ok(credentials))
      case Refused(transient, retryAfter) => Err(Provider(transient, retryAfter));
    s.(jobs := s.jobs[ref := Ready(outcome)], log := if outcome.Ok? then s.log + [Gave(ref, outcome.value)] else s.log)
  }

  function JobSaveStep(s: State, ref: Ref, outcome: Result<DB.Credentials, Failure>, fault: DB.Fault): State
    requires ref < |s.states|
  {
    match outcome
    case Err(e) => s.(jobs := s.jobs[ref := Ending(Some(e), None)])
    case Ok(credentials) =>
      var (store, r) := DB.Perform(s.store, DB.Replace(s.states[ref].previous, credentials, fault));
      var ending :=
        if r.Ok? then Ending(None, None)
        else if r.error.Conflict? then Ending(Some(SaveConflict), None)
        else Ending(Some(SaveFailed), Some(credentials));
      s.(store := store, jobs := s.jobs[ref := ending], log := s.log + [Saved(ref, credentials, r)])
  }

  function Settled(state: RefreshState, error: Failure, replacement: Option<DB.Credentials>, now: nat): RefreshState {
    var needsSignIn := error.SignInRequired? || (error.Provider? && !error.transient);
    var state := state.(replacement := replacement, needsSignIn := needsSignIn, retryAt := 0, retryBlocked := false);
    if needsSignIn then state
    else
      var retryAt := now + MINUTE;
      if !error.Provider? then state.(retryAt := retryAt)
      else state.(retryBlocked := error.retryAfter.RetryBlocked?,
                  retryAt := if error.retryAfter.RetryAt? then Max(retryAt, error.retryAfter.until) else retryAt)
  }

  function JobEndStep(s: State, ref: Ref, error: Option<Failure>, replacement: Option<DB.Credentials>): State
    requires ref < |s.states|
  {
    var state := s.states[ref].(done := None);
    var id := state.previous.id;
    var s' := s.(states := s.states[ref := state], jobs := s.jobs - {ref}, log := s.log + [Ended(ref)]);
    if Lookup(s.refreshes, id) != Some(ref) then s'
    else if error.None? then Invalidated(s', id)
    else s'.(states := s.states[ref := Settled(state, error.value, replacement, s.clock)])
  }

  function Apply(s: State, e: Event): State {
    match e
    case Begin(c, id) => if c in s.calls then s else Move(s, c, Looking(id, false))
    case Cancel(c) =>
      if c in s.calls && !s.calls[c].Returned? then Move(s, c, Returned(s.calls[c].id, Err(Canceled))) else s
    case Capture(c) => if c in s.calls && s.calls[c].Looking? then CaptureStep(s, c, s.calls[c]) else s
    case Fetch(c, failed) => if c in s.calls && s.calls[c].Captured? then FetchStep(s, c, s.calls[c], failed) else s
    case Check(c) => if c in s.calls && s.calls[c].Fetched? then CheckStep(s, c, s.calls[c]) else s
    case Decide(c, lag) =>
      if c in s.calls && s.calls[c].Holding? && s.calls[c].ref < |s.states|
      then DecideStep(s, c, s.calls[c], lag) else s
    case Resume(c) =>
      if c in s.calls && s.calls[c].Waiting? && s.calls[c].ref < |s.states| &&
         s.states[s.calls[c].ref].done != Some(s.calls[c].job)
      then Move(s, c, Looking(s.calls[c].id, true)) else s
    case JobBegin(ref) => if ref in s.jobs && ref < |s.states| && s.jobs[ref].Starting? then JobBeginStep(s, ref) else s
    case JobReply(ref, reply) =>
      if ref in s.jobs && ref < |s.states| && s.jobs[ref].Calling? then JobReplyStep(s, ref, reply) else s
    case JobSave(ref, fault) =>
      if ref in s.jobs && ref < |s.states| && s.jobs[ref].Ready?
      then JobSaveStep(s, ref, s.jobs[ref].outcome, fault) else s
    case JobEnd(ref) =>
      if ref in s.jobs && ref < |s.states| && s.jobs[ref].Ending?
      then JobEndStep(s, ref, s.jobs[ref].error, s.jobs[ref].replacement) else s
    case StoreWrite(op) => s.(store := DB.Apply(s.store, op))
    case DisableDone(id) => InvalidatedKeeping(s, id, true)
    case DeleteDone(id) => InvalidatedKeeping(s, id, false)
    case LoginDone(id) => Invalidated(s, id)
    case Stop => s.(closed := true)
    case ClearStates => if s.closed && s.jobs == map[] then s.(refreshes := map[]) else s
    case Tick(seconds) => s.(clock := s.clock + seconds)
  }

  function Run(events: seq<Event>): State {
    if events == [] then INITIAL else Apply(Run(events[..|events| - 1]), events[|events| - 1])
  }

  // ----- What the job history owes -----

  /** Usable credentials that the provider gave and whose save has met no conflict since. */
  function Owed(log: seq<Note>, ref: Ref): Option<DB.Credentials> {
    if log == [] then None else OwedAfter(Owed(log[..|log| - 1], ref), log[|log| - 1], ref)
  }

  function OwedAfter(owed: Option<DB.Credentials>, n: Note, ref: Ref): Option<DB.Credentials> {
    if n.ref != ref then owed
    else if n.Gave? then Some(n.credentials)
    else if n.Saved? && n.outcome == Err(DB.Conflict) then None
    else owed
  }

  /** The last job started for `ref` has not ended. */
  predicate Running(log: seq<Note>, ref: Ref) {
    log != [] && RunningAfter(Running(log[..|log| - 1], ref), log[|log| - 1], ref)
  }

  predicate RunningAfter(running: bool, n: Note, ref: Ref) {
    if n.ref != ref then running else if n.Started? then true else if n.Ended? then false else running
  }

  /** The provider is called only when nothing is owed, a save uses what is owed, and jobs do not overlap. */
  predicate Proper(log: seq<Note>) {
    log != [] ==> Proper(log[..|log| - 1]) && ProperNote(log[..|log| - 1], log[|log| - 1])
  }

  predicate ProperNote(log: seq<Note>, n: Note) {
    && (n.Started? <==> !Running(log, n.ref))
    && (n.Called? || n.Gave? ==> Owed(log, n.ref).None?)
    && (n.Saved? ==> Owed(log, n.ref) == Some(n.credentials))
  }

  lemma Appended(log: seq<Note>, n: Note)
    ensures forall ref: Ref :: Owed(log + [n], ref) == OwedAfter(Owed(log, ref), n, ref)
    ensures forall ref: Ref :: Running(log + [n], ref) == RunningAfter(Running(log, ref), n, ref)
    ensures Proper(log) && ProperNote(log, n) ==> Proper(log + [n])
  {
    assert (log + [n])[..|log|] == log;
  }

  // ----- The invariant -----

  predicate Current(s: State, ref: Ref)
    requires ref < |s.states|
  {
    Lookup(s.refreshes, s.states[ref].previous.id) == Some(ref)
  }

  predicate JobOwes(job: Job, state: RefreshState, owed: Option<DB.Credentials>) {
    match job
    case Starting => state.replacement == owed
    case Calling => owed.None?
    case Ready(Ok(credentials)) => owed == Some(credentials)
    case Ready(Err(e)) => owed.Some? ==> e.SignInRequired?
    case Ending(None, _) => true
    case Ending(Some(e), replacement) =>
      && (replacement.Some? ==> replacement == owed)
      && (owed.Some? ==> replacement == owed || e.SignInRequired?)
  }

  predicate RefOK(s: State, ref: Ref)
    requires ref < |s.states|
  {
    var state := s.states[ref];
    && (state.done.Some? <==> ref in s.jobs)
    && (Running(s.log, ref) <==> ref in s.jobs)
    && (ref in s.jobs ==> MayRun(s, state) && !state.needsSignIn && JobOwes(s.jobs[ref], state, Owed(s.log, ref)))
    && (ref !in s.jobs && Current(s, ref) && !state.needsSignIn ==> state.replacement == Owed(s.log, ref))
  }

  predicate CallOK(s: State, call: Call) {
    match call
    case Captured(_, _, before, revision) => (before.Some? ==> before.value < |s.states|) && revision <= s.revision
    case Fetched(id, _, before, revision, got) =>
      && (before.Some? ==> before.value < |s.states|) && revision <= s.revision
      && (got.Ok? ==> got.value.id == id)
    case Holding(id, _, record, ref) =>
      ref < |s.states| && record == s.states[ref].previous && record.id == id && record.enabled
    case _ => true
  }

  ghost predicate Shape(s: State) {
    && (forall id :: id in s.refreshes ==> s.refreshes[id] < |s.states| && s.states[s.refreshes[id]].previous.id == id)
    && (forall ref :: ref in s.jobs ==> ref < |s.states|)
    && (forall i :: 0 <= i < |s.log| ==> s.log[i].ref < |s.states|)
  }

  ghost predicate CallsOK(s: State) {
    forall c :: c in s.calls ==> CallOK(s, s.calls[c])
  }

  ghost predicate RefsOK(s: State) {
    forall ref :: 0 <= ref < |s.states| ==> RefOK(s, ref)
  }

  ghost predicate Inv(s: State) {
    DB.Sound(s.store) && Proper(s.log) && Shape(s) && CallsOK(s) && RefsOK(s)
  }

  lemma {:induction false} Unborn(log: seq<Note>, ref: Ref)
    requires forall i :: 0 <= i < |log| ==> log[i].ref != ref
    ensures Owed(log, ref).None? && !Running(log, ref)
  {
    if log != [] {
      Unborn(log[..|log| - 1], ref);
    }
  }

  /** A state that a step leaves alone stays right, unless the step makes it current. */
  lemma RefFrame(s: State, t: State, ref: Ref)
    requires ref < |s.states| <= |t.states| && s.states[ref] == t.states[ref]
    requires Lookup(s.jobs, ref) == Lookup(t.jobs, ref) && s.clock <= t.clock
    requires Owed(s.log, ref) == Owed(t.log, ref) && Running(s.log, ref) == Running(t.log, ref)
    requires Current(t, ref) ==> Current(s, ref)
    requires RefOK(s, ref)
    ensures RefOK(t, ref)
  {
  }

  /** A step that touches no job, refresh state or history, and adds no current state. */
  predicate Quiet(s: State, t: State) {
    && s.states == t.states && s.jobs == t.jobs && s.log == t.log && s.clock <= t.clock
    && forall id :: id in t.refreshes ==> id in s.refreshes && s.refreshes[id] == t.refreshes[id]
  }

  lemma QuietRefs(s: State, t: State)
    requires Quiet(s, t) && RefsOK(s)
    ensures RefsOK(t)
  {
    forall ref | 0 <= ref < |t.states| ensures RefOK(t, ref) {
      assert RefOK(s, ref);
      RefFrame(s, t, ref);
    }
  }

  lemma QuietInv(s: State, t: State)
    requires Inv(s) && Quiet(s, t) && CallsOK(t) && DB.Sound(t.store)
    ensures Inv(t)
  {
    QuietRefs(s, t);
  }

  /** Nothing that the locals of other calls depend on goes back. */
  predicate Grows(s: State, t: State) {
    && s.revision <= t.revision && |s.states| <= |t.states|
    && forall ref :: 0 <= ref < |s.states| ==> t.states[ref].previous == s.states[ref].previous
  }

  lemma CallsFrame(s: State, t: State, c: CallID, call: Call)
    requires CallsOK(s) && Grows(s, t)
    requires t.calls == s.calls || (t.calls == s.calls[c := call] && CallOK(t, call))
    ensures CallsOK(t)
  {
    forall k | k in t.calls ensures CallOK(t, t.calls[k]) {
      assert k in s.calls ==> CallOK(s, s.calls[k]);
    }
  }

  lemma CheckShape(s: State, c: CallID, call: Call)
    requires Shape(s) && call.Fetched? && CallOK(s, call)
    ensures Shape(CheckStep(s, c, call))
  {
  }

  lemma CheckCalls(s: State, c: CallID, call: Call)
    requires CallsOK(s) && call.Fetched? && CallOK(s, call)
    ensures CallsOK(CheckStep(s, c, call))
  {
    var t := CheckStep(s, c, call);
    CallsFrame(s, t, c, t.calls[c]);
  }

  lemma CheckRefs(s: State, c: CallID, call: Call)
    requires Shape(s) && RefsOK(s) && call.Fetched? && CallOK(s, call)
    ensures RefsOK(CheckStep(s, c, call))
  {
    var t := CheckStep(s, c, call);
    if t.states == s.states {
      QuietRefs(s, t);
    } else {
      NewStateRefs(s, t, call.id);
    }
  }

  /** A step that adds one fresh refresh state and makes it the account's current one. */
  lemma NewStateRefs(s: State, t: State, id: ID)
    requires Shape(s) && RefsOK(s) && |t.states| == |s.states| + 1 && t.states[..|s.states|] == s.states
    requires t.states[|s.states|].done.None? && t.states[|s.states|].replacement.None?
    requires t.jobs == s.jobs && t.log == s.log && s.clock <= t.clock
    requires t.refreshes == (s.refreshes - {id})[id := |s.states|]
    ensures RefsOK(t)
  {
    Unborn(s.log, |s.states|);
    forall ref | 0 <= ref < |t.states| ensures RefOK(t, ref) {
      if ref < |s.states| {
        assert t.states[..|s.states|][ref] == t.states[ref];
        assert RefOK(s, ref);
        RefFrame(s, t, ref);
      }
    }
  }

  lemma CheckInv(s: State, c: CallID)
    requires Inv(s)
    ensures Inv(Apply(s, Check(c)))
  {
    if c in s.calls && s.calls[c].Fetched? {
      CheckShape(s, c, s.calls[c]);
      CheckCalls(s, c, s.calls[c]);
      CheckRefs(s, c, s.calls[c]);
    }
  }

  lemma DecideRefs(s: State, c: CallID, call: Call, lag: nat)
    requires Proper(s.log) && RefsOK(s) && call.Holding? && CallOK(s, call)
    ensures Proper(DecideStep(s, c, call, lag).log) && RefsOK(DecideStep(s, c, call, lag))
  {
    var t := DecideStep(s, c, call, lag);
    if t.log == s.log {
      QuietRefs(s, t);
    } else {
      assert RefOK(s, call.ref);
      Appended(s.log, Started(call.ref));
      forall ref | 0 <= ref < |t.states| ensures RefOK(t, ref) {
        assert RefOK(s, ref);
        if ref != call.ref {
          RefFrame(s, t, ref);
        }
      }
    }
  }

  lemma DecideShape(s: State, c: CallID, call: Call, lag: nat)
    requires Shape(s) && call.Holding? && CallOK(s, call)
    ensures Shape(DecideStep(s, c, call, lag))
  {
    var t := DecideStep(s, c, call, lag);
    assert t.refreshes == s.refreshes;
    assert t.log == s.log || t.log == s.log + [Started(call.ref)];
  }

  lemma DecideCalls(s: State, c: CallID, call: Call, lag: nat)
    requires CallsOK(s) && call.Holding? && CallOK(s, call)
    ensures CallsOK(DecideStep(s, c, call, lag))
  {
    var t := DecideStep(s, c, call, lag);
    CallsFrame(s, t, c, t.calls[c]);
  }

  lemma DecideInv(s: State, c: CallID, lag: nat)
    requires Inv(s)
    ensures Inv(Apply(s, Decide(c, lag)))
  {
    if c in s.calls && s.calls[c].Holding? {
      DecideShape(s, c, s.calls[c], lag);
      DecideCalls(s, c, s.calls[c], lag);
      DecideRefs(s, c, s.calls[c], lag);
    }
  }

  /** A job step that changes only its own state and job and appends at most one note about it. */
  lemma JobFrame(s: State, t: State, ref: Ref)
    requires RefsOK(s) && ref < |s.states| == |t.states|
    requires forall r :: 0 <= r < |s.states| && r != ref ==> s.states[r] == t.states[r]
    requires t.states[ref].previous == s.states[ref].previous
    requires s.jobs - {ref} == t.jobs - {ref} && s.clock <= t.clock
    requires t.log == s.log || (t.log != [] && t.log[..|t.log| - 1] == s.log && t.log[|t.log| - 1].ref == ref)
    requires forall id :: id in t.refreshes ==> id in s.refreshes && s.refreshes[id] == t.refreshes[id]
    requires RefOK(t, ref)
    ensures RefsOK(t)
  {
    forall r | 0 <= r < |t.states| ensures RefOK(t, r) {
      assert RefOK(s, r);
      if r != ref {
        assert Lookup(s.jobs, r) == Lookup(s.jobs - {ref}, r) == Lookup(t.jobs - {ref}, r) == Lookup(t.jobs, r);
        RefFrame(s, t, r);
      }
    }
  }

  lemma JobBeginInv(s: State, ref: Ref)
    requires Inv(s)
    ensures Inv(Apply(s, JobBegin(ref)))
  {
    if ref in s.jobs && s.jobs[ref].Starting? {
      JobBeginRefs(s, ref);
      JobBeginFrame(s, ref);
      JobKeepsShape(s, JobBeginStep(s, ref), ref);
    }
  }

  /** A job step that leaves states, calls and refreshes alone and notes only its own job. */
  lemma JobKeepsShape(s: State, t: State, ref: Ref)
    requires Shape(s) && CallsOK(s) && ref < |s.states|
    requires t.states == s.states && t.refreshes == s.refreshes && t.calls == s.calls && t.revision == s.revision
    requires t.jobs.Keys == s.jobs.Keys + {ref}
    requires t.log == s.log || (t.log != [] && t.log[..|t.log| - 1] == s.log && t.log[|t.log| - 1].ref == ref)
    ensures Shape(t) && CallsOK(t)
  {
    CallsFrame(s, t, 0, Waiting("", 0, 0));
    forall i | 0 <= i < |t.log| ensures t.log[i].ref < |t.states| {
      if i < |s.log| {
        assert t.log != s.log ==> t.log[..|t.log| - 1][i] == t.log[i];
        assert s.log[i].ref < |s.states|;
      }
    }
  }

  lemma JobBeginRefs(s: State, ref: Ref)
    requires Proper(s.log) && RefsOK(s) && ref < |s.states| && ref in s.jobs && s.jobs[ref].Starting?
    ensures RefsOK(JobBeginStep(s, ref)) && Proper(JobBeginStep(s, ref).log)
  {
    assert RefOK(s, ref);
    JobBeginOwn(s, ref);
    JobBeginFrame(s, ref);
    JobFrame(s, JobBeginStep(s, ref), ref);
  }

  lemma JobBeginFrame(s: State, ref: Ref)
    requires ref < |s.states|
    ensures
      var t := JobBeginStep(s, ref);
      && t == s.(jobs := t.jobs, log := t.log) && t.jobs.Keys == s.jobs.Keys + {ref} && s.jobs - {ref} == t.jobs - {ref}
      && (t.log == s.log || (t.log != [] && t.log[..|t.log| - 1] == s.log && t.log[|t.log| - 1].ref == ref))
  {
  }

  lemma JobBeginOwn(s: State, ref: Ref)
    requires Proper(s.log) && ref < |s.states| && ref in s.jobs && s.jobs[ref].Starting? && RefOK(s, ref)
    ensures RefOK(JobBeginStep(s, ref), ref) && Proper(JobBeginStep(s, ref).log)
  {
    Appended(s.log, Called(ref));
  }

  lemma JobReplyInv(s: State, ref: Ref, reply: Reply)
    requires Inv(s)
    ensures Inv(Apply(s, JobReply(ref, reply)))
  {
    if ref in s.jobs && s.jobs[ref].Calling? {
      JobReplyRefs(s, ref, reply);
      JobKeepsShape(s, JobReplyStep(s, ref, reply), ref);
    }
  }

  lemma JobReplyRefs(s: State, ref: Ref, reply: Reply)
    requires Proper(s.log) && RefsOK(s) && ref < |s.states| && ref in s.jobs && s.jobs[ref].Calling?
    ensures RefsOK(JobReplyStep(s, ref, reply)) && Proper(JobReplyStep(s, ref, reply).log)
  {
    var t := JobReplyStep(s, ref, reply);
    assert RefOK(s, ref);
    JobReplyOwn(s, ref, reply);
    assert s.jobs - {ref} == t.jobs - {ref};
    assert t.log != s.log ==> t.log[..|t.log| - 1] == s.log;
    JobFrame(s, t, ref);
  }

  lemma JobReplyOwn(s: State, ref: Ref, reply: Reply)
    requires Proper(s.log) && ref < |s.states| && ref in s.jobs && s.jobs[ref].Calling? && RefOK(s, ref)
    ensures RefOK(JobReplyStep(s, ref, reply), ref) && Proper(JobReplyStep(s, ref, reply).log)
  {
    var t := JobReplyStep(s, ref, reply);
    if t.log != s.log {
      Appended(s.log, t.log[|s.log|]);
    }
  }

  lemma JobSaveRefs(s: State, ref: Ref, outcome: Result<DB.Credentials, Failure>, fault: DB.Fault)
    requires Proper(s.log) && RefsOK(s) && ref < |s.states| && ref in s.jobs && s.jobs[ref] == Ready(outcome)
    ensures
      var t := JobSaveStep(s, ref, outcome, fault);
      RefsOK(t) && Proper(t.log)
  {
    var t := JobSaveStep(s, ref, outcome, fault);
    assert RefOK(s, ref);
    JobSaveOwn(s, ref, outcome, fault);
    assert t.log != s.log ==> t.log[..|t.log| - 1] == s.log;
    assert s.jobs - {ref} == t.jobs - {ref};
    JobFrame(s, t, ref);
  }

  lemma JobSaveOwn(s: State, ref: Ref, outcome: Result<DB.Credentials, Failure>, fault: DB.Fault)
    requires Proper(s.log) && ref < |s.states| && ref in s.jobs && s.jobs[ref] == Ready(outcome) && RefOK(s, ref)
    ensures
      var t := JobSaveStep(s, ref, outcome, fault);
      RefOK(t, ref) && Proper(t.log)
  {
    var t := JobSaveStep(s, ref, outcome, fault);
    if t.log != s.log {
      Appended(s.log, t.log[|s.log|]);
    }
  }

  lemma JobSaveFrame(s: State, ref: Ref, outcome: Result<DB.Credentials, Failure>, fault: DB.Fault)
    requires DB.Sound(s.store) && ref < |s.states|
    ensures
      var t := JobSaveStep(s, ref, outcome, fault);
      && t == s.(store := t.store, jobs := t.jobs, log := t.log) && DB.Sound(t.store)
      && t.jobs.Keys == s.jobs.Keys + {ref}
      && (t.log == s.log || (t.log != [] && t.log[..|t.log| - 1] == s.log && t.log[|t.log| - 1].ref == ref))
  {
    if outcome.Ok? {
      DB.SoundStep(s.store, DB.Replace(s.states[ref].previous, outcome.value, fault));
    }
  }

  lemma JobSaveInv(s: State, ref: Ref, fault: DB.Fault)
    requires Inv(s)
    ensures Inv(Apply(s, JobSave(ref, fault)))
  {
    if ref in s.jobs && s.jobs[ref].Ready? {
      var outcome := s.jobs[ref].outcome;
      JobSaveRefs(s, ref, outcome, fault);
      JobSaveFrame(s, ref, outcome, fault);
      JobKeepsShape(s, JobSaveStep(s, ref, outcome, fault), ref);
    }
  }

  lemma JobEndRefs(s: State, ref: Ref, error: Option<Failure>, replacement: Option<DB.Credentials>)
    requires Shape(s) && Proper(s.log) && RefsOK(s) && ref in s.jobs && s.jobs[ref] == Ending(error, replacement)
    ensures
      var t := JobEndStep(s, ref, error, replacement);
      RefsOK(t) && Proper(t.log)
  {
    assert RefOK(s, ref);
    Appended(s.log, Ended(ref));
    JobEndOwn(s, ref, error, replacement);
    JobEndFrame(s, ref, error, replacement);
    JobFrame(s, JobEndStep(s, ref, error, replacement), ref);
  }

  lemma JobEndFrame(s: State, ref: Ref, error: Option<Failure>, replacement: Option<DB.Credentials>)
    requires ref < |s.states|
    ensures
      var t := JobEndStep(s, ref, error, replacement);
      && t.log == s.log + [Ended(ref)] && t.log[..|t.log| - 1] == s.log && s.jobs - {ref} == t.jobs - {ref}
      && |t.states| == |s.states| && t.states[ref].previous == s.states[ref].previous
      && (forall r :: 0 <= r < |s.states| && r != ref ==> s.states[r] == t.states[r])
      && (forall id :: id in t.refreshes ==> id in s.refreshes && s.refreshes[id] == t.refreshes[id])
  {
  }

  lemma JobEndOwn(s: State, ref: Ref, error: Option<Failure>, replacement: Option<DB.Credentials>)
    requires ref < |s.states| && ref in s.jobs && s.jobs[ref] == Ending(error, replacement) && RefOK(s, ref)
    ensures RefOK(JobEndStep(s, ref, error, replacement), ref)
  {
    Appended(s.log, Ended(ref));
  }

  lemma JobEndShape(s: State, ref: Ref, error: Option<Failure>, replacement: Option<DB.Credentials>)
    requires Shape(s) && CallsOK(s) && ref < |s.states|
    ensures
      var t := JobEndStep(s, ref, error, replacement);
      Shape(t) && CallsOK(t)
  {
    CallsFrame(s, JobEndStep(s, ref, error, replacement), 0, Waiting("", 0, 0));
  }

  lemma JobEndInv(s: State, ref: Ref)
    requires Inv(s)
    ensures Inv(Apply(s, JobEnd(ref)))
  {
    if ref in s.jobs && s.jobs[ref].Ending? {
      JobEndShape(s, ref, s.jobs[ref].error, s.jobs[ref].replacement);
      JobEndRefs(s, ref, s.jobs[ref].error, s.jobs[ref].replacement);
    }
  }

  predicate MovesCall(e: Event) {
    e.Begin? || e.Cancel? || e.Capture? || e.Fetch? || e.Resume?
  }

  lemma MoveInv(s: State, c: CallID, call: Call)
    requires Inv(s) && CallOK(s, call)
    ensures Inv(Move(s, c, call))
  {
    CallsFrame(s, Move(s, c, call), c, call);
    QuietInv(s, Move(s, c, call));
  }

  lemma CallInv(s: State, e: Event)
    requires Inv(s) && MovesCall(e)
    ensures Inv(Apply(s, e))
  {
    if Apply(s, e) != s {
      var call := Apply(s, e).calls[e.call];
      assert Apply(s, e) == Move(s, e.call, call);
      assert CallOK(s, call);
      MoveInv(s, e.call, call);
    }
  }

  /** A step that only drops refresh states and lets revision, closing and clock go on. */
  lemma DropInv(s: State, t: State)
    requires Inv(s) && s.revision <= t.revision && s.clock <= t.clock
    requires t == s.(refreshes := t.refreshes, revision := t.revision, closed := t.closed, clock := t.clock)
    requires forall id :: id in t.refreshes ==> id in s.refreshes && s.refreshes[id] == t.refreshes[id]
    ensures Inv(t)
  {
    CallsFrame(s, t, 0, Waiting("", 0, 0));
    QuietInv(s, t);
  }

  lemma KeepingInv(s: State, id: ID, preserveSignIn: bool)
    requires Inv(s)
    ensures Inv(InvalidatedKeeping(s, id, preserveSignIn))
  {
    DropInv(s, InvalidatedKeeping(s, id, preserveSignIn));
  }

  lemma StoreWriteInv(s: State, op: DB.Op)
    requires Inv(s)
    ensures Inv(s.(store := DB.Apply(s.store, op)))
  {
    DB.SoundStep(s.store, op);
    CallsFrame(s, s.(store := DB.Apply(s.store, op)), 0, Waiting("", 0, 0));
    QuietInv(s, s.(store := DB.Apply(s.store, op)));
  }

  lemma InvStep(s: State, e: Event)
    requires Inv(s)
    ensures Inv(Apply(s, e))
  {
    if MovesCall(e) {
      CallInv(s, e);
    } else {
      match e
      case Check(c) => CheckInv(s, c);
      case Decide(c, lag) => DecideInv(s, c, lag);
      case JobBegin(ref) => JobBeginInv(s, ref);
      case JobReply(ref, reply) => JobReplyInv(s, ref, reply);
      case JobSave(ref, fault) => JobSaveInv(s, ref, fault);
      case JobEnd(ref) => JobEndInv(s, ref);
      case StoreWrite(op) => StoreWriteInv(s, op);
      case DisableDone(id) => KeepingInv(s, id, true);
      case DeleteDone(id) => KeepingInv(s, id, false);
      case LoginDone(id) => DropInv(s, Invalidated(s, id));
      case _ => DropInv(s, Apply(s, e));
    }
  }

  lemma {:induction false} InvRun(events: seq<Event>)
    ensures Inv(Run(events))
  {
    if events != [] {
      InvRun(events[..|events| - 1]);
      InvStep(Run(events[..|events| - 1]), events[|events| - 1]);
    }
  }

  // ----- Rotated tokens are not spent twice -----

  predicate ConflictOf(n: Note, ref: Ref) {
    n.Saved? && n.ref == ref && n.outcome == Err(DB.Conflict)
  }

  lemma {:induction false} ProperAt(log: seq<Note>, j: nat)
    requires Proper(log) && j < |log|
    ensures ProperNote(log[..j], log[j])
  {
    if j < |log| - 1 {
      ProperAt(log[..|log| - 1], j);
      assert log[..|log| - 1][..j] == log[..j];
    }
  }

  /** Without a conflict since, what the provider gave is still owed, and is all that is owed. */
  lemma {:induction false} StillOwed(log: seq<Note>, i: nat)
    requires Proper(log) && i < |log| && log[i].Gave?
    ensures
      || Owed(log, log[i].ref) == Some(log[i].credentials)
      || exists k :: i < k < |log| && ConflictOf(log[k], log[i].ref)
  {
    var n := |log| - 1;
    if i < n {
      var init := log[..n];
      StillOwed(init, i);
      if Owed(init, log[i].ref) != Some(log[i].credentials) {
        var k :| i < k < |init| && ConflictOf(init[k], log[i].ref);
        assert ConflictOf(log[k], log[i].ref);
      }
    }
  }

  /** After usable credentials the provider is called again for the same state only past a save conflict. */
  lemma ProviderCalledAgainOnlyAfterConflict(events: seq<Event>, i: nat, j: nat)
    requires var log := Run(events).log;
             i < j < |log| && log[i].Gave? && log[j].Called? && log[i].ref == log[j].ref
    ensures var log := Run(events).log;
            exists k :: i < k < j && ConflictOf(log[k], log[i].ref)
  {
    var log := Run(events).log;
    InvRun(events);
    ProperAt(log, j);
    ProperPrefix(log, j);
    StillOwed(log[..j], i);
    var k :| i < k < j && ConflictOf(log[..j][k], log[i].ref);
    assert ConflictOf(log[k], log[i].ref);
  }

  /** Until a conflict, every save of a state uses exactly the credentials that the provider gave. */
  lemma SavesRetryTheRotation(events: seq<Event>, i: nat, j: nat)
    requires var log := Run(events).log;
             i < j < |log| && log[i].Gave? && log[j].Saved? && log[i].ref == log[j].ref &&
             forall k :: i < k < j ==> !ConflictOf(log[k], log[i].ref)
    ensures Run(events).log[j].credentials == Run(events).log[i].credentials
  {
    var log := Run(events).log;
    InvRun(events);
    ProperAt(log, j);
    ProperPrefix(log, j);
    StillOwed(log[..j], i);
  }

  lemma {:induction false} ProperPrefix(log: seq<Note>, j: nat)
    requires Proper(log) && j <= |log|
    ensures Proper(log[..j])
  {
    if j < |log| {
      ProperPrefix(log[..|log| - 1], j);
      assert log[..|log| - 1][..j] == log[..j];
    } else {
      assert log[..j] == log;
    }
  }

  lemma {:induction false} StillRunning(log: seq<Note>, i: nat)
    requires i < |log| && log[i].Started?
    ensures Running(log, log[i].ref) || exists k :: i < k < |log| && log[k] == Ended(log[i].ref)
  {
    var n := |log| - 1;
    if i < n {
      StillRunning(log[..n], i);
      if !Running(log[..n], log[i].ref) {
        var k :| i < k < n && log[..n][k] == Ended(log[i].ref);
        assert log[k] == Ended(log[i].ref);
      }
    }
  }

  /** A refresh state starts a job only after its previous job ended. */
  lemma JobsDoNotOverlap(events: seq<Event>, i: nat, j: nat)
    requires var log := Run(events).log;
             i < j < |log| && log[i].Started? && log[j] == log[i]
    ensures var log := Run(events).log;
            exists k :: i < k < j && log[k] == Ended(log[i].ref)
  {
    var log := Run(events).log;
    InvRun(events);
    ProperAt(log, j);
    StillRunning(log[..j], i);
    var k :| i < k < j && log[..j][k] == Ended(log[i].ref);
    assert log[k] == Ended(log[i].ref);
  }

  // ----- What CurrentAccount returns -----

  predicate Invalidates(e: Event, id: ID) {
    (e.DisableDone? || e.DeleteDone? || e.LoginDone?) && e.id == id
  }

  /**
   After `events`, or after a shorter history of at least `from` events, the row was stored exactly as
   `record` shows it; and if `clean`, nothing invalidated it since.
   */
  ghost predicate Witnessed(events: seq<Event>, from: nat, record: DB.Record, clean: bool)
    decreases |events|
  {
    from <= |events| && (
      || DB.Read(Run(events).store, record.id) == Ok(record)
      || (from < |events| && (clean ==> !Invalidates(events[|events| - 1], record.id)) &&
          Witnessed(events[..|events| - 1], from, record, clean)))
  }

  lemma {:induction false} WitnessWeakens(events: seq<Event>, from: nat, record: DB.Record)
    requires Witnessed(events, from, record, true)
    ensures Witnessed(events, from, record, false)
    decreases |events|
  {
    if DB.Read(Run(events).store, record.id) != Ok(record) {
      WitnessWeakens(events[..|events| - 1], from, record);
    }
  }

  ghost predicate CallWitnessed(events: seq<Event>, from: nat, call: Call) {
    var s := Run(events);
    match call
    case Fetched(id, _, _, revision, Ok(record)) => Witnessed(events, from, record, revision == s.revision)
    case Holding(id, _, record, ref) =>
      Witnessed(events, from, record, Lookup(s.refreshes, id) == Some(ref) && ref < |s.states| &&
          !s.states[ref].needsSignIn)
    case _ => true
  }

  lemma WitnessExtends(events: seq<Event>, from: nat, record: DB.Record, clean: bool, clean': bool)
    requires events != [] && Witnessed(events[..|events| - 1], from, record, clean)
    requires clean' ==> clean && !Invalidates(events[|events| - 1], record.id)
    ensures Witnessed(events, from, record, clean')
  {
    if clean && !clean' {
      WitnessWeakens(events[..|events| - 1], from, record);
    }
  }

  lemma FetchWitness(events: seq<Event>, from: nat, record: DB.Record)
    requires events != [] && from < |events|
    requires !Invalidates(events[|events| - 1], record.id)
    requires DB.Read(Run(events[..|events| - 1]).store, record.id) == Ok(record)
    ensures Witnessed(events, from, record, true)
  {
    assert Witnessed(events[..|events| - 1], from, record, true);
  }

  /** A call that a step does not move keeps its witness. */
  lemma OtherCallWitnessed(events: seq<Event>, from: nat, call: Call)
    requires events != []
    requires var s := Run(events[..|events| - 1]); Inv(s) && CallOK(s, call)
    requires CallWitnessed(events[..|events| - 1], from, call)
    ensures CallWitnessed(events, from, call)
  {
    var init, e := events[..|events| - 1], events[|events| - 1];
    var s, t := Run(init), Run(events);
    RevisionGrows(s, e);
    match call
    case Fetched(id, _, _, revision, Ok(record)) =>
      WitnessExtends(events, from, record, revision == s.revision, revision == t.revision);
    case Holding(id, _, record, ref) =>
      CurrentKept(s, e, id, ref);
      WitnessExtends(events, from, record,
                     Lookup(s.refreshes, id) == Some(ref) && !s.states[ref].needsSignIn,
                     Lookup(t.refreshes, id) == Some(ref) && ref < |t.states| && !t.states[ref].needsSignIn);
    case _ =>
  }

  lemma RevisionGrows(s: State, e: Event)
    ensures s.revision <= Apply(s, e).revision
    ensures forall id :: Invalidates(e, id) ==> s.revision < Apply(s, e).revision
  {
    if TouchesJob(e) {
      JobRevision(s, e);
    } else if MovesCall(e) {
      MoveRevision(s, e);
    }
  }

  predicate TouchesJob(e: Event) {
    e.JobBegin? || e.JobReply? || e.JobSave? || e.JobEnd?
  }

  lemma JobRevision(s: State, e: Event)
    requires TouchesJob(e)
    ensures s.revision <= Apply(s, e).revision
  {
  }

  lemma MoveRevision(s: State, e: Event)
    requires MovesCall(e)
    ensures Apply(s, e).revision == s.revision
  {
  }

  lemma StatesUntouched(s: State, e: Event)
    requires !e.Check? && !e.Decide? && !e.JobEnd?
    ensures Apply(s, e).states == s.states
  {
  }

  lemma JobEndFlag(s: State, own: Ref, error: Option<Failure>, replacement: Option<DB.Credentials>, ref: Ref)
    requires own < |s.states| && ref < |s.states| && (s.states[own].needsSignIn ==> own != ref)
    ensures
      var t := JobEndStep(s, own, error, replacement);
      && |s.states| == |t.states| && s.states[ref].previous == t.states[ref].previous
      && (s.states[ref].needsSignIn ==> t.states[ref].needsSignIn)
  {
  }

  lemma FlagKept(s: State, e: Event, ref: Ref)
    requires ref < |s.states| && RefOK(s, ref)
    ensures |s.states| <= |Apply(s, e).states|
    ensures s.states[ref].needsSignIn ==> Apply(s, e).states[ref].needsSignIn
    ensures s.states[ref].previous == Apply(s, e).states[ref].previous
  {
    if e.JobEnd? {
      if e.ref in s.jobs && e.ref < |s.states| && s.jobs[e.ref].Ending? &&
          (s.states[e.ref].needsSignIn ==> e.ref != ref) {
        JobEndFlag(s, e.ref, s.jobs[e.ref].error, s.jobs[e.ref].replacement, ref);
      }
    } else if !e.Check? && !e.Decide? {
      StatesUntouched(s, e);
    }
  }

  lemma RefreshKept(s: State, e: Event, id: ID, ref: Ref)
    requires ref < |s.states| <= |Apply(s, e).states|
    requires Lookup(Apply(s, e).refreshes, id) == Some(ref)
    ensures Lookup(s.refreshes, id) == Some(ref)
    ensures Invalidates(e, id) ==> Apply(s, e).states[ref].needsSignIn
  {
    if e.Check? {
      if e.call in s.calls && s.calls[e.call].Fetched? {
        CheckKeepsRefresh(s, e.call, s.calls[e.call], id, ref);
      }
    } else if e.Decide? || MovesCall(e) || e.JobBegin? || e.JobReply? || e.JobSave? {
      RefreshesUntouched(s, e);
    }
  }

  lemma CheckKeepsRefresh(s: State, c: CallID, call: Call, id: ID, ref: Ref)
    requires call.Fetched? && ref < |s.states| && Lookup(CheckStep(s, c, call).refreshes, id) == Some(ref)
    ensures Lookup(s.refreshes, id) == Some(ref)
  {
  }

  lemma RefreshesUntouched(s: State, e: Event)
    requires e.Decide? || MovesCall(e) || e.JobBegin? || e.JobReply? || e.JobSave?
    ensures Apply(s, e).refreshes == s.refreshes
  {
  }

  /** A state that is current and usable after a step was so before, and the step invalidated nothing of it. */
  lemma CurrentKept(s: State, e: Event, id: ID, ref: Ref)
    requires Inv(s) && ref < |s.states|
    ensures
      var t := Apply(s, e);
      Lookup(t.refreshes, id) == Some(ref) && ref < |t.states| && !t.states[ref].needsSignIn ==>
        Lookup(s.refreshes, id) == Some(ref) && !s.states[ref].needsSignIn && !Invalidates(e, id)
  {
    assert RefOK(s, ref);
    FlagKept(s, e, ref);
    if Lookup(Apply(s, e).refreshes, id) == Some(ref) {
      RefreshKept(s, e, id, ref);
    }
  }

  predicate TouchesCall(e: Event) {
    MovesCall(e) || e.Check? || e.Decide?
  }

  lemma CallsUntouched(s: State, e: Event)
    requires !TouchesCall(e)
    ensures Apply(s, e).calls == s.calls
  {
  }

  lemma OtherCallsUntouched(s: State, e: Event, c: CallID)
    requires TouchesCall(e) && e.call != c
    ensures Lookup(Apply(s, e).calls, c) == Lookup(s.calls, c)
  {
    if e.Check? && e.call in s.calls && s.calls[e.call].Fetched? {
      CheckMovesOne(s, e.call, s.calls[e.call], c);
    } else if e.Decide? && e.call in s.calls && s.calls[e.call].Holding? && s.calls[e.call].ref < |s.states| {
      DecideMovesOne(s, e.call, s.calls[e.call], e.lag, c);
    }
  }

  lemma CheckMovesOne(s: State, own: CallID, call: Call, c: CallID)
    requires call.Fetched? && own != c
    ensures Lookup(CheckStep(s, own, call).calls, c) == Lookup(s.calls, c)
  {
  }

  lemma DecideMovesOne(s: State, own: CallID, call: Call, lag: nat, c: CallID)
    requires call.Holding? && call.ref < |s.states| && own != c
    ensures Lookup(DecideStep(s, own, call, lag).calls, c) == Lookup(s.calls, c)
  {
  }

  lemma CallStays(s: State, e: Event, c: CallID)
    requires c in s.calls
    ensures c in Apply(s, e).calls
  {
    if !TouchesCall(e) {
      CallsUntouched(s, e);
    } else if e.call != c {
      OtherCallsUntouched(s, e, c);
    }
  }

  /** The steps by which a call comes to hold a fetched record or a refresh state. */
  lemma CallMoves(s: State, e: Event, c: CallID)
    requires c in s.calls && c in Apply(s, e).calls
    ensures
      var call, call' := s.calls[c], Apply(s, e).calls[c];
      call' == call ||
        match call'
        case Fetched(id, _, _, _, Ok(record)) => e.Fetch? && DB.Read(s.store, id) == Ok(record)
        case Holding(id, _, record, ref) =>
          e.Check? && call.Fetched? && call.got == Ok(record) && call.revision == s.revision && record.enabled
        case _ => true
  {
    if !TouchesCall(e) {
      CallsUntouched(s, e);
    } else if e.call != c {
      OtherCallsUntouched(s, e, c);
    }
  }

  lemma MovedCallWitnessed(events: seq<Event>, from: nat, call: Call, call': Call)
    requires events != [] && from < |events|
    requires CallWitnessed(events[..|events| - 1], from, call)
    requires
      var s, e := Run(events[..|events| - 1]), events[|events| - 1];
      match call'
      case Fetched(id, _, _, _, Ok(record)) => e.Fetch? && record.id == id && DB.Read(s.store, id) == Ok(record)
      case Holding(id, _, record, ref) =>
        e.Check? && call.Fetched? && call.got == Ok(record) && call.revision == s.revision
      case _ => true
    ensures CallWitnessed(events, from, call')
  {
    match call'
    case Fetched(id, _, _, _, Ok(record)) =>
      FetchWitness(events, from, record);
      WitnessWeakens(events, from, record);
    case Holding(id, _, record, ref) =>
      WitnessExtends(events, from, record, true, true);
      WitnessWeakens(events, from, record);
    case _ =>
  }

  lemma {:induction false} EveryCallWitnessed(events: seq<Event>, from: nat, c: CallID)
    requires from <= |events| && c !in Run(events[..from]).calls
    ensures c in Run(events).calls ==> CallWitnessed(events, from, Run(events).calls[c])
  {
    if |events| == from {
      assert events[..from] == events;
    } else {
      var init, e := events[..|events| - 1], events[|events| - 1];
      assert init[..from] == events[..from];
      EveryCallWitnessed(init, from, c);
      InvRun(init);
      var s := Run(init);
      if c in s.calls {
        CallStays(s, e, c);
        StepWitnessed(events, from, s, c);
      } else if c in Apply(s, e).calls {
        NewCall(s, e, c);
      }
    }
  }

  lemma NewCall(s: State, e: Event, c: CallID)
    requires c !in s.calls && c in Apply(s, e).calls
    ensures Apply(s, e).calls[c].Looking?
  {
    if !TouchesCall(e) {
      CallsUntouched(s, e);
    } else if e.call != c {
      OtherCallsUntouched(s, e, c);
    }
  }

  lemma StepWitnessed(events: seq<Event>, from: nat, s: State, c: CallID)
    requires events != [] && from < |events| && s == Run(events[..|events| - 1])
    requires Inv(s) && c in s.calls && c in Apply(s, events[|events| - 1]).calls
    requires CallWitnessed(events[..|events| - 1], from, s.calls[c])
    ensures CallWitnessed(events, from, Apply(s, events[|events| - 1]).calls[c])
  {
    var e := events[|events| - 1];
    assert CallOK(s, s.calls[c]);
    if Apply(s, e).calls[c] == s.calls[c] {
      OtherCallWitnessed(events, from, s.calls[c]);
    } else {
      CallMoves(s, e, c);
      MovedCallWitnessed(events, from, s.calls[c], Apply(s, e).calls[c]);
    }
  }

  /**
   An account that a call returns was stored, enabled, at some moment of the call, and no completed
   disable, delete or login of that account came between that moment and the decision. At the decision
   it was unexpired, its refresh state was current, described exactly this row, needed no sign-in and kept
   no replacement. A rotation may be on its way to being saved only if the call had waited for an earlier job
   and another job of the state is still running.
   */
  lemma ReturnedAccountIsCurrent(events: seq<Event>, from: nat, e: Event, c: CallID, record: DB.Record)
    requires from <= |events|
    ensures
      c !in Run(events[..from]).calls && Returns(Run(events), e, c, record) ==>
        Witnessed(events, from, record, true) && CurrentAtDecision(Run(events), e, c, record)
  {
    if c !in Run(events[..from]).calls && Returns(Run(events), e, c, record) {
      EveryCallWitnessed(events, from, c);
      InvRun(events);
      assert CallOK(Run(events), Run(events).calls[c]);
      OnlyDecideReturns(Run(events), e, c, record);
      OwedOnReturn(Run(events), e, c, record);
    }
  }

  lemma OwedOnReturn(s: State, e: Event, c: CallID, record: DB.Record)
    requires Inv(s) && Returns(s, e, c, record) && CallOK(s, s.calls[c]) && s.calls[c].Holding?
    requires e.Decide? && Lookup(s.refreshes, s.calls[c].id) == Some(s.calls[c].ref)
    requires !s.states[s.calls[c].ref].needsSignIn && s.states[s.calls[c].ref].replacement.None?
    ensures
      var ref := s.calls[c].ref;
      Owed(s.log, ref).Some? ==> ref in s.jobs && s.calls[c].waited
  {
    assert RefOK(s, s.calls[c].ref);
    WaitedOrFree(s, e, c, record);
  }

  /** A call that did not wait returns only while its row is not near its expiry or a retry is barred. */
  lemma WaitedOrFree(s: State, e: Event, c: CallID, record: DB.Record)
    requires Returns(s, e, c, record) && s.calls[c].Holding? && CallOK(s, s.calls[c]) && e.Decide?
    ensures s.calls[c].waited || !MayRun(s, s.states[s.calls[c].ref])
  {
    if e.call != c {
      OtherCallsUntouched(s, e, c);
    }
  }

  /** The step makes a running call return the account. */
  predicate Returns(s: State, e: Event, c: CallID, record: DB.Record) {
    c in s.calls && !s.calls[c].Returned? && Lookup(Apply(s, e).calls, c) == Some(Returned(s.calls[c].id, Ok(record)))
  }

  /** The step is a decision on an unexpired, enabled record whose refresh state is current and clean. */
  predicate CurrentAtDecision(s: State, e: Event, c: CallID, record: DB.Record)
    requires c in s.calls
  {
    && record.id == s.calls[c].id && record.enabled
    && e.Decide? && record.credentials.expiresAt > s.clock + e.lag && !s.closed
    && record.id in s.refreshes && s.refreshes[record.id] < |s.states|
    && var state := s.states[s.refreshes[record.id]];
    && state.previous == record && !state.needsSignIn && state.replacement.None?
    && s.calls[c].Holding?
    && (Owed(s.log, s.refreshes[record.id]).Some? ==> s.refreshes[record.id] in s.jobs && s.calls[c].waited)
  }

  /** What let a call start the running job of a state still holds: the row was near its expiry and no retry barred. */
  predicate MayRun(s: State, state: RefreshState) {
    && !state.retryBlocked && state.retryAt <= s.clock
    && state.previous.credentials.expiresAt <= s.clock + 5 * MINUTE
  }

  lemma OnlyDecideReturns(s: State, e: Event, c: CallID, record: DB.Record)
    requires c in s.calls && !s.calls[c].Returned?
    requires Lookup(Apply(s, e).calls, c) == Some(Returned(s.calls[c].id, Ok(record)))
    ensures
      && e.Decide? && s.calls[c].Holding? && s.calls[c].record == record && s.calls[c].ref < |s.states| && !s.closed
      && Lookup(s.refreshes, s.calls[c].id) == Some(s.calls[c].ref)
      && record.credentials.expiresAt > s.clock + e.lag
      && !s.states[s.calls[c].ref].needsSignIn && s.states[s.calls[c].ref].replacement.None?
  {
    if !TouchesCall(e) {
      CallsUntouched(s, e);
    } else if e.call != c {
      OtherCallsUntouched(s, e, c);
    }
  }

  // ----- Required sign-in is sticky -----

  predicate HasValue(s: State, id: ID, v: DB.Credentials) {
    id in s.store.rows && s.store.rows[id].sealed.plaintext == v
  }

  predicate GoodFetch(got: Result<DB.Record, DB.Error>, v: DB.Credentials) {
    match got
    case Ok(record) => record.credentials == v
    case Err(e) => !e.NotFound?
  }

  /**
   The call captured `ref` at the present revision and then read another value than `v`, or no row. A read
   under an older revision does no harm: its check only sends the call back.
   */
  predicate BadRead(s: State, call: Call, id: ID, ref: Ref, v: DB.Credentials) {
    && call.Fetched? && call.id == id && call.before == Some(ref) && call.revision == s.revision
    && !GoodFetch(call.got, v)
  }

  ghost predicate NoBadRead(s: State, id: ID, ref: Ref, v: DB.Credentials) {
    forall c :: c in s.calls ==> !BadRead(s, s.calls[c], id, ref, v)
  }

  /** The current refresh state of `id` says that value `v` needs a sign-in. */
  predicate MarkedFor(s: State, id: ID, v: DB.Credentials) {
    && id in s.refreshes && s.refreshes[id] < |s.states|
    && s.states[s.refreshes[id]].needsSignIn && s.states[s.refreshes[id]].previous.credentials == v
  }

  lemma NotBadStep(s: State, e: Event, c: CallID, id: ID, ref: Ref, v: DB.Credentials)
    requires HasValue(s, id, v) && (c in s.calls ==> CallOK(s, s.calls[c]) && !BadRead(s, s.calls[c], id, ref, v))
    ensures c in Apply(s, e).calls ==> !BadRead(Apply(s, e), Apply(s, e).calls[c], id, ref, v)
  {
    RevisionGrows(s, e);
    if !TouchesCall(e) {
      CallsUntouched(s, e);
    } else if e.call != c {
      OtherCallsUntouched(s, e, c);
    } else {
      OwnCallNotBad(s, e, c, id, ref, v);
    }
  }

  lemma OwnCallNotBad(s: State, e: Event, c: CallID, id: ID, ref: Ref, v: DB.Credentials)
    requires HasValue(s, id, v) && (c in s.calls ==> CallOK(s, s.calls[c]) && !BadRead(s, s.calls[c], id, ref, v))
    requires TouchesCall(e) && e.call == c && s.revision <= Apply(s, e).revision
    ensures c in Apply(s, e).calls ==> !BadRead(Apply(s, e), Apply(s, e).calls[c], id, ref, v)
  {
    if !e.Fetch? && c in Apply(s, e).calls && Apply(s, e).calls[c].Fetched? {
      assert c in s.calls && Apply(s, e).calls[c] == s.calls[c];
    }
  }

  lemma NoBadReadStep(s: State, e: Event, id: ID, ref: Ref, v: DB.Credentials)
    requires CallsOK(s) && HasValue(s, id, v) && NoBadRead(s, id, ref, v)
    ensures NoBadRead(Apply(s, e), id, ref, v)
  {
    var t := Apply(s, e);
    forall c | c in t.calls ensures !BadRead(t, t.calls[c], id, ref, v) {
      NotBadStep(s, e, c, id, ref, v);
    }
  }

  lemma CheckKeepsMark(s: State, c: CallID, call: Call, id: ID, v: DB.Credentials)
    requires MarkedFor(s, id, v) && NoBadRead(s, id, s.refreshes[id], v)
    requires c in s.calls && call == s.calls[c] && call.Fetched?
    ensures
      var t := CheckStep(s, c, call);
      MarkedFor(t, id, v) && (t.refreshes[id] == s.refreshes[id] || t.refreshes[id] == |s.states|)
  {
    assert !BadRead(s, call, id, s.refreshes[id], v);
  }

  lemma OtherStepsKeepMark(s: State, e: Event, id: ID, v: DB.Credentials)
    requires !e.Check? && e != LoginDone(id) && e != DeleteDone(id) && !s.closed
    requires MarkedFor(s, id, v) && s.refreshes[id] !in s.jobs
    ensures MarkedFor(Apply(s, e), id, v) && Apply(s, e).refreshes[id] == s.refreshes[id]
  {
  }

  /** Nobody has captured a refresh state that does not exist yet. */
  lemma UnbornReads(s: State, id: ID, ref: Ref, v: DB.Credentials)
    requires CallsOK(s) && |s.states| <= ref
    ensures NoBadRead(s, id, ref, v)
  {
    forall c | c in s.calls ensures !BadRead(s, s.calls[c], id, ref, v) {
      assert CallOK(s, s.calls[c]);
    }
  }

  ghost predicate Sticky(s: State, id: ID, v: DB.Credentials) {
    s.closed || (MarkedFor(s, id, v) && NoBadRead(s, id, s.refreshes[id], v))
  }

  lemma StickyStep(s: State, e: Event, id: ID, v: DB.Credentials)
    requires Inv(s) && HasValue(s, id, v) && Sticky(s, id, v)
    requires e != LoginDone(id) && e != DeleteDone(id)
    ensures Sticky(Apply(s, e), id, v)
  {
    if s.closed {
      StaysClosed(s, e);
    } else {
      var ref := s.refreshes[id];
      NoBadReadStep(s, e, id, ref, v);
      if e.Check? {
        if e.call in s.calls && s.calls[e.call].Fetched? {
          CheckKeepsMark(s, e.call, s.calls[e.call], id, v);
          UnbornReads(s, id, |s.states|, v);
          NoBadReadStep(s, e, id, |s.states|, v);
        }
      } else {
        assert RefOK(s, ref);
        OtherStepsKeepMark(s, e, id, v);
      }
    }
  }

  lemma StaysClosed(s: State, e: Event)
    requires s.closed
    ensures Apply(s, e).closed
  {
  }

  /** The check of such a call. */
  predicate BadCheck(s: State, e: Event, id: ID, ref: Ref, v: DB.Credentials) {
    e.Check? && e.call in s.calls && BadRead(s, s.calls[e.call], id, ref, v)
  }

  lemma CheckDropsMarkIff(s: State, c: CallID, id: ID, v: DB.Credentials)
    requires MarkedFor(s, id, v) && !s.closed && c in s.calls && s.calls[c].Fetched?
    ensures !MarkedFor(CheckStep(s, c, s.calls[c]), id, v) <==> BadCheck(s, Check(c), id, s.refreshes[id], v)
  {
  }

  /**
   Exactly three steps of an open manager take a mark away: a completed login, a completed deletion, and
   the check of a call that captured the marked state and read another value, or no row.
   */
  lemma MarkFallsIff(s: State, e: Event, id: ID, v: DB.Credentials)
    requires Inv(s) && !s.closed && MarkedFor(s, id, v)
    ensures !MarkedFor(Apply(s, e), id, v) <==>
            e == LoginDone(id) || e == DeleteDone(id) || BadCheck(s, e, id, s.refreshes[id], v)
  {
    if e.Check? {
      if e.call in s.calls && s.calls[e.call].Fetched? {
        CheckDropsMarkIff(s, e.call, id, v);
      }
    } else if e != LoginDone(id) && e != DeleteDone(id) {
      assert RefOK(s, s.refreshes[id]);
      OtherStepsKeepMark(s, e, id, v);
    }
  }

  /**
   After the first `marked` events the current state of `id` was marked for `v`, and no call was about to check
   a bad read; from then on `v` has been stored and no login or deletion completed.
   */
  ghost predicate MarkedSince(events: seq<Event>, marked: nat, id: ID, v: DB.Credentials)
    requires marked <= |events|
    decreases |events|
  {
    var s := Run(events);
    && HasValue(s, id, v)
    && if |events| == marked then MarkedFor(s, id, v) && NoBadRead(s, id, s.refreshes[id], v)
       else
         var e := events[|events| - 1];
         e != LoginDone(id) && e != DeleteDone(id) && MarkedSince(events[..|events| - 1], marked, id, v)
  }

  lemma ValueSinceMark(events: seq<Event>, marked: nat, id: ID, v: DB.Credentials)
    requires marked <= |events| && MarkedSince(events, marked, id, v)
    ensures HasValue(Run(events), id, v)
  {
  }

  /**
   Once value `v` of account `id` is marked as needing sign-in, the mark stays through every run of disables,
   enables, re-encryptions, refreshes and reads, until a login or deletion completes or the stored value changes.
   */
  lemma {:induction false} SignInIsSticky(events: seq<Event>, marked: nat, id: ID, v: DB.Credentials)
    requires marked <= |events| && MarkedSince(events, marked, id, v)
    ensures Sticky(Run(events), id, v)
  {
    if |events| > marked {
      var init := events[..|events| - 1];
      SignInIsSticky(init, marked, id, v);
      ValueSinceMark(init, marked, id, v);
      InvRun(init);
      StickyStep(Run(init), events[|events| - 1], id, v);
    }
  }

  /** While the mark stays, no call returns the account. */
  lemma MarkedAccountIsNotReturned(
    events: seq<Event>, marked: nat, id: ID, v: DB.Credentials, e: Event, c: CallID, record: DB.Record)
    requires marked <= |events| && MarkedSince(events, marked, id, v)
    requires var s := Run(events); c in s.calls && !s.calls[c].Returned? && s.calls[c].id == id
    ensures Lookup(Apply(Run(events), e).calls, c) != Some(Returned(id, Ok(record)))
  {
    SignInIsSticky(events, marked, id, v);
    if Lookup(Apply(Run(events), e).calls, c) == Some(Returned(id, Ok(record))) {
      OnlyDecideReturns(Run(events), e, c, record);
    }
  }

  function After(s: State, more: seq<Event>): State {
    if more == [] then s else Apply(After(s, more[..|more| - 1]), more[|more| - 1])
  }

  /** A continuation of an open manager that keeps value `v` stored and completes no login or deletion of `id`. */
  ghost predicate Undisturbed(s: State, more: seq<Event>, id: ID, v: DB.Credentials)
    decreases |more|
  {
    && HasValue(After(s, more), id, v) && !After(s, more).closed
    && (more != [] ==>
         && more[|more| - 1] != LoginDone(id) && more[|more| - 1] != DeleteDone(id)
         && Undisturbed(s, more[..|more| - 1], id, v))
  }

  ghost predicate CanLoseMark(s: State, id: ID, v: DB.Credentials) {
    exists more :: Undisturbed(s, more, id, v) && !MarkedFor(After(s, more), id, v)
  }

  lemma {:induction false} UndisturbedKeepsMark(s: State, more: seq<Event>, id: ID, v: DB.Credentials)
    requires Inv(s) && Sticky(s, id, v) && Undisturbed(s, more, id, v)
    ensures Inv(After(s, more)) && Sticky(After(s, more), id, v)
    decreases |more|
  {
    if more != [] {
      var init := more[..|more| - 1];
      UndisturbedKeepsMark(s, init, id, v);
      UndisturbedNow(s, init, id, v);
      InvStep(After(s, init), more[|more| - 1]);
      StickyStep(After(s, init), more[|more| - 1], id, v);
    }
  }

  lemma UndisturbedNow(s: State, more: seq<Event>, id: ID, v: DB.Credentials)
    requires Undisturbed(s, more, id, v)
    ensures HasValue(After(s, more), id, v) && !After(s, more).closed
  {
  }

  lemma BadCheckLoses(s: State, c: CallID, id: ID, v: DB.Credentials)
    requires Inv(s) && !s.closed && MarkedFor(s, id, v) && HasValue(s, id, v)
    requires BadCheck(s, Check(c), id, s.refreshes[id], v)
    ensures CanLoseMark(s, id, v)
  {
    var more := [Check(c)];
    assert more[..|more| - 1] == [];
    MarkFallsIff(s, Check(c), id, v);
    CheckKeepsRest(s, c);
    assert After(s, more) == Apply(s, Check(c));
    assert Undisturbed(s, [], id, v);
    assert Undisturbed(s, more, id, v);
  }

  lemma CheckKeepsRest(s: State, c: CallID)
    ensures Apply(s, Check(c)).store == s.store && Apply(s, Check(c)).closed == s.closed
  {
  }

  /**
   The exact condition, in every reachable open state in which value `v` is stored and marked: some continuation
   that keeps it stored, stays open and completes no login or deletion loses the mark, exactly if some call is
   about to check a bad read now.
   */
  lemma MarkCanBeLostIff(events: seq<Event>, id: ID, v: DB.Credentials)
    ensures
      var s := Run(events);
      !s.closed && MarkedFor(s, id, v) && HasValue(s, id, v) ==>
        (CanLoseMark(s, id, v) <==> exists c :: BadCheck(s, Check(c), id, s.refreshes[id], v))
  {
    InvRun(events);
    var s := Run(events);
    if !s.closed && MarkedFor(s, id, v) && HasValue(s, id, v) {
      LossNeedsBadRead(s, id, v);
      if c :| BadCheck(s, Check(c), id, s.refreshes[id], v) {
        BadCheckLoses(s, c, id, v);
      }
    }
  }

  lemma LossNeedsBadRead(s: State, id: ID, v: DB.Credentials)
    requires Inv(s) && !s.closed && MarkedFor(s, id, v)
    ensures CanLoseMark(s, id, v) ==> exists c :: BadCheck(s, Check(c), id, s.refreshes[id], v)
  {
    if more :| Undisturbed(s, more, id, v) && !MarkedFor(After(s, more), id, v) {
      if NoBadRead(s, id, s.refreshes[id], v) {
        UndisturbedKeepsMark(s, more, id, v);
        UndisturbedNow(s, more, id, v);
      } else {
        var c :| c in s.calls && BadRead(s, s.calls[c], id, s.refreshes[id], v);
        assert BadCheck(s, Check(c), id, s.refreshes[id], v);
      }
    }
  }

  /**
   Refresh state `ref` did not exist yet after the first `born` events, and from then on the stored
   value has been `v`.
   */
  ghost predicate HeldSinceBirth(events: seq<Event>, born: nat, id: ID, ref: Ref, v: DB.Credentials)
    requires born <= |events|
    decreases |events|
  {
    && HasValue(Run(events), id, v)
    && if |events| == born then |Run(events).states| <= ref
       else HeldSinceBirth(events[..|events| - 1], born, id, ref, v)
  }

  /** If the value was stored since the refresh state came into being, no read that captured it found anything else. */
  lemma {:induction false} NoBadReadRun(events: seq<Event>, born: nat, id: ID, ref: Ref, v: DB.Credentials)
    requires born <= |events| && HeldSinceBirth(events, born, id, ref, v)
    ensures NoBadRead(Run(events), id, ref, v)
  {
    if |events| == born {
      InvRun(events);
      UnbornReads(Run(events), id, ref, v);
    } else {
      NoBadReadRun(events[..|events| - 1], born, id, ref, v);
      InvRun(events[..|events| - 1]);
      NoBadReadStep(Run(events[..|events| - 1]), events[|events| - 1], id, ref, v);
    }
  }

  // ----- Nothing starts after stop -----

  /** `after` extends `before` by notes of which none starts a job. */
  predicate StartsNothing(before: seq<Note>, after: seq<Note>) {
    && |before| <= |after| && after[..|before|] == before
    && forall i :: |before| <= i < |after| ==> !after[i].Started?
  }

  lemma ClosedStartsNothing(s: State, e: Event)
    requires s.closed
    ensures Apply(s, e).closed && StartsNothing(s.log, Apply(s, e).log)
  {
    StaysClosed(s, e);
  }

  /** After `stop` no refresh job starts, in any later state. */
  lemma {:induction false} NoJobStartsAfterStop(events: seq<Event>, k: nat)
    requires k <= |events| && Run(events[..k]).closed
    ensures Run(events).closed && StartsNothing(Run(events[..k]).log, Run(events).log)
  {
    if k == |events| {
      assert events[..k] == events;
    } else {
      var init := events[..|events| - 1];
      assert init[..k] == events[..k];
      NoJobStartsAfterStop(init, k);
      ClosedStartsNothing(Run(init), events[|events| - 1]);
      StartsNothingTwice(Run(events[..k]).log, Run(init).log, Run(events).log);
    }
  }

  lemma StartsNothingTwice(a: seq<Note>, b: seq<Note>, c: seq<Note>)
    requires StartsNothing(a, b) && StartsNothing(b, c)
    ensures StartsNothing(a, c)
  {
    assert c[..|a|] == c[..|b|][..|a|];
    forall i | |a| <= i < |c| ensures !c[i].Started? {
      if i < |b| {
        assert c[i] == c[..|b|][i] == b[i];
      }
    }
  }

  // ----- The manager itself -----

  /** `history` holds every event since the manager and its store were created. */
  class Manager {
    const store: DB.Store
    var refreshes: map<ID, Ref>
    var states: seq<RefreshState>
    var revision: nat
    var closed: bool
    var calls: map<CallID, Call>
    var jobs: map<Ref, Job>
    var nextJob: nat
    var clock: nat
    ghost var log: seq<Note>
    ghost var history: seq<Event>

    constructor (store: DB.Store)
      requires store.Valid() && store.Snap() == INITIAL.store
      ensures Valid() && history == [] && this.store == store
    {
      this.store := store;
      refreshes, states, revision, closed := map[], [], 0, false;
      calls, jobs, nextJob, clock, log, history := map[], map[], 0, 0, [], [];
    }

    ghost function Snap(): State
      reads this, store
    {
      State(store.Snap(), refreshes, states, revision, closed, calls, jobs, nextJob, clock, log)
    }

    ghost predicate Valid()
      reads this, store
    {
      store.Valid() && Snap() == Run(history)
    }

    ghost method Note(e: Event)
      requires Snap() == Run(history)
      modifies this`history
      ensures history == old(history) + [e] && Run(history) == Apply(Snap(), e)
      ensures Shape(Snap()) && CallsOK(Snap())
    {
      InvRun(history);
      history := history + [e];
      assert history[..|history| - 1] == old(history);
    }

    /** invalidateLocked */
    method InvalidateLocked(id: ID)
      modifies this`revision, this`refreshes
      ensures Snap() == Invalidated(old(Snap()), id)
    {
      revision := revision + 1;
      refreshes := refreshes - {id};
    }

    /** invalidate, after a stored disable (`preserveSignIn`) or deletion. */
    method Invalidate(id: ID, preserveSignIn: bool)
      requires Valid()
      modifies this
      ensures Valid() && history == old(history) + [if preserveSignIn then DisableDone(id) else DeleteDone(id)]
    {
      Note(if preserveSignIn then DisableDone(id) else DeleteDone(id));
      var ref := Lookup(refreshes, id);
      InvalidateLocked(id);
      if preserveSignIn && ref.Some? && states[ref.value].needsSignIn {
        refreshes := refreshes[id := ref.value];
      }
    }

    /** The first locked region of `current`. */
    method Capture(c: CallID)
      requires Valid() && c in calls && calls[c].Looking?
      modifies this
      ensures Valid() && history == old(history) + [Event.Capture(c)]
    {
      Note(Event.Capture(c));
      var call := calls[c];
      if closed {
        calls := calls[c := Returned(call.id, Err(Closed))];
        return;
      }
      var before := Lookup(refreshes, call.id);
      calls := calls[c := Captured(call.id, call.waited, before, revision)];
    }

    /** The second locked region of `current`, after its read. */
    method Check(c: CallID)
      requires Valid() && c in calls && calls[c].Fetched?
      modifies this
      ensures Valid() && history == old(history) + [Event.Check(c)]
    {
      Note(Event.Check(c));
      assert CallOK(Snap(), calls[c]);
      CheckLocked(c, calls[c]);
    }

    method CheckLocked(c: CallID, call: Call)
      requires call.Fetched? && (call.before.Some? ==> call.before.value < |states|)
      modifies this`revision, this`refreshes, this`states, this`calls
      ensures Snap() == CheckStep(old(Snap()), c, call)
    {
      var id, before := call.id, call.before;
      if call.got.Err? {
        if call.got.error.NotFound? && Lookup(refreshes, id) == before && revision == call.revision {
          InvalidateLocked(id);
        }
        calls := calls[c := Returned(id, Err(Store(call.got.error)))];
        return;
      }
      var record := call.got.value;
      if closed {
        calls := calls[c := Returned(id, Err(Closed))];
        return;
      }
      if Lookup(refreshes, id) != before || revision != call.revision {
        calls := calls[c := Looking(id, call.waited)];
        return;
      }
      var known := if before.Some? then Some(states[before.value]) else None;
      if !record.enabled {
        if !NeedsSignInFor(known, record) {
          InvalidateLocked(id);
        }
        calls := calls[c := Returned(id, Err(Disabled))];
        return;
      }
      var ref: Ref;
      if known.None? || known.value.previous != record {
        var needsSignIn := NeedsSignInFor(known, record);
        InvalidateLocked(id);
        ref := |states|;
        states := states + [RefreshState(record, None, None, needsSignIn, 0, false)];
        refreshes := refreshes[id := ref];
      } else {
        ref := before.value;
      }
      calls := calls[c := Holding(id, call.waited, record, ref)];
    }

    /** The locked region of `CurrentAccount` and the expiry check after it, `lag` seconds later. */
    method Decide(c: CallID, lag: nat)
      requires Valid() && c in calls && calls[c].Holding?
      modifies this
      ensures Valid() && history == old(history) + [Event.Decide(c, lag)]
    {
      Note(Event.Decide(c, lag));
      assert CallOK(Snap(), calls[c]);
      DecideLocked(c, calls[c], lag);
    }

    method DecideLocked(c: CallID, call: Call, lag: nat)
      requires call.Holding? && call.ref < |states|
      modifies this`states, this`jobs, this`nextJob, this`log, this`calls
      ensures Snap() == DecideStep(old(Snap()), c, call, lag)
    {
      var id, record, ref := call.id, call.record, call.ref;
      var expires := record.credentials.expiresAt;
      if closed {
        calls := calls[c := Returned(id, Err(Closed))];
        return;
      }
      if Lookup(refreshes, id) != Some(ref) {
        calls := calls[c := Looking(id, call.waited)];
        return;
      }
      if states[ref].needsSignIn {
        calls := calls[c := Returned(id, Err(NeedsSignIn))];
        return;
      }
      if expires > clock + 5 * MINUTE || call.waited || states[ref].retryBlocked || clock < states[ref].retryAt {
        var unsaved := states[ref].replacement.Some?;
        var result := if unsaved || expires <= clock + lag then Err(TemporarilyUnavailable) else Ok(record);
        calls := calls[c := Returned(id, result)];
        return;
      }
      if states[ref].done.None? {
        states := states[ref := states[ref].(done := Some(nextJob))];
        jobs := jobs[ref := Starting];
        nextJob := nextJob + 1;
        log := log + [Started(ref)];
      }
      calls := calls[c := Waiting(id, ref, states[ref].done.value)];
    }

    /** refresh, up to its provider call. */
    method RefreshBegin(ref: Ref)
      requires Valid() && ref in jobs && jobs[ref].Starting?
      modifies this
      ensures Valid() && history == old(history) + [JobBegin(ref)]
    {
      Note(JobBegin(ref));
      var state := states[ref];
      if state.replacement.Some? {
        var kept := state.replacement.value;
        var outcome := if kept.expiresAt <= clock then Err(SignInRequired) else Ok(kept);
        jobs := jobs[ref := Ready(Checked(state, outcome))];
      } else {
        jobs := jobs[ref := Calling];
        log := log + [Called(ref)];
      }
    }

    /** refresh, its conditional save. */
    method RefreshSave(ref: Ref, fault: DB.Fault)
      requires Valid() && ref in jobs && jobs[ref].Ready?
      modifies this, store
      ensures Valid() && history == old(history) + [JobSave(ref, fault)]
    {
      Note(JobSave(ref, fault));
      Save(ref, jobs[ref].outcome, fault);
    }

    method Save(ref: Ref, outcome: Result<DB.Credentials, Failure>, fault: DB.Fault)
      requires store.Valid() && ref < |states|
      modifies this`jobs, this`log, store
      ensures store.Valid() && Snap() == JobSaveStep(old(Snap()), ref, outcome, fault)
    {
      match outcome
      case Err(e) =>
        jobs := jobs[ref := Ending(Some(e), None)];
      case Ok(credentials) =>
        var r := store.ReplaceAccountCredentialsIfUnchanged(states[ref].previous, credentials, fault);
        var error, replacement := None, None;
        if r.Err? {
          if r.error.Conflict? {
            error := Some(SaveConflict);
          } else {
            error, replacement := Some(SaveFailed), Some(credentials);
          }
        }
        jobs := jobs[ref := Ending(error, replacement)];
        log := log + [Saved(ref, credentials, r)];
    }

    /** refresh, its last locked region. */
    method RefreshEnd(ref: Ref)
      requires Valid() && ref in jobs && jobs[ref].Ending?
      modifies this
      ensures Valid() && history == old(history) + [JobEnd(ref)]
    {
      Note(JobEnd(ref));
      EndLocked(ref, jobs[ref].error, jobs[ref].replacement);
    }

    method EndLocked(ref: Ref, error: Option<Failure>, replacement: Option<DB.Credentials>)
      requires ref < |states|
      modifies this`revision, this`refreshes, this`states, this`jobs, this`log
      ensures Snap() == JobEndStep(old(Snap()), ref, error, replacement)
    {
      var id := states[ref].previous.id;
      states := states[ref := states[ref].(done := None)];
      jobs := jobs - {ref};
      log := log + [Ended(ref)];
      if Lookup(refreshes, id) != Some(ref) {
        return;
      }
      if error.None? {
        InvalidateLocked(id);
        return;
      }
      var state := Settle(states[ref], error.value, replacement);
      states := states[ref := state];
    }

    /** The fields that a failed refresh leaves in its state. */
    method Settle(before: RefreshState, error: Failure, replacement: Option<DB.Credentials>)
        returns (state: RefreshState)
      ensures state == Settled(before, error, replacement, clock)
    {
      state := before.(replacement := replacement, retryAt := 0, retryBlocked := false);
      state := state.(needsSignIn := error.SignInRequired? || (error.Provider? && !error.transient));
      if state.needsSignIn {
        return;
      }
      state := state.(retryAt := clock + MINUTE);
      if error.Provider? {
        state := state.(retryBlocked := error.retryAfter.RetryBlocked?);
        if error.retryAfter.RetryAt? && error.retryAfter.until > state.retryAt {
          state := state.(retryAt := error.retryAfter.until);
        }
      }
    }

    /** stop: no new work; the states are cleared once every job has ended. */
    method Stop()
      requires Valid()
      modifies this
      ensures Valid() && history == old(history) + [Event.Stop]
    {
      Note(Event.Stop);
      Shut();
    }

    method Shut()
      modifies this`closed
      ensures Snap() == old(Snap()).(closed := true)
    {
      closed := true;
    }
  }
}
