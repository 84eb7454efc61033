/**
 How calls of `CurrentAccount` end and what refresh jobs leave behind, told by the history: each
 answer's exact cause, the sharing of a job, the wait for it, the pause after a failure, and the
 ChatGPT identity that a refresh never changes.
 */
module RefreshAnswers {
  import opened Common
  import opened CredentialRefresh
  import DB = AccountStore

  // ----- Answers -----

  /** The decision of an open manager on a call whose refresh state is still the account's. */
  predicate Deciding(s: State, e: Event, c: CallID, call: Call) {
    && e.Decide? && e.call == c && call.Holding? && call.ref < |s.states|
    && !s.closed && Lookup(s.refreshes, call.id) == Some(call.ref)
  }

  /** A failed refresh still forbids another one. */
  predicate Barred(s: State, ref: Ref)
    requires ref < |s.states|
  {
    s.states[ref].retryBlocked || s.clock < s.states[ref].retryAt
  }

  predicate NearExpiry(s: State, record: DB.Record) {
    record.credentials.expiresAt <= s.clock + 5 * MINUTE
  }

  /** The call takes the row as it is: it waited once, no refresh is allowed, or none is due. */
  predicate TakesTheRow(s: State, e: Event, c: CallID, call: Call) {
    && Deciding(s, e, c, call) && !s.states[call.ref].needsSignIn
    && (call.waited || Barred(s, call.ref) || !NearExpiry(s, call.record))
  }

  predicate Usable(s: State, e: Event, call: Call)
    requires e.Decide? && call.Holding? && call.ref < |s.states|
  {
    s.states[call.ref].replacement.None? && call.record.credentials.expiresAt > s.clock + e.lag
  }

  predicate Checking(s: State, e: Event, c: CallID, call: Call) {
    e == Check(c) && call.Fetched?
  }

  /** What has to be the case for step `e` to end call `c` with `answer`. */
  predicate Cause(s: State, e: Event, c: CallID, call: Call, answer: Result<DB.Record, CallError>) {
    match answer
    case Ok(record) => TakesTheRow(s, e, c, call) && Usable(s, e, call) && record == call.record
    case Err(TemporarilyUnavailable) => TakesTheRow(s, e, c, call) && !Usable(s, e, call)
    case Err(NeedsSignIn) => Deciding(s, e, c, call) && s.states[call.ref].needsSignIn
    case Err(Disabled) =>
      && Checking(s, e, c, call) && !s.closed && call.got.Ok? && !call.got.value.enabled
      && Lookup(s.refreshes, call.id) == call.before && s.revision == call.revision
    case Err(Store(error)) => Checking(s, e, c, call) && call.got == Err(error)
    case Err(Canceled) => e == Cancel(c)
    case Err(Closed) =>
      s.closed && (
        || (e == Capture(c) && call.Looking?)
        || (Checking(s, e, c, call) && call.got.Ok?)
        || (e.Decide? && e.call == c && call.Holding?))
  }

  lemma CheckAnswers(s: State, c: CallID, call: Call, answer: Result<DB.Record, CallError>)
    requires c in s.calls && s.calls[c] == call && call.Fetched?
    ensures Lookup(CheckStep(s, c, call).calls, c) == Some(Returned(call.id, answer)) <==>
            Cause(s, Check(c), c, call, answer)
  {
  }

  lemma DecideAnswers(s: State, c: CallID, call: Call, lag: nat, answer: Result<DB.Record, CallError>)
    requires c in s.calls && s.calls[c] == call && call.Holding? && call.ref < |s.states|
    ensures Lookup(DecideStep(s, c, call, lag).calls, c) == Some(Returned(call.id, answer)) <==>
            Cause(s, Decide(c, lag), c, call, answer)
  {
  }

  lemma MoveAnswers(s: State, e: Event, c: CallID, call: Call, answer: Result<DB.Record, CallError>)
    requires c in s.calls && s.calls[c] == call && !call.Returned? && MovesCall(e) && e.call == c
    ensures Lookup(Apply(s, e).calls, c) == Some(Returned(call.id, answer)) <==> Cause(s, e, c, call, answer)
  {
  }

  lemma OwnAnswers(s: State, e: Event, c: CallID, call: Call, answer: Result<DB.Record, CallError>)
    requires c in s.calls && s.calls[c] == call && !call.Returned? && TouchesCall(e) && e.call == c
    requires CallOK(s, call)
    ensures Lookup(Apply(s, e).calls, c) == Some(Returned(call.id, answer)) <==> Cause(s, e, c, call, answer)
  {
    if e.Check? {
      if call.Fetched? { CheckAnswers(s, c, call, answer); }
    } else if e.Decide? {
      if call.Holding? { DecideAnswers(s, c, call, e.lag, answer); }
    } else {
      MoveAnswers(s, e, c, call, answer);
    }
  }

  lemma OthersDoNotAnswer(s: State, e: Event, c: CallID, call: Call, answer: Result<DB.Record, CallError>)
    requires c in s.calls && s.calls[c] == call && !call.Returned? && !(TouchesCall(e) && e.call == c)
    ensures Lookup(Apply(s, e).calls, c) == Some(call) && !Cause(s, e, c, call, answer)
  {
    if !TouchesCall(e) {
      CallsUntouched(s, e);
    } else {
      OtherCallsUntouched(s, e, c);
    }
  }

  /** In every reachable state a step ends a call with an answer exactly if that answer's cause is given. */
  lemma AnswerIff(events: seq<Event>, e: Event, c: CallID, answer: Result<DB.Record, CallError>)
    ensures
      var s := Run(events);
      c in s.calls && !s.calls[c].Returned? ==>
        (Lookup(Apply(s, e).calls, c) == Some(Returned(s.calls[c].id, answer)) <==>
         Cause(s, e, c, s.calls[c], answer))
  {
    var s := Run(events);
    InvRun(events);
    if c in s.calls && !s.calls[c].Returned? {
      assert CallOK(s, s.calls[c]);
      if TouchesCall(e) && e.call == c {
        OwnAnswers(s, e, c, s.calls[c], answer);
      } else {
        OthersDoNotAnswer(s, e, c, s.calls[c], answer);
      }
    }
  }

  // ----- Joining a job -----

  /**
   A call that did not wait, on a clean current state whose row nears its expiry and whose refresh is not barred,
   comes to wait for the one running job of that state. It starts that job exactly if none was running.
   */
  lemma NearExpiryWaitsForTheJob(events: seq<Event>, c: CallID, lag: nat)
    requires
      var s, e := Run(events), Decide(c, lag);
      && c in s.calls && Deciding(s, e, c, s.calls[c]) && !s.states[s.calls[c].ref].needsSignIn
      && !s.calls[c].waited && !Barred(s, s.calls[c].ref) && NearExpiry(s, s.calls[c].record)
    ensures
      var s := Run(events);
      var ref, t := s.calls[c].ref, Apply(s, Decide(c, lag));
      && c in t.calls && t.calls[c].Waiting? && t.calls[c].id == s.calls[c].id && t.calls[c].ref == ref
      && ref < |t.states| && t.states[ref].done == Some(t.calls[c].job) && ref in t.jobs
      && if ref in s.jobs then t.jobs == s.jobs && t.log == s.log && t.states == s.states
         else t.jobs == s.jobs[ref := Starting] && t.log == s.log + [Started(ref)]
  {
    InvRun(events);
    var s := Run(events);
    assert CallOK(s, s.calls[c]) && RefOK(s, s.calls[c].ref);
  }

  /** Job numbers in use were given out. */
  ghost predicate Numbered(s: State) {
    forall ref :: 0 <= ref < |s.states| && s.states[ref].done.Some? ==> s.states[ref].done.value < s.nextJob
  }

  /** The job `job` of `ref` runs on, or the step ended it; a job that is over does not come back. */
  ghost predicate JobGoesOn(s: State, t: State, ref: Ref, job: nat) {
    && s.nextJob <= t.nextJob && |s.states| <= |t.states|
    && (t.log == s.log || (t.log != [] && t.log[..|t.log| - 1] == s.log))
    && (ref < |s.states| ==> DoneGoesOn(s, t, ref, job))
  }

  predicate DoneGoesOn(s: State, t: State, ref: Ref, job: nat)
    requires ref < |s.states| <= |t.states| && (t.log == s.log || (t.log != [] && t.log[..|t.log| - 1] == s.log))
  {
    && (s.states[ref].done == Some(job) ==>
          (t.states[ref].done == Some(job) <==> t.log == s.log || t.log[|s.log|] != Ended(ref)))
    && (s.states[ref].done != Some(job) && job < s.nextJob ==> t.states[ref].done != Some(job))
  }

  lemma DecideJob(s: State, c: CallID, call: Call, lag: nat, ref: Ref, job: nat)
    requires Numbered(s) && call.Holding? && call.ref < |s.states|
    ensures
      var t := DecideStep(s, c, call, lag);
      Numbered(t) && JobGoesOn(s, t, ref, job)
  {
  }

  lemma EndJob(s: State, own: Ref, error: Option<Failure>, replacement: Option<DB.Credentials>, ref: Ref, job: nat)
    requires Numbered(s) && own < |s.states|
    ensures
      var t := JobEndStep(s, own, error, replacement);
      Numbered(t) && JobGoesOn(s, t, ref, job)
  {
    assert (s.log + [Ended(own)])[..|s.log|] == s.log;
  }

  lemma CheckJob(s: State, c: CallID, call: Call, ref: Ref, job: nat)
    requires Numbered(s) && call.Fetched?
    ensures
      var t := CheckStep(s, c, call);
      Numbered(t) && JobGoesOn(s, t, ref, job)
  {
  }

  lemma BusyJob(s: State, e: Event, ref: Ref, job: nat)
    requires e.JobBegin? || e.JobReply? || e.JobSave?
    requires Numbered(s)
    ensures Numbered(Apply(s, e)) && JobGoesOn(s, Apply(s, e), ref, job)
  {
    StatesUntouched(s, e);
  }

  lemma JobStep(s: State, e: Event, ref: Ref, job: nat)
    requires Numbered(s)
    ensures Numbered(Apply(s, e)) && JobGoesOn(s, Apply(s, e), ref, job)
  {
    if e.Check? {
      if e.call in s.calls && s.calls[e.call].Fetched? { CheckJob(s, e.call, s.calls[e.call], ref, job); }
    } else if e.Decide? {
      if e.call in s.calls && s.calls[e.call].Holding? && s.calls[e.call].ref < |s.states| {
        DecideJob(s, e.call, s.calls[e.call], e.lag, ref, job);
      }
    } else if e.JobEnd? {
      if e.ref in s.jobs && e.ref < |s.states| && s.jobs[e.ref].Ending? {
        EndJob(s, e.ref, s.jobs[e.ref].error, s.jobs[e.ref].replacement, ref, job);
      }
    } else if TouchesJob(e) {
      BusyJob(s, e, ref, job);
    }
  }

  lemma {:induction false} NumberedRun(events: seq<Event>)
    ensures Numbered(Run(events))
  {
    if events != [] {
      NumberedRun(events[..|events| - 1]);
      JobStep(Run(events[..|events| - 1]), events[|events| - 1], 0, 0);
    }
  }

  /** An `Ended(ref)` among the notes from position `n` on. */
  predicate EndedSince(log: seq<Note>, n: nat, ref: Ref) {
    exists i :: n <= i < |log| && log[i] == Ended(ref)
  }

  lemma EndedSinceGrows(log: seq<Note>, n: nat, note: Note, ref: Ref)
    requires n <= |log|
    ensures EndedSince(log + [note], n, ref) <==> EndedSince(log, n, ref) || note == Ended(ref)
  {
    var after := log + [note];
    if i :| n <= i < |log| && log[i] == Ended(ref) {
      assert after[i] == Ended(ref);
    }
    if note == Ended(ref) {
      assert after[|log|] == Ended(ref);
    }
  }

  lemma OverStep(s: State, t: State, n: nat, ref: Ref, job: nat)
    requires JobGoesOn(s, t, ref, job) && ref < |s.states| && job < s.nextJob && n <= |s.log|
    requires s.states[ref].done != Some(job) <==> EndedSince(s.log, n, ref)
    ensures ref < |t.states| && job < t.nextJob && n <= |t.log|
    ensures t.states[ref].done != Some(job) <==> EndedSince(t.log, n, ref)
  {
    if t.log != s.log {
      assert t.log == s.log + [t.log[|s.log|]];
      EndedSinceGrows(s.log, n, t.log[|s.log|], ref);
    }
  }

  lemma {:induction false} JobIsOverIff(events: seq<Event>, k: nat, ref: Ref, job: nat)
    requires k <= |events|
    requires var s := Run(events[..k]); ref < |s.states| && s.states[ref].done == Some(job)
    ensures
      var s, t := Run(events[..k]), Run(events);
      && ref < |t.states| && job < t.nextJob && |s.log| <= |t.log|
      && (t.states[ref].done != Some(job) <==> EndedSince(t.log, |s.log|, ref))
  {
    var s := Run(events[..k]);
    if k == |events| {
      assert events[..k] == events;
      NumberedRun(events);
    } else {
      var init, e := events[..|events| - 1], events[|events| - 1];
      assert init[..k] == events[..k];
      JobIsOverIff(init, k, ref, job);
      NumberedRun(init);
      JobStep(Run(init), e, ref, job);
      OverStep(Run(init), Run(events), |s.log|, ref, job);
    }
  }

  /**
   A call that came to wait for a running job looks again exactly if that job ended since; so every call that
   waits for it is let go by the same end, and by no other.
   */
  lemma WaitEndsWithTheJob(events: seq<Event>, k: nat, c: CallID, id: ID, ref: Ref, job: nat)
    requires k <= |events|
    requires
      var s := Run(events[..k]);
      Lookup(s.calls, c) == Some(Waiting(id, ref, job)) && ref < |s.states| && s.states[ref].done == Some(job)
    ensures
      var s, t := Run(events[..k]), Run(events);
      Lookup(t.calls, c) == Some(Waiting(id, ref, job)) ==>
        (Lookup(Apply(t, Resume(c)).calls, c) == Some(Looking(id, true)) <==> EndedSince(t.log, |s.log|, ref))
  {
    JobIsOverIff(events, k, ref, job);
  }

  // ----- After a failure -----

  /** The job of the account's current state is about to end in a failure. */
  predicate FailsNow(s: State, ref: Ref, error: Failure, replacement: Option<DB.Credentials>) {
    && ref in s.jobs && ref < |s.states| && s.jobs[ref] == Ending(Some(error), replacement)
    && Lookup(s.refreshes, s.states[ref].previous.id) == Some(ref)
  }

  predicate Permanent(error: Failure) {
    error.SignInRequired? || (error.Provider? && !error.transient)
  }

  /** No further job of the state ended from event `k` on. */
  ghost predicate NoEndSince(events: seq<Event>, k: nat, ref: Ref) {
    forall i :: k <= i < |events| ==> !EndsJob(Run(events[..i]), events[i], ref)
  }

  predicate EndsJob(s: State, e: Event, ref: Ref) {
    e == JobEnd(ref) && ref in s.jobs && s.jobs[ref].Ending?
  }

  predicate SameFailure(a: RefreshState, b: RefreshState) {
    && a.needsSignIn == b.needsSignIn && a.retryAt == b.retryAt && a.retryBlocked == b.retryBlocked
    && a.replacement == b.replacement
  }

  lemma FailureStays(s: State, e: Event, ref: Ref)
    requires ref < |s.states| && !EndsJob(s, e, ref)
    ensures ref < |Apply(s, e).states| && SameFailure(s.states[ref], Apply(s, e).states[ref])
  {
    if e.Check? {
      if e.call in s.calls && s.calls[e.call].Fetched? { CheckKeepsFailure(s, e.call, s.calls[e.call], ref); }
    } else if e.JobEnd? {
      if e.ref in s.jobs && e.ref < |s.states| && s.jobs[e.ref].Ending? {
        JobEndFrame(s, e.ref, s.jobs[e.ref].error, s.jobs[e.ref].replacement);
      }
    } else if !e.Decide? {
      StatesUntouched(s, e);
    }
  }

  lemma CheckKeepsFailure(s: State, c: CallID, call: Call, ref: Ref)
    requires call.Fetched? && ref < |s.states|
    ensures var t := CheckStep(s, c, call); ref < |t.states| && s.states[ref] == t.states[ref]
  {
  }

  lemma {:induction false} FailureStaysThroughout(events: seq<Event>, k: nat, ref: Ref)
    requires k <= |events| && ref < |Run(events[..k]).states| && NoEndSince(events, k, ref)
    ensures ref < |Run(events).states| && SameFailure(Run(events[..k]).states[ref], Run(events).states[ref])
    ensures Run(events[..k]).clock <= Run(events).clock
  {
    if k == |events| {
      assert events[..k] == events;
    } else {
      var init := events[..|events| - 1];
      assert init[..k] == events[..k] && init == events[..|init|];
      assert forall i :: k <= i < |init| ==> init[..i] == events[..i];
      FailureStaysThroughout(init, k, ref);
      FailureStays(Run(init), events[|events| - 1], ref);
      ClockGrows(Run(init), events[|events| - 1]);
    }
  }

  lemma ClockGrows(s: State, e: Event)
    ensures s.clock <= Apply(s, e).clock
  {
    InvClock(s, e);
  }

  lemma InvClock(s: State, e: Event)
    ensures !e.Tick? ==> Apply(s, e).clock == s.clock
  {
    if TouchesJob(e) {
      JobClock(s, e);
    } else if TouchesCall(e) {
      CallClock(s, e);
    }
  }

  lemma JobClock(s: State, e: Event)
    requires TouchesJob(e)
    ensures Apply(s, e).clock == s.clock
  {
  }

  lemma CallClock(s: State, e: Event)
    requires TouchesCall(e)
    ensures Apply(s, e).clock == s.clock
  {
  }

  /**
   What a failure at time `now` means until the state's next job ends: a permanent one requires a sign-in; after any
   other a refresh is barred exactly for a minute, for as long as the provider said, or for good if it blocked
   retries. A replacement that could not be saved is kept.
   */
  lemma FailureBarsExactly(events: seq<Event>, k: nat, ref: Ref, error: Failure, replacement: Option<DB.Credentials>)
    requires k < |events| && events[k] == JobEnd(ref) && FailsNow(Run(events[..k]), ref, error, replacement)
    requires NoEndSince(events, k + 1, ref)
    ensures
      var now, t := Run(events[..k]).clock, Run(events);
      && ref < |t.states| && t.states[ref].replacement == replacement
      && (t.states[ref].needsSignIn <==> Permanent(error))
      && (!Permanent(error) ==>
            (Barred(t, ref) <==>
              || t.clock < now + MINUTE
              || (error.Provider? && error.retryAfter.RetryBlocked?)
              || (error.Provider? && error.retryAfter.RetryAt? && t.clock < error.retryAfter.until)))
  {
    var s := Run(events[..k]);
    assert events[..k + 1][..k] == events[..k];
    assert Run(events[..k + 1]) == Apply(s, JobEnd(ref));
    FailureStaysThroughout(events, k + 1, ref);
  }

  // ----- The ChatGPT identity -----

  function Identity(s: State, ref: Ref): string
    requires ref < |s.states|
  {
    s.states[ref].previous.credentials.chatGPTAccountID
  }

  predicate NoteKeeps(s: State, n: Note) {
    n.Gave? || n.Saved? ==> n.ref < |s.states| && n.credentials.chatGPTAccountID == Identity(s, n.ref)
  }

  predicate JobKeeps(s: State, ref: Ref) {
    ref in s.jobs && s.jobs[ref].Ready? && s.jobs[ref].outcome.Ok? ==>
      ref < |s.states| && s.jobs[ref].outcome.value.chatGPTAccountID == Identity(s, ref)
  }

  ghost predicate IdentitiesKept(s: State) {
    && (forall i :: 0 <= i < |s.log| ==> NoteKeeps(s, s.log[i]))
    && (forall ref :: ref in s.jobs ==> JobKeeps(s, ref))
  }

  /** Known states keep the rows they were made for. */
  predicate KeepsPrevious(s: State, t: State) {
    |s.states| <= |t.states| &&
    forall ref :: 0 <= ref < |s.states| ==> t.states[ref].previous == s.states[ref].previous
  }

  /** A step with at most one new note, and at most the job of `own` moved. */
  lemma IdentityFrame(s: State, t: State, own: Ref)
    requires IdentitiesKept(s) && KeepsPrevious(s, t) && JobKeeps(t, own) && s.jobs - {own} == t.jobs - {own}
    requires
      || t.log == s.log
      || (t.log != [] && t.log[..|t.log| - 1] == s.log && NoteKeeps(t, t.log[|t.log| - 1]))
    ensures IdentitiesKept(t)
  {
    forall i | 0 <= i < |t.log| ensures NoteKeeps(t, t.log[i]) {
      if i < |s.log| {
        assert t.log[i] == s.log[i] && NoteKeeps(s, s.log[i]);
      }
    }
    forall ref | ref in t.jobs ensures JobKeeps(t, ref) {
      if ref != own {
        assert ref in t.jobs - {own} && t.jobs[ref] == (t.jobs - {own})[ref] == s.jobs[ref];
        assert JobKeeps(s, ref);
      }
    }
  }

  lemma BeginIdentity(s: State, ref: Ref)
    requires IdentitiesKept(s) && ref < |s.states|
    ensures IdentitiesKept(JobBeginStep(s, ref))
  {
    JobBeginFrame(s, ref);
    IdentityFrame(s, JobBeginStep(s, ref), ref);
  }

  lemma ReplyIdentity(s: State, ref: Ref, reply: Reply)
    requires IdentitiesKept(s) && ref < |s.states|
    ensures IdentitiesKept(JobReplyStep(s, ref, reply))
  {
    var t := JobReplyStep(s, ref, reply);
    assert t.log == s.log || t.log[..|t.log| - 1] == s.log;
    IdentityFrame(s, t, ref);
  }

  lemma SaveIdentity(s: State, ref: Ref, fault: DB.Fault)
    requires IdentitiesKept(s) && ref < |s.states| && ref in s.jobs && s.jobs[ref].Ready?
    ensures IdentitiesKept(JobSaveStep(s, ref, s.jobs[ref].outcome, fault))
  {
    var t := JobSaveStep(s, ref, s.jobs[ref].outcome, fault);
    assert JobKeeps(s, ref);
    assert t.log == s.log || t.log[..|t.log| - 1] == s.log;
    IdentityFrame(s, t, ref);
  }

  lemma EndIdentity(s: State, ref: Ref, error: Option<Failure>, replacement: Option<DB.Credentials>)
    requires IdentitiesKept(s) && ref < |s.states|
    ensures IdentitiesKept(JobEndStep(s, ref, error, replacement))
  {
    JobEndFrame(s, ref, error, replacement);
    IdentityFrame(s, JobEndStep(s, ref, error, replacement), ref);
  }

  lemma DecideIdentity(s: State, c: CallID, call: Call, lag: nat)
    requires IdentitiesKept(s) && call.Holding? && call.ref < |s.states|
    ensures IdentitiesKept(DecideStep(s, c, call, lag))
  {
    var t := DecideStep(s, c, call, lag);
    assert t.log == s.log || t.log[..|t.log| - 1] == s.log;
    IdentityFrame(s, t, call.ref);
  }

  lemma CheckIdentity(s: State, c: CallID, call: Call)
    requires IdentitiesKept(s) && call.Fetched?
    ensures IdentitiesKept(CheckStep(s, c, call))
  {
    var t := CheckStep(s, c, call);
    IdentityFrame(s, t, |t.states|);
  }

  lemma QuietIdentity(s: State, e: Event)
    requires IdentitiesKept(s) && !TouchesJob(e) && !e.Check? && !e.Decide?
    ensures IdentitiesKept(Apply(s, e))
  {
    StatesUntouched(s, e);
    IdentityFrame(s, Apply(s, e), |s.states|);
  }

  lemma IdentityStep(s: State, e: Event)
    requires IdentitiesKept(s)
    ensures IdentitiesKept(Apply(s, e))
  {
    if Apply(s, e) != s {
      match e
      case Check(c) => CheckIdentity(s, c, s.calls[c]);
      case Decide(c, lag) => DecideIdentity(s, c, s.calls[c], lag);
      case JobBegin(ref) => BeginIdentity(s, ref);
      case JobReply(ref, reply) => ReplyIdentity(s, ref, reply);
      case JobSave(ref, fault) => SaveIdentity(s, ref, fault);
      case JobEnd(ref) => EndIdentity(s, ref, s.jobs[ref].error, s.jobs[ref].replacement);
      case _ => QuietIdentity(s, e);
    }
  }

  lemma {:induction false} IdentityRun(events: seq<Event>)
    ensures IdentitiesKept(Run(events))
  {
    if events != [] {
      IdentityRun(events[..|events| - 1]);
      IdentityStep(Run(events[..|events| - 1]), events[|events| - 1]);
    }
  }

  /**
   Of the tokens that the provider answers with, exactly those of the stored ChatGPT identity are given to be
   saved; others end the job with a sign-in required, and a refusal with what the provider said.
   */
  lemma TokensAreGivenIff(events: seq<Event>, ref: Ref, reply: Reply)
    requires ref in Run(events).jobs && Run(events).jobs[ref].Calling?
    ensures
      var s, t := Run(events), Apply(Run(events), JobReply(ref, reply));
      && ref < |s.states| && ref in t.jobs
      && match reply {
        case Tokens(credentials) =>
          if credentials.chatGPTAccountID == Identity(s, ref)
          then t.jobs[ref] == Ready(Ok(credentials)) && t.log == s.log + [Gave(ref, credentials)]
          else t.jobs[ref] == Ready(Err(SignInRequired)) && t.log == s.log
        case Refused(transient, retryAfter) =>
          t.jobs[ref] == Ready(Err(Provider(transient, retryAfter))) && t.log == s.log
      }
  {
    InvRun(events);
  }

  // ----- What a save does to the store -----

  /** The record is named and shows the values under its revision. */
  predicate AsRead(r: DB.Record) {
    !Blank(r.id) && r.revision.Some? && r.revision.value.plaintext == r.credentials
  }

  predicate CallRead(call: Call) {
    call.Fetched? && call.got.Ok? ==> AsRead(call.got.value)
  }

  ghost predicate AllRead(s: State) {
    && (forall ref :: 0 <= ref < |s.states| ==> AsRead(s.states[ref].previous))
    && (forall c :: c in s.calls ==> CallRead(s.calls[c]))
  }

  lemma ReadStates(s: State, e: Event, ref: Ref)
    requires AllRead(s) && ref < |Apply(s, e).states|
    ensures AsRead(Apply(s, e).states[ref].previous)
  {
    if e.Check? {
      if e.call in s.calls && s.calls[e.call].Fetched? {
        assert CallRead(s.calls[e.call]);
        CheckReads(s, e.call, s.calls[e.call], ref);
      }
    } else if e.JobEnd? {
      if e.ref in s.jobs && e.ref < |s.states| && s.jobs[e.ref].Ending? {
        JobEndFrame(s, e.ref, s.jobs[e.ref].error, s.jobs[e.ref].replacement);
      }
    } else if !e.Decide? {
      StatesUntouched(s, e);
    }
  }

  lemma CheckReads(s: State, c: CallID, call: Call, ref: Ref)
    requires AllRead(s) && call.Fetched? && CallRead(call) && ref < |CheckStep(s, c, call).states|
    ensures AsRead(CheckStep(s, c, call).states[ref].previous)
  {
  }

  lemma ReadCalls(s: State, e: Event, c: CallID)
    requires AllRead(s) && c in Apply(s, e).calls
    ensures CallRead(Apply(s, e).calls[c])
  {
    if !TouchesCall(e) {
      CallsUntouched(s, e);
    } else if e.call != c {
      OtherCallsUntouched(s, e, c);
    } else if c !in s.calls {
      NewCall(s, e, c);
    } else {
      CallMoves(s, e, c);
    }
  }

  lemma {:induction false} AllReadRun(events: seq<Event>)
    ensures AllRead(Run(events))
  {
    if events != [] {
      var s, e := Run(events[..|events| - 1]), events[|events| - 1];
      AllReadRun(events[..|events| - 1]);
      forall ref | 0 <= ref < |Apply(s, e).states| ensures AsRead(Apply(s, e).states[ref].previous) {
        ReadStates(s, e, ref);
      }
      forall c | c in Apply(s, e).calls ensures CallRead(Apply(s, e).calls[c]) {
        ReadCalls(s, e, c);
      }
    }
  }

  predicate SameAccount(before: map<ID, DB.Row>, after: map<ID, DB.Row>, id: ID) {
    && (id in before <==> id in after)
    && (id in before ==>
          && after[id].name == before[id].name && after[id].enabled == before[id].enabled
          && after[id].sealed.plaintext.chatGPTAccountID == before[id].sealed.plaintext.chatGPTAccountID)
  }

  lemma ReplaceKeepsIdentity(s: DB.State, previous: DB.Record, credentials: DB.Credentials, fault: DB.Fault, id: ID)
    requires AsRead(previous) && credentials.chatGPTAccountID == previous.credentials.chatGPTAccountID
    ensures
      var after := DB.Perform(s, DB.Replace(previous, credentials, fault)).0.rows;
      SameAccount(s.rows, after, id) && (id != previous.id ==> Lookup(after, id) == Lookup(s.rows, id))
  {
  }

  // ----- What a job does with its tokens -----

  lemma {:induction false} OwedIdentity(s: State, log: seq<Note>, ref: Ref)
    requires forall i :: 0 <= i < |log| ==> NoteKeeps(s, log[i])
    ensures Owed(log, ref).Some? ==>
        ref < |s.states| && Owed(log, ref).value.chatGPTAccountID == Identity(s, ref)
  {
    if log != [] {
      OwedIdentity(s, log[..|log| - 1], ref);
    }
  }

  /**
   A job that starts in any reachable state asks the provider exactly if no rotation is kept from an earlier save;
   kept tokens are to be saved again while they last, and need a new sign-in after that.
   */
  lemma KeptTokensComeFirst(events: seq<Event>, ref: Ref)
    requires ref in Run(events).jobs && Run(events).jobs[ref].Starting?
    ensures
      var s, t := Run(events), Apply(Run(events), JobBegin(ref));
      && ref < |s.states| && ref in t.jobs
      && match s.states[ref].replacement {
        case None => t.jobs[ref] == Calling && t.log == s.log + [Called(ref)]
        case Some(kept) =>
          && t.log == s.log
          && t.jobs[ref] == Ready(if s.clock < kept.expiresAt then Ok(kept) else Err(SignInRequired))
      }
  {
    InvRun(events);
    IdentityRun(events);
    assert RefOK(Run(events), ref);
    OwedIdentity(Run(events), Run(events).log, ref);
  }

  /** The row that the job read is still there, enabled and unchanged. */
  predicate StillStored(s: State, previous: DB.Record) {
    && previous.id in s.store.rows && s.store.rows[previous.id].enabled
    && previous.revision == Some(s.store.rows[previous.id].sealed)
  }

  /** How a job ends whose save answered so. */
  predicate EndsAs(job: Job, credentials: DB.Credentials, fault: DB.Fault, lands: bool) {
    job ==
      if fault.Healthy? && lands then Ending(None, None)
      else if fault.Healthy? && DB.ValidCredentials(credentials) then Ending(Some(SaveConflict), None)
      else Ending(Some(SaveFailed), Some(credentials))
  }

  lemma SaveStepLands(s: State, ref: Ref, credentials: DB.Credentials, fault: DB.Fault)
    requires ref in s.jobs && ref < |s.states| && s.jobs[ref] == Ready(Ok(credentials))
    requires AsRead(s.states[ref].previous)
    ensures
      var previous, t := s.states[ref].previous, Apply(s, JobSave(ref, fault));
      var id, lands := previous.id, StillStored(s, previous) && DB.ValidCredentials(credentials);
      && ref in t.jobs && EndsAs(t.jobs[ref], credentials, fault, lands)
      && t.store.rows == if lands && !fault.LostBefore?
                         then s.store.rows[id := s.store.rows[id].(sealed := DB.Ciphertext(s.store.next, credentials))]
                         else s.store.rows
  {
  }

  /**
   In every reachable state the save of given tokens stores them under a fresh ciphertext exactly if the row is still
   there, enabled and unchanged, the tokens are valid and the statement reaches the database, and it changes nothing
   else. The job then ends well, with a conflict, or keeping the tokens for the next one.
   */
  lemma SaveLandsIff(events: seq<Event>, ref: Ref, credentials: DB.Credentials, fault: DB.Fault)
    requires Lookup(Run(events).jobs, ref) == Some(Ready(Ok(credentials)))
    ensures
      var s, t := Run(events), Apply(Run(events), JobSave(ref, fault));
      && ref < |s.states| && ref in t.jobs
      && var previous := s.states[ref].previous;
      var id, lands := previous.id, StillStored(s, previous) && DB.ValidCredentials(credentials);
      && EndsAs(t.jobs[ref], credentials, fault, lands)
      && t.store.rows == if lands && !fault.LostBefore?
                         then s.store.rows[id := s.store.rows[id].(sealed := DB.Ciphertext(s.store.next, credentials))]
                         else s.store.rows
  {
    InvRun(events);
    AllReadRun(events);
    SaveStepLands(Run(events), ref, credentials, fault);
  }

  /** A job without tokens saves nothing and ends with what went wrong. */
  lemma FailedJobSavesNothing(s: State, ref: Ref, error: Failure, fault: DB.Fault)
    requires Lookup(s.jobs, ref) == Some(Ready(Err(error))) && ref < |s.states|
    ensures Apply(s, JobSave(ref, fault)) == s.(jobs := s.jobs[ref := Ending(Some(error), None)])
  {
  }

  /**
   A refresh save, whatever becomes of its reply, leaves every account its name, its ChatGPT identity and whether
   it is enabled, and changes no account but its own.
   */
  lemma RefreshKeepsIdentity(events: seq<Event>, ref: Ref, fault: DB.Fault, id: ID)
    ensures
      var before, after := Run(events).store.rows, Apply(Run(events), JobSave(ref, fault)).store.rows;
      && SameAccount(before, after, id)
      && (Lookup(before, id) != Lookup(after, id) ==>
            ref < |Run(events).states| && id == Run(events).states[ref].previous.id)
  {
    AllReadRun(events);
    IdentityRun(events);
    var s := Run(events);
    if ref in s.jobs && ref < |s.states| && s.jobs[ref].Ready? && s.jobs[ref].outcome.Ok? {
      assert JobKeeps(s, ref);
      ReplaceKeepsIdentity(s.store, s.states[ref].previous, s.jobs[ref].outcome.value, fault, id);
    }
  }

  // ----- The end -----

  lemma CallsKeepClosed(s: State, c: CallID, call: Call)
    ensures call.Looking? ==> CaptureStep(s, c, call).closed == s.closed
    ensures call.Fetched? ==> CheckStep(s, c, call).closed == s.closed
  {
  }

  lemma DecideKeepsClosed(s: State, c: CallID, call: Call, lag: nat)
    requires call.Holding? && call.ref < |s.states|
    ensures DecideStep(s, c, call, lag).closed == s.closed
  {
  }

  lemma EndKeepsClosed(s: State, ref: Ref, error: Option<Failure>, replacement: Option<DB.Credentials>)
    requires ref < |s.states|
    ensures JobEndStep(s, ref, error, replacement).closed == s.closed
  {
  }

  lemma ClosedStep(s: State, e: Event)
    ensures Apply(s, e).closed == (s.closed || e.Stop?)
  {
    match e
    case Capture(c) => if c in s.calls { CallsKeepClosed(s, c, s.calls[c]); }
    case Check(c) => if c in s.calls { CallsKeepClosed(s, c, s.calls[c]); }
    case Decide(c, lag) =>
      if c in s.calls && s.calls[c].Holding? && s.calls[c].ref < |s.states| {
        DecideKeepsClosed(s, c, s.calls[c], lag);
      }
    case JobEnd(ref) =>
      if ref in s.jobs && ref < |s.states| && s.jobs[ref].Ending? {
        EndKeepsClosed(s, ref, s.jobs[ref].error, s.jobs[ref].replacement);
      }
    case _ =>
  }

  lemma LastOrBefore(events: seq<Event>)
    requires events != []
    ensures Stop in events <==> Stop in events[..|events| - 1] || events[|events| - 1].Stop?
  {
    assert events == events[..|events| - 1] + [events[|events| - 1]];
  }

  /** The manager is closed exactly if it was stopped. */
  lemma {:induction false} ClosedIffStopped(events: seq<Event>)
    ensures Run(events).closed <==> Stop in events
  {
    if events != [] {
      var n := |events| - 1;
      ClosedIffStopped(events[..n]);
      ClosedStep(Run(events[..n]), events[n]);
      LastOrBefore(events);
    }
  }

  /** Once a stopped manager has joined its jobs, clearing leaves it no refresh state, and so no tokens, to go by. */
  lemma StoppedManagerForgets(events: seq<Event>)
    ensures
      var s, t := Run(events), Apply(Run(events), ClearStates);
      if Stop in events && s.jobs.Keys == {} then t.refreshes.Keys == {} else t == s
  {
    ClosedIffStopped(events);
    assert Run(events).jobs.Keys == {} <==> Run(events).jobs == map[];
  }
}
