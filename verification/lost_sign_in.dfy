/**
 A run of the refresh protocol that loses a required sign-in: the condition on earlier reads in
 CredentialRefresh.SignInIsSticky cannot be dropped.
 */
module LostSignIn {
  import opened Common
  import opened CredentialRefresh
  import DB = AccountStore

  const V := DB.Credentials("workspace", "access", "refresh", 100)
  const W := DB.Credentials("workspace", "access 2", "refresh 2", 100)

  function Stored(nonce: nat, c: DB.Credentials): DB.Record {
    DB.Record("a", "name", c, true, Some(DB.Ciphertext(nonce, c)))
  }

  function Table(nonce: nat, c: DB.Credentials): DB.State {
    DB.State(map["a" := DB.Row("name", true, DB.Ciphertext(nonce, c))], nonce + 1)
  }

  const FRESH := RefreshState(Stored(0, V), None, None, false, 0, false)

  /** Call 0 found the account near its expiry and started job 0; call 1 has captured state 0. */
  const OPENED := State(
    Table(0, V), map["a" := 0], [FRESH.(done := Some(0))], 1, false,
    map[0 := Waiting("a", 0, 0), 1 := Captured("a", false, Some(0), 1)], map[0 := Starting], 1, 0, [Started(0)])

  /** Call 1 has read another value, which was stored for a moment; then job 0 was refused for good. */
  const MARKED := State(
    Table(2, V), map["a" := 0], [FRESH.(needsSignIn := true)], 1, false,
    map[0 := Waiting("a", 0, 0), 1 := Fetched("a", false, Some(0), 1, Ok(Stored(1, W)))], map[], 1, 0,
    [Started(0), Called(0), Ended(0)])

  lemma NotBlank()
    ensures !Blank("a") && !Blank("name") && DB.ValidCredentials(V) && DB.ValidCredentials(W)
  {
    assert !IsSpace("a"[0]) && !IsSpace("name"[0]) && !IsSpace(V.chatGPTAccountID[0]);
    assert !IsSpace(V.accessToken[0]) && !IsSpace(W.accessToken[0]);
  }

  /** The events lead from the start to `s`, and none of them completes a login or a deletion. */
  ghost predicate Reaches(events: seq<Event>, s: State) {
    Run(events) == s && forall i :: 0 <= i < |events| ==> !events[i].LoginDone? && !events[i].DeleteDone?
  }

  lemma Go(events: seq<Event>, s: State, e: Event, t: State) returns (more: seq<Event>)
    requires Reaches(events, s) && Apply(s, e) == t && !e.LoginDone? && !e.DeleteDone?
    ensures more == events + [e] && Reaches(more, t)
  {
    more := events + [e];
    assert more[..|events|] == events;
  }

  /** The only job, `ref`, after the provider refused it and before its last region. */
  function Failing(s: State, ref: Ref, transient: bool): State {
    s.(jobs := map[ref := Ending(Some(Provider(transient, NoCooldown)), None)], log := s.log + [Called(ref)])
  }

  predicate OnlyJob(s: State, ref: Ref, job: Job) {
    ref < |s.states| && s.jobs == map[ref := job] && s.states[ref].replacement.None?
  }

  lemma JobCalls(events: seq<Event>, s: State, ref: Ref) returns (more: seq<Event>)
    requires Reaches(events, s) && OnlyJob(s, ref, Starting)
    ensures Reaches(more, s.(jobs := map[ref := Calling], log := s.log + [Called(ref)]))
  {
    more := Go(events, s, JobBegin(ref), s.(jobs := map[ref := Calling], log := s.log + [Called(ref)]));
  }

  lemma JobIsRefused(events: seq<Event>, s: State, ref: Ref, transient: bool) returns (more: seq<Event>)
    requires Reaches(events, s) && OnlyJob(s, ref, Calling)
    ensures Reaches(more, s.(jobs := map[ref := Ready(Err(Provider(transient, NoCooldown)))]))
  {
    var t := s.(jobs := map[ref := Ready(Err(Provider(transient, NoCooldown)))]);
    more := Go(events, s, JobReply(ref, Refused(transient, NoCooldown)), t);
  }

  lemma JobSavesNothing(events: seq<Event>, s: State, ref: Ref, failure: Failure) returns (more: seq<Event>)
    requires Reaches(events, s) && OnlyJob(s, ref, Ready(Err(failure)))
    ensures Reaches(more, s.(jobs := map[ref := Ending(Some(failure), None)]))
  {
    more := Go(events, s, JobSave(ref, DB.Healthy), s.(jobs := map[ref := Ending(Some(failure), None)]));
  }

  lemma JobFails(events: seq<Event>, s: State, ref: Ref, transient: bool) returns (more: seq<Event>)
    requires Reaches(events, s) && OnlyJob(s, ref, Starting)
    ensures Reaches(more, Failing(s, ref, transient))
  {
    more := JobCalls(events, s, ref);
    var t := s.(jobs := map[ref := Calling], log := s.log + [Called(ref)]);
    more := JobIsRefused(more, t, ref, transient);
    var failure := Provider(transient, NoCooldown);
    more := JobSavesNothing(more, t.(jobs := map[ref := Ready(Err(failure))]), ref, failure);
  }

  const READ := INITIAL.(
    store := Table(0, V), calls := map[0 := Fetched("a", false, None, 0, Ok(Stored(0, V)))])

  lemma ReadIsReached() returns (events: seq<Event>)
    ensures Reaches(events, READ)
  {
    NotBlank();
    var s := INITIAL.(store := Table(0, V));
    events := Go([], INITIAL, StoreWrite(DB.Create("a", "name", V, true, DB.Healthy)), s);
    events := Go(events, s, Begin(0, "a"), s.(calls := map[0 := Looking("a", false)]));
    events := FirstRead(events, s.(calls := map[0 := Looking("a", false)]));
  }

  lemma FirstRead(events: seq<Event>, s: State) returns (more: seq<Event>)
    requires Reaches(events, s) && s == INITIAL.(store := Table(0, V), calls := map[0 := Looking("a", false)])
    ensures Reaches(more, READ)
  {
    NotBlank();
    var t := s.(calls := map[0 := Captured("a", false, None, 0)]);
    more := Go(events, s, Capture(0), t);
    more := Go(more, t, Fetch(0, false), READ);
  }

  lemma OpenedIsReached() returns (events: seq<Event>)
    ensures Reaches(events, OPENED)
  {
    events := StartedIsReached();
    var s := OPENED.(calls := map[0 := Waiting("a", 0, 0), 1 := Looking("a", false)]);
    events := Go(events, STARTED, Begin(1, "a"), s);
    events := Go(events, s, Capture(1), OPENED);
  }

  /** Call 0 found the account near its expiry and started job 0. */
  const STARTED := OPENED.(calls := map[0 := Waiting("a", 0, 0)])

  lemma StartedIsReached() returns (events: seq<Event>)
    ensures Reaches(events, STARTED)
  {
    events := ReadIsReached();
    var s := READ.(refreshes := map["a" := 0], states := [FRESH], revision := 1,
                   calls := map[0 := Holding("a", false, Stored(0, V), 0)]);
    events := Go(events, READ, Check(0), s);
    events := Go(events, s, Decide(0, 0), STARTED);
  }

  const MISREAD := OPENED.(
    store := Table(2, V),
    calls := map[0 := Waiting("a", 0, 0), 1 := Fetched("a", false, Some(0), 1, Ok(Stored(1, W)))])

  lemma MisreadIsReached() returns (events: seq<Event>)
    ensures Reaches(events, MISREAD)
  {
    events := OpenedIsReached();
    events := WriteOther(events);
    events := ReadOther(events);
    events := WriteBack(events, MISREAD.(store := Table(1, W)));
  }

  lemma WriteOther(events: seq<Event>) returns (more: seq<Event>)
    requires Reaches(events, OPENED)
    ensures Reaches(more, OPENED.(store := Table(1, W)))
  {
    NotBlank();
    more := Go(events, OPENED, StoreWrite(DB.Replace(Stored(0, V), W, DB.Healthy)), OPENED.(store := Table(1, W)));
  }

  lemma ReadOther(events: seq<Event>) returns (more: seq<Event>)
    requires Reaches(events, OPENED.(store := Table(1, W)))
    ensures Reaches(more, MISREAD.(store := Table(1, W)))
  {
    NotBlank();
    more := Go(events, OPENED.(store := Table(1, W)), Fetch(1, false), MISREAD.(store := Table(1, W)));
  }

  lemma WriteBack(events: seq<Event>, s: State) returns (more: seq<Event>)
    requires Reaches(events, s) && s == MISREAD.(store := Table(1, W))
    ensures Reaches(more, MISREAD)
  {
    NotBlank();
    more := Go(events, s, StoreWrite(DB.Replace(Stored(1, W), V, DB.Healthy)), MISREAD);
  }

  lemma MarkedIsReached() returns (events: seq<Event>)
    ensures Reaches(events, MARKED)
  {
    events := MisreadIsReached();
    events := JobFails(events, MISREAD, 0, false);
    var s := Failing(MISREAD, 0, false);
    events := Go(events, s, JobEnd(0), MARKED);
  }

  const UNMARKED := MARKED.(
    refreshes := map["a" := 1], revision := 2,
    states := [FRESH.(needsSignIn := true), RefreshState(Stored(1, W), None, None, false, 0, false)],
    calls := map[0 := Waiting("a", 0, 0), 1 := Holding("a", false, Stored(1, W), 1)])

  /**
   The condition on earlier reads is needed. In this run value V is marked and stored, and no login or deletion
   ever completes; but call 1 captured the marked state and read the value W that was stored before. Its check
   takes the mark away.
   */
  lemma StaleReadDropsTheMark() returns (events: seq<Event>)
    ensures Reaches(events, MARKED) && MarkedFor(MARKED, "a", V) && HasValue(MARKED, "a", V)
    ensures Apply(MARKED, Check(1)) == UNMARKED && HasValue(UNMARKED, "a", V) && !MarkedFor(UNMARKED, "a", V)
    ensures BadCheck(MARKED, Check(1), "a", 0, V)
  {
    events := MarkedIsReached();
  }

  const HELD := UNMARKED.(
    refreshes := map["a" := 2], revision := 3, nextJob := 2,
    states := UNMARKED.states + [RefreshState(Stored(2, V), Some(1), None, false, 0, false)],
    calls := UNMARKED.calls[2 := Waiting("a", 2, 1)], jobs := map[2 := Starting], log := MARKED.log + [Started(2)])

  lemma HeldIsReached() returns (events: seq<Event>)
    ensures Reaches(events, HELD)
  {
    events := StaleReadDropsTheMark();
    events := Go(events, MARKED, Check(1), UNMARKED);
    var s := UNMARKED.(calls := UNMARKED.calls[2 := Looking("a", false)]);
    events := Go(events, UNMARKED, Begin(2, "a"), s);
    events := SecondRead(events, s);
    events := HeldFrom(events,
        UNMARKED.(calls := UNMARKED.calls[2 := Fetched("a", false, Some(1), 2, Ok(Stored(2, V)))]));
  }

  lemma SecondRead(events: seq<Event>, s: State) returns (more: seq<Event>)
    requires Reaches(events, s) && s == UNMARKED.(calls := UNMARKED.calls[2 := Looking("a", false)])
    ensures Reaches(more, UNMARKED.(calls := UNMARKED.calls[2 := Fetched("a", false, Some(1), 2, Ok(Stored(2, V)))]))
  {
    NotBlank();
    var t := UNMARKED.(calls := UNMARKED.calls[2 := Captured("a", false, Some(1), 2)]);
    more := Go(events, s, Capture(2), t);
    more := Go(more, t, Fetch(2, false),
        UNMARKED.(calls := UNMARKED.calls[2 := Fetched("a", false, Some(1), 2, Ok(Stored(2, V)))]));
  }

  lemma HeldFrom(events: seq<Event>, s: State) returns (more: seq<Event>)
    requires Reaches(events, s)
    requires s == UNMARKED.(calls := UNMARKED.calls[2 := Fetched("a", false, Some(1), 2, Ok(Stored(2, V)))])
    ensures Reaches(more, HELD)
  {
    var t := UNMARKED.(
      refreshes := map["a" := 2], revision := 3,
      states := UNMARKED.states + [RefreshState(Stored(2, V), None, None, false, 0, false)],
      calls := UNMARKED.calls[2 := Holding("a", false, Stored(2, V), 2)]);
    more := Go(events, s, Check(2), t);
    more := JobStarts(more, t);
  }

  lemma JobStarts(events: seq<Event>, s: State) returns (more: seq<Event>)
    requires Reaches(events, s)
    requires s == UNMARKED.(
               refreshes := map["a" := 2], revision := 3,
               states := UNMARKED.states + [RefreshState(Stored(2, V), None, None, false, 0, false)],
               calls := UNMARKED.calls[2 := Holding("a", false, Stored(2, V), 2)])
    ensures Reaches(more, HELD)
  {
    more := Go(events, s, Decide(2, 0), HELD);
  }

  const FAILED := HELD.(
    states := UNMARKED.states + [RefreshState(Stored(2, V), None, None, false, MINUTE, false)],
    jobs := map[], log := HELD.log + [Called(2)] + [Ended(2)])

  lemma FailedIsReached() returns (events: seq<Event>)
    ensures Reaches(events, FAILED)
  {
    events := HeldIsReached();
    events := JobFails(events, HELD, 2, true);
    var s := Failing(HELD, 2, true);
    events := Go(events, s, JobEnd(2), FAILED);
  }

  /** Afterwards a call returns the account with the value that a refresh had marked as needing sign-in. */
  lemma LostMarkLetsTheValueBack() returns (events: seq<Event>)
    ensures Reaches(events, FAILED.(calls := FAILED.calls[2 := Returned("a", Ok(Stored(2, V)))]))
  {
    events := FailedIsReached();
    var s := FAILED.(calls := FAILED.calls[2 := Looking("a", true)]);
    events := Go(events, FAILED, Resume(2), s);
    var t := FAILED.(calls := FAILED.calls[2 := Captured("a", true, Some(2), 3)]);
    events := Go(events, s, Capture(2), t);
    events := ReadsAgain(events, t);
    events := ReturnFrom(events, FAILED.(calls := FAILED.calls[2 := Fetched("a", true, Some(2), 3, Ok(Stored(2, V)))]));
  }

  lemma ReadsAgain(events: seq<Event>, s: State) returns (more: seq<Event>)
    requires Reaches(events, s) && s == FAILED.(calls := FAILED.calls[2 := Captured("a", true, Some(2), 3)])
    ensures Reaches(more, FAILED.(calls := FAILED.calls[2 := Fetched("a", true, Some(2), 3, Ok(Stored(2, V)))]))
  {
    NotBlank();
    more := Go(events, s, Fetch(2, false),
        FAILED.(calls := FAILED.calls[2 := Fetched("a", true, Some(2), 3, Ok(Stored(2, V)))]));
  }

  lemma ReturnFrom(events: seq<Event>, s: State) returns (more: seq<Event>)
    requires Reaches(events, s) &&
        s == FAILED.(calls := FAILED.calls[2 := Fetched("a", true, Some(2), 3, Ok(Stored(2, V)))])
    ensures Reaches(more, FAILED.(calls := FAILED.calls[2 := Returned("a", Ok(Stored(2, V)))]))
  {
    var t := FAILED.(calls := FAILED.calls[2 := Holding("a", true, Stored(2, V), 2)]);
    more := Go(events, s, Check(2), t);
    more := DecideTo(more, t);
  }

  lemma DecideTo(events: seq<Event>, s: State) returns (more: seq<Event>)
    requires Reaches(events, s) && s == FAILED.(calls := FAILED.calls[2 := Holding("a", true, Stored(2, V), 2)])
    ensures Reaches(more, FAILED.(calls := FAILED.calls[2 := Returned("a", Ok(Stored(2, V)))]))
  {
    more := Go(events, s, Decide(2, 0), FAILED.(calls := FAILED.calls[2 := Returned("a", Ok(Stored(2, V)))]));
  }
}
