/**
 A run in which a call returns an account while the provider's new tokens for it are not yet saved: the two
 conditions that CredentialRefresh.ReturnedAccountIsCurrent puts on such a return can occur.
 */
module LateRotation {
  import opened Common
  import opened CredentialRefresh
  import opened LostSignIn
  import DB = AccountStore

  /** Job 0 failed for a moment; a retry is barred for a minute. */
  const BARRED := STARTED.(
    states := [FRESH.(retryAt := MINUTE)], jobs := map[], log := [Started(0), Called(0), Ended(0)])

  lemma BarredIsReached() returns (events: seq<Event>)
    ensures Reaches(events, BARRED)
  {
    events := StartedIsReached();
    events := JobFails(events, STARTED, 0, true);
    var s := Failing(STARTED, 0, true);
    events := Go(events, s, JobEnd(0), BARRED);
  }

  function Again(call: Call): State {
    BARRED.(calls := map[0 := call])
  }

  /** Call 0, which waited for job 0, has read and checked the row again. */
  lemma WaiterHolds() returns (events: seq<Event>)
    ensures Reaches(events, Again(Holding("a", true, Stored(0, V), 0)))
  {
    events := BarredIsReached();
    events := Go(events, BARRED, Resume(0), Again(Looking("a", true)));
    events := Go(events, Again(Looking("a", true)), Capture(0), Again(Captured("a", true, Some(0), 1)));
    events := WaiterReads(events);
  }

  lemma WaiterReads(events: seq<Event>) returns (more: seq<Event>)
    requires Reaches(events, Again(Captured("a", true, Some(0), 1)))
    ensures Reaches(more, Again(Holding("a", true, Stored(0, V), 0)))
  {
    NotBlank();
    var s := Again(Fetched("a", true, Some(0), 1, Ok(Stored(0, V))));
    more := Go(events, Again(Captured("a", true, Some(0), 1)), Fetch(0, false), s);
    more := Go(more, s, Check(0), Again(Holding("a", true, Stored(0, V), 0)));
  }

  /** A minute later, with call 1 on its way. */
  function Later(call: Call): State {
    BARRED.(clock := MINUTE, calls := map[0 := Holding("a", true, Stored(0, V), 0), 1 := call])
  }

  lemma SecondCallReads() returns (events: seq<Event>)
    ensures Reaches(events, Later(Captured("a", false, Some(0), 1)))
  {
    events := WaiterHolds();
    var s := Again(Holding("a", true, Stored(0, V), 0));
    var t := s.(clock := MINUTE);
    events := Go(events, s, Tick(MINUTE), t);
    events := Go(events, t, Begin(1, "a"), Later(Looking("a", false)));
    events := Go(events, Later(Looking("a", false)), Capture(1), Later(Captured("a", false, Some(0), 1)));
  }

  lemma SecondCallHolds() returns (events: seq<Event>)
    ensures Reaches(events, Later(Holding("a", false, Stored(0, V), 0)))
  {
    events := SecondCallReads();
    events := SecondFetch(events);
    var s := Later(Fetched("a", false, Some(0), 1, Ok(Stored(0, V))));
    events := Go(events, s, Check(1), Later(Holding("a", false, Stored(0, V), 0)));
  }

  lemma SecondFetch(events: seq<Event>) returns (more: seq<Event>)
    requires Reaches(events, Later(Captured("a", false, Some(0), 1)))
    ensures Reaches(more, Later(Fetched("a", false, Some(0), 1, Ok(Stored(0, V)))))
  {
    NotBlank();
    var s := Later(Fetched("a", false, Some(0), 1, Ok(Stored(0, V))));
    more := Go(events, Later(Captured("a", false, Some(0), 1)), Fetch(1, false), s);
  }

  /** Call 1 has started job 1 of the same state. */
  const RETRYING := Later(Waiting("a", 0, 1)).(
    states := [FRESH.(retryAt := MINUTE, done := Some(1))], jobs := map[0 := Starting], nextJob := 2,
    log := [Started(0), Called(0), Ended(0), Started(0)])

  /** And the provider has answered it with new tokens. */
  const ROTATED := RETRYING.(
    jobs := map[0 := Ready(Ok(W))], log := [Started(0), Called(0), Ended(0), Started(0), Called(0)] + [Gave(0, W)])

  lemma RotatedIsReached() returns (events: seq<Event>)
    ensures Reaches(events, ROTATED)
  {
    events := SecondCallHolds();
    events := Go(events, Later(Holding("a", false, Stored(0, V), 0)), Decide(1, 0), RETRYING);
    events := JobCalls(events, RETRYING, 0);
    events := TokensArrive(events);
  }

  lemma TokensArrive(events: seq<Event>) returns (more: seq<Event>)
    requires Reaches(events, RETRYING.(jobs := map[0 := Calling], log := RETRYING.log + [Called(0)]))
    ensures Reaches(more, ROTATED)
  {
    var s := RETRYING.(jobs := map[0 := Calling], log := RETRYING.log + [Called(0)]);
    more := Go(events, s, JobReply(0, Tokens(W)), ROTATED);
  }

  /** Then call 0 returns the old row, although the new tokens are owed and their save is still to come. */
  lemma ReturnsBeforeTheSave() returns (events: seq<Event>)
    ensures Reaches(events, ROTATED) && Owed(ROTATED.log, 0) == Some(W)
    ensures Returns(ROTATED, Decide(0, 0), 0, Stored(0, V))
  {
    events := RotatedIsReached();
  }
}
