/**
 How a browser login ends: the report of its write in every interleaving, the course of a login that
 nobody disturbs, and exactly when a login is claimed, canceled, expired or given up.
 */
module LoginOutcomes {
  import opened Common
  import opened BrowserLogin
  import DB = AccountStore

  // ----- The report in every run -----

  predicate Reported(f: Finish) {
    f.Releasing? || f.Clearing? || f.Finished?
  }

  predicate Wrote(s: State, ref: Ref) {
    WriteTried(ref, true) in s.history
  }

  predicate OutcomeOK(s: State, ref: Ref)
    requires ref < |s.logins|
  {
    var p := s.logins[ref];
    && (p.state.Expired? ==> p.finish.NotStarted?)
    && (p.finish.Written? ==> (p.finish.ok <==> Wrote(s, ref)))
    && (p.state.Succeeded? ==> Reported(p.finish) && Wrote(s, ref))
    && (p.state.Failed? ==> Reported(p.finish) && !Wrote(s, ref))
    && (Reported(p.finish) ==> p.state.Succeeded? || p.state.Failed? || p.state.Canceled?)
  }

  ghost predicate OutcomesOK(s: State) {
    forall ref :: 0 <= ref < |s.logins| ==> OutcomeOK(s, ref)
  }

  /** A step that changes only login `own` and adds only notes about it. */
  lemma OneOutcome(s: State, t: State, own: Ref)
    requires OutcomesOK(s) && own < |s.logins| == |t.logins| && OutcomeOK(t, own)
    requires forall r :: 0 <= r < |s.logins| && r != own ==> s.logins[r] == t.logins[r]
    requires forall n: Note :: n.ref != own ==> s.history[n] == t.history[n]
    ensures OutcomesOK(t)
  {
    forall r | 0 <= r < |t.logins| ensures OutcomeOK(t, r) {
      assert OutcomeOK(s, r);
      assert s.history[WriteTried(r, true)] == t.history[WriteTried(r, true)] || r == own;
    }
  }

  lemma SameOutcomes(s: State, t: State)
    requires OutcomesOK(s) && t.logins == s.logins && t.history == s.history
    ensures OutcomesOK(t)
  {
    forall r | 0 <= r < |t.logins| ensures OutcomeOK(t, r) {
      assert OutcomeOK(s, r);
    }
  }

  lemma ExpireOutcomes(s: State)
    requires Inv(s) && OutcomesOK(s)
    ensures Inv(Expire(s)) && OutcomesOK(Expire(s))
  {
    ExpireInv(s);
    if Expire(s) != s {
      assert LoginOK(s, s.current.value) && OutcomeOK(s, s.current.value);
      OneOutcome(s, Expire(s), s.current.value);
    }
  }

  lemma FinishOutcome(s: State, e: Event, ref: Ref)
    requires ref < |s.logins| && LoginOK(s, ref) && OutcomeOK(s, ref)
    ensures OutcomeOK(FinishStep(s, e, ref), ref)
  {
  }

  lemma FinishOutcomes(s: State, e: Event, ref: Ref)
    requires Inv(s) && OutcomesOK(s) && ref < |s.logins|
    ensures OutcomesOK(FinishStep(s, e, ref))
  {
    assert LoginOK(s, ref) && OutcomeOK(s, ref);
    FinishOutcome(s, e, ref);
    FinishTouches(s, e, ref);
    OneOutcome(s, FinishStep(s, e, ref), ref);
  }

  lemma FinishTouches(s: State, e: Event, ref: Ref)
    requires ref < |s.logins|
    ensures
      var t := FinishStep(s, e, ref);
      && |t.logins| == |s.logins| && (forall r :: 0 <= r < |s.logins| && r != ref ==> s.logins[r] == t.logins[r])
      && (forall n: Note :: n.ref != ref ==> s.history[n] == t.history[n])
  {
  }

  lemma CancelOutcomes(s: State, e: Event, c: CancelID, call: CancelCall)
    requires Inv(s) && OutcomesOK(s) && !call.Over? && call.ref < |s.logins|
    ensures OutcomesOK(CancelStep(s, e, c, call))
  {
    match e
    case CancelAcquire(_) => if call.Acquiring? { TokenOutcomes(s, CancelAcquireStep(s, c, call.ref), call.ref); }
    case CancelApply(_, ctxDone) => if call.Holding? { CancelApplyOutcomes(s, c, call.ref, ctxDone); }
    case CancelRelease(_) => if call.LettingGo? { TokenOutcomes(s, CancelReleaseStep(s, c, call.ref), call.ref); }
    case CancelGiveUp(_) => SameOutcomes(s, CancelStep(s, e, c, call));
    case _ =>
  }

  lemma TokenOutcomes(s: State, t: State, ref: Ref)
    requires OutcomesOK(s) && ref < |s.logins| == |t.logins| && t.history == s.history
    requires t.logins == s.logins[ref := s.logins[ref].(token := t.logins[ref].token)]
    ensures OutcomesOK(t)
  {
    assert OutcomeOK(s, ref);
    OneOutcome(s, t, ref);
  }

  lemma CancelApplyOutcomes(s: State, c: CancelID, ref: Ref, ctxDone: bool)
    requires Inv(s) && OutcomesOK(s) && ref < |s.logins|
    ensures OutcomesOK(CancelApplyStep(s, c, ref, ctxDone))
  {
    ExpireOutcomes(s);
    var x := if ctxDone || s.current != Some(ref) then s else Expire(s);
    assert LoginOK(x, ref) && OutcomeOK(x, ref);
    OneOutcome(x, CancelApplyStep(s, c, ref, ctxDone), ref);
  }

  lemma StartOutcomes(s: State, e: Event)
    requires Inv(s) && OutcomesOK(s) && e.Start?
    ensures OutcomesOK(StartStep(s, e))
  {
    ExpireOutcomes(s);
    var x, t := Expire(s), StartStep(s, e);
    forall r | 0 <= r < |t.logins| ensures OutcomeOK(t, r) {
      if r < |x.logins| {
        assert OutcomeOK(x, r) && OutcomeOK(s, r);
      }
    }
  }

  lemma CallbackOutcomes(s: State, secret: string, denied: bool)
    requires Inv(s) && OutcomesOK(s)
    ensures OutcomesOK(CallbackStep(s, secret, denied))
  {
    ExpireOutcomes(s);
    var x, t := Expire(s), CallbackStep(s, secret, denied);
    if t != x {
      assert LoginOK(x, x.current.value) && OutcomeOK(x, x.current.value);
      OneOutcome(x, t, x.current.value);
    }
  }

  lemma GoneOutcomes(s: State, t: State)
    requires Inv(s) && OutcomesOK(s)
    requires t == StopCleanupStep(s) || exists id :: t == AccountGoneStep(s, id)
    ensures OutcomesOK(t)
  {
    if t != s {
      assert LoginOK(s, s.current.value) && OutcomeOK(s, s.current.value);
      OneOutcome(s, t, s.current.value);
    }
  }

  lemma OutcomeStep(s: State, e: Event)
    requires Inv(s) && OutcomesOK(s)
    ensures OutcomesOK(Apply(s, e))
  {
    if IsFinish(e) {
      if e.ref < |s.logins| { FinishOutcomes(s, e, e.ref); }
    } else if IsCancel(e) {
      if e.cancel in s.cancels && !s.cancels[e.cancel].Over? && s.cancels[e.cancel].ref < |s.logins| {
        CancelOutcomes(s, e, e.cancel, s.cancels[e.cancel]);
      }
    } else {
      match e
      case Start(_, _, _, _, _) => StartOutcomes(s, e);
      case ReadStatus => ExpireOutcomes(s);
      case Callback(secret, denied) => CallbackOutcomes(s, secret, denied);
      case CancelBegin(c, loginID) =>
        if c !in s.cancels {
          ExpireOutcomes(s);
          SameOutcomes(Expire(s), Apply(s, e));
        }
      case AccountGone(id) => GoneOutcomes(s, AccountGoneStep(s, id));
      case StopCleanup => GoneOutcomes(s, StopCleanupStep(s));
      case _ => SameOutcomes(s, Apply(s, e));
    }
  }

  lemma {:induction false} OutcomesRun(events: seq<Event>)
    ensures OutcomesOK(Run(events))
  {
    if events != [] {
      OutcomesRun(events[..|events| - 1]);
      InvRun(events[..|events| - 1]);
      OutcomeStep(Run(events[..|events| - 1]), events[|events| - 1]);
    }
  }

  /**
   In every interleaving a login past its report that was not canceled has succeeded exactly if its store write
   was applied and answered, and has failed exactly otherwise; before its report it has done neither.
   */
  lemma OutcomeIsTheWrite(events: seq<Event>, ref: Ref)
    requires ref < |Run(events).logins|
    ensures
      var s := Run(events);
      var p := s.logins[ref];
      && (p.state.Succeeded? <==> Reported(p.finish) && Wrote(s, ref) && !p.state.Canceled?)
      && (p.state.Failed? <==> Reported(p.finish) && !Wrote(s, ref) && !p.state.Canceled?)
  {
    OutcomesRun(events);
    assert OutcomeOK(Run(events), ref);
  }

  // ----- A login that nobody disturbs -----

  predicate Open(s: State) {
    !s.closed && (s.current.None? || s.current.value >= |s.logins| || !Pending(s.logins[s.current.value].state))
  }

  /** A login is started and called back with its secret. */
  function StartedAndClaimed(s: State, start: Event, denied: bool): State
    requires start.Start?
  {
    Apply(Apply(s, start), Callback(start.secret, denied))
  }

  lemma StartStarts(s: State, start: Event)
    requires start.Start? && Open(Expire(s))
    ensures Apply(s, start) == Expire(s).(current := Some(|s.logins|), logins := Expire(s).logins +
                [Login(start.loginID, Some(start.secret), start.id, start.name, start.previous, Waiting,
                       s.clock + LOGIN_LIFETIME, false, None, NotStarted)])
  {
  }

  lemma CallbackClaims(s: State, secret: string, denied: bool, ref: Ref)
    requires !s.closed && s.current == Some(ref) && ref < |s.logins|
    requires s.logins[ref].state.Waiting? && s.clock < s.logins[ref].expiresAt
    requires s.logins[ref].authorization == Some(secret)
    ensures
      var t := Apply(s, Callback(secret, denied));
      && t == s.(logins := t.logins, history := t.history)
      && t.logins == s.logins[ref := s.logins[ref].(authorization := None, state := Exchanging,
             finish := if denied then WantsCommit(None) else Exchange)]
  {
    assert Expire(s) == s;
  }

  /** From an open manager without a pending login, a start and a callback with its secret claim a new login. */
  lemma StartIsClaimed(s: State, start: Event, denied: bool)
    requires start.Start? && Open(Expire(s))
    ensures
      var t := StartedAndClaimed(s, start, denied);
      var ref := |s.logins|;
      && |t.logins| == ref + 1 && t.current == Some(ref) && t.store == s.store
      && t.logins[ref] == Login(start.loginID, None, start.id, start.name, start.previous, Exchanging,
             s.clock + LOGIN_LIFETIME, false, None, if denied then WantsCommit(None) else Exchange)
  {
    StartStarts(s, start);
    CallbackClaims(Apply(s, start), start.secret, denied, |s.logins|);
  }

  /** What `finishLogin` has to save: nothing after a denial, a failed exchange or a timeout. */
  function ToSave(p: Login, exchanged: Option<DB.Credentials>, timedOut: bool): Option<DB.Credentials> {
    if timedOut || p.ctxDone then None else if p.finish.Exchange? then exchanged else None
  }

  predicate JustClaimed(s: State, ref: Ref) {
    && ref < |s.logins| && s.current == Some(ref) && s.logins[ref].state.Exchanging? && s.logins[ref].token.None?
    && (s.logins[ref].finish.Exchange? || s.logins[ref].finish == WantsCommit(None))
  }

  /** finishLogin up to its write. */
  function CheckedActive(s: State, ref: Ref, exchanged: Option<DB.Credentials>, timedOut: bool): State {
    Apply(Apply(Apply(s, FinishExchange(ref, exchanged)), FinishAcquire(ref, timedOut)), FinishCheck(ref))
  }

  /** finishLogin from its write on. */
  function WrittenAndLeft(s: State, ref: Ref, fault: DB.Fault): State {
    Apply(Apply(Apply(Apply(s, FinishWrite(ref, fault)), FinishEnd(ref)), FinishRelease(ref)), FinishClear(ref))
  }

  lemma Exchanges(s: State, ref: Ref, exchanged: Option<DB.Credentials>)
    requires JustClaimed(s, ref)
    ensures Apply(s, FinishExchange(ref, exchanged)) == Put(s, ref, s.logins[ref].(finish :=
                WantsCommit(if s.logins[ref].finish.Exchange? then exchanged else None)))
  {
  }

  lemma TakesToken(s: State, ref: Ref, timedOut: bool)
    requires ref < |s.logins| && s.logins[ref].token.None? && s.logins[ref].finish.WantsCommit?
    ensures
      var p := s.logins[ref];
      var kept := if timedOut || p.ctxDone then None else p.finish.credentials;
      Apply(s, FinishAcquire(ref, timedOut)) == Put(s, ref, p.(token := Some(Finisher), finish := HasCommit(kept)))
  {
  }

  lemma CourseToWrite(s: State, ref: Ref, exchanged: Option<DB.Credentials>, timedOut: bool)
    requires JustClaimed(s, ref)
    ensures
      CheckedActive(s, ref, exchanged, timedOut) ==
      Put(s, ref, s.logins[ref].(token := Some(Finisher),
                                 finish := Active(ToSave(s.logins[ref], exchanged, timedOut))))
  {
    Exchanges(s, ref, exchanged);
    TakesToken(Apply(s, FinishExchange(ref, exchanged)), ref, timedOut);
  }

  /** What the store makes of the login's write. */
  function SavedAs(s: State, p: Login, fault: DB.Fault): (DB.State, Result<(), DB.Error>)
    requires p.finish.Active?
  {
    if p.finish.credentials.None? then (s.store, Err(DB.Invalid))
    else DB.Perform(s.store, WriteOp(p, p.finish.credentials.value, fault))
  }

  lemma Writes(s: State, ref: Ref, fault: DB.Fault)
    requires ref < |s.logins| && s.logins[ref].finish.Active?
    ensures
      var p, t := s.logins[ref], Apply(s, FinishWrite(ref, fault));
      && t == Put(s, ref, p.(finish := Written(SavedAs(s, p, fault).1.Ok?))).(
                  store := SavedAs(s, p, fault).0, history := t.history)
  {
  }

  lemma WritesAndReports(s: State, ref: Ref, fault: DB.Fault)
    requires ref < |s.logins| && s.logins[ref].state.Exchanging? && s.logins[ref].finish.Active?
    ensures
      var p := s.logins[ref];
      var t := Apply(Apply(s, FinishWrite(ref, fault)), FinishEnd(ref));
      && t == Put(s, ref, t.logins[ref]).(store := SavedAs(s, p, fault).0, history := t.history)
      && t.logins[ref] == p.(state := if SavedAs(s, p, fault).1.Ok? then Succeeded else Failed, finish := Releasing)
  {
    Writes(s, ref, fault);
  }

  lemma Leaves(s: State, ref: Ref)
    requires ref < |s.logins| && s.logins[ref].finish.Releasing?
    ensures Apply(Apply(s, FinishRelease(ref)), FinishClear(ref)) ==
            Put(s, ref, ClearSensitive(s.logins[ref]).(ctxDone := true, token := None, finish := Finished))
  {
  }

  lemma CourseFromWrite(s: State, ref: Ref, fault: DB.Fault)
    requires ref < |s.logins| && s.logins[ref].state.Exchanging? && s.logins[ref].finish.Active?
    ensures
      var p := s.logins[ref];
      var t := WrittenAndLeft(s, ref, fault);
      && t.store == SavedAs(s, p, fault).0 && t.current == s.current && |t.logins| == |s.logins|
      && t.logins[ref] == ClearSensitive(p).(state := if SavedAs(s, p, fault).1.Ok? then Succeeded else Failed,
             ctxDone := true, token := None, finish := Finished)
  {
    WritesAndReports(s, ref, fault);
    Leaves(Apply(Apply(s, FinishWrite(ref, fault)), FinishEnd(ref)), ref);
  }

  /**
   A login that nobody cancels ends as its provider and the store say. From any open manager without a pending
   login: started, called back with its secret, exchanged and saved, it succeeds exactly if the exchange gave
   credentials in time and the store wrote them; a new login creates the account, a reconnection replaces the
   credentials of the record it started with, and nothing secret is left in it.
   */
  lemma UndisturbedLogin(s: State, start: Event, denied: bool, exchanged: Option<DB.Credentials>, timedOut: bool,
      fault: DB.Fault)
    requires start.Start? && Open(Expire(s))
    ensures
      var ref := |s.logins|;
      var t := WrittenAndLeft(CheckedActive(StartedAndClaimed(s, start, denied), ref, exchanged, timedOut), ref, fault);
      var write := match start.previous
        case None => (c: DB.Credentials) => DB.Create(start.id, start.name, c, true, fault)
        case Some(record) => (c: DB.Credentials) => DB.Replace(record, c, fault);
      var saved := if denied || timedOut || exchanged.None? then (s.store, Err(DB.Invalid))
          else DB.Perform(s.store, write(exchanged.value));
      && t.store == saved.0 && t.current == Some(ref) && |t.logins| == ref + 1
      && t.logins[ref].state == (if saved.1.Ok? then Succeeded else Failed)
      && t.logins[ref].authorization.None? && t.logins[ref].previous.None?
  {
    StartIsClaimed(s, start, denied);
    var claimed := StartedAndClaimed(s, start, denied);
    CourseToWrite(claimed, |s.logins|, exchanged, timedOut);
    var p := claimed.logins[|s.logins|];
    CourseFromWrite(Put(claimed, |s.logins|, p.(token := Some(Finisher),
        finish := Active(ToSave(p, exchanged, timedOut)))), |s.logins|, fault);
  }

  // ----- Claims, cancellations, expiry -----

  predicate DueToExpire(s: State, ref: Ref)
    requires ref < |s.logins|
  {
    s.current == Some(ref) && s.logins[ref].state.Waiting? && s.clock >= s.logins[ref].expiresAt
  }

  lemma ExpireChanges(s: State, ref: Ref)
    requires ref < |s.logins|
    ensures
      var x := Expire(s);
      && |x.logins| == |s.logins| && x.history == s.history && x.current == s.current && x.closed == s.closed
      && x.logins[ref] == if DueToExpire(s, ref)
                          then ClearSensitive(s.logins[ref]).(state := Expired, ctxDone := true) else s.logins[ref]
  {
  }

  lemma ClaimsIff(s: State, secret: string, denied: bool, ref: Ref)
    requires s.current.Some? && s.current.value < |s.logins| && !DueToExpire(s, s.current.value)
    ensures
      CallbackStep(s, secret, denied).history[Claimed(ref)] > s.history[Claimed(ref)] <==>
        && !s.closed && s.current == Some(ref) && s.logins[ref].state.Waiting?
        && s.logins[ref].authorization == Some(secret)
  {
    assert Expire(s) == s;
  }

  /** A callback claims a login exactly if the manager is open and it waits, unexpired, for just this secret. */
  lemma ClaimedIff(events: seq<Event>, secret: string, denied: bool, ref: Ref)
    ensures
      var s, t := Run(events), Apply(Run(events), Callback(secret, denied));
      t.history[Claimed(ref)] > s.history[Claimed(ref)] <==>
        && !s.closed && s.current == Some(ref) && ref < |s.logins| && s.logins[ref].state.Waiting?
        && !DueToExpire(s, ref) && s.logins[ref].authorization == Some(secret)
  {
    InvRun(events);
    var s := Run(events);
    if s.current.Some? {
      ExpireChanges(s, s.current.value);
      ClaimsIff(Expire(s), secret, denied, ref);
    }
  }

  lemma CancelsIff(s: State, c: CancelID, ctxDone: bool, ref: Ref)
    requires ref < |s.logins| && (Pending(s.logins[ref].state) ==> s.current == Some(ref))
    ensures
      var t := CancelApplyStep(s, c, ref, ctxDone);
      && |t.logins| == |s.logins|
      && if !ctxDone && Pending(s.logins[ref].state) && !DueToExpire(s, ref)
         then
           && t.logins[ref] == ClearSensitive(s.logins[ref]).(state := Canceled, ctxDone := true)
           && t.history == s.history + multiset{CancelMoved(ref)}
         else (t.logins[ref] == s.logins[ref] || t.logins[ref].state.Expired?) && t.history == s.history
  {
    ExpireChanges(s, ref);
  }

  /** `CancelLogin` under the token cancels exactly the current login that still waits or exchanges in time. */
  lemma CanceledIff(events: seq<Event>, c: CancelID, ctxDone: bool, ref: Ref)
    requires Lookup(Run(events).cancels, c) == Some(Holding(ref))
    ensures
      var s, t := Run(events), Apply(Run(events), CancelApply(c, ctxDone));
      && ref < |s.logins| == |t.logins|
      && (t.logins[ref].state.Canceled? && !s.logins[ref].state.Canceled? <==>
          !ctxDone && Pending(s.logins[ref].state) && !DueToExpire(s, ref))
      && (t.history[CancelMoved(ref)] > s.history[CancelMoved(ref)] <==>
          t.logins[ref].state.Canceled? && !s.logins[ref].state.Canceled?)
      && (t.logins[ref].state.Canceled? && !s.logins[ref].state.Canceled? ==>
          t.logins[ref].authorization.None? && t.logins[ref].previous.None? && t.logins[ref].ctxDone)
  {
    InvRun(events);
    var s := Run(events);
    assert s.cancels[c].Holding?;
    assert LoginOK(s, ref);
    ExpireChanges(s, ref);
    CancelsIff(s, c, ctxDone, ref);
  }

  /**
   `CancelLogin` refuses exactly an ID that is not the current login's, is done at once with a login that has ended or
   is past its time, and waits for the token of any other.
   */
  lemma CancelFindsItsLogin(events: seq<Event>, c: CancelID, loginID: string)
    requires c !in Run(events).cancels
    ensures
      var s, t := Run(events), Apply(Run(events), CancelBegin(c, loginID));
      Lookup(t.cancels, c) == Some(
        match s.current {
          case None => Over(true)
          case Some(ref) =>
            if ref >= |s.logins| || s.logins[ref].loginID != loginID then Over(true)
            else if Pending(s.logins[ref].state) && !DueToExpire(s, ref) then Acquiring(ref)
            else Over(false)
        })
  {
    var s := Run(events);
    if s.current.Some? && s.current.value < |s.logins| {
      ExpireChanges(s, s.current.value);
    }
  }

  /** A look at the login's status finds it expired exactly if it was, or waited past its time; no secret is left. */
  lemma ExpiredIff(events: seq<Event>, ref: Ref)
    requires ref < |Run(events).logins|
    ensures
      var s, t := Run(events), Apply(Run(events), ReadStatus);
      && ref < |t.logins|
      && (t.logins[ref].state.Expired? <==> s.logins[ref].state.Expired? || DueToExpire(s, ref))
      && (!DueToExpire(s, ref) ==> t.logins[ref] == s.logins[ref])
      && (t.logins[ref].state.Expired? ==> t.logins[ref].authorization.None?)
  {
    InvRun(events);
    assert LoginOK(Run(events), ref);
  }

  /** A completed disable or deletion of an account leaves no login pending that reconnects it, and no other changed. */
  lemma AccountGoneCancels(events: seq<Event>, id: ID, ref: Ref)
    requires ref < |Run(events).logins|
    ensures
      var s, t := Run(events), Apply(Run(events), AccountGone(id));
      var p := s.logins[ref];
      && ref < |t.logins|
      && if Pending(p.state) && p.previous.Some? && p.previous.value.id == id
         then t.logins[ref].state.Canceled? && t.logins[ref].authorization.None? && t.logins[ref].ctxDone
         else t.logins[ref].state == p.state
  {
    InvRun(events);
    assert LoginOK(Run(events), ref);
  }

  /** Once a stopped manager has joined its jobs, cleaning up leaves no login pending and no secret in the last one. */
  lemma CleanupEndsTheLogin(events: seq<Event>, ref: Ref)
    requires Run(events).closed && Joined(Run(events)) && ref < |Run(events).logins|
    ensures
      var t := Apply(Run(events), StopCleanup);
      && ref < |t.logins| && !Pending(t.logins[ref].state) && t.logins[ref].authorization.None?
      && (t.current == Some(ref) ==> t.logins[ref].previous.None?)
  {
    InvRun(events);
    assert LoginOK(Run(events), ref);
  }

  lemma StoppedStep(s: State, e: Event)
    ensures Apply(s, e).closed == (s.closed || e.Stop?)
  {
  }

  lemma LastOrBefore(events: seq<Event>)
    requires events != []
    ensures Stop in events <==> Stop in events[..|events| - 1] || events[|events| - 1].Stop?
  {
    assert events == events[..|events| - 1] + [events[|events| - 1]];
  }

  /** The manager is closed exactly if it was stopped. */
  lemma {:induction false} ClosedIffStopped(events: seq<Event>)
    ensures Run(events).closed <==> Stop in events
  {
    if events != [] {
      var n := |events| - 1;
      ClosedIffStopped(events[..n]);
      StoppedStep(Run(events[..n]), events[n]);
      LastOrBefore(events);
    }
  }

  /** A cancellation that is through lets the token go, and changes nothing else of its login. */
  lemma CancelLetsGo(events: seq<Event>, c: CancelID, ref: Ref)
    requires Lookup(Run(events).cancels, c) == Some(LettingGo(ref))
    ensures
      var s, t := Run(events), Apply(Run(events), CancelRelease(c));
      && ref < |s.logins| && s.logins[ref].token == Some(Canceler(c))
      && t.logins == s.logins[ref := s.logins[ref].(token := None)] && Lookup(t.cancels, c) == Some(Over(false))
  {
    InvRun(events);
  }
}
