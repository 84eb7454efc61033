/**
 The single browser login of the OAuth manager as a step system. A login's commit
 token serializes `CancelLogin` with the save in `finishLogin`; each step is one
 region under the manager's lock, one token transfer, one store statement or one
 provider exchange. Steps that do not apply leave the state unchanged.
 */
module BrowserLogin {
  import opened Common
  import DB = AccountStore

  type ID = DB.ID
  /** A pointer to a pending login: an index into `State.logins`. */
  type Ref = nat
  type CancelID = nat

  /** Seconds. */
  const LOGIN_LIFETIME := 600

  datatype LoginState = Waiting | Exchanging | Succeeded | Failed | Canceled | Expired

  datatype Holder = Finisher | Canceler(cancel: CancelID)

  /** Where `finishLogin` stands for one login. */
  datatype Finish =
    | NotStarted
    | Exchange
    | WantsCommit(credentials: Option<DB.Credentials>)
    | HasCommit(credentials: Option<DB.Credentials>)
    | Active(credentials: Option<DB.Credentials>)
    | Written(ok: bool)
    | Releasing
    | Clearing
    | Finished

  datatype Login = Login(
    loginID: string, authorization: Option<string>, id: ID, name: string, previous: Option<DB.Record>,
    state: LoginState, expiresAt: nat, ctxDone: bool, token: Option<Holder>, finish: Finish)

  /** Where one `CancelLogin` call stands. */
  datatype CancelCall = Acquiring(ref: Ref) | Holding(ref: Ref) | LettingGo(ref: Ref) | Over(mismatch: bool)

  datatype Note =
    | Claimed(ref: Ref)
    | ExchangeStarted(ref: Ref)
    | WriteTried(ref: Ref, ok: bool)
    | CancelMoved(ref: Ref)

  /** `history` counts what happened; no step reads it. */
  datatype State = State(
    store: DB.State, current: Option<Ref>, logins: seq<Login>, closed: bool,
    cancels: map<CancelID, CancelCall>, clock: nat, history: multiset<Note>)

  const INITIAL := State(DB.State(map[], 0), None, [], false, map[], 0, multiset{})

  datatype Event =
    | Start(loginID: string, secret: string, id: ID, name: string, previous: Option<DB.Record>)
    | ReadStatus
    | Callback(secret: string, denied: bool)
    | FinishExchange(ref: Ref, credentials: Option<DB.Credentials>)
    | FinishAcquire(ref: Ref, timedOut: bool)
    | FinishCheck(ref: Ref)
    | FinishWrite(ref: Ref, fault: DB.Fault)
    | FinishEnd(ref: Ref)
    | FinishRelease(ref: Ref)
    | FinishClear(ref: Ref)
    | CancelBegin(cancel: CancelID, loginID: string)
    | CancelAcquire(cancel: CancelID)
    | CancelGiveUp(cancel: CancelID)
    | CancelApply(cancel: CancelID, ctxDone: bool)
    | CancelRelease(cancel: CancelID)
    | AccountGone(id: ID)
    | StoreWrite(op: DB.Op)
    | Stop
    | StopCleanup
    | Tick(seconds: nat)

  predicate Pending(state: LoginState) {
    state.Waiting? || state.Exchanging?
  }

  // ----- Steps -----

  function ClearSensitive(p: Login): Login {
    p.(authorization := None, previous := None, id := "", name := "")
  }

  function Put(s: State, ref: Ref, p: Login): State
    requires ref < |s.logins|
  {
    s.(logins := s.logins[ref := p])
  }

  /** expireLoginLocked */
  function Expire(s: State): State {
    if s.current.Some? && s.current.value < |s.logins| then
      var p := s.logins[s.current.value];
      if p.state.Waiting? && s.clock >= p.expiresAt
      then Put(s, s.current.value, ClearSensitive(p).(state := Expired, ctxDone := true)) else s
    else s
  }

  function StartStep(s: State, e: Event): State
    requires e.Start?
  {
    if s.closed then s
    else
      var s := Expire(s);
      if s.current.Some? && s.current.value < |s.logins| && Pending(s.logins[s.current.value].state) then s
      else
        s.(current := Some(|s.logins|),
           logins := s.logins + [Login(e.loginID, Some(e.secret), e.id, e.name, e.previous, Waiting,
                                       s.clock + LOGIN_LIFETIME, false, None, NotStarted)])
  }

  function CallbackStep(s: State, secret: string, denied: bool): State {
    var s := Expire(s);
    if s.closed || s.current.None? || s.current.value >= |s.logins| then s
    else
      var ref := s.current.value;
      var p := s.logins[ref];
      if !p.state.Waiting? || p.authorization != Some(secret) then s
      else
        var finish := if denied then WantsCommit(None) else Exchange;
        Put(s, ref, p.(authorization := None, state := Exchanging, finish := finish)).(
          history := s.history + multiset{Claimed(ref)} + if denied then multiset{} else multiset{ExchangeStarted(ref)})
  }

  function WriteOp(p: Login, credentials: DB.Credentials, fault: DB.Fault): DB.Op {
    match p.previous
    case None => DB.Create(p.id, p.name, credentials, true, fault)
    case Some(previous) => DB.Replace(previous, credentials, fault)
  }

  function FinishStep(s: State, e: Event, ref: Ref): State
    requires ref < |s.logins|
  {
    var p := s.logins[ref];
    match e
    case FinishExchange(_, credentials) =>
        if p.finish.Exchange? then Put(s, ref, p.(finish := WantsCommit(credentials))) else s
    case FinishAcquire(_, timedOut) =>
      if p.finish.WantsCommit? && p.token.None? then
        var kept := if timedOut || p.ctxDone then None else p.finish.credentials;
        Put(s, ref, p.(token := Some(Finisher), finish := HasCommit(kept)))
      else s
    case FinishCheck(_) =>
      if p.finish.HasCommit? then
        var active := s.current == Some(ref) && p.state.Exchanging?;
        Put(s, ref, p.(finish := if active then Active(p.finish.credentials) else Releasing))
      else s
    case FinishWrite(_, fault) =>
      if !p.finish.Active? then s
      else if p.finish.credentials.None? then Put(s, ref, p.(finish := Written(false)))
      else
        var (store, r) := DB.Perform(s.store, WriteOp(p, p.finish.credentials.value, fault));
        Put(s, ref, p.(finish := Written(r.Ok?))).(
          store := store, history := s.history + multiset{WriteTried(ref, r.Ok?)})
    case FinishEnd(_) =>
      if p.finish.Written? then
        var state := if !p.state.Exchanging? then p.state else if p.finish.ok then Succeeded else Failed;
        Put(s, ref, p.(state := state, finish := Releasing))
      else s
    case FinishRelease(_) => if p.finish.Releasing? then Put(s, ref, p.(token := None, finish := Clearing)) else s
    case FinishClear(_) =>
        if p.finish.Clearing? then Put(s, ref, ClearSensitive(p).(ctxDone := true, finish := Finished)) else s
    case _ => s
  }

  function CancelBeginStep(s: State, c: CancelID, loginID: string): State {
    var s := Expire(s);
    if s.current.None? || s.current.value >= |s.logins| || s.logins[s.current.value].loginID != loginID
    then s.(cancels := s.cancels[c := Over(true)])
    else if !Pending(s.logins[s.current.value].state) then s.(cancels := s.cancels[c := Over(false)])
    else s.(cancels := s.cancels[c := Acquiring(s.current.value)])
  }

  function CancelAcquireStep(s: State, c: CancelID, ref: Ref): State
    requires ref < |s.logins|
  {
    if s.logins[ref].token.None?
    then Put(s, ref, s.logins[ref].(token := Some(Canceler(c)))).(cancels := s.cancels[c := Holding(ref)]) else s
  }

  /** The region of `CancelLogin` under both the token and the lock. */
  function CancelApplyStep(s: State, c: CancelID, ref: Ref, ctxDone: bool): State
    requires ref < |s.logins|
  {
    if ctxDone || s.current != Some(ref) then s.(cancels := s.cancels[c := LettingGo(ref)])
    else
      var s := Expire(s);
      var p := s.logins[ref];
      var s' := s.(cancels := s.cancels[c := LettingGo(ref)]);
      if Pending(p.state)
      then
        Put(s', ref, ClearSensitive(p).(state := Canceled, ctxDone := true)).(
          history := s.history + multiset{CancelMoved(ref)})
      else s'
  }

  function CancelReleaseStep(s: State, c: CancelID, ref: Ref): State
    requires ref < |s.logins|
  {
    Put(s, ref, s.logins[ref].(token := None)).(cancels := s.cancels[c := Over(false)])
  }

  function CancelStep(s: State, e: Event, c: CancelID, call: CancelCall): State
    requires !call.Over? && call.ref < |s.logins|
  {
    match e
    case CancelAcquire(_) => if call.Acquiring? then CancelAcquireStep(s, c, call.ref) else s
    case CancelGiveUp(_) => if call.Acquiring? then s.(cancels := s.cancels[c := Over(false)]) else s
    case CancelApply(_, ctxDone) => if call.Holding? then CancelApplyStep(s, c, call.ref, ctxDone) else s
    case CancelRelease(_) => if call.LettingGo? then CancelReleaseStep(s, c, call.ref) else s
    case _ => s
  }

  /** invalidate, after a stored disable or deletion of account `id`. */
  function AccountGoneStep(s: State, id: ID): State {
    if s.current.Some? && s.current.value < |s.logins| then
      var p := s.logins[s.current.value];
      if p.previous.Some? && p.previous.value.id == id then
        var p := p.(ctxDone := true);
        Put(s, s.current.value, if Pending(p.state) then p.(state := Canceled, authorization := None) else p)
      else s
    else s
  }

  predicate Joined(s: State) {
    forall ref :: 0 <= ref < |s.logins| ==> s.logins[ref].finish.NotStarted? || s.logins[ref].finish.Finished?
  }

  function StopCleanupStep(s: State): State {
    if s.closed && Joined(s) && s.current.Some? && s.current.value < |s.logins| then
      var p := ClearSensitive(s.logins[s.current.value]);
      Put(s, s.current.value, if Pending(p.state) then p.(state := Canceled) else p)
    else s
  }

  predicate IsFinish(e: Event) {
    e.FinishExchange? || e.FinishAcquire? || e.FinishCheck? || e.FinishWrite? || e.FinishEnd? || e.FinishRelease? ||
        e.FinishClear?
  }

  predicate IsCancel(e: Event) {
    e.CancelAcquire? || e.CancelGiveUp? || e.CancelApply? || e.CancelRelease?
  }

  function Apply(s: State, e: Event): State {
    if IsFinish(e) then (if e.ref < |s.logins| then FinishStep(s, e, e.ref) else s)
    else if IsCancel(e) then
      (if e.cancel in s.cancels && !s.cancels[e.cancel].Over? && s.cancels[e.cancel].ref < |s.logins|
       then CancelStep(s, e, e.cancel, s.cancels[e.cancel]) else s)
    else match e
      case Start(_, _, _, _, _) => StartStep(s, e)
      case ReadStatus => Expire(s)
      case Callback(secret, denied) => CallbackStep(s, secret, denied)
      case CancelBegin(c, loginID) => if c in s.cancels then s else CancelBeginStep(s, c, loginID)
      case AccountGone(id) => AccountGoneStep(s, id)
      case StoreWrite(op) => s.(store := DB.Apply(s.store, op))
      case Stop => s.(closed := true)
      case StopCleanup => StopCleanupStep(s)
      case Tick(seconds) => s.(clock := s.clock + seconds)
      case _ => s
  }

  function Run(events: seq<Event>): State {
    if events == [] then INITIAL else Apply(Run(events[..|events| - 1]), events[|events| - 1])
  }

  // ----- The invariant -----

  predicate HoldsToken(f: Finish) {
    f.HasCommit? || f.Active? || f.Written? || f.Releasing?
  }

  predicate Tried(history: multiset<Note>, ref: Ref) {
    WriteTried(ref, true) in history || WriteTried(ref, false) in history
  }

  predicate LoginOK(s: State, ref: Ref)
    requires ref < |s.logins|
  {
    var p := s.logins[ref];
    var h := s.history;
    && (Pending(p.state) ==> s.current == Some(ref))
    && (!p.state.Waiting? ==> p.authorization.None?)
    && (p.state.Waiting? ==> p.finish.NotStarted?)
    && (p.state.Exchanging? ==>
        p.finish.Exchange? || p.finish.WantsCommit? || p.finish.HasCommit? || p.finish.Active? || p.finish.Written?)
    && (p.token == Some(Finisher) <==> HoldsToken(p.finish))
    && h[Claimed(ref)] == (if p.finish.NotStarted? then 0 else 1)
    && h[ExchangeStarted(ref)] <= h[Claimed(ref)]
    && (Tried(h, ref) ==> p.finish.Written? || p.finish.Releasing? || p.finish.Clearing? || p.finish.Finished?)
    && h[WriteTried(ref, true)] + h[WriteTried(ref, false)] <= 1
    && (p.finish.Written? && p.finish.ok ==> WriteTried(ref, true) in h)
    && (p.state.Succeeded? ==> WriteTried(ref, true) in h)
    && (CancelMoved(ref) in h ==> p.state.Canceled? && !p.finish.Active? && !p.finish.Written? && !Tried(h, ref))
  }

  predicate HasToken(s: State, c: CancelID, ref: Ref) {
    ref < |s.logins| && s.logins[ref].token == Some(Canceler(c))
  }

  ghost predicate CancelsOK(s: State) {
    && (forall c :: c in s.cancels && !s.cancels[c].Over? ==> s.cancels[c].ref < |s.logins|)
    && (forall c :: c in s.cancels && (s.cancels[c].Holding? || s.cancels[c].LettingGo?) ==>
        HasToken(s, c, s.cancels[c].ref))
  }

  ghost predicate LoginsOK(s: State) {
    forall ref :: 0 <= ref < |s.logins| ==> LoginOK(s, ref)
  }

  ghost predicate HistoryOK(s: State) {
    forall n :: n in s.history ==> n.ref < |s.logins|
  }

  ghost predicate Inv(s: State) {
    LoginsOK(s) && CancelsOK(s) && HistoryOK(s) && (s.current.Some? ==> s.current.value < |s.logins|)
  }

  /** A step that changes only login `ref` and adds only notes about it. */
  lemma OneLogin(s: State, t: State, ref: Ref)
    requires LoginsOK(s) && ref < |s.logins| == |t.logins| && s.current == t.current
    requires forall r :: 0 <= r < |s.logins| && r != ref ==> s.logins[r] == t.logins[r]
    requires forall n: Note :: n.ref != ref ==> s.history[n] == t.history[n]
    requires LoginOK(t, ref)
    ensures LoginsOK(t)
  {
    forall r | 0 <= r < |t.logins| ensures LoginOK(t, r) {
      assert LoginOK(s, r);
    }
  }

  lemma ExpireInv(s: State)
    requires Inv(s)
    ensures Inv(Expire(s))
  {
    if Expire(s) != s {
      assert LoginOK(s, s.current.value);
      OneLogin(s, Expire(s), s.current.value);
    }
  }

  lemma StartInv(s: State, e: Event)
    requires Inv(s) && e.Start?
    ensures Inv(StartStep(s, e))
  {
    ExpireInv(s);
    var x, t := Expire(s), StartStep(s, e);
    if |t.logins| > |x.logins| {
      forall ref | 0 <= ref < |t.logins| ensures LoginOK(t, ref) {
        if ref < |x.logins| {
          assert LoginOK(x, ref);
        }
      }
    }
  }

  lemma CallbackInv(s: State, secret: string, denied: bool)
    requires Inv(s)
    ensures Inv(CallbackStep(s, secret, denied))
  {
    ExpireInv(s);
    var x, t := Expire(s), CallbackStep(s, secret, denied);
    if t != x {
      var ref := x.current.value;
      assert LoginOK(x, ref);
      OneLogin(x, t, ref);
    }
  }

  lemma FinishInv(s: State, e: Event, ref: Ref)
    requires Inv(s) && ref < |s.logins|
    ensures Inv(FinishStep(s, e, ref))
  {
    var t := FinishStep(s, e, ref);
    assert LoginOK(s, ref);
    FinishLoginOK(s, e, ref);
    OneLogin(s, t, ref);
    FinishKeepsTokens(s, e, ref);
  }

  lemma FinishLoginOK(s: State, e: Event, ref: Ref)
    requires ref < |s.logins| && LoginOK(s, ref)
    ensures LoginOK(FinishStep(s, e, ref), ref)
  {
  }

  lemma FinishKeepsTokens(s: State, e: Event, ref: Ref)
    requires ref < |s.logins| && LoginOK(s, ref) && CancelsOK(s)
    ensures CancelsOK(FinishStep(s, e, ref))
  {
    var t := FinishStep(s, e, ref);
    assert t.cancels == s.cancels;
    forall c | HasToken(s, c, ref) ensures HasToken(t, c, ref) {
      assert s.logins[ref].token != Some(Finisher);
    }
  }

  /** A call that moves on takes along what the invariant says of the other calls' tokens. */
  lemma CancelsFrame(s: State, t: State, c: CancelID, call: CancelCall)
    requires CancelsOK(s) && t.cancels == s.cancels[c := call] && |s.logins| == |t.logins|
    requires forall k, ref :: k != c && HasToken(s, k, ref) ==> HasToken(t, k, ref)
    requires call.Over? || (call.ref < |t.logins| && (call.Acquiring? || HasToken(t, c, call.ref)))
    ensures CancelsOK(t)
  {
  }

  lemma CancelAcquireInv(s: State, c: CancelID, ref: Ref)
    requires Inv(s) && ref < |s.logins|
    requires c in s.cancels && s.cancels[c] == Acquiring(ref)
    ensures Inv(CancelAcquireStep(s, c, ref))
  {
    var t := CancelAcquireStep(s, c, ref);
    if t != s {
      assert LoginOK(s, ref);
      OneLogin(s, t, ref);
      CancelsFrame(s, t, c, Holding(ref));
    }
  }

  lemma CancelApplyInv(s: State, c: CancelID, ref: Ref, ctxDone: bool)
    requires Inv(s) && HasToken(s, c, ref)
    ensures Inv(CancelApplyStep(s, c, ref, ctxDone))
  {
    var t := CancelApplyStep(s, c, ref, ctxDone);
    ExpireInv(s);
    var x := if ctxDone || s.current != Some(ref) then s else Expire(s);
    assert LoginOK(x, ref);
    OneLogin(x, t, ref);
    CancelsFrame(x, t, c, LettingGo(ref));
  }

  lemma CancelReleaseInv(s: State, c: CancelID, ref: Ref)
    requires Inv(s) && HasToken(s, c, ref)
    ensures Inv(CancelReleaseStep(s, c, ref))
  {
    var t := CancelReleaseStep(s, c, ref);
    assert LoginOK(s, ref);
    OneLogin(s, t, ref);
    CancelsFrame(s, t, c, Over(false));
  }

  lemma CancelGiveUpInv(s: State, c: CancelID)
    requires Inv(s)
    ensures Inv(s.(cancels := s.cancels[c := Over(false)]))
  {
    var t := s.(cancels := s.cancels[c := Over(false)]);
    forall ref | 0 <= ref < |t.logins| ensures LoginOK(t, ref) {
      assert LoginOK(s, ref);
    }
  }

  lemma CancelInv(s: State, e: Event, c: CancelID, call: CancelCall)
    requires Inv(s) && c in s.cancels && call == s.cancels[c] && !call.Over? && call.ref < |s.logins|
    ensures Inv(CancelStep(s, e, c, call))
  {
    match e
    case CancelAcquire(_) => if call.Acquiring? { CancelAcquireInv(s, c, call.ref); }
    case CancelGiveUp(_) => CancelGiveUpInv(s, c);
    case CancelApply(_, ctxDone) => if call.Holding? { CancelApplyInv(s, c, call.ref, ctxDone); }
    case CancelRelease(_) => if call.LettingGo? { CancelReleaseInv(s, c, call.ref); }
    case _ =>
  }

  lemma CancelBeginInv(s: State, c: CancelID, loginID: string)
    requires Inv(s) && c !in s.cancels
    ensures Inv(CancelBeginStep(s, c, loginID))
  {
    ExpireInv(s);
    NewCancelInv(Expire(s), c, CancelBeginStep(s, c, loginID));
  }

  /** A step that only adds a cancel call. */
  lemma NewCancelInv(s: State, c: CancelID, t: State)
    requires Inv(s) && c !in s.cancels && c in t.cancels && t == s.(cancels := s.cancels[c := t.cancels[c]])
    requires t.cancels[c].Over? || (t.cancels[c].Acquiring? && t.cancels[c].ref < |s.logins|)
    ensures Inv(t)
  {
    forall ref | 0 <= ref < |t.logins| ensures LoginOK(t, ref) {
      assert LoginOK(s, ref);
    }
  }

  lemma AccountGoneInv(s: State, id: ID)
    requires Inv(s)
    ensures Inv(AccountGoneStep(s, id))
  {
    var t := AccountGoneStep(s, id);
    if t != s {
      assert LoginOK(s, s.current.value);
      OneLogin(s, t, s.current.value);
    }
  }

  lemma StopCleanupInv(s: State)
    requires Inv(s)
    ensures Inv(StopCleanupStep(s))
  {
    var t := StopCleanupStep(s);
    if t != s {
      assert LoginOK(s, s.current.value);
      OneLogin(s, t, s.current.value);
    }
  }

  lemma PlainInv(s: State, t: State)
    requires Inv(s)
    requires t.logins == s.logins && t.current == s.current && t.cancels == s.cancels && t.history == s.history
    ensures Inv(t)
  {
    forall ref | 0 <= ref < |t.logins| ensures LoginOK(t, ref) {
      assert LoginOK(s, ref);
    }
  }

  lemma InvStep(s: State, e: Event)
    requires Inv(s)
    ensures Inv(Apply(s, e))
  {
    if IsFinish(e) {
      if e.ref < |s.logins| { FinishInv(s, e, e.ref); }
    } else if IsCancel(e) {
      if e.cancel in s.cancels && !s.cancels[e.cancel].Over? { CancelInv(s, e, e.cancel, s.cancels[e.cancel]); }
    } else {
      match e
      case Start(_, _, _, _, _) => StartInv(s, e);
      case ReadStatus => ExpireInv(s);
      case Callback(secret, denied) => CallbackInv(s, secret, denied);
      case CancelBegin(c, loginID) => if c !in s.cancels { CancelBeginInv(s, c, loginID); }
      case AccountGone(id) => AccountGoneInv(s, id);
      case StopCleanup => StopCleanupInv(s);
      case _ => PlainInv(s, Apply(s, e));
    }
  }

  lemma {:induction false} InvRun(events: seq<Event>)
    ensures Inv(Run(events))
  {
    if events != [] {
      InvRun(events[..|events| - 1]);
      InvStep(Run(events[..|events| - 1]), events[|events| - 1]);
    }
  }

  // ----- What every run keeps -----

  /** Of all logins ever created at most one is waiting or exchanging, and it is the latest. */
  lemma OneLoginPending(events: seq<Event>, a: Ref, b: Ref)
    requires
      var s := Run(events);
      a < |s.logins| && b < |s.logins| && Pending(s.logins[a].state) && Pending(s.logins[b].state)
    ensures a == b && Run(events).current == Some(a)
  {
    InvRun(events);
    assert LoginOK(Run(events), a) && LoginOK(Run(events), b);
  }

  predicate SameOutcome(s: State, t: State, ref: Ref)
    requires ref < |s.logins|
  {
    ref < |t.logins| && t.logins[ref].state == s.logins[ref].state
  }

  lemma TerminalFinish(s: State, e: Event, own: Ref, ref: Ref)
    requires own < |s.logins| && ref < |s.logins| && !Pending(s.logins[ref].state)
    ensures SameOutcome(s, FinishStep(s, e, own), ref)
  {
  }

  lemma TerminalCancel(s: State, e: Event, c: CancelID, call: CancelCall, ref: Ref)
    requires !call.Over? && call.ref < |s.logins| && ref < |s.logins| && !Pending(s.logins[ref].state)
    ensures SameOutcome(s, CancelStep(s, e, c, call), ref)
  {
  }

  lemma TerminalStep(s: State, e: Event, ref: Ref)
    requires ref < |s.logins| && !Pending(s.logins[ref].state)
    ensures SameOutcome(s, Apply(s, e), ref)
  {
    if IsFinish(e) {
      if e.ref < |s.logins| { TerminalFinish(s, e, e.ref, ref); }
    } else if IsCancel(e) {
      if e.cancel in s.cancels && !s.cancels[e.cancel].Over? && s.cancels[e.cancel].ref < |s.logins| {
        TerminalCancel(s, e, e.cancel, s.cancels[e.cancel], ref);
      }
    } else if e.Start? {
      TerminalStart(s, e, ref);
    } else if e.Callback? {
      TerminalCallback(s, e.secret, e.denied, ref);
    }
  }

  lemma TerminalStart(s: State, e: Event, ref: Ref)
    requires e.Start? && ref < |s.logins| && !Pending(s.logins[ref].state)
    ensures SameOutcome(s, StartStep(s, e), ref)
  {
  }

  lemma TerminalCallback(s: State, secret: string, denied: bool, ref: Ref)
    requires ref < |s.logins| && !Pending(s.logins[ref].state)
    ensures SameOutcome(s, CallbackStep(s, secret, denied), ref)
  {
  }

  /** A login that has ended keeps its outcome in every later state. */
  lemma {:induction false} TerminalIsAbsorbing(events: seq<Event>, k: nat, ref: Ref)
    requires k <= |events|
    ensures
      var s := Run(events[..k]);
      ref < |s.logins| && !Pending(s.logins[ref].state) ==> SameOutcome(s, Run(events), ref)
  {
    if k == |events| {
      assert events[..k] == events;
    } else {
      var init := events[..|events| - 1];
      assert init[..k] == events[..k];
      TerminalIsAbsorbing(init, k, ref);
      if ref < |Run(init).logins| && !Pending(Run(init).logins[ref].state) {
        TerminalStep(Run(init), events[|events| - 1], ref);
      }
    }
  }

  /** A login is claimed once and sends at most one code to the provider; its authorization is gone by then. */
  lemma CodeIsSpentOnce(events: seq<Event>, ref: Ref)
    requires ref < |Run(events).logins|
    ensures
      var s := Run(events);
      && s.history[ExchangeStarted(ref)] <= s.history[Claimed(ref)] <= 1
      && (s.logins[ref].authorization.Some? ==> s.logins[ref].state.Waiting? && s.history[Claimed(ref)] == 0)
  {
    InvRun(events);
    assert LoginOK(Run(events), ref);
  }

  /** A login that `CancelLogin` moved to canceled tries no store write, before or after, in any run. */
  lemma CanceledNeverWrites(events: seq<Event>, ref: Ref)
    requires CancelMoved(ref) in Run(events).history
    ensures !Tried(Run(events).history, ref)
    ensures ref < |Run(events).logins| && Run(events).logins[ref].state.Canceled?
  {
    InvRun(events);
    assert LoginOK(Run(events), ref);
  }

  /** A login tries at most one write, and one that reports success completed it. */
  lemma SucceededDidWrite(events: seq<Event>, ref: Ref)
    requires ref < |Run(events).logins|
    ensures
      var s := Run(events);
      && s.history[WriteTried(ref, true)] + s.history[WriteTried(ref, false)] <= 1
      && (s.logins[ref].state.Succeeded? ==> s.history[WriteTried(ref, true)] == 1)
  {
    InvRun(events);
    assert LoginOK(Run(events), ref);
  }

  lemma ClosedStep(s: State, e: Event, ref: Ref)
    requires s.closed
    ensures NothingStarts(s, Apply(s, e), ref)
  {
    if IsFinish(e) {
      if e.ref < |s.logins| { ClosedFinish(s, e, e.ref, ref); }
    } else if IsCancel(e) {
      if e.cancel in s.cancels && !s.cancels[e.cancel].Over? && s.cancels[e.cancel].ref < |s.logins| {
        ClosedCancel(s, e, e.cancel, s.cancels[e.cancel], ref);
      }
    }
  }

  predicate NothingStarts(s: State, t: State, ref: Ref) {
    && t.closed == s.closed && |t.logins| == |s.logins|
    && t.history[Claimed(ref)] == s.history[Claimed(ref)]
    && t.history[ExchangeStarted(ref)] == s.history[ExchangeStarted(ref)]
  }

  lemma ClosedFinish(s: State, e: Event, own: Ref, ref: Ref)
    requires own < |s.logins|
    ensures NothingStarts(s, FinishStep(s, e, own), ref)
  {
  }

  lemma ClosedCancel(s: State, e: Event, c: CancelID, call: CancelCall, ref: Ref)
    requires !call.Over? && call.ref < |s.logins|
    ensures NothingStarts(s, CancelStep(s, e, c, call), ref)
  {
  }

  /** After `stop` no login is created and no exchange job starts. */
  lemma {:induction false} NothingStartsAfterStop(events: seq<Event>, k: nat, ref: Ref)
    requires k <= |events| && Run(events[..k]).closed
    ensures
      var s, t := Run(events[..k]), Run(events);
      t.closed && NothingStarts(s, t, ref)
  {
    if k == |events| {
      assert events[..k] == events;
    } else {
      var init := events[..|events| - 1];
      assert init[..k] == events[..k];
      NothingStartsAfterStop(init, k, ref);
      ClosedStep(Run(init), events[|events| - 1], ref);
    }
  }

  // ----- The manager itself -----

  /** The manager's login state; each method is one step of the system above. */
  class Manager {
    const store: DB.Store
    var current: Option<Ref>
    var logins: seq<Login>
    var closed: bool
    var cancels: map<CancelID, CancelCall>
    var clock: nat
    ghost var history: multiset<Note>

    constructor (store: DB.Store)
      requires store.Valid() && store.Snap() == INITIAL.store
      ensures Valid() && Snap() == INITIAL && this.store == store
    {
      this.store := store;
      current, logins, closed, cancels, clock, history := None, [], false, map[], 0, multiset{};
    }

    ghost function Snap(): State
      reads this, store
    {
      State(store.Snap(), current, logins, closed, cancels, clock, history)
    }

    ghost predicate Valid()
      reads this, store
    {
      store.Valid() && Inv(Snap())
    }

    /** expireLoginLocked */
    method ExpireLoginLocked()
      requires current.Some? ==> current.value < |logins|
      modifies this`logins
      ensures Snap() == Expire(old(Snap()))
    {
      if current.Some? {
        var p := logins[current.value];
        if p.state.Waiting? && clock >= p.expiresAt {
          logins := logins[current.value := ClearSensitive(p).(state := Expired, ctxDone := true)];
        }
      }
    }

    /** startLogin; `loginID` and `secret` are the random values it draws. */
    method StartLogin(loginID: string, secret: string, id: ID, name: string, previous: Option<DB.Record>)
        returns (ok: bool)
      requires Valid()
      modifies this
      ensures Valid() && Snap() == Apply(old(Snap()), Start(loginID, secret, id, name, previous))
      ensures ok <==> |logins| > |old(logins)|
      ensures ok ==> current == Some(|old(logins)|) && logins[|old(logins)|].authorization == Some(secret)
    {
      InvStep(Snap(), Start(loginID, secret, id, name, previous));
      if closed {
        return false;
      }
      ExpireLoginLocked();
      if current.Some? && Pending(logins[current.value].state) {
        return false;
      }
      var p := Login(loginID, Some(secret), id, name, previous, Waiting, clock + LOGIN_LIFETIME, false, None,
          NotStarted);
      current := Some(|logins|);
      logins := logins + [p];
      ok := true;
    }

    /** The claim in `callback`: it ends the authorization before the code is sent anywhere. */
    method ClaimCallback(secret: string, denied: bool) returns (claimed: bool)
      requires Valid()
      modifies this
      ensures Valid() && Snap() == Apply(old(Snap()), Callback(secret, denied))
      ensures claimed ==>
          !closed && current.Some? && current.value < |logins| && logins[current.value].state.Exchanging?
    {
      CallbackInv(Snap(), secret, denied);
      claimed := Claim(secret, denied);
    }

    method Claim(secret: string, denied: bool) returns (claimed: bool)
      requires current.Some? ==> current.value < |logins|
      modifies this`logins, this`history
      ensures Snap() == CallbackStep(old(Snap()), secret, denied)
      ensures claimed ==>
          !closed && current.Some? && current.value < |logins| && logins[current.value].state.Exchanging?
    {
      ExpireLoginLocked();
      if closed || current.None? {
        return false;
      }
      var ref := current.value;
      var p := logins[ref];
      if !p.state.Waiting? || p.authorization != Some(secret) {
        return false;
      }
      p := p.(authorization := None);
      p := p.(state := Exchanging);
      p := p.(finish := if denied then WantsCommit(None) else Exchange);
      logins := logins[ref := p];
      history := history + multiset{Claimed(ref)} + if denied then multiset{} else multiset{ExchangeStarted(ref)};
      claimed := true;
    }

    /** `CancelLogin` under both the token and the lock. */
    method CancelUnderToken(c: CancelID, ctxDone: bool)
      requires Valid() && c in cancels && cancels[c].Holding?
      modifies this
      ensures Valid() && Snap() == CancelApplyStep(old(Snap()), c, old(cancels[c].ref), ctxDone)
    {
      CancelApplyInv(Snap(), c, cancels[c].ref, ctxDone);
      CancelCurrent(c, cancels[c].ref, ctxDone);
    }

    method CancelCurrent(c: CancelID, ref: Ref, ctxDone: bool)
      requires ref < |logins| && (current.Some? ==> current.value < |logins|)
      modifies this`logins, this`history, this`cancels
      ensures Snap() == CancelApplyStep(old(Snap()), c, ref, ctxDone)
    {
      if !ctxDone && current == Some(ref) {
        ExpireLoginLocked();
        var p := logins[ref];
        if p.state.Waiting? || p.state.Exchanging? {
          logins := logins[ref := ClearSensitive(p).(state := Canceled, ctxDone := true)];
          history := history + multiset{CancelMoved(ref)};
        }
      }
      cancels := cancels[c := LettingGo(ref)];
    }

    /** finishLogin, its check that the login is still the one to save. */
    method FinishCheckActive(ref: Ref)
      requires Valid() && ref < |logins| && logins[ref].finish.HasCommit?
      modifies this
      ensures Valid() && Snap() == Apply(old(Snap()), FinishCheck(ref))
    {
      InvStep(Snap(), FinishCheck(ref));
      var p := logins[ref];
      if current == Some(ref) && p.state.Exchanging? {
        logins := logins[ref := p.(finish := Active(p.finish.credentials))];
      } else {
        logins := logins[ref := p.(finish := Releasing)];
      }
    }

    /** finishLogin, its store write. */
    method FinishSave(ref: Ref, fault: DB.Fault)
      requires Valid() && ref < |logins| && logins[ref].finish.Active?
      modifies this, store
      ensures Valid() && Snap() == Apply(old(Snap()), FinishWrite(ref, fault))
    {
      InvStep(Snap(), FinishWrite(ref, fault));
      var p := logins[ref];
      if p.finish.credentials.None? {
        logins := logins[ref := p.(finish := Written(false))];
        return;
      }
      var credentials := p.finish.credentials.value;
      var r;
      if p.previous.None? {
        r := store.CreateAccount(p.id, p.name, credentials, true, fault);
      } else {
        r := store.ReplaceAccountCredentialsIfUnchanged(p.previous.value, credentials, fault);
      }
      logins := logins[ref := p.(finish := Written(r.Ok?))];
      history := history + multiset{WriteTried(ref, r.Ok?)};
    }

    /** finishLogin, its last status change. */
    method FinishReport(ref: Ref)
      requires Valid() && ref < |logins| && logins[ref].finish.Written?
      modifies this
      ensures Valid() && Snap() == Apply(old(Snap()), FinishEnd(ref))
    {
      InvStep(Snap(), FinishEnd(ref));
      var p := logins[ref];
      if p.state.Exchanging? {
        p := p.(state := if p.finish.ok then Succeeded else Failed);
      }
      logins := logins[ref := p.(finish := Releasing)];
    }
  }
}
