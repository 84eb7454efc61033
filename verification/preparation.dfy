/**
 The attempts of requests through prepare: an account is registered to its request, `CurrentAccount` gives its
 credentials, the identity is compared, and the account is registered once more before the dispatch. The steps
 under the gate are those of ExecutionGate; each run here projects to a run there.
 */
module Preparation {
  import opened Common
  import G = ExecutionGate

  type Account = G.Account
  type Req = G.Req
  type Thread = G.Thread
  /** A ChatGPT account ID. */
  type Identity = string

  datatype Stage =
    | Chosen
    | FirstIn(thread: Thread)
    | FirstOk
    | Authorized
    | SecondIn(thread: Thread)
    | Ready
    | Dispatched

  /** The candidate that a request is trying. */
  datatype Attempt = Attempt(account: Account, identity: Identity, stage: Stage)

  datatype State = State(gate: G.State, identities: map<Account, Identity>, attempts: map<Req, Attempt>)

  const INITIAL := State(G.INITIAL, map[], map[])

  /** `Reidentify` is a credential write, which no gate orders. */
  datatype Event =
    | Gate(event: G.Event)
    | CreateAccount(account: Account, identity: Identity)
    | Reidentify(account: Account, identity: Identity)
    | Choose(req: Req, account: Account, identity: Identity)
    | Enter(thread: Thread, req: Req)
    | Read(thread: Thread, failed: bool)
    | Commit(thread: Thread)
    | CurrentReturned(req: Req, current: Option<Identity>)
    | Dispatch(req: Req)
    | AttemptOver(req: Req)

  // ----- Steps -----

  predicate IsRegister(g: G.Event) {
    g.RegisterEnter? || g.RegisterRead? || g.RegisterCommit?
  }

  predicate MayEnter(s: State, t: Thread, req: Req) {
    && req in s.attempts && (s.attempts[req].stage.Chosen? || s.attempts[req].stage.Authorized?)
    && t !in s.gate.threads && s.gate.writer.None?
  }

  function CallOf(s: State, t: Thread): G.Call {
    if t in s.gate.threads then s.gate.threads[t] else G.AdmitOver(None)
  }

  /** The stored row has the identity that the request's candidate was chosen for. */
  predicate Agrees(s: State, req: Req, account: Account) {
    req in s.attempts && Lookup(s.identities, account) == Some(s.attempts[req].identity)
  }

  /** The step of the gate that an event takes, if any. */
  function GateEvent(s: State, e: Event): Option<G.Event> {
    match e
    case Gate(g) => if IsRegister(g) || g.CreateAccount? then None else Some(g)
    case CreateAccount(account, _) => Some(G.CreateAccount(account))
    case Enter(t, req) =>
      if MayEnter(s, t, req) then Some(G.RegisterEnter(t, req, s.attempts[req].account)) else None
    case Read(t, failed) =>
      var call := CallOf(s, t);
      if call.RegisterIn? then Some(G.RegisterRead(t, !failed && Agrees(s, call.req, call.account))) else None
    case Commit(t) => if CallOf(s, t).RegisterGot? then Some(G.RegisterCommit(t)) else None
    case _ => None
  }

  function Move(attempts: map<Req, Attempt>, req: Req, stage: Stage): map<Req, Attempt> {
    if req in attempts then attempts[req := attempts[req].(stage := stage)] else attempts
  }

  predicate At(s: State, req: Req, stage: Stage) {
    req in s.attempts && s.attempts[req].stage == stage
  }

  /** A registration has succeeded. */
  function Registered(attempts: map<Req, Attempt>, req: Req): map<Req, Attempt> {
    if req in attempts then Move(attempts, req, if attempts[req].stage.FirstIn? then FirstOk else Ready) else attempts
  }

  /** registerAccount succeeds. */
  predicate CommitOk(s: State, call: G.Call)
    requires call.RegisterGot?
  {
    call.req < |s.gate.requests| && !s.gate.requests[call.req].canceled && call.fits
  }

  function AttemptsAfter(s: State, e: Event): map<Req, Attempt> {
    match e
    case Choose(req, account, identity) =>
      if req < |s.gate.requests| && req !in s.attempts then s.attempts[req := Attempt(account, identity, Chosen)]
      else s.attempts
    case Enter(t, req) =>
      if !MayEnter(s, t, req) then s.attempts
      else Move(s.attempts, req, if s.attempts[req].stage.Chosen? then FirstIn(t) else SecondIn(t))
    case Read(t, _) =>
      var call := CallOf(s, t);
      if call.RegisterIn? && call.account !in s.gate.accounts then s.attempts - {call.req} else s.attempts
    case Commit(t) =>
      var call := CallOf(s, t);
      if !call.RegisterGot? then s.attempts
      else if CommitOk(s, call) then Registered(s.attempts, call.req) else s.attempts - {call.req}
    case CurrentReturned(req, current) =>
      if !At(s, req, FirstOk) then s.attempts
      else if current == Some(s.attempts[req].identity) then Move(s.attempts, req, Authorized)
      else s.attempts - {req}
    case Dispatch(req) => if At(s, req, Ready) then Move(s.attempts, req, Dispatched) else s.attempts
    case AttemptOver(req) => if At(s, req, Dispatched) then s.attempts - {req} else s.attempts
    case _ => s.attempts
  }

  function IdentitiesAfter(s: State, e: Event): map<Account, Identity> {
    match e
    case CreateAccount(account, identity) =>
      if account in s.gate.accounts then s.identities else s.identities[account := identity]
    case Reidentify(account, identity) => s.identities[account := identity]
    case _ => s.identities
  }

  function GateAfter(s: State, e: Event): G.State {
    var g := GateEvent(s, e);
    if g.Some? then G.Apply(s.gate, g.value) else s.gate
  }

  function Apply(s: State, e: Event): State {
    State(GateAfter(s, e), IdentitiesAfter(s, e), AttemptsAfter(s, e))
  }

  function Run(events: seq<Event>): State {
    if events == [] then INITIAL else Apply(Run(events[..|events| - 1]), events[|events| - 1])
  }

  /** The steps of the gate in a run. */
  function GateEvents(events: seq<Event>): seq<G.Event> {
    if events == [] then []
    else
      var init := events[..|events| - 1];
      var g := GateEvent(Run(init), events[|events| - 1]);
      GateEvents(init) + if g.Some? then [g.value] else []
  }

  /** So everything that ExecutionGate proves of runs holds here. */
  lemma {:induction false} ProjectsToGate(events: seq<Event>)
    ensures Run(events).gate == G.Run(GateEvents(events))
  {
    if events != [] {
      var init := events[..|events| - 1];
      ProjectsToGate(init);
      var gs, g := GateEvents(init), GateEvent(Run(init), events[|events| - 1]);
      if g.Some? {
        assert (gs + [g.value])[..|gs|] == gs;
      } else {
        assert gs + [] == gs;
      }
    }
  }

  // ----- The invariant -----

  predicate IsRegistering(call: G.Call) {
    call.RegisterIn? || call.RegisterGot?
  }

  predicate InGate(s: State, t: Thread, req: Req, account: Account) {
    req in s.attempts && s.attempts[req].account == account && s.attempts[req].stage in {FirstIn(t), SecondIn(t)}
  }

  /** A registering thread works for the attempt of its request. */
  predicate ThreadOK(s: State, t: Thread) {
    var call := CallOf(s, t);
    IsRegistering(call) ==> InGate(s, t, call.req, call.account)
  }

  predicate HasAccount(stage: Stage) {
    !stage.Chosen? && !stage.FirstIn?
  }

  /** From its first registration on, the attempt's account is registered to the request. */
  predicate AttemptOK(s: State, req: Req) {
    req in s.attempts ==>
      && req < |s.gate.requests|
      && (HasAccount(s.attempts[req].stage) ==> s.gate.requests[req].account == Some(s.attempts[req].account))
  }

  ghost predicate Inv(s: State) {
    (forall t :: ThreadOK(s, t)) && (forall req :: AttemptOK(s, req))
  }

  // ----- What other steps of the gate leave alone -----

  lemma ThreadStepKeeps(g: G.State, e: G.Event, u: Thread, t: Thread)
    requires u in g.threads && !IsRegister(e)
    ensures
      var x := G.ThreadStep(g, e, u, g.threads[u]);
      t in x.threads && IsRegistering(x.threads[t]) ==> t in g.threads && x.threads[t] == g.threads[t]
  {
    if t != u {
      G.ReaderKeepsOthers(g, e, u, g.threads[u], t);
      ChangeKeepsOthers(g, e, u, t);
    }
  }

  lemma ChangeKeepsOthers(g: G.State, e: G.Event, u: Thread, t: Thread)
    requires u in g.threads && t != u
    ensures Lookup(G.ChangeStep(g, e, u, g.threads[u]).threads, t) == Lookup(g.threads, t)
  {
    match (e, g.threads[u])
    case (ChangePersist(_, outcome), ChangeIn(w)) => G.PersistKeepsOthers(g, u, w, outcome, t);
    case _ =>
  }

  lemma GateKeepsThread(g: G.State, e: G.Event, t: Thread)
    requires !IsRegister(e)
    ensures
      var x := G.Apply(g, e);
      t in x.threads && IsRegistering(x.threads[t]) ==> t in g.threads && x.threads[t] == g.threads[t]
  {
    if !e.CreateKey? && !e.CreateAccount? && !G.IsEnter(e) && !G.IsRequest(e) && e.thread in g.threads {
      ThreadStepKeeps(g, e, e.thread, t);
    }
  }

  predicate KeepsAccount(g: G.State, x: G.State, req: Req) {
    req < |g.requests| ==> req < |x.requests| && x.requests[req].account == g.requests[req].account
  }

  lemma ReaderKeepsAccount(g: G.State, e: G.Event, t: Thread, call: G.Call, req: Req)
    requires !IsRegister(e)
    ensures KeepsAccount(g, G.ReaderStep(g, e, t, call), req)
  {
  }

  lemma ChangeKeepsAccount(g: G.State, e: G.Event, t: Thread, call: G.Call, req: Req)
    ensures KeepsAccount(g, G.ChangeStep(g, e, t, call), req)
  {
    match (e, call)
    case (ChangePersist(_, outcome), ChangeIn(w)) => G.PersistFrame(g, t, w, outcome);
    case _ =>
  }

  lemma EnterKeepsRequests(g: G.State, e: G.Event, t: Thread)
    ensures G.EnterStep(g, e, t).requests == g.requests
  {
  }

  lemma RequestKeepsAccount(g: G.State, e: G.Event, own: Req, req: Req)
    requires own < |g.requests|
    ensures KeepsAccount(g, G.RequestStep(g, e, own), req)
  {
  }

  lemma GateKeepsAccount(g: G.State, e: G.Event, req: Req)
    requires !IsRegister(e)
    ensures KeepsAccount(g, G.Apply(g, e), req)
  {
    if e.CreateKey? || e.CreateAccount? {
    } else if G.IsRequest(e) {
      if e.req < |g.requests| { RequestKeepsAccount(g, e, e.req, req); }
    } else if G.IsEnter(e) {
      EnterKeepsRequests(g, e, e.thread);
    } else if e.thread in g.threads {
      ReaderKeepsAccount(g, e, e.thread, g.threads[e.thread], req);
      ChangeKeepsAccount(g, e, e.thread, g.threads[e.thread], req);
    }
  }

  // ----- Registration steps of the gate -----

  lemma EnterIs(g: G.State, t: Thread, req: Req, account: Account)
    requires t !in g.threads && g.writer.None?
    ensures
      var x := G.Apply(g, G.RegisterEnter(t, req, account));
      x.threads == g.threads[t := G.RegisterIn(req, account)] && x.requests == g.requests
  {
  }

  lemma ReadIs(g: G.State, t: Thread, agrees: bool)
    requires t in g.threads && g.threads[t].RegisterIn?
    ensures
      var x, c := G.Apply(g, G.RegisterRead(t, agrees)), g.threads[t];
      && x.requests == g.requests
      && x.threads == g.threads[t :=
           if c.account in g.accounts then G.RegisterGot(c.req, c.account, g.accounts[c.account] && agrees)
           else G.RegisterOver(false)]
  {
  }

  lemma CommitIsStep(g: G.State, t: Thread)
    requires t in g.threads && g.threads[t].RegisterGot?
    ensures
      var c := g.threads[t];
      G.Apply(g, G.RegisterCommit(t)) == G.RegisterCommitStep(g, t, c.req, c.account, c.fits)
  {
  }

  lemma CommitStepIs(s: State, t: Thread, c: G.Call)
    requires c.RegisterGot?
    ensures
      var g, x := s.gate, G.RegisterCommitStep(s.gate, t, c.req, c.account, c.fits);
      && x.threads == g.threads[t := G.RegisterOver(CommitOk(s, c))]
      && x.requests == if CommitOk(s, c) then g.requests[c.req := g.requests[c.req].(account := Some(c.account))]
                       else g.requests
  {
    var g := s.gate;
    if CommitOk(s, c) {
      var r := g.requests[c.req].(account := Some(c.account));
      assert G.RegisterCommitStep(g, t, c.req, c.account, c.fits) == G.Leave(G.Update(g, c.req, r), t,
          G.RegisterOver(true));
    }
  }

  // ----- Preservation -----

  lemma QuietThread(s: State, e: Event, t: Thread)
    requires !e.Enter? && !e.Read? && !e.Commit?
    ensures IsRegistering(CallOf(Apply(s, e), t)) ==> CallOf(Apply(s, e), t) == CallOf(s, t)
  {
    var g := GateEvent(s, e);
    if g.Some? {
      GateKeepsThread(s.gate, g.value, t);
    }
  }

  /** A step outside the gate moves no attempt that is inside it. */
  lemma QuietAttempt(s: State, e: Event, req: Req)
    requires !e.Enter? && !e.Read? && !e.Commit?
    requires req in s.attempts && (s.attempts[req].stage.FirstIn? || s.attempts[req].stage.SecondIn?)
    ensures Lookup(Apply(s, e).attempts, req) == Some(s.attempts[req])
  {
  }

  lemma QuietOK(s: State, e: Event, req: Req)
    requires AttemptOK(s, req) && !e.Enter? && !e.Read? && !e.Commit?
    ensures AttemptOK(Apply(s, e), req)
  {
    var g := GateEvent(s, e);
    if g.Some? {
      GateKeepsAccount(s.gate, g.value, req);
    }
  }

  lemma QuietInv(s: State, e: Event)
    requires Inv(s) && !e.Enter? && !e.Read? && !e.Commit?
    ensures Inv(Apply(s, e))
  {
    var x := Apply(s, e);
    forall t ensures ThreadOK(x, t) {
      assert ThreadOK(s, t);
      QuietThread(s, e, t);
      var call := CallOf(s, t);
      if IsRegistering(CallOf(x, t)) {
        QuietAttempt(s, e, call.req);
      }
    }
    forall req ensures AttemptOK(x, req) {
      assert AttemptOK(s, req);
      QuietOK(s, e, req);
    }
  }

  lemma EnterInv(s: State, t: Thread, req: Req)
    requires Inv(s) && MayEnter(s, t, req)
    ensures Inv(Apply(s, Enter(t, req)))
  {
    var x := Apply(s, Enter(t, req));
    EnterIs(s.gate, t, req, s.attempts[req].account);
    forall u ensures ThreadOK(x, u) {
      assert ThreadOK(s, u);
    }
    forall r ensures AttemptOK(x, r) {
      assert AttemptOK(s, r);
    }
  }

  lemma ReadInv(s: State, t: Thread, failed: bool)
    requires Inv(s) && CallOf(s, t).RegisterIn?
    ensures Inv(Apply(s, Read(t, failed)))
  {
    var x, c := Apply(s, Read(t, failed)), CallOf(s, t);
    ReadIs(s.gate, t, !failed && Agrees(s, c.req, c.account));
    assert ThreadOK(s, t);
    forall u ensures ThreadOK(x, u) {
      assert ThreadOK(s, u);
    }
    forall r ensures AttemptOK(x, r) {
      assert AttemptOK(s, r);
    }
  }

  lemma CommitInv(s: State, t: Thread)
    requires Inv(s) && CallOf(s, t).RegisterGot?
    ensures Inv(Apply(s, Commit(t)))
  {
    var x, c := Apply(s, Commit(t)), CallOf(s, t);
    CommitIsStep(s.gate, t);
    CommitStepIs(s, t, c);
    assert ThreadOK(s, t);
    forall u ensures ThreadOK(x, u) {
      assert ThreadOK(s, u);
    }
    forall r ensures AttemptOK(x, r) {
      assert AttemptOK(s, r);
    }
  }

  lemma InvStep(s: State, e: Event)
    requires Inv(s)
    ensures Inv(Apply(s, e))
  {
    match e
    case Enter(t, req) => if MayEnter(s, t, req) { EnterInv(s, t, req); } else { Refused(s, e); }
    case Read(t, failed) => if CallOf(s, t).RegisterIn? { ReadInv(s, t, failed); } else { Refused(s, e); }
    case Commit(t) => if CallOf(s, t).RegisterGot? { CommitInv(s, t); } else { Refused(s, e); }
    case _ => QuietInv(s, e);
  }

  lemma Refused(s: State, e: Event)
    requires GateEvent(s, e).None? && (e.Enter? || e.Read? || e.Commit?)
    ensures Apply(s, e) == s
  {
  }

  lemma {:induction false} InvRun(events: seq<Event>)
    ensures Inv(Run(events))
  {
    if events != [] {
      InvRun(events[..|events| - 1]);
      InvStep(Run(events[..|events| - 1]), events[|events| - 1]);
    }
  }

  // ----- What a dispatch rests on -----

  predicate Prepared(s: State, req: Req) {
    req in s.attempts && (s.attempts[req].stage.Ready? || s.attempts[req].stage.Dispatched?)
  }

  /** The account is disabled or deleted, by a write that the store did not hide, and no change is in progress. */
  predicate ClosedAndSettled(g: G.State, account: Account) {
    g.writer.None? && G.Blocked(g, G.OnAccount(account)) && G.OnAccount(account) !in g.lost
  }

  /**
   Outside a change's critical section, a request whose attempt may be dispatched, or was, is canceled as soon as
   the attempt's account is disabled or deleted, unless the store hid that write.
   */
  lemma DisableCancelsDispatched(events: seq<Event>, req: Req)
    ensures
      var s := Run(events);
      Prepared(s, req) ==>
        var account := s.attempts[req].account;
        && req < |s.gate.requests| && s.gate.requests[req].account == Some(account)
        && (ClosedAndSettled(s.gate, account) && req in s.gate.active ==> s.gate.requests[req].canceled)
  {
    InvRun(events);
    ProjectsToGate(events);
    var s := Run(events);
    if Prepared(s, req) {
      assert AttemptOK(s, req);
      var account := s.attempts[req].account;
      if ClosedAndSettled(s.gate, account) && req in s.gate.active {
        G.ClosedTargetsAreCanceled(GateEvents(events), G.OnAccount(account), req);
      }
    }
  }

  /** The attempt is for this account and identity and past the return of `CurrentAccount` that gave the identity. */
  predicate PastCredentials(s: State, req: Req, account: Account, identity: Identity) {
    && req in s.attempts && s.attempts[req].account == account && s.attempts[req].identity == identity
    && (s.attempts[req].stage.SecondIn? || s.attempts[req].stage.Ready? || s.attempts[req].stage.Dispatched?)
  }

  predicate RowFits(s: State, account: Account, identity: Identity) {
    Lookup(s.gate.accounts, account) == Some(true) && Lookup(s.identities, account) == Some(identity)
  }

  /** At a moment since `CurrentAccount` returned to this attempt, its row was enabled and of its identity. */
  ghost predicate SeenFitting(events: seq<Event>, req: Req, account: Account, identity: Identity)
    decreases |events|
  {
    PastCredentials(Run(events), req, account, identity) && (
      || RowFits(Run(events), account, identity)
      || (events != [] && SeenFitting(events[..|events| - 1], req, account, identity)))
  }

  predicate GotSecond(s: State, t: Thread, req: Req) {
    && CallOf(s, t).RegisterGot? && CallOf(s, t).req == req && CallOf(s, t).fits
    && At(s, req, SecondIn(t))
  }

  /** A second registration that has found its row fitting either had found so before, or the row fits now. */
  predicate GotBefore(s: State, x: State, t: Thread, req: Req)
    requires req in x.attempts
  {
    && req in s.attempts && s.attempts[req] == x.attempts[req]
    && (GotSecond(s, t, req) || RowFits(s, s.attempts[req].account, s.attempts[req].identity))
  }

  lemma GotAfterRead(s: State, u: Thread, failed: bool, t: Thread, req: Req)
    requires Inv(s) && CallOf(s, u).RegisterIn? && GotSecond(Apply(s, Read(u, failed)), t, req)
    ensures GotBefore(s, Apply(s, Read(u, failed)), t, req)
  {
    var c := CallOf(s, u);
    ReadIs(s.gate, u, !failed && Agrees(s, c.req, c.account));
    assert ThreadOK(s, t) && ThreadOK(s, u);
  }

  lemma GotAfterEnter(s: State, u: Thread, r: Req, t: Thread, req: Req)
    requires Inv(s) && MayEnter(s, u, r) && GotSecond(Apply(s, Enter(u, r)), t, req)
    ensures GotBefore(s, Apply(s, Enter(u, r)), t, req)
  {
    EnterIs(s.gate, u, r, s.attempts[r].account);
    assert ThreadOK(s, t);
  }

  lemma GotAfterCommit(s: State, u: Thread, t: Thread, req: Req)
    requires Inv(s) && CallOf(s, u).RegisterGot? && GotSecond(Apply(s, Commit(u)), t, req)
    ensures GotBefore(s, Apply(s, Commit(u)), t, req)
  {
    CommitIsStep(s.gate, u);
    CommitStepIs(s, u, CallOf(s, u));
    assert ThreadOK(s, t) && ThreadOK(s, u);
  }

  lemma GotAfterQuiet(s: State, e: Event, t: Thread, req: Req)
    requires Inv(s) && !e.Enter? && !e.Read? && !e.Commit? && GotSecond(Apply(s, e), t, req)
    ensures GotBefore(s, Apply(s, e), t, req)
  {
    QuietThread(s, e, t);
    assert ThreadOK(s, t);
    QuietAttempt(s, e, req);
  }

  lemma GotComesFrom(s: State, e: Event, t: Thread, req: Req)
    requires Inv(s) && GotSecond(Apply(s, e), t, req)
    ensures GotBefore(s, Apply(s, e), t, req)
  {
    if (e.Enter? || e.Read? || e.Commit?) && GateEvent(s, e).None? {
      Refused(s, e);
    } else {
      match e
      case Enter(u, r) => GotAfterEnter(s, u, r, t, req);
      case Read(u, failed) => GotAfterRead(s, u, failed, t, req);
      case Commit(u) => GotAfterCommit(s, u, t, req);
      case _ => GotAfterQuiet(s, e, t, req);
    }
  }

  predicate SameCandidate(s: State, x: State, req: Req) {
    && req in s.attempts && req in x.attempts
    && s.attempts[req].account == x.attempts[req].account && s.attempts[req].identity == x.attempts[req].identity
  }

  lemma PreparedComesFrom(s: State, e: Event, req: Req)
    requires Inv(s) && Prepared(Apply(s, e), req)
    ensures SameCandidate(s, Apply(s, e), req) && (Prepared(s, req) || (e.Commit? && GotSecond(s, e.thread, req)))
  {
    if e.Commit? {
      assert ThreadOK(s, e.thread);
    }
  }

  lemma {:induction false} SecondReadSeen(events: seq<Event>, t: Thread, req: Req)
    requires GotSecond(Run(events), t, req)
    ensures
      var a := Run(events).attempts[req];
      SeenFitting(events, req, a.account, a.identity)
  {
    if events != [] {
      var init, e := events[..|events| - 1], events[|events| - 1];
      InvRun(init);
      GotComesFrom(Run(init), e, t, req);
      if GotSecond(Run(init), t, req) {
        SecondReadSeen(init, t, req);
      }
    }
  }

  /**
   Whenever an attempt may be dispatched, or was, its account was enabled and of the candidate's identity at a
   moment after `CurrentAccount` had returned to this very attempt.
   */
  lemma {:induction false} DispatchedWasChecked(events: seq<Event>, req: Req)
    ensures
      var s := Run(events);
      Prepared(s, req) ==> SeenFitting(events, req, s.attempts[req].account, s.attempts[req].identity)
  {
    if events != [] && Prepared(Run(events), req) {
      var init, e := events[..|events| - 1], events[|events| - 1];
      InvRun(init);
      PreparedComesFrom(Run(init), e, req);
      if Prepared(Run(init), req) {
        DispatchedWasChecked(init, req);
      } else {
        SecondReadSeen(init, e.thread, req);
      }
    }
  }

  // ----- An attempt that nobody disturbs -----

  lemma RegisterKeepsStore(g: G.State, e: G.Event)
    requires IsRegister(e)
    ensures var x := G.Apply(g, e); x.accounts == g.accounts && x.writer == g.writer
  {
    if e.RegisterCommit? && e.thread in g.threads && g.threads[e.thread].RegisterGot? {
      CommitIsStep(g, e.thread);
    }
  }

  lemma EntersGate(s: State, t: Thread, req: Req)
    requires MayEnter(s, t, req)
    ensures
      var x, a := Apply(s, Enter(t, req)), s.attempts[req];
      && x.gate.threads == s.gate.threads[t := G.RegisterIn(req, a.account)] && x.gate.requests == s.gate.requests
      && x.attempts == s.attempts[req := a.(stage := if a.stage.Chosen? then FirstIn(t) else SecondIn(t))]
      && x.identities == s.identities && x.gate.accounts == s.gate.accounts && x.gate.writer == s.gate.writer
  {
    EnterIs(s.gate, t, req, s.attempts[req].account);
    RegisterKeepsStore(s.gate, G.RegisterEnter(t, req, s.attempts[req].account));
  }

  lemma ReadsRow(s: State, t: Thread, req: Req)
    requires req in s.attempts && CallOf(s, t) == G.RegisterIn(req, s.attempts[req].account)
    requires RowFits(s, s.attempts[req].account, s.attempts[req].identity)
    ensures
      var x, a := Apply(s, Read(t, false)), s.attempts[req];
      && x.gate.threads == s.gate.threads[t := G.RegisterGot(req, a.account, true)]
      && x.gate.requests == s.gate.requests && x.attempts == s.attempts
      && x.identities == s.identities && x.gate.accounts == s.gate.accounts && x.gate.writer == s.gate.writer
  {
    ReadIs(s.gate, t, true);
    RegisterKeepsStore(s.gate, G.RegisterRead(t, true));
  }

  lemma CommitsRow(s: State, t: Thread, req: Req)
    requires req in s.attempts && CallOf(s, t) == G.RegisterGot(req, s.attempts[req].account, true)
    requires req < |s.gate.requests| && !s.gate.requests[req].canceled
    ensures
      var x, a := Apply(s, Commit(t)), s.attempts[req];
      && x.gate.threads == s.gate.threads[t := G.RegisterOver(true)]
      && x.gate.requests == s.gate.requests[req := s.gate.requests[req].(account := Some(a.account))]
      && x.attempts == s.attempts[req := a.(stage := if a.stage.FirstIn? then FirstOk else Ready)]
      && x.identities == s.identities && x.gate.accounts == s.gate.accounts && x.gate.writer == s.gate.writer
  {
    CommitIsStep(s.gate, t);
    CommitStepIs(s, t, CallOf(s, t));
    RegisterKeepsStore(s.gate, G.RegisterCommit(t));
  }

  function RegisterRound(s: State, t: Thread, req: Req): State {
    Apply(Apply(Apply(s, Enter(t, req)), Read(t, false)), Commit(t))
  }

  predicate Fits(s: State, req: Req, account: Account, identity: Identity) {
    && s.gate.writer.None? && RowFits(s, account, identity)
    && req < |s.gate.requests| && !s.gate.requests[req].canceled
  }

  lemma UndisturbedRegistration(s: State, t: Thread, req: Req)
    requires MayEnter(s, t, req) && Fits(s, req, s.attempts[req].account, s.attempts[req].identity)
    ensures
      var x, a := RegisterRound(s, t, req), s.attempts[req];
      && x.attempts == s.attempts[req := a.(stage := if a.stage.Chosen? then FirstOk else Ready)]
      && x.gate.threads == s.gate.threads[t := G.RegisterOver(true)] && Fits(x, req, a.account, a.identity)
      && x.gate.requests == s.gate.requests[req := s.gate.requests[req].(account := Some(a.account))]
  {
    EntersGate(s, t, req);
    var b := Apply(s, Enter(t, req));
    ReadsRow(b, t, req);
    CommitsRow(Apply(b, Read(t, false)), t, req);
  }

  lemma ReturnOutsideGate(s: State, req: Req, current: Option<Identity>)
    requires At(s, req, FirstOk)
    ensures
      var x, a := Apply(s, CurrentReturned(req, current)), s.attempts[req];
      && x.gate == s.gate && x.identities == s.identities
      && x.attempts == if current == Some(a.identity) then s.attempts[req := a.(stage := Authorized)]
                       else s.attempts - {req}
  {
  }

  /** After the first registration: what becomes of the attempt once `CurrentAccount` returned. */
  lemma ReturnedAttempt(s: State, req: Req, u: Thread, current: Option<Identity>)
    requires At(s, req, FirstOk) && u !in s.gate.threads
    requires Fits(s, req, s.attempts[req].account, s.attempts[req].identity)
    ensures
      var x := RegisterRound(Apply(s, CurrentReturned(req, current)), u, req);
      if current == Some(s.attempts[req].identity)
      then
        && Lookup(x.attempts, req) == Some(s.attempts[req].(stage := Ready))
        && req < |x.gate.requests| && x.gate.requests[req].account == Some(s.attempts[req].account)
      else req !in x.attempts
  {
    ReturnOutsideGate(s, req, current);
    var y := Apply(s, CurrentReturned(req, current));
    if current == Some(s.attempts[req].identity) {
      UndisturbedRegistration(y, u, req);
    } else {
      GivenUpStays(y, u, req);
    }
  }

  lemma DispatchesReady(s: State, req: Req)
    ensures
      var x := Apply(s, Dispatch(req));
      && x.gate == s.gate
      && x.attempts ==
         if At(s, req, Ready) then s.attempts[req := s.attempts[req].(stage := Dispatched)] else s.attempts
  {
  }

  /**
   An attempt that nobody disturbs is dispatched exactly if `CurrentAccount` gave credentials of the candidate's
   identity: with its row enabled and fitting and its request not canceled it is registered, authorized, registered
   again and dispatched, and the request carries the account. Otherwise it is given up.
   */
  lemma UndisturbedAttempt(s: State, req: Req, t: Thread, u: Thread, current: Option<Identity>)
    requires MayEnter(s, t, req) && s.attempts[req].stage.Chosen? && u !in s.gate.threads && t != u
    requires Fits(s, req, s.attempts[req].account, s.attempts[req].identity)
    ensures
      var a := s.attempts[req];
      var ready := RegisterRound(Apply(RegisterRound(s, t, req), CurrentReturned(req, current)), u, req);
      var x := Apply(ready, Dispatch(req));
      if current == Some(a.identity)
      then
        && Lookup(x.attempts, req) == Some(a.(stage := Dispatched))
        && req < |x.gate.requests| && x.gate.requests[req].account == Some(a.account)
      else req !in x.attempts
  {
    UndisturbedRegistration(s, t, req);
    var x := RegisterRound(s, t, req);
    ReturnedAttempt(x, req, u, current);
    DispatchesReady(RegisterRound(Apply(x, CurrentReturned(req, current)), u, req), req);
  }

  lemma GivenUpStays(s: State, u: Thread, req: Req)
    requires req !in s.attempts && u !in s.gate.threads
    ensures req !in Apply(RegisterRound(s, u, req), Dispatch(req)).attempts
  {
    assert Apply(s, Enter(u, req)) == s;
    assert Apply(s, Read(u, false)) == s;
    assert Apply(s, Commit(u)) == s;
  }

  // ----- prepare itself -----

  /** Why an attempt is over. */
  predicate Ends(s: State, e: Event, req: Req, a: Attempt) {
    match e
    case AttemptOver(r) => r == req && a.stage == Dispatched
    case CurrentReturned(r, current) => r == req && a.stage == FirstOk && current != Some(a.identity)
    case Read(t, _) =>
      Lookup(s.gate.threads, t) == Some(G.RegisterIn(req, a.account)) && a.account !in s.gate.accounts
    case Commit(t) =>
      && (Lookup(s.gate.threads, t) == Some(G.RegisterGot(req, a.account, false)) ||
          (Lookup(s.gate.threads, t) == Some(G.RegisterGot(req, a.account, true)) && req < |s.gate.requests| &&
           s.gate.requests[req].canceled))
    case _ => false
  }

  lemma OthersEndNothing(s: State, e: Event, req: Req)
    requires req in s.attempts && !e.Read? && !e.Commit?
    ensures req in Apply(s, e).attempts <==> !Ends(s, e, req, s.attempts[req])
  {
  }

  lemma ThreadsEnd(s: State, e: Event, req: Req, t: Thread)
    requires Inv(s) && req in s.attempts && (e == Commit(t) || (e.Read? && e.thread == t))
    ensures req in Apply(s, e).attempts <==> !Ends(s, e, req, s.attempts[req])
  {
    assert ThreadOK(s, t) && AttemptOK(s, req);
  }

  /**
   In every reachable state an attempt ends exactly if it was dispatched and is over, `CurrentAccount` failed or gave
   another identity, its account is gone, or its registration is refused: a canceled request or an unfit row.
   */
  lemma AttemptEndsIff(events: seq<Event>, e: Event, req: Req)
    requires req in Run(events).attempts
    ensures req !in Apply(Run(events), e).attempts <==> Ends(Run(events), e, req, Run(events).attempts[req])
  {
    InvRun(events);
    if e.Read? || e.Commit? {
      ThreadsEnd(Run(events), e, req, e.thread);
    } else {
      OthersEndNothing(Run(events), e, req);
    }
  }

  /** An attempt begins exactly by the choice of a candidate for an admitted request that has none. */
  lemma AttemptBeginsIff(s: State, e: Event, req: Req)
    requires req !in s.attempts
    ensures
      req in Apply(s, e).attempts <==> e.Choose? && e.req == req && req < |s.gate.requests|
    ensures req in Apply(s, e).attempts ==>
        Apply(s, e).attempts[req] == Attempt(e.account, e.identity, Chosen)
  {
  }

  /** The executor with the attempts of its requests. */
  class Preparer {
    const executor: G.Executor
    var identities: map<Account, Identity>
    var attempts: map<Req, Attempt>

    constructor (executor: G.Executor)
      requires executor.Snap() == G.INITIAL
      ensures this.executor == executor && Snap() == INITIAL
    {
      this.executor, identities, attempts := executor, map[], map[];
    }

    ghost function Snap(): State
      reads this, executor
    {
      State(executor.Snap(), identities, attempts)
    }

    /** registerAccount, its last region, and what prepare does with the result. */
    method FinishRegistration(t: Thread) returns (ok: bool)
      requires executor.Valid() && Inv(Snap()) && t in executor.threads && executor.threads[t].RegisterGot?
      modifies this, executor
      ensures executor.Valid() && Inv(Snap()) && Snap() == Apply(old(Snap()), Commit(t))
      ensures ok == CommitOk(old(Snap()), old(executor.threads[t]))
    {
      CommitInv(Snap(), t);
      CommitIsStep(executor.Snap(), t);
      var call := executor.threads[t];
      ok := call.req < |executor.requests| && !executor.requests[call.req].canceled && call.fits;
      executor.CommitRegistration(t);
      attempts := if ok then Registered(attempts, call.req) else attempts - {call.req};
    }

    /** prepare, when `CurrentAccount` has returned: an error or another identity ends the attempt. */
    method ReturnCurrent(req: Req, current: Option<Identity>)
      requires Inv(Snap()) && req in attempts && attempts[req].stage.FirstOk?
      modifies this`attempts
      ensures Inv(Snap()) && Snap() == Apply(old(Snap()), CurrentReturned(req, current))
    {
      QuietInv(Snap(), CurrentReturned(req, current));
      if current.None? || current.value != attempts[req].identity {
        attempts := attempts - {req};
      } else {
        attempts := attempts[req := attempts[req].(stage := Authorized)];
      }
    }
  }
}
