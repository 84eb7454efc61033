/**
 Admission, account registration, management changes and cleanup of requests as a
 step system. The gate is a readers-writer lock: admissions and registrations read
 the store under it, a change holds it alone from its store write until it has
 canceled the matching requests. Steps that do not apply leave the state unchanged.
 */
module ExecutionGate {
  import opened Common
  import L = Limiter

  type Key = L.Key
  type Account = string
  /** A pointer to a request: an index into `State.requests`. */
  type Req = nat
  type Thread = nat

  datatype KeyRow = KeyRow(enabled: bool, limit: int)

  /** Recorded: the usage record was attempted. Done: the slot is free. */
  datatype Phase = Running | Finishing | Recorded | Done

  datatype Request = Request(key: Key, account: Option<Account>, canceled: bool, phase: Phase)

  /** The requests that a change cancels. */
  datatype Target = NoRequests | OnKey(key: Key) | OnAccount(account: Account) | Everything

  datatype Write =
    | Revoke(key: Key)
    | SetLimit(key: Key, limit: int)
    | Disable(account: Account)
    | Delete(account: Account)
    | Enable(account: Account)
    | Shutdown

  /** A store write is applied, not applied, or applied with an error reported. */
  datatype Outcome = Applied | NotApplied | LostReply

  /**
   Where one operation stands. `fits`: the row was enabled and its identity the wanted one.
   `epoch` counts how often the operation's target was opened again.
   */
  datatype Call =
    | AdmitIn(key: Key)
    | AdmitAuth(key: Key, row: KeyRow)
    | AdmitOver(request: Option<Req>)
    | RegisterIn(req: Req, account: Account)
    | RegisterGot(req: Req, account: Account, fits: bool)
    | RegisterOver(ok: bool)
    | ChangeIn(write: Write)
    | Persisted(write: Write, epoch: nat)
    | Marked(write: Write, waits: set<Req>, epoch: nat)
    | Waiting(write: Write, waits: set<Req>, epoch: nat, ok: bool)
    | ChangeOver(write: Write, epoch: nat, ok: bool)

  datatype Note = RecordTried(req: Req) | SlotFreed(req: Req)

  /** `lost` holds the targets closed by a write whose error hid that it was applied. */
  datatype State = State(
    keys: map<Key, KeyRow>, accounts: map<Account, bool>, closed: bool,
    readers: set<Thread>, writer: Option<Thread>, threads: map<Thread, Call>,
    requests: seq<Request>, active: set<Req>, counts: L.Counts,
    epochs: map<Account, nat>, lost: set<Target>, history: multiset<Note>)

  const INITIAL := State(map[], map[], false, {}, None, map[], [], {}, map[], map[], {}, multiset{})

  datatype Event =
    | CreateKey(key: Key, limit: int)
    | CreateAccount(account: Account)
    | AdmitEnter(thread: Thread, key: Key)
    | AdmitRead(thread: Thread)
    | AdmitCommit(thread: Thread, ctxDone: bool)
    | RegisterEnter(thread: Thread, req: Req, account: Account)
    | RegisterRead(thread: Thread, agrees: bool)
    | RegisterCommit(thread: Thread)
    | ChangeEnter(thread: Thread, write: Write)
    | ChangePersist(thread: Thread, outcome: Outcome)
    | ChangeMark(thread: Thread)
    | ChangeRelease(thread: Thread, synced: bool)
    | ChangeReturn(thread: Thread)
    | ChangeGiveUp(thread: Thread)
    | ClientCancel(req: Req)
    | FinishStart(req: Req)
    | FinishRecord(req: Req)
    | FinishRelease(req: Req)

  function TargetOf(w: Write): Target {
    match w
    case Revoke(key) => OnKey(key)
    case Disable(account) => OnAccount(account)
    case Delete(account) => OnAccount(account)
    case Shutdown => Everything
    case _ => NoRequests
  }

  predicate Matches(target: Target, r: Request) {
    match target
    case NoRequests => false
    case OnKey(key) => r.key == key
    case OnAccount(account) => r.account == Some(account)
    case Everything => true
  }

  /** The change publishes the accounts to the catalog before it lets the gate go. */
  predicate OnAccounts(w: Write) {
    w.Disable? || w.Delete? || w.Enable?
  }

  /** The store (or the closed flag) refuses new requests of the target. */
  predicate Blocked(s: State, target: Target) {
    match target
    case NoRequests => false
    case OnKey(key) => key in s.keys && !s.keys[key].enabled
    case OnAccount(account) => Lookup(s.accounts, account) != Some(true)
    case Everything => s.closed
  }

  function Epoch(s: State, target: Target): nat {
    if target.OnAccount? && target.account in s.epochs then s.epochs[target.account] else 0
  }

  // ----- Steps -----

  function Leave(s: State, t: Thread, call: Call): State {
    s.(readers := s.readers - {t}, threads := s.threads[t := call])
  }

  function Unlock(s: State, t: Thread, call: Call): State {
    s.(writer := None, threads := s.threads[t := call])
  }

  function Update(s: State, req: Req, r: Request): State
    requires req < |s.requests|
  {
    s.(requests := s.requests[req := r])
  }

  function Opened(s: State, account: Account): State {
    s.(accounts := s.accounts[account := true],
       epochs := s.epochs[account := Epoch(s, OnAccount(account)) + 1], lost := s.lost - {OnAccount(account)})
  }

  function AdmitCommitStep(s: State, t: Thread, key: Key, row: KeyRow, ctxDone: bool): State {
    if ctxDone || L.Refused(s.counts, key, row.limit).Some? then Leave(s, t, AdmitOver(None))
    else
      Leave(s.(counts := L.Acquired(s.counts, key), active := s.active + {|s.requests|},
               requests := s.requests + [Request(key, None, false, Running)]), t, AdmitOver(Some(|s.requests|)))
  }

  function RegisterCommitStep(s: State, t: Thread, req: Req, account: Account, fits: bool): State {
    if req >= |s.requests| || s.requests[req].canceled || !fits then Leave(s, t, RegisterOver(false))
    else Leave(Update(s, req, s.requests[req].(account := Some(account))), t, RegisterOver(true))
  }

  predicate Exists(s: State, w: Write) {
    match w
    case Revoke(key) => key in s.keys
    case SetLimit(key, limit) => key in s.keys && limit >= L.UNLIMITED
    case Disable(account) => account in s.accounts
    case Delete(account) => account in s.accounts
    case Enable(account) => account in s.accounts
    case Shutdown => true
  }

  function Written(s: State, w: Write): State
    requires Exists(s, w)
  {
    match w
    case Revoke(key) => s.(keys := s.keys[key := s.keys[key].(enabled := false)])
    case SetLimit(key, limit) => s.(keys := s.keys[key := s.keys[key].(limit := limit)])
    case Disable(account) => s.(accounts := s.accounts[account := false])
    case Delete(account) => s.(accounts := s.accounts - {account})
    case Enable(account) => Opened(s, account)
    case Shutdown => s.(closed := true)
  }

  function PersistStep(s: State, t: Thread, w: Write, outcome: Outcome): State {
    var target := TargetOf(w);
    if !w.Shutdown? && (outcome.NotApplied? || !Exists(s, w)) then Unlock(s, t, ChangeOver(w, 0, false))
    else if outcome.LostReply? && !w.Shutdown? then
      Unlock(Written(s, w).(
               lost := if target.NoRequests? || Blocked(s, target) then Written(s, w).lost else s.lost + {target}),
             t, ChangeOver(w, 0, false))
    else
      Written(s, w).(lost := Written(s, w).lost - {target},
                     threads := s.threads[t := Persisted(w, Epoch(Written(s, w), target))])
  }

  function MatchingActive(s: State, target: Target): set<Req> {
    set r | r in s.active && r < |s.requests| && Matches(target, s.requests[r])
  }

  function CancelAll(requests: seq<Request>, which: set<Req>): (canceled: seq<Request>) {
    seq(|requests|, i requires 0 <= i < |requests| =>
      if i in which then requests[i].(canceled := true) else requests[i])
  }

  function MarkStep(s: State, t: Thread, w: Write, epoch: nat): State {
    var waits := MatchingActive(s, TargetOf(w));
    s.(requests := CancelAll(s.requests, waits), threads := s.threads[t := Marked(w, waits, epoch)])
  }

  predicate AllDone(s: State, waits: set<Req>) {
    forall r :: r in waits ==> r !in s.active
  }

  function ReaderStep(s: State, e: Event, t: Thread, call: Call): State {
    match (e, call)
    case (AdmitRead(_), AdmitIn(key)) =>
      if key in s.keys && s.keys[key].enabled then s.(threads := s.threads[t := AdmitAuth(key, s.keys[key])])
      else Leave(s, t, AdmitOver(None))
    case (AdmitCommit(_, ctxDone), AdmitAuth(key, row)) => AdmitCommitStep(s, t, key, row, ctxDone)
    case (RegisterRead(_, agrees), RegisterIn(req, account)) =>
      if account in s.accounts then
          s.(threads := s.threads[t := RegisterGot(req, account, s.accounts[account] && agrees)])
      else Leave(s, t, RegisterOver(false))
    case (RegisterCommit(_), RegisterGot(req, account, fits)) => RegisterCommitStep(s, t, req, account, fits)
    case _ => s
  }

  function ChangeStep(s: State, e: Event, t: Thread, call: Call): State {
    match (e, call)
    case (ChangePersist(_, outcome), ChangeIn(w)) => PersistStep(s, t, w, outcome)
    case (ChangeMark(_), Persisted(w, epoch)) => MarkStep(s, t, w, epoch)
    case (ChangeRelease(_, synced), Marked(w, waits, epoch)) =>
      Unlock(s, t, Waiting(w, waits, epoch, synced || !OnAccounts(w)))
    case (ChangeReturn(_), Waiting(w, waits, epoch, ok)) =>
      if AllDone(s, waits) then s.(threads := s.threads[t := ChangeOver(w, epoch, ok)]) else s
    case (ChangeGiveUp(_), Waiting(w, waits, epoch, ok)) =>
      if waits == {} || w.Shutdown? then s else s.(threads := s.threads[t := ChangeOver(w, epoch, false)])
    case _ => s
  }

  predicate IsReader(e: Event) {
    e.AdmitRead? || e.AdmitCommit? || e.RegisterRead? || e.RegisterCommit?
  }

  function ThreadStep(s: State, e: Event, t: Thread, call: Call): State {
    if IsReader(e) then ReaderStep(s, e, t, call) else ChangeStep(s, e, t, call)
  }

  function EnterStep(s: State, e: Event, t: Thread): State {
    if s.writer.Some? then s
    else match e
      case AdmitEnter(_, key) =>
        if s.closed then s.(threads := s.threads[t := AdmitOver(None)])
        else s.(readers := s.readers + {t}, threads := s.threads[t := AdmitIn(key)])
      case RegisterEnter(_, req, account) =>
          s.(readers := s.readers + {t}, threads := s.threads[t := RegisterIn(req, account)])
      case ChangeEnter(_, w) =>
        if s.readers != {} then s
        else if s.closed && !w.Shutdown? then s.(threads := s.threads[t := ChangeOver(w, 0, false)])
        else s.(writer := Some(t), threads := s.threads[t := ChangeIn(w)])
      case _ => s
  }

  function RequestStep(s: State, e: Event, req: Req): State
    requires req < |s.requests|
  {
    var r := s.requests[req];
    match e
    case ClientCancel(_) => Update(s, req, r.(canceled := true))
    case FinishStart(_) => if r.phase.Running? then Update(s, req, r.(canceled := true, phase := Finishing)) else s
    case FinishRecord(_) =>
      if r.phase.Finishing?
      then Update(s, req, r.(phase := Recorded)).(history := s.history + multiset{RecordTried(req)}) else s
    case FinishRelease(_) =>
      if r.phase.Recorded? && r.key in s.counts
      then Update(s, req, r.(phase := Done)).(
             counts := L.Freed(s.counts, r.key), active := s.active - {req},
             history := s.history + multiset{SlotFreed(req)})
      else s
    case _ => s
  }

  predicate IsEnter(e: Event) {
    e.AdmitEnter? || e.RegisterEnter? || e.ChangeEnter?
  }

  predicate IsRequest(e: Event) {
    e.ClientCancel? || e.FinishStart? || e.FinishRecord? || e.FinishRelease?
  }

  function Apply(s: State, e: Event): State {
    if e.CreateKey? then (if e.key in s.keys then s else s.(keys := s.keys[e.key := KeyRow(true, e.limit)]))
    else if e.CreateAccount? then (if e.account in s.accounts then s else Opened(s, e.account))
    else if IsEnter(e) then (if e.thread in s.threads then s else EnterStep(s, e, e.thread))
    else if IsRequest(e) then (if e.req < |s.requests| then RequestStep(s, e, e.req) else s)
    else if e.thread in s.threads then ThreadStep(s, e, e.thread, s.threads[e.thread])
    else s
  }

  function Run(events: seq<Event>): State {
    if events == [] then INITIAL else Apply(Run(events[..|events| - 1]), events[|events| - 1])
  }

  // ----- The invariant -----

  /** The writer has closed the target and is about to cancel its requests. */
  predicate BeingMarked(s: State, target: Target) {
    s.writer.Some? && s.writer.value in s.threads &&
    s.threads[s.writer.value].Persisted? && TargetOf(s.threads[s.writer.value].write) == target
  }

  predicate Covered(s: State, r: Request, target: Target) {
    Matches(target, r) && Blocked(s, target) && target !in s.lost && !r.canceled ==> BeingMarked(s, target)
  }

  ghost predicate RequestCovered(s: State, r: Request) {
    forall target :: Covered(s, r, target)
  }

  /** Unless the target was opened since, it is closed and only requests in `waits` are left of it. */
  ghost predicate Left(s: State, target: Target, waits: set<Req>, epoch: nat) {
    && epoch <= Epoch(s, target)
    && (!target.NoRequests? && epoch == Epoch(s, target) ==>
          && Blocked(s, target) && target !in s.lost
          && forall r :: r in s.active && r < |s.requests| && Matches(target, s.requests[r]) ==> r in waits)
  }

  ghost predicate CallOK(s: State, t: Thread, call: Call) {
    match call
    case AdmitIn(_) => t in s.readers && !s.closed
    case AdmitAuth(key, row) => t in s.readers && !s.closed && row.enabled && Lookup(s.keys, key) == Some(row)
    case RegisterIn(_, _) => t in s.readers
    case RegisterGot(_, account, fits) => t in s.readers && (fits ==> Lookup(s.accounts, account) == Some(true))
    case ChangeIn(_) => s.writer == Some(t)
    case Persisted(w, epoch) =>
      && s.writer == Some(t) && epoch <= Epoch(s, TargetOf(w))
      && (!TargetOf(w).NoRequests? && epoch == Epoch(s, TargetOf(w)) ==>
          Blocked(s, TargetOf(w)) && TargetOf(w) !in s.lost)
    case Marked(w, waits, epoch) => s.writer == Some(t) && Left(s, TargetOf(w), waits, epoch)
    case Waiting(w, waits, epoch, _) => Left(s, TargetOf(w), waits, epoch)
    case ChangeOver(w, epoch, ok) => ok ==> Left(s, TargetOf(w), {}, epoch)
    case _ => true
  }

  ghost predicate CallsOK(s: State) {
    && (s.writer.Some? ==> s.readers == {})
    && forall t :: t in s.threads ==> CallOK(s, t, s.threads[t])
  }

  ghost predicate AllCovered(s: State) {
    forall r :: r in s.active && r < |s.requests| ==> RequestCovered(s, s.requests[r])
  }

  function ActiveOf(s: State, key: Key): set<Req> {
    set r | r in s.active && r < |s.requests| && s.requests[r].key == key
  }

  /** The limiter counts exactly the active requests of each key. */
  ghost predicate SlotsOK(s: State) {
    L.Pruned(s.counts) && forall key :: L.Count(s.counts, key) == |ActiveOf(s, key)|
  }

  predicate PhaseOK(s: State, req: Req)
    requires req < |s.requests|
  {
    var phase := s.requests[req].phase;
    && (req in s.active <==> !phase.Done?)
    && s.history[RecordTried(req)] == (if phase.Recorded? || phase.Done? then 1 else 0)
    && s.history[SlotFreed(req)] == (if phase.Done? then 1 else 0)
  }

  ghost predicate PhasesOK(s: State) {
    && (forall r :: r in s.active ==> r < |s.requests|)
    && (forall n :: n in s.history ==> n.req < |s.requests|)
    && (forall req :: 0 <= req < |s.requests| ==> PhaseOK(s, req))
  }

  ghost predicate Inv(s: State) {
    CallsOK(s) && AllCovered(s) && SlotsOK(s) && PhasesOK(s)
  }

  // ----- Preservation: what a step leaves alone -----

  predicate StoreSame(s: State, x: State) {
    s.keys == x.keys && s.accounts == x.accounts && s.closed == x.closed && s.epochs == x.epochs && s.lost == x.lost
  }

  /** No request becomes active or changes what it matches; canceled requests stay canceled. */
  ghost predicate RequestsShrink(s: State, x: State) {
    && x.active <= s.active
    && forall r :: r in x.active && r < |x.requests| ==>
         && r < |s.requests| && x.requests[r].key == s.requests[r].key && x.requests[r].account == s.requests[r].account
         && (s.requests[r].canceled ==> x.requests[r].canceled)
  }

  lemma LeftSame(s: State, x: State, target: Target, waits: set<Req>, epoch: nat)
    requires StoreSame(s, x) && RequestsShrink(s, x) && Left(s, target, waits, epoch)
    ensures Left(x, target, waits, epoch)
  {
  }

  lemma CallSame(s: State, x: State, t: Thread, call: Call)
    requires StoreSame(s, x) && RequestsShrink(s, x) && CallOK(s, t, call)
    requires (t in s.readers ==> t in x.readers) && (s.writer == Some(t) ==> x.writer == Some(t))
    ensures CallOK(x, t, call)
  {
    match call
    case Marked(w, waits, epoch) => LeftSame(s, x, TargetOf(w), waits, epoch);
    case Waiting(w, waits, epoch, _) => LeftSame(s, x, TargetOf(w), waits, epoch);
    case ChangeOver(w, epoch, ok) => if ok { LeftSame(s, x, TargetOf(w), {}, epoch); }
    case _ =>
  }

  /** A step of thread `t` that changes no store row and starts no request. */
  lemma CallsFrame(s: State, x: State, t: Thread, call: Call)
    requires CallsOK(s) && StoreSame(s, x) && RequestsShrink(s, x)
    requires x.threads == s.threads[t := call] && CallOK(x, t, call)
    requires forall u :: u != t && u in s.readers ==> u in x.readers
    requires forall u :: u != t && s.writer == Some(u) ==> x.writer == Some(u)
    requires x.writer.Some? ==> x.readers == {}
    ensures CallsOK(x)
  {
    forall u | u in x.threads ensures CallOK(x, u, x.threads[u]) {
      if u != t {
        assert CallOK(s, u, s.threads[u]);
        CallSame(s, x, u, s.threads[u]);
      }
    }
  }

  lemma CoveredFrame(s: State, x: State)
    requires AllCovered(s) && StoreSame(s, x) && RequestsShrink(s, x)
    requires forall target :: BeingMarked(s, target) ==> BeingMarked(x, target)
    ensures AllCovered(x)
  {
    forall r | r in x.active && r < |x.requests| ensures RequestCovered(x, x.requests[r]) {
      assert RequestCovered(s, s.requests[r]);
      forall target ensures Covered(x, x.requests[r], target) {
        assert Covered(s, s.requests[r], target);
      }
    }
  }

  lemma SlotsFrame(s: State, x: State)
    requires SlotsOK(s) && x.counts == s.counts && x.active == s.active && |x.requests| == |s.requests|
    requires forall r :: 0 <= r < |s.requests| ==> x.requests[r].key == s.requests[r].key
    ensures SlotsOK(x)
  {
    forall key ensures L.Count(x.counts, key) == |ActiveOf(x, key)| {
      assert ActiveOf(x, key) == ActiveOf(s, key);
    }
  }

  lemma PhasesFrame(s: State, x: State)
    requires PhasesOK(s) && x.active == s.active && |x.requests| == |s.requests| && x.history == s.history
    requires forall r :: 0 <= r < |s.requests| ==> x.requests[r].phase == s.requests[r].phase
    ensures PhasesOK(x)
  {
    forall r | 0 <= r < |x.requests| ensures PhaseOK(x, r) {
      assert PhaseOK(s, r);
    }
  }

  /** Same requests and store, and no mark is given up. */
  lemma QuietInv(s: State, x: State)
    requires Inv(s) && CallsOK(x) && StoreSame(s, x)
    requires x.requests == s.requests && x.active == s.active && x.counts == s.counts && x.history == s.history
    requires forall target :: BeingMarked(s, target) ==> BeingMarked(x, target)
    ensures Inv(x)
  {
    CoveredFrame(s, x);
    SlotsFrame(s, x);
    PhasesFrame(s, x);
  }

  // ----- Preservation: each step -----

  /** A new thread takes or is refused the gate. */
  lemma NewThreadInv(s: State, t: Thread, x: State)
    requires Inv(s) && t !in s.threads && s.writer.None? && t in x.threads
    requires x == s.(threads := s.threads[t := x.threads[t]], readers := x.readers, writer := x.writer)
    requires s.readers <= x.readers && (x.writer.Some? ==> x.readers == {}) && CallOK(x, t, x.threads[t])
    ensures Inv(x)
  {
    CallsFrame(s, x, t, x.threads[t]);
    QuietInv(s, x);
  }

  lemma EnterInv(s: State, e: Event, t: Thread)
    requires Inv(s) && t !in s.threads
    ensures Inv(EnterStep(s, e, t))
  {
    var x := EnterStep(s, e, t);
    if x != s {
      EnterFrame(s, e, t);
      NewThreadInv(s, t, x);
    }
  }

  lemma EnterFrame(s: State, e: Event, t: Thread)
    requires t !in s.threads && EnterStep(s, e, t) != s
    ensures
      var x := EnterStep(s, e, t);
      && s.writer.None? && t in x.threads
      && x == s.(threads := s.threads[t := x.threads[t]], readers := x.readers, writer := x.writer)
      && s.readers <= x.readers && (x.writer.Some? ==> x.readers == {}) && CallOK(x, t, x.threads[t])
  {
  }

  /** A thread moves on inside the gate. */
  lemma MoveInv(s: State, t: Thread, call: Call)
    requires Inv(s) && CallOK(s, t, call)
    requires forall target :: BeingMarked(s, target) ==> s.writer != Some(t)
    ensures Inv(s.(threads := s.threads[t := call]))
  {
    var x := s.(threads := s.threads[t := call]);
    CallSame(s, x, t, call);
    CallsFrame(s, x, t, call);
    QuietInv(s, x);
  }

  lemma LeaveInv(s: State, t: Thread, call: Call)
    requires Inv(s) && (call.AdmitOver? || call.RegisterOver?)
    requires t in s.readers
    ensures Inv(Leave(s, t, call))
  {
    var x := Leave(s, t, call);
    CallsFrame(s, x, t, call);
    QuietInv(s, x);
  }

  lemma AdmitReadInv(s: State, t: Thread, key: Key)
    requires Inv(s) && t in s.threads && s.threads[t] == AdmitIn(key)
    ensures Inv(ReaderStep(s, AdmitRead(t), t, AdmitIn(key)))
  {
    assert CallOK(s, t, s.threads[t]);
    if key in s.keys && s.keys[key].enabled {
      MoveInv(s, t, AdmitAuth(key, s.keys[key]));
    } else {
      LeaveInv(s, t, AdmitOver(None));
    }
  }

  lemma RegisterReadInv(s: State, t: Thread, req: Req, account: Account, agrees: bool)
    requires Inv(s) && t in s.threads && s.threads[t] == RegisterIn(req, account)
    ensures Inv(ReaderStep(s, RegisterRead(t, agrees), t, RegisterIn(req, account)))
  {
    assert CallOK(s, t, s.threads[t]);
    if account in s.accounts {
      MoveInv(s, t, RegisterGot(req, account, s.accounts[account] && agrees));
    } else {
      LeaveInv(s, t, RegisterOver(false));
    }
  }

  /** A new request of an enabled key is matched by no closed target. */
  lemma NewRequestMatchesNothingClosed(s: State, key: Key, target: Target)
    requires !s.closed && key in s.keys && s.keys[key].enabled
    ensures Matches(target, Request(key, None, false, Running)) ==> !Blocked(s, target)
  {
  }

  lemma AdmitCalls(s: State, t: Thread, key: Key, row: KeyRow, x: State)
    requires CallsOK(s) && t in s.threads && s.threads[t] == AdmitAuth(key, row)
    requires PhasesOK(s) && x == AdmitCommitStep(s, t, key, row, false) && L.Refused(s.counts, key, row.limit).None?
    ensures CallsOK(x)
  {
    assert CallOK(s, t, s.threads[t]);
    forall u | u in x.threads ensures CallOK(x, u, x.threads[u]) {
      if u != t {
        assert CallOK(s, u, s.threads[u]);
        AdmitKeepsCall(s, t, key, row, x, u, s.threads[u]);
      }
    }
  }

  lemma AdmitKeepsLeft(s: State, t: Thread, key: Key, row: KeyRow, x: State, target: Target, waits: set<Req>,
      epoch: nat)
    requires !s.closed && Lookup(s.keys, key) == Some(row) && row.enabled
    requires x == AdmitCommitStep(s, t, key, row, false) && L.Refused(s.counts, key, row.limit).None?
    requires Left(s, target, waits, epoch)
    ensures Left(x, target, waits, epoch)
  {
    NewRequestMatchesNothingClosed(s, key, target);
  }

  lemma AdmitKeepsCall(s: State, t: Thread, key: Key, row: KeyRow, x: State, u: Thread, call: Call)
    requires !s.closed && Lookup(s.keys, key) == Some(row) && row.enabled
    requires x == AdmitCommitStep(s, t, key, row, false) && L.Refused(s.counts, key, row.limit).None?
    requires u != t && CallOK(s, u, call)
    ensures CallOK(x, u, call)
  {
    match call
    case Marked(w, waits, epoch) => AdmitKeepsLeft(s, t, key, row, x, TargetOf(w), waits, epoch);
    case Waiting(w, waits, epoch, _) => AdmitKeepsLeft(s, t, key, row, x, TargetOf(w), waits, epoch);
    case ChangeOver(w, epoch, ok) => if ok { AdmitKeepsLeft(s, t, key, row, x, TargetOf(w), {}, epoch); }
    case _ =>
  }

  lemma AdmitCount(s: State, x: State, key: Key, k: Key)
    requires SlotsOK(s) && PhasesOK(s)
    requires x.counts == L.Acquired(s.counts, key) && x.active == s.active + {|s.requests|}
    requires x.requests == s.requests + [Request(key, None, false, Running)]
    ensures L.Count(x.counts, k) == |ActiveOf(x, k)|
  {
    assert L.Count(s.counts, k) == |ActiveOf(s, k)|;
    if k == key {
      assert ActiveOf(x, k) == ActiveOf(s, k) + {|s.requests|};
    } else {
      assert ActiveOf(x, k) == ActiveOf(s, k);
    }
  }

  lemma AdmitPhases(s: State, x: State, key: Key)
    requires PhasesOK(s) && x.history == s.history && x.active == s.active + {|s.requests|}
    requires x.requests == s.requests + [Request(key, None, false, Running)]
    ensures PhasesOK(x)
  {
    forall r | 0 <= r < |x.requests| ensures PhaseOK(x, r) {
      if r < |s.requests| {
        assert PhaseOK(s, r);
      }
    }
  }

  lemma AdmitSlots(s: State, t: Thread, key: Key, row: KeyRow, x: State)
    requires SlotsOK(s) && PhasesOK(s)
    requires x == AdmitCommitStep(s, t, key, row, false) && L.Refused(s.counts, key, row.limit).None?
    ensures SlotsOK(x) && PhasesOK(x)
  {
    forall k ensures L.Count(x.counts, k) == |ActiveOf(x, k)| {
      AdmitCount(s, x, key, k);
    }
    AdmitPhases(s, x, key);
  }

  lemma AdmitCovered(s: State, t: Thread, key: Key, row: KeyRow, x: State)
    requires AllCovered(s) && PhasesOK(s) && t in s.threads && s.threads[t].AdmitAuth?
    requires !s.closed && Lookup(s.keys, key) == Some(row) && row.enabled
    requires x == AdmitCommitStep(s, t, key, row, false) && L.Refused(s.counts, key, row.limit).None?
    ensures AllCovered(x)
  {
    forall r | r in x.active && r < |x.requests| ensures RequestCovered(x, x.requests[r]) {
      if r < |s.requests| {
        assert RequestCovered(s, s.requests[r]);
      }
      forall target ensures Covered(x, x.requests[r], target) {
        NewRequestMatchesNothingClosed(s, key, target);
        assert r < |s.requests| ==> Covered(s, s.requests[r], target);
      }
    }
  }

  lemma AdmitCommitInv(s: State, t: Thread, ctxDone: bool)
    requires Inv(s) && t in s.threads && s.threads[t].AdmitAuth?
    ensures Inv(AdmitCommitStep(s, t, s.threads[t].key, s.threads[t].row, ctxDone))
  {
    var key, row := s.threads[t].key, s.threads[t].row;
    assert CallOK(s, t, s.threads[t]);
    if ctxDone || L.Refused(s.counts, key, row.limit).Some? {
      LeaveInv(s, t, AdmitOver(None));
    } else {
      var x := AdmitCommitStep(s, t, key, row, ctxDone);
      AdmitCalls(s, t, key, row, x);
      AdmitCovered(s, t, key, row, x);
      AdmitSlots(s, t, key, row, x);
    }
  }

  lemma RegisterKeepsLeft(s: State, x: State, req: Req, account: Account, target: Target, waits: set<Req>, epoch: nat)
    requires req < |s.requests| && Lookup(s.accounts, account) == Some(true)
    requires StoreSame(s, x) && x.active == s.active
    requires x.requests == s.requests[req := s.requests[req].(account := Some(account))]
    requires Left(s, target, waits, epoch)
    ensures Left(x, target, waits, epoch)
  {
  }

  lemma RegisterKeepsCall(s: State, x: State, req: Req, account: Account, u: Thread, call: Call)
    requires req < |s.requests| && Lookup(s.accounts, account) == Some(true)
    requires StoreSame(s, x) && x.active == s.active && x.writer == s.writer
    requires x.requests == s.requests[req := s.requests[req].(account := Some(account))]
    requires CallOK(s, u, call) && (u in s.readers ==> u in x.readers)
    ensures CallOK(x, u, call)
  {
    match call
    case Marked(w, waits, epoch) => RegisterKeepsLeft(s, x, req, account, TargetOf(w), waits, epoch);
    case Waiting(w, waits, epoch, _) => RegisterKeepsLeft(s, x, req, account, TargetOf(w), waits, epoch);
    case ChangeOver(w, epoch, ok) => if ok { RegisterKeepsLeft(s, x, req, account, TargetOf(w), {}, epoch); }
    case _ =>
  }

  lemma RegisterCovered(s: State, x: State, req: Req, account: Account)
    requires AllCovered(s) && req < |s.requests| && Lookup(s.accounts, account) == Some(true)
    requires StoreSame(s, x) && x.active == s.active
    requires x.requests == s.requests[req := s.requests[req].(account := Some(account))]
    requires forall target :: BeingMarked(s, target) ==> BeingMarked(x, target)
    ensures AllCovered(x)
  {
    forall r | r in x.active && r < |x.requests| ensures RequestCovered(x, x.requests[r]) {
      assert RequestCovered(s, s.requests[r]);
      forall target ensures Covered(x, x.requests[r], target) {
        assert Covered(s, s.requests[r], target);
      }
    }
  }

  lemma RegisterCommitInv(s: State, t: Thread)
    requires Inv(s) && t in s.threads && s.threads[t].RegisterGot?
    ensures var c := s.threads[t]; Inv(RegisterCommitStep(s, t, c.req, c.account, c.fits))
  {
    var c := s.threads[t];
    var x := RegisterCommitStep(s, t, c.req, c.account, c.fits);
    assert CallOK(s, t, c);
    if c.req >= |s.requests| || s.requests[c.req].canceled || !c.fits {
      LeaveInv(s, t, RegisterOver(false));
    } else {
      forall u | u in x.threads ensures CallOK(x, u, x.threads[u]) {
        if u != t {
          assert CallOK(s, u, s.threads[u]);
          RegisterKeepsCall(s, x, c.req, c.account, u, s.threads[u]);
        }
      }
      RegisterCovered(s, x, c.req, c.account);
      SlotsFrame(s, x);
      PhasesFrame(s, x);
    }
  }

  lemma WriteKeepsLeft(s: State, w: Write, x: State, target: Target, waits: set<Req>, epoch: nat)
    requires Exists(s, w) && x.requests == s.requests && x.active == s.active
    requires x.keys == Written(s, w).keys && x.accounts == Written(s, w).accounts && x.closed == Written(s, w).closed
    requires x.epochs == Written(s, w).epochs
    requires forall tg :: tg in x.lost && tg !in s.lost ==> !Blocked(s, tg)
    requires Left(s, target, waits, epoch)
    ensures Left(x, target, waits, epoch)
  {
  }

  /** While a thread holds the gate alone, no other thread is inside it. */
  lemma WriteKeepsCall(s: State, w: Write, x: State, t: Thread, u: Thread, call: Call)
    requires Exists(s, w) && x.requests == s.requests && x.active == s.active
    requires x.keys == Written(s, w).keys && x.accounts == Written(s, w).accounts && x.closed == Written(s, w).closed
    requires x.epochs == Written(s, w).epochs
    requires forall tg :: tg in x.lost && tg !in s.lost ==> !Blocked(s, tg)
    requires s.writer == Some(t) && u != t && s.readers == {}
    requires CallOK(s, u, call)
    ensures CallOK(x, u, call)
  {
    match call
    case Waiting(w', waits, epoch, _) => WriteKeepsLeft(s, w, x, TargetOf(w'), waits, epoch);
    case ChangeOver(w', epoch, ok) => if ok { WriteKeepsLeft(s, w, x, TargetOf(w'), {}, epoch); }
    case _ =>
  }

  /** A store write that keeps the gate closed, or opens it again. */
  lemma WriteCalls(s: State, t: Thread, w: Write, x: State)
    requires CallsOK(s) && t in s.threads && s.threads[t] == ChangeIn(w) && Exists(s, w)
    requires x.requests == s.requests && x.active == s.active && x.readers == s.readers
    requires x.keys == Written(s, w).keys && x.accounts == Written(s, w).accounts && x.closed == Written(s, w).closed
    requires x.epochs == Written(s, w).epochs
    requires forall tg :: tg in x.lost && tg !in s.lost ==> !Blocked(s, tg)
    requires t in x.threads && x.threads == s.threads[t := x.threads[t]] && CallOK(x, t, x.threads[t])
    ensures CallsOK(x)
  {
    assert CallOK(s, t, s.threads[t]);
    forall u | u in x.threads ensures CallOK(x, u, x.threads[u]) {
      if u != t {
        assert CallOK(s, u, s.threads[u]);
        WriteKeepsCall(s, w, x, t, u, s.threads[u]);
      }
    }
  }

  lemma AppliedCalls(s: State, t: Thread, w: Write, outcome: Outcome)
    requires CallsOK(s) && t in s.threads && s.threads[t] == ChangeIn(w) && Exists(s, w)
    requires w.Shutdown? || outcome.Applied?
    ensures CallsOK(PersistStep(s, t, w, outcome))
  {
    assert CallOK(s, t, s.threads[t]);
    WriteCalls(s, t, w, PersistStep(s, t, w, outcome));
  }

  lemma LostCalls(s: State, t: Thread, w: Write)
    requires CallsOK(s) && t in s.threads && s.threads[t] == ChangeIn(w) && Exists(s, w) && !w.Shutdown?
    ensures CallsOK(PersistStep(s, t, w, LostReply))
  {
    assert CallOK(s, t, s.threads[t]);
    WriteCalls(s, t, w, PersistStep(s, t, w, LostReply));
  }

  lemma PersistCalls(s: State, t: Thread, w: Write, outcome: Outcome)
    requires CallsOK(s) && t in s.threads && s.threads[t] == ChangeIn(w) && Exists(s, w)
    requires w.Shutdown? || !outcome.NotApplied?
    ensures CallsOK(PersistStep(s, t, w, outcome))
  {
    if outcome.LostReply? && !w.Shutdown? {
      LostCalls(s, t, w);
    } else {
      AppliedCalls(s, t, w, outcome);
    }
  }

  lemma PersistCovered(s: State, t: Thread, w: Write, outcome: Outcome)
    requires AllCovered(s) && s.writer == Some(t) && t in s.threads && s.threads[t] == ChangeIn(w) && Exists(s, w)
    requires w.Shutdown? || !outcome.NotApplied?
    ensures AllCovered(PersistStep(s, t, w, outcome))
  {
    var x := PersistStep(s, t, w, outcome);
    forall r | r in x.active && r < |x.requests| ensures RequestCovered(x, x.requests[r]) {
      assert RequestCovered(s, s.requests[r]);
      forall target ensures Covered(x, x.requests[r], target) {
        assert Covered(s, s.requests[r], target);
      }
    }
  }

  lemma WrittenFrame(s: State, w: Write)
    requires Exists(s, w)
    ensures
      var x := Written(s, w);
      x.requests == s.requests && x.active == s.active && x.counts == s.counts && x.history == s.history
  {
  }

  lemma PersistFrame(s: State, t: Thread, w: Write, outcome: Outcome)
    ensures
      var x := PersistStep(s, t, w, outcome);
      x.requests == s.requests && x.active == s.active && x.counts == s.counts && x.history == s.history
  {
    if Exists(s, w) {
      WrittenFrame(s, w);
    }
  }

  /** A store write changes no thread but its own. */
  lemma PersistKeepsOthers(s: State, u: Thread, w: Write, outcome: Outcome, t: Thread)
    requires t != u
    ensures Lookup(PersistStep(s, u, w, outcome).threads, t) == Lookup(s.threads, t)
  {
    assert Exists(s, w) ==> Written(s, w).threads == s.threads;
  }

  lemma RefusedWriteInv(s: State, t: Thread, w: Write)
    requires Inv(s) && t in s.threads && s.threads[t] == ChangeIn(w)
    ensures Inv(Unlock(s, t, ChangeOver(w, 0, false)))
  {
    var x := Unlock(s, t, ChangeOver(w, 0, false));
    assert CallOK(s, t, s.threads[t]);
    CallsFrame(s, x, t, x.threads[t]);
    QuietInv(s, x);
  }

  lemma PersistInv(s: State, t: Thread, outcome: Outcome)
    requires Inv(s) && t in s.threads && s.threads[t].ChangeIn?
    ensures Inv(PersistStep(s, t, s.threads[t].write, outcome))
  {
    var w := s.threads[t].write;
    if !w.Shutdown? && (outcome.NotApplied? || !Exists(s, w)) {
      RefusedWriteInv(s, t, w);
    } else {
      assert CallOK(s, t, s.threads[t]);
      var x := PersistStep(s, t, w, outcome);
      PersistCalls(s, t, w, outcome);
      PersistCovered(s, t, w, outcome);
      PersistFrame(s, t, w, outcome);
      SlotsFrame(s, x);
      PhasesFrame(s, x);
    }
  }

  lemma MarkInv(s: State, t: Thread)
    requires Inv(s) && t in s.threads && s.threads[t].Persisted?
    ensures Inv(MarkStep(s, t, s.threads[t].write, s.threads[t].epoch))
  {
    var w := s.threads[t].write;
    var x := MarkStep(s, t, w, s.threads[t].epoch);
    assert CallOK(s, t, s.threads[t]);
    CallsFrame(s, x, t, x.threads[t]);
    forall r | r in x.active && r < |x.requests| ensures RequestCovered(x, x.requests[r]) {
      assert RequestCovered(s, s.requests[r]);
      forall target ensures Covered(x, x.requests[r], target) {
        assert Covered(s, s.requests[r], target);
      }
    }
    SlotsFrame(s, x);
    PhasesFrame(s, x);
  }

  lemma ReleaseInv(s: State, t: Thread, synced: bool)
    requires Inv(s) && t in s.threads && s.threads[t].Marked?
    ensures Inv(ChangeStep(s, ChangeRelease(t, synced), t, s.threads[t]))
  {
    var x := ChangeStep(s, ChangeRelease(t, synced), t, s.threads[t]);
    assert CallOK(s, t, s.threads[t]);
    CallsFrame(s, x, t, x.threads[t]);
    QuietInv(s, x);
  }

  lemma ReturnInv(s: State, e: Event, t: Thread)
    requires Inv(s) && t in s.threads && s.threads[t].Waiting? && (e.ChangeReturn? || e.ChangeGiveUp?)
    ensures Inv(ChangeStep(s, e, t, s.threads[t]))
  {
    var x := ChangeStep(s, e, t, s.threads[t]);
    assert CallOK(s, t, s.threads[t]);
    if x != s {
      CallsFrame(s, x, t, x.threads[t]);
      QuietInv(s, x);
    }
  }

  lemma RequestFrame(s: State, x: State)
    requires Inv(s) && StoreSame(s, x) && RequestsShrink(s, x)
    requires x.threads == s.threads && x.readers == s.readers && x.writer == s.writer
    ensures CallsOK(x) && AllCovered(x)
  {
    forall u | u in x.threads ensures CallOK(x, u, x.threads[u]) {
      assert CallOK(s, u, s.threads[u]);
      CallSame(s, x, u, s.threads[u]);
    }
    CoveredFrame(s, x);
  }

  lemma FreeSlots(s: State, x: State, req: Req)
    requires SlotsOK(s) && req in s.active && req < |s.requests| && s.requests[req].key in s.counts
    requires x.counts == L.Freed(s.counts, s.requests[req].key) && x.active == s.active - {req}
    requires |x.requests| == |s.requests| && forall r :: 0 <= r < |s.requests| ==>
        x.requests[r].key == s.requests[r].key
    ensures SlotsOK(x)
  {
    var key := s.requests[req].key;
    forall k ensures L.Count(x.counts, k) == |ActiveOf(x, k)| {
      assert L.Count(s.counts, k) == |ActiveOf(s, k)|;
      if k == key {
        assert ActiveOf(x, k) == ActiveOf(s, k) - {req};
      } else {
        assert ActiveOf(x, k) == ActiveOf(s, k);
      }
    }
  }

  lemma RequestPhases(s: State, e: Event, req: Req)
    requires PhasesOK(s) && req < |s.requests|
    ensures PhasesOK(RequestStep(s, e, req))
  {
    var x := RequestStep(s, e, req);
    forall r | 0 <= r < |x.requests| ensures PhaseOK(x, r) {
      assert PhaseOK(s, r);
    }
  }

  lemma RequestSlots(s: State, e: Event, req: Req)
    requires SlotsOK(s) && PhasesOK(s) && req < |s.requests|
    ensures SlotsOK(RequestStep(s, e, req))
  {
    var x := RequestStep(s, e, req);
    assert PhaseOK(s, req);
    if e.FinishRelease? && x != s {
      FreeSlots(s, x, req);
    } else {
      SlotsFrame(s, x);
    }
  }

  lemma UpdateShrinks(s: State, req: Req, r: Request)
    requires req < |s.requests| && r.key == s.requests[req].key && r.account == s.requests[req].account
    requires s.requests[req].canceled ==> r.canceled
    ensures RequestsShrink(s, Update(s, req, r))
  {
  }

  lemma ReleaseShrinks(s: State, req: Req)
    requires req < |s.requests|
    ensures RequestsShrink(s, RequestStep(s, FinishRelease(req), req))
  {
  }

  lemma RequestShrinks(s: State, e: Event, req: Req)
    requires req < |s.requests|
    ensures RequestsShrink(s, RequestStep(s, e, req))
  {
    var r := s.requests[req];
    match e
    case ClientCancel(_) => UpdateShrinks(s, req, r.(canceled := true));
    case FinishStart(_) => UpdateShrinks(s, req, r.(canceled := true, phase := Finishing));
    case FinishRecord(_) => UpdateShrinks(s, req, r.(phase := Recorded));
    case FinishRelease(_) => ReleaseShrinks(s, req);
    case _ =>
  }

  lemma RequestKeepsGate(s: State, e: Event, req: Req)
    requires req < |s.requests|
    ensures
      var x := RequestStep(s, e, req);
      StoreSame(s, x) && x.threads == s.threads && x.readers == s.readers && x.writer == s.writer
  {
  }

  lemma RequestInv(s: State, e: Event, req: Req)
    requires Inv(s) && req < |s.requests|
    ensures Inv(RequestStep(s, e, req))
  {
    RequestKeepsGate(s, e, req);
    RequestShrinks(s, e, req);
    RequestFrame(s, RequestStep(s, e, req));
    RequestPhases(s, e, req);
    RequestSlots(s, e, req);
  }

  lemma CreateKeyInv(s: State, key: Key, limit: int)
    requires Inv(s) && key !in s.keys
    ensures Inv(Apply(s, CreateKey(key, limit)))
  {
    var x := Apply(s, CreateKey(key, limit));
    forall u | u in x.threads ensures CallOK(x, u, x.threads[u]) {
      assert CallOK(s, u, s.threads[u]);
    }
    forall r | r in x.active && r < |x.requests| ensures RequestCovered(x, x.requests[r]) {
      assert RequestCovered(s, s.requests[r]);
      forall target ensures Covered(x, x.requests[r], target) {
        assert Covered(s, s.requests[r], target);
      }
    }
    SlotsFrame(s, x);
    PhasesFrame(s, x);
  }

  lemma OpenKeepsLeft(s: State, account: Account, target: Target, waits: set<Req>, epoch: nat)
    requires Left(s, target, waits, epoch)
    ensures Left(Opened(s, account), target, waits, epoch)
  {
  }

  lemma OpenKeepsCall(s: State, account: Account, u: Thread, call: Call)
    requires account !in s.accounts && CallOK(s, u, call)
    ensures CallOK(Opened(s, account), u, call)
  {
    match call
    case Marked(w, waits, epoch) => OpenKeepsLeft(s, account, TargetOf(w), waits, epoch);
    case Waiting(w, waits, epoch, _) => OpenKeepsLeft(s, account, TargetOf(w), waits, epoch);
    case ChangeOver(w, epoch, ok) => if ok { OpenKeepsLeft(s, account, TargetOf(w), {}, epoch); }
    case _ =>
  }

  lemma CreateAccountInv(s: State, account: Account)
    requires Inv(s) && account !in s.accounts
    ensures Inv(Opened(s, account))
  {
    var x := Opened(s, account);
    forall u | u in x.threads ensures CallOK(x, u, x.threads[u]) {
      assert CallOK(s, u, s.threads[u]);
      OpenKeepsCall(s, account, u, s.threads[u]);
    }
    forall r | r in x.active && r < |x.requests| ensures RequestCovered(x, x.requests[r]) {
      assert RequestCovered(s, s.requests[r]);
      forall target ensures Covered(x, x.requests[r], target) {
        assert Covered(s, s.requests[r], target);
      }
    }
    SlotsFrame(s, x);
    PhasesFrame(s, x);
  }

  lemma ReaderInv(s: State, e: Event, t: Thread)
    requires Inv(s) && t in s.threads
    ensures Inv(ReaderStep(s, e, t, s.threads[t]))
  {
    match (e, s.threads[t])
    case (AdmitRead(_), AdmitIn(key)) => AdmitReadInv(s, t, key);
    case (AdmitCommit(_, ctxDone), AdmitAuth(_, _)) => AdmitCommitInv(s, t, ctxDone);
    case (RegisterRead(_, agrees), RegisterIn(req, account)) => RegisterReadInv(s, t, req, account, agrees);
    case (RegisterCommit(_), RegisterGot(_, _, _)) => RegisterCommitInv(s, t);
    case _ =>
  }

  lemma ChangeInv(s: State, e: Event, t: Thread)
    requires Inv(s) && t in s.threads
    ensures Inv(ChangeStep(s, e, t, s.threads[t]))
  {
    match (e, s.threads[t])
    case (ChangePersist(_, outcome), ChangeIn(_)) => PersistInv(s, t, outcome);
    case (ChangeMark(_), Persisted(_, _)) => MarkInv(s, t);
    case (ChangeRelease(_, synced), Marked(_, _, _)) => ReleaseInv(s, t, synced);
    case (ChangeReturn(_), Waiting(_, _, _, _)) => ReturnInv(s, e, t);
    case (ChangeGiveUp(_), Waiting(_, _, _, _)) => ReturnInv(s, e, t);
    case _ =>
  }

  lemma InvStep(s: State, e: Event)
    requires Inv(s)
    ensures Inv(Apply(s, e))
  {
    if e.CreateKey? {
      if e.key !in s.keys { CreateKeyInv(s, e.key, e.limit); }
    } else if e.CreateAccount? {
      if e.account !in s.accounts { CreateAccountInv(s, e.account); }
    } else if IsEnter(e) {
      if e.thread !in s.threads { EnterInv(s, e, e.thread); }
    } else if IsRequest(e) {
      if e.req < |s.requests| { RequestInv(s, e, e.req); }
    } else if e.thread in s.threads {
      ReaderInv(s, e, e.thread);
      ChangeInv(s, e, e.thread);
    }
  }

  lemma InitialInv()
    ensures Inv(INITIAL)
  {
    forall key ensures L.Count(INITIAL.counts, key) == |ActiveOf(INITIAL, key)| {
      assert ActiveOf(INITIAL, key) == {};
    }
  }

  lemma {:induction false} InvRun(events: seq<Event>)
    ensures Inv(Run(events))
  {
    if events == [] {
      InitialInv();
    } else {
      InvRun(events[..|events| - 1]);
      InvStep(Run(events[..|events| - 1]), events[|events| - 1]);
    }
  }

  // ----- Revocation, disablement and shutdown -----

  /**
   Outside a change's critical section every active request of a revoked key, of a disabled or deleted
   account or of a closed executor is canceled, unless the store reported the closing write as failed.
   */
  lemma ClosedTargetsAreCanceled(events: seq<Event>, target: Target, req: Req)
    requires
      var s := Run(events);
      && s.writer.None? && req in s.active && req < |s.requests|
      && Matches(target, s.requests[req]) && Blocked(s, target) && target !in s.lost
    ensures Run(events).requests[req].canceled
  {
    InvRun(events);
    var s := Run(events);
    assert RequestCovered(s, s.requests[req]);
    assert Covered(s, s.requests[req], target);
  }

  /**
   A write that is applied but reported as failed leaves its running requests uncanceled: for an open
   target with such a request, the change keeps the promise exactly if the store did not hide the write.
   */
  lemma LostReplyBreaksThePromise(s: State, t: Thread, outcome: Outcome, req: Req)
    requires Inv(s) && t in s.threads && s.threads[t].ChangeIn? && Exists(s, s.threads[t].write)
    requires req in s.active && req < |s.requests| && !s.requests[req].canceled
    requires
      var w := s.threads[t].write;
      !w.Shutdown? && Matches(TargetOf(w), s.requests[req]) && !Blocked(s, TargetOf(w))
    ensures
      var target := TargetOf(s.threads[t].write);
      var x := PersistStep(s, t, s.threads[t].write, outcome);
      outcome.LostReply? <==> x.writer.None? && Blocked(x, target) && !x.requests[req].canceled
  {
    assert CallOK(s, t, s.threads[t]);
  }

  lemma Go(events: seq<Event>, s: State, e: Event, t: State) returns (more: seq<Event>)
    requires Run(events) == s && Apply(s, e) == t
    ensures more == events + [e] && Run(more) == t
  {
    more := events + [e];
    assert more[..|events|] == events;
  }

  const KEYED := INITIAL.(keys := map["k" := KeyRow(true, L.UNLIMITED)])

  const ADMITTED := KEYED.(
    threads := map[0 := AdmitOver(Some(0))], requests := [Request("k", None, false, Running)],
    active := {0}, counts := map["k" := 1])

  /** A key is created and asked for. */
  lemma KeyIsRead() returns (events: seq<Event>)
    ensures Run(events) == KEYED.(readers := {0}, threads := map[0 := AdmitAuth("k", KeyRow(true, L.UNLIMITED))])
  {
    events := Go([], INITIAL, CreateKey("k", L.UNLIMITED), KEYED);
    var s := KEYED.(readers := {0}, threads := map[0 := AdmitIn("k")]);
    events := Go(events, KEYED, AdmitEnter(0, "k"), s);
    events := Go(events, s, AdmitRead(0), s.(threads := map[0 := AdmitAuth("k", KeyRow(true, L.UNLIMITED))]));
  }

  /** A request of the key is admitted. */
  lemma RequestIsAdmitted() returns (events: seq<Event>)
    ensures Run(events) == ADMITTED
  {
    events := KeyIsRead();
    assert !IsSpace("k"[0]);
    var s := KEYED.(readers := {0}, threads := map[0 := AdmitAuth("k", KeyRow(true, L.UNLIMITED))]);
    events := Go(events, s, AdmitCommit(0, false), ADMITTED);
  }

  /**
   The failure is reachable. After a revocation that was applied with an error reported the key is revoked, no
   change is in progress, and its request runs on uncanceled.
   */
  lemma LostRevocation() returns (events: seq<Event>)
    ensures
      var s := Run(events);
      s.writer.None? && Blocked(s, OnKey("k")) && s.active == {0} && s.requests == [Request("k", None, false, Running)]
  {
    events := RequestIsAdmitted();
    var s := ADMITTED.(writer := Some(1), threads := ADMITTED.threads[1 := ChangeIn(Revoke("k"))]);
    events := Go(events, ADMITTED, ChangeEnter(1, Revoke("k")), s);
    events := RevocationIsLost(events, s);
  }

  lemma RevocationIsLost(events: seq<Event>, s: State) returns (more: seq<Event>)
    requires Run(events) == s
    requires s == ADMITTED.(writer := Some(1), threads := ADMITTED.threads[1 := ChangeIn(Revoke("k"))])
    ensures
      var x := Run(more);
      x.writer.None? && Blocked(x, OnKey("k")) && x.active == s.active && x.requests == s.requests
  {
    var x := PersistStep(s, 1, Revoke("k"), LostReply);
    more := Go(events, s, ChangePersist(1, LostReply), x);
  }

  /** A change that returned nil, and whose target was not opened since, has left no matching request active. */
  lemma ReturnedChangeLeavesNothingActive(events: seq<Event>, t: Thread, w: Write, epoch: nat, req: Req)
    requires Lookup(Run(events).threads, t) == Some(ChangeOver(w, epoch, true))
    requires epoch == Epoch(Run(events), TargetOf(w))
    requires req in Run(events).active && req < |Run(events).requests|
    ensures !Matches(TargetOf(w), Run(events).requests[req])
  {
    InvRun(events);
    assert CallOK(Run(events), t, ChangeOver(w, epoch, true));
  }

  /** A reader's step changes no thread but its own. */
  lemma ReaderKeepsOthers(s: State, e: Event, u: Thread, call: Call, t: Thread)
    requires t != u
    ensures Lookup(ReaderStep(s, e, u, call).threads, t) == Lookup(s.threads, t)
  {
    match (e, call)
    case (AdmitCommit(_, ctxDone), AdmitAuth(key, row)) => AdmitKeepsOthers(s, u, key, row, ctxDone, t);
    case (RegisterCommit(_), RegisterGot(req, account, fits)) => RegisterKeepsOthers(s, u, req, account, fits, t);
    case _ =>
  }

  lemma AdmitKeepsOthers(s: State, u: Thread, key: Key, row: KeyRow, ctxDone: bool, t: Thread)
    requires t != u
    ensures Lookup(AdmitCommitStep(s, u, key, row, ctxDone).threads, t) == Lookup(s.threads, t)
  {
  }

  lemma RegisterKeepsOthers(s: State, u: Thread, req: Req, account: Account, fits: bool, t: Thread)
    requires t != u
    ensures Lookup(RegisterCommitStep(s, u, req, account, fits).threads, t) == Lookup(s.threads, t)
  {
  }

  lemma OverStaysInReader(s: State, e: Event, u: Thread, t: Thread)
    requires t in s.threads && s.threads[t].ChangeOver? && u in s.threads
    ensures Lookup(ReaderStep(s, e, u, s.threads[u]).threads, t) == Some(s.threads[t])
  {
    if t != u {
      ReaderKeepsOthers(s, e, u, s.threads[u], t);
    }
  }

  lemma OverStaysInChange(s: State, e: Event, u: Thread, t: Thread)
    requires t in s.threads && s.threads[t].ChangeOver? && u in s.threads
    ensures Lookup(ChangeStep(s, e, u, s.threads[u]).threads, t) == Some(s.threads[t])
  {
    match (e, s.threads[u])
    case (ChangePersist(_, outcome), ChangeIn(w)) => PersistKeepsOthers(s, u, w, outcome, t);
    case _ =>
  }

  lemma OverStays(s: State, e: Event, t: Thread)
    requires t in s.threads && s.threads[t].ChangeOver?
    ensures Lookup(Apply(s, e).threads, t) == Some(s.threads[t])
  {
    if !e.CreateKey? && !e.CreateAccount? && !IsEnter(e) && !IsRequest(e) && e.thread in s.threads {
      OverStaysInReader(s, e, e.thread, t);
      OverStaysInChange(s, e, e.thread, t);
    }
  }

  /** The epoch is unchanged, or the step enabled the account of the target. */
  predicate SameEpochOrOpen(s: State, x: State, target: Target) {
    Epoch(x, target) == Epoch(s, target) || (target.OnAccount? && Lookup(x.accounts, target.account) == Some(true))
  }

  lemma WrittenEpoch(s: State, w: Write, target: Target)
    requires Exists(s, w)
    ensures SameEpochOrOpen(s, Written(s, w), target)
  {
  }

  lemma PersistEpoch(s: State, t: Thread, w: Write, outcome: Outcome, target: Target)
    ensures SameEpochOrOpen(s, PersistStep(s, t, w, outcome), target)
  {
    if Exists(s, w) {
      WrittenEpoch(s, w, target);
    }
  }

  lemma ChangeEpoch(s: State, e: Event, t: Thread, target: Target)
    requires t in s.threads
    ensures SameEpochOrOpen(s, ChangeStep(s, e, t, s.threads[t]), target)
  {
    match (e, s.threads[t])
    case (ChangePersist(_, outcome), ChangeIn(w)) => PersistEpoch(s, t, w, outcome, target);
    case _ =>
  }

  lemma ReaderEpoch(s: State, e: Event, t: Thread, call: Call)
    ensures ReaderStep(s, e, t, call).epochs == s.epochs
  {
    match (e, call)
    case (AdmitCommit(_, ctxDone), AdmitAuth(key, row)) => AdmitKeepsEpochs(s, t, key, row, ctxDone);
    case (RegisterCommit(_), RegisterGot(req, account, fits)) => RegisterKeepsEpochs(s, t, req, account, fits);
    case _ =>
  }

  lemma AdmitKeepsEpochs(s: State, t: Thread, key: Key, row: KeyRow, ctxDone: bool)
    ensures AdmitCommitStep(s, t, key, row, ctxDone).epochs == s.epochs
  {
  }

  lemma RegisterKeepsEpochs(s: State, t: Thread, req: Req, account: Account, fits: bool)
    ensures
      var x := RegisterCommitStep(s, t, req, account, fits);
      x.epochs == s.epochs && x.counts == s.counts
  {
  }

  lemma EnterEpoch(s: State, e: Event, t: Thread)
    ensures EnterStep(s, e, t).epochs == s.epochs
  {
  }

  lemma RequestEpoch(s: State, e: Event, req: Req)
    requires req < |s.requests|
    ensures RequestStep(s, e, req).epochs == s.epochs
  {
  }

  lemma ThreadEpoch(s: State, e: Event, t: Thread, target: Target)
    requires t in s.threads
    ensures SameEpochOrOpen(s, ThreadStep(s, e, t, s.threads[t]), target)
  {
    ReaderEpoch(s, e, t, s.threads[t]);
    ChangeEpoch(s, e, t, target);
  }

  /** Only a step after which the account is enabled opens a target again. */
  lemma EpochMoves(s: State, e: Event, target: Target)
    ensures SameEpochOrOpen(s, Apply(s, e), target)
  {
    if e.CreateKey? || e.CreateAccount? {
    } else if IsEnter(e) {
      EnterEpoch(s, e, e.thread);
    } else if IsRequest(e) {
      if e.req < |s.requests| { RequestEpoch(s, e, e.req); }
    } else if e.thread in s.threads {
      ThreadEpoch(s, e, e.thread, target);
    }
  }

  /** No state from event `k` on has the account of the target enabled; keys and shutdown have none. */
  ghost predicate Unopened(events: seq<Event>, k: nat, target: Target) {
    target.OnAccount? ==>
      forall i :: k <= i <= |events| ==> Lookup(Run(events[..i]).accounts, target.account) != Some(true)
  }

  lemma {:induction false} EpochStays(events: seq<Event>, k: nat, target: Target)
    requires k <= |events| && Unopened(events, k, target)
    ensures Epoch(Run(events), target) == Epoch(Run(events[..k]), target)
  {
    if k == |events| {
      assert events[..k] == events;
    } else {
      var n := |events| - 1;
      var init := events[..n];
      assert forall i :: 0 <= i <= n ==> init[..i] == events[..i];
      EpochStays(init, k, target);
      assert events[..|events|] == events;
      EpochMoves(Run(init), events[n], target);
    }
  }

  /**
   A change that returned nil, with its account not enabled again before it returned, holds in every later
   state until its account is enabled again: no active request matches it. For `RevokeKey` and `Close`,
   which nothing undoes, that is every later state.
   */
  lemma ReturnedChangeHolds(events: seq<Event>, k: nat, t: Thread, w: Write, epoch: nat, req: Req)
    requires k <= |events|
    ensures
      ReturnedNil(Run(events[..k]), t, w, epoch) && Unopened(events, k, TargetOf(w)) ==>
          !ActiveMatch(Run(events), TargetOf(w), req)
  {
    if ReturnedNil(Run(events[..k]), t, w, epoch) && Unopened(events, k, TargetOf(w)) {
      ResultStays(events, k, t);
      EpochStays(events, k, TargetOf(w));
      if req in Run(events).active && req < |Run(events).requests| {
        ReturnedChangeLeavesNothingActive(events, t, w, epoch, req);
      }
    }
  }

  /** Thread `t` returned nil from its change, and its target has not been opened since it was closed. */
  predicate ReturnedNil(s: State, t: Thread, w: Write, epoch: nat) {
    Lookup(s.threads, t) == Some(ChangeOver(w, epoch, true)) && epoch == Epoch(s, TargetOf(w))
  }

  predicate ActiveMatch(s: State, target: Target, req: Req) {
    req in s.active && req < |s.requests| && Matches(target, s.requests[req])
  }

  lemma {:induction false} ResultStays(events: seq<Event>, k: nat, t: Thread)
    requires k <= |events|
    requires var c := Lookup(Run(events[..k]).threads, t); c.Some? && c.value.ChangeOver?
    ensures Lookup(Run(events).threads, t) == Lookup(Run(events[..k]).threads, t)
  {
    if k == |events| {
      assert events[..k] == events;
    } else {
      var init := events[..|events| - 1];
      assert init[..k] == events[..k];
      ResultStays(init, k, t);
      OverStays(Run(init), events[|events| - 1], t);
    }
  }

  // ----- Slots -----

  /** The limiter's count of a key is the number of its active requests, and absent exactly when that is zero. */
  lemma SlotConservation(events: seq<Event>, key: Key)
    ensures
      var s := Run(events);
      L.Count(s.counts, key) == |ActiveOf(s, key)| && (key in s.counts <==> ActiveOf(s, key) != {})
  {
    InvRun(events);
    var s := Run(events);
    assert L.Count(s.counts, key) == |ActiveOf(s, key)|;
  }

  /** In every state a request was recorded at most once, and freed at most once and only after its record. */
  lemma FinalizedOnceRecordFirst(events: seq<Event>, req: Req)
    ensures
      var h := Run(events).history;
      h[SlotFreed(req)] <= h[RecordTried(req)] <= 1
  {
    InvRun(events);
    var s := Run(events);
    if req < |s.requests| {
      assert PhaseOK(s, req);
    } else {
      assert RecordTried(req) !in s.history && SlotFreed(req) !in s.history;
    }
  }

  lemma AdmitCommitCount(s: State, t: Thread, admitted: Key, row: KeyRow, ctxDone: bool, key: Key)
    ensures
      var n, m := L.Count(s.counts, key), L.Count(AdmitCommitStep(s, t, admitted, row, ctxDone).counts, key);
      m != n ==> admitted == key && m == n + 1 && (row.limit == L.UNLIMITED || n < row.limit)
  {
  }

  lemma CountInReader(s: State, e: Event, t: Thread, call: Call, key: Key)
    ensures
      var n, m := L.Count(s.counts, key), L.Count(ReaderStep(s, e, t, call).counts, key);
      m != n ==>
        && call.AdmitAuth? && call.key == key && m == n + 1
        && (call.row.limit == L.UNLIMITED || n < call.row.limit)
  {
    match (e, call)
    case (AdmitCommit(_, ctxDone), AdmitAuth(admitted, row)) => AdmitCommitCount(s, t, admitted, row, ctxDone, key);
    case (RegisterCommit(_), RegisterGot(req, account, fits)) => RegisterKeepsEpochs(s, t, req, account, fits);
    case _ =>
  }

  lemma CountInChange(s: State, e: Event, t: Thread)
    requires t in s.threads
    ensures ChangeStep(s, e, t, s.threads[t]).counts == s.counts
  {
    match (e, s.threads[t])
    case (ChangePersist(_, outcome), ChangeIn(w)) => PersistFrame(s, t, w, outcome);
    case _ =>
  }

  lemma CountStep(s: State, e: Event, key: Key)
    requires Inv(s)
    ensures
      var n, m := L.Count(s.counts, key), L.Count(Apply(s, e).counts, key);
      m > n ==> key in s.keys && m == n + 1 && (s.keys[key].limit == L.UNLIMITED || m <= s.keys[key].limit)
  {
    if !e.CreateKey? && !e.CreateAccount? && !IsEnter(e) && !IsRequest(e) && e.thread in s.threads {
      assert CallOK(s, e.thread, s.threads[e.thread]);
      CountInReader(s, e, e.thread, s.threads[e.thread], key);
      CountInChange(s, e, e.thread);
    }
  }

  ghost predicate LimitStands(events: seq<Event>, k: nat, key: Key, limit: nat) {
    forall i :: k <= i <= |events| ==>
      var s := Run(events[..i]);
      key in s.keys && s.keys[key].limit == limit
  }

  /** While a limit stands, a key's count exceeds neither it nor the count at the moment it was set. */
  lemma {:induction false} LimitHolds(events: seq<Event>, k: nat, key: Key, limit: nat)
    requires k <= |events| && LimitStands(events, k, key, limit)
    ensures L.Count(Run(events).counts, key) <= Max(limit, L.Count(Run(events[..k]).counts, key))
  {
    if k == |events| {
      assert events[..k] == events;
    } else {
      var n := |events| - 1;
      var init := events[..n];
      assert init[..k] == events[..k];
      assert LimitStands(init, k, key, limit) by {
        assert forall i :: 0 <= i <= n ==> init[..i] == events[..i];
      }
      LimitHolds(init, k, key, limit);
      InvRun(init);
      assert init == events[..n];
      CountStep(Run(init), events[n], key);
    }
  }

  // ----- The executor itself -----

  /** The executor's state; each method is one step of the system above. */
  class Executor {
    var keys: map<Key, KeyRow>
    var accounts: map<Account, bool>
    var closed: bool
    var readers: set<Thread>
    var writer: Option<Thread>
    var threads: map<Thread, Call>
    var requests: seq<Request>
    var active: set<Req>
    var counts: L.Counts
    ghost var epochs: map<Account, nat>
    ghost var lost: set<Target>
    ghost var history: multiset<Note>

    constructor ()
      ensures Valid() && Snap() == INITIAL
    {
      keys, accounts, closed, readers, writer, threads := map[], map[], false, {}, None, map[];
      requests, active, counts, epochs, lost, history := [], {}, map[], map[], {}, multiset{};
      new;
      InitialInv();
    }

    ghost function Snap(): State
      reads this
    {
      State(keys, accounts, closed, readers, writer, threads, requests, active, counts, epochs, lost, history)
    }

    ghost predicate Valid()
      reads this
    {
      Inv(Snap())
    }

    /** admit, from the limiter on. */
    method CommitAdmission(t: Thread, ctxDone: bool)
      requires Valid() && t in threads && threads[t].AdmitAuth?
      modifies this
      ensures Valid() && Snap() == AdmitCommitStep(old(Snap()), t, old(threads[t].key), old(threads[t].row), ctxDone)
    {
      AdmitCommitInv(Snap(), t, ctxDone);
      Admit(t, threads[t].key, threads[t].row, ctxDone);
    }

    method Admit(t: Thread, key: Key, row: KeyRow, ctxDone: bool)
      modifies this
      ensures Snap() == AdmitCommitStep(old(Snap()), t, key, row, ctxDone)
    {
      readers := readers - {t};
      if ctxDone || L.Refused(counts, key, row.limit).Some? {
        threads := threads[t := AdmitOver(None)];
        return;
      }
      counts := L.Acquired(counts, key);
      var r := |requests|;
      requests := requests + [Request(key, None, false, Running)];
      active := active + {r};
      threads := threads[t := AdmitOver(Some(r))];
    }

    /** registerAccount, its region under the executor's mutex. */
    method CommitRegistration(t: Thread)
      requires Valid() && t in threads && threads[t].RegisterGot?
      modifies this
      ensures Valid()
      ensures var c := old(threads[t]); Snap() == RegisterCommitStep(old(Snap()), t, c.req, c.account, c.fits)
    {
      RegisterCommitInv(Snap(), t);
      Register(t, threads[t].req, threads[t].account, threads[t].fits);
    }

    method Register(t: Thread, req: Req, account: Account, fits: bool)
      modifies this
      ensures Snap() == RegisterCommitStep(old(Snap()), t, req, account, fits)
    {
      readers := readers - {t};
      if req >= |requests| || requests[req].canceled || !fits {
        threads := threads[t := RegisterOver(false)];
        return;
      }
      requests := requests[req := requests[req].(account := Some(account))];
      threads := threads[t := RegisterOver(true)];
    }

    /** The loop of `change` and `Close` over the active requests, in any order. */
    method CancelMatching(target: Target) returns (waits: set<Req>)
      requires forall r :: r in active ==> r < |requests|
      modifies this`requests
      ensures waits == MatchingActive(old(Snap()), target)
      ensures requests == CancelAll(old(requests), waits)
    {
      waits := {};
      var rest := active;
      while rest != {}
        invariant rest <= active && |requests| == |old(requests)|
        invariant waits == set r | r in active - rest && Matches(target, old(requests)[r])
        invariant forall i :: 0 <= i < |requests| ==>
                    requests[i] == if i in waits then old(requests)[i].(canceled := true) else old(requests)[i]
        decreases rest
      {
        var r :| r in rest;
        rest := rest - {r};
        if Matches(target, requests[r]) {
          requests := requests[r := requests[r].(canceled := true)];
          waits := waits + {r};
        }
      }
    }

    /** change, between its store write and its release of the gate. */
    method MarkChange(t: Thread)
      requires Valid() && t in threads && threads[t].Persisted?
      modifies this
      ensures Valid() && Snap() == MarkStep(old(Snap()), t, old(threads[t].write), old(threads[t].epoch))
    {
      MarkInv(Snap(), t);
      var w, epoch := threads[t].write, threads[t].epoch;
      var waits := CancelMatching(TargetOf(w));
      threads := threads[t := Marked(w, waits, epoch)];
    }

    /** finish, its last region under the mutex: free the slot, then leave the active set. */
    method FreeSlot(req: Req)
      requires Valid() && req < |requests| && requests[req].phase.Recorded?
      modifies this
      ensures Valid() && Snap() == RequestStep(old(Snap()), FinishRelease(req), req) && req !in active
      ensures requests[req].phase.Done?
    {
      RequestInv(Snap(), FinishRelease(req), req);
      SlotIsCounted(Snap(), req);
      Release(req);
    }

    method Release(req: Req)
      requires req < |requests| && requests[req].phase.Recorded? && requests[req].key in counts
      modifies this
      ensures Snap() == RequestStep(old(Snap()), FinishRelease(req), req) && req !in active
      ensures req < |requests| && requests[req].phase.Done?
    {
      var r := requests[req];
      counts := L.Freed(counts, r.key);
      active := active - {req};
      requests := requests[req := r.(phase := Done)];
      history := history + multiset{SlotFreed(req)};
    }
  }

  /** An active request has a slot to free. */
  lemma SlotIsCounted(s: State, req: Req)
    requires SlotsOK(s) && PhasesOK(s) && req < |s.requests| && !s.requests[req].phase.Done?
    ensures s.requests[req].key in s.counts
  {
    var key := s.requests[req].key;
    assert PhaseOK(s, req) && req in ActiveOf(s, key);
    assert L.Count(s.counts, key) == |ActiveOf(s, key)|;
  }
}
