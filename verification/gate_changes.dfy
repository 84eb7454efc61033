/**
 What the operations of the executor come to, told by the history of the gate: exactly when a
 management change returns nil, what its write leaves in the store, and exactly when a request is
 admitted, registered and freed.
 */
module GateChanges {
  import opened Common
  import opened ExecutionGate
  import L = Limiter

  // ----- Changes that return nil -----

  /** The store has what the write is about, and the write is a valid one. */
  predicate Accepts(s: State, w: Write) {
    match w
    case Revoke(key) => key in s.keys
    case SetLimit(key, limit) => key in s.keys && limit >= -1
    case Shutdown => true
    case _ => w.account in s.accounts
  }

  /** Event `i` is the persist step of thread `t` for `w`, and the store took and confirmed it. */
  predicate PersistedAt(events: seq<Event>, i: nat, t: Thread, w: Write) {
    && i < |events| && events[i].ChangePersist? && events[i].thread == t
    && Lookup(Run(events[..i]).threads, t) == Some(ChangeIn(w))
    && (w.Shutdown? || (Accepts(Run(events[..i]), w) && events[i].outcome.Applied?))
  }

  /** Event `i` is the release of the gate by thread `t`, and what it had to publish was published. */
  predicate SyncedAt(events: seq<Event>, i: nat, t: Thread, w: Write) {
    && i < |events| && events[i].ChangeRelease? && events[i].thread == t
    && (events[i].synced || w.Revoke? || w.SetLimit? || w.Shutdown?)
    && var call := Lookup(Run(events[..i]).threads, t);
    && call.Some? && call.value.Marked? && call.value.write == w
  }

  /** Event `i` is a return of thread `t` after every request that it collected was gone. */
  predicate ReturnedAt(events: seq<Event>, i: nat, t: Thread, w: Write) {
    && i < |events| && events[i] == ChangeReturn(t)
    && var call := Lookup(Run(events[..i]).threads, t);
    && call.Some? && call.value.Waiting? && call.value.write == w
    && call.value.waits !! Run(events[..i]).active
  }

  ghost predicate Confirmed(events: seq<Event>, n: nat, t: Thread, w: Write) {
    exists p :: 0 <= p < n && PersistedAt(events, p, t, w)
  }

  ghost predicate Synced(events: seq<Event>, n: nat, t: Thread, w: Write) {
    exists r :: 0 <= r < n && SyncedAt(events, r, t, w) && Confirmed(events, r, t, w)
  }

  ghost predicate Completed(events: seq<Event>, n: nat, t: Thread, w: Write) {
    exists d :: 0 <= d < n && ReturnedAt(events, d, t, w) && Synced(events, d, t, w)
  }

  /** Thread `t` has returned nil from its change. */
  predicate EndedInNil(s: State, t: Thread, w: Write) {
    t in s.threads && s.threads[t].ChangeOver? && s.threads[t].write == w && s.threads[t].ok
  }

  predicate OfThread(e: Event, t: Thread) {
    !e.CreateKey? && !e.CreateAccount? && !IsRequest(e) && e.thread == t
  }

  lemma OthersKeep(s: State, e: Event, t: Thread)
    requires !OfThread(e, t)
    ensures Lookup(Apply(s, e).threads, t) == Lookup(s.threads, t)
  {
    if IsRequest(e) {
      if e.req < |s.requests| { RequestKeepsGate(s, e, e.req); }
    } else if !e.CreateKey? && !e.CreateAccount? && !IsEnter(e) && e.thread in s.threads {
      if IsReader(e) {
        ReaderKeepsOthers(s, e, e.thread, s.threads[e.thread], t);
      } else {
        ChangeKeepsOthers(s, e, e.thread, s.threads[e.thread], t);
      }
    }
  }

  lemma ChangeKeepsOthers(s: State, e: Event, u: Thread, call: Call, t: Thread)
    requires t != u
    ensures Lookup(ChangeStep(s, e, u, call).threads, t) == Lookup(s.threads, t)
  {
    match (e, call)
    case (ChangePersist(_, outcome), ChangeIn(w)) => PersistKeepsOthers(s, u, w, outcome, t);
    case _ =>
  }

  /** How a change comes to its next place. */
  predicate Moved(s: State, e: Event, call: Call, next: Call) {
    match next
    case Persisted(w, _) =>
      call == ChangeIn(w) && e.ChangePersist? && (w.Shutdown? || (Accepts(s, w) && e.outcome.Applied?))
    case Marked(w, _, _) => call.Persisted? && call.write == w
    case Waiting(w, waits, epoch, ok) =>
      && call == Marked(w, waits, epoch) && e.ChangeRelease?
      && (ok <==> e.synced || w.Revoke? || w.SetLimit? || w.Shutdown?)
    case ChangeOver(w, epoch, ok) =>
      ok ==> call.Waiting? && call.write == w && call.ok && e.ChangeReturn? && call.waits !! s.active
    case _ => true
  }

  lemma PersistMoves(s: State, t: Thread, w: Write, outcome: Outcome)
    ensures
      var x := PersistStep(s, t, w, outcome);
      t in x.threads && Moved(s, ChangePersist(t, outcome), ChangeIn(w), x.threads[t])
  {
    assert Accepts(s, w) <==> Exists(s, w);
  }

  lemma ChangeMoves(s: State, e: Event, t: Thread)
    requires t in s.threads
    ensures
      var x := ChangeStep(s, e, t, s.threads[t]);
      t in x.threads && (x.threads[t] == s.threads[t] || Moved(s, e, s.threads[t], x.threads[t]))
  {
    match (e, s.threads[t])
    case (ChangePersist(_, outcome), ChangeIn(w)) => PersistMoves(s, t, w, outcome);
    case _ =>
  }

  lemma ReaderMoves(s: State, e: Event, t: Thread)
    requires t in s.threads
    ensures
      var x := ReaderStep(s, e, t, s.threads[t]);
      t in x.threads && (x.threads[t] == s.threads[t] || Moved(s, e, s.threads[t], x.threads[t]))
  {
    match (e, s.threads[t])
    case (AdmitCommit(_, ctxDone), AdmitAuth(key, row)) => AdmitMoves(s, t, key, row, ctxDone);
    case (RegisterCommit(_), RegisterGot(req, account, fits)) => RegisterMoves(s, t, req, account, fits);
    case _ =>
  }

  lemma AdmitMoves(s: State, t: Thread, key: Key, row: KeyRow, ctxDone: bool)
    ensures var x := AdmitCommitStep(s, t, key, row, ctxDone); t in x.threads && x.threads[t].AdmitOver?
  {
  }

  lemma RegisterMoves(s: State, t: Thread, req: Req, account: Account, fits: bool)
    ensures var x := RegisterCommitStep(s, t, req, account, fits); t in x.threads && x.threads[t].RegisterOver?
  {
  }

  lemma NewThread(s: State, e: Event, t: Thread)
    requires t !in s.threads && t in Apply(s, e).threads
    ensures
      var next := Apply(s, e).threads[t];
      !next.Persisted? && !next.Marked? && !next.Waiting? && (next.ChangeOver? ==> !next.ok)
  {
    if !OfThread(e, t) {
      OthersKeep(s, e, t);
    }
  }

  lemma ThreadMoves(s: State, e: Event, t: Thread)
    requires t in s.threads
    ensures
      var x := Apply(s, e);
      t in x.threads && (x.threads[t] == s.threads[t] || (OfThread(e, t) && Moved(s, e, s.threads[t], x.threads[t])))
  {
    if !OfThread(e, t) {
      OthersKeep(s, e, t);
    } else if !IsEnter(e) {
      ReaderMoves(s, e, t);
      ChangeMoves(s, e, t);
    }
  }

  // ----- The trail of a change -----

  lemma SamePrefix(events: seq<Event>, i: nat, t: Thread, w: Write)
    requires events != [] && i < |events| - 1
    ensures
      var init := events[..|events| - 1];
      && (PersistedAt(events, i, t, w) <==> PersistedAt(init, i, t, w))
      && (SyncedAt(events, i, t, w) <==> SyncedAt(init, i, t, w))
      && (ReturnedAt(events, i, t, w) <==> ReturnedAt(init, i, t, w))
  {
    assert events[..|events| - 1][..i] == events[..i];
  }

  lemma ConfirmedEarlier(events: seq<Event>, n: nat, t: Thread, w: Write)
    requires events != [] && n <= |events| - 1
    ensures Confirmed(events, n, t, w) <==> Confirmed(events[..|events| - 1], n, t, w)
  {
    var init := events[..|events| - 1];
    forall p | 0 <= p < n ensures PersistedAt(events, p, t, w) <==> PersistedAt(init, p, t, w) {
      SamePrefix(events, p, t, w);
    }
  }

  lemma SyncedEarlier(events: seq<Event>, n: nat, t: Thread, w: Write)
    requires events != [] && n <= |events| - 1
    ensures Synced(events, n, t, w) <==> Synced(events[..|events| - 1], n, t, w)
  {
    var init := events[..|events| - 1];
    forall r | 0 <= r < n
      ensures SyncedAt(events, r, t, w) <==> SyncedAt(init, r, t, w)
      ensures Confirmed(events, r, t, w) <==> Confirmed(init, r, t, w)
    {
      SamePrefix(events, r, t, w);
      ConfirmedEarlier(events, r, t, w);
    }
  }

  lemma CompletedEarlier(events: seq<Event>, t: Thread, w: Write)
    requires events != [] && Completed(events[..|events| - 1], |events| - 1, t, w)
    ensures Completed(events, |events|, t, w)
  {
    var init := events[..|events| - 1];
    var d :| 0 <= d < |init| && ReturnedAt(init, d, t, w) && Synced(init, d, t, w);
    SamePrefix(events, d, t, w);
    SyncedEarlier(events, d, t, w);
  }

  /** What the place of a change tells of the events so far. */
  ghost predicate Trail(events: seq<Event>, t: Thread, call: Call) {
    match call
    case Persisted(w, _) => Confirmed(events, |events|, t, w)
    case Marked(w, _, _) => Confirmed(events, |events|, t, w)
    case Waiting(w, _, _, ok) => ok ==> Synced(events, |events|, t, w)
    case ChangeOver(w, _, ok) => ok ==> Completed(events, |events|, t, w)
    case _ => true
  }

  lemma TrailStays(events: seq<Event>, t: Thread, call: Call)
    requires events != [] && Trail(events[..|events| - 1], t, call)
    ensures Trail(events, t, call)
  {
    var n := |events| - 1;
    match call
    case Persisted(w, _) => ConfirmedEarlier(events, n, t, w);
    case Marked(w, _, _) => ConfirmedEarlier(events, n, t, w);
    case Waiting(w, _, _, ok) => SyncedEarlier(events, n, t, w);
    case ChangeOver(w, _, ok) => if ok { CompletedEarlier(events, t, w); }
    case _ =>
  }

  lemma TrailMoves(events: seq<Event>, t: Thread, call: Call, next: Call)
    requires events != [] && OfThread(events[|events| - 1], t)
    requires
      var init := events[..|events| - 1];
      && Lookup(Run(init).threads, t) == Some(call) && Trail(init, t, call)
      && Moved(Run(init), events[|events| - 1], call, next)
    ensures Trail(events, t, next)
  {
    var n := |events| - 1;
    match next
    case Persisted(w, _) => assert PersistedAt(events, n, t, w);
    case Marked(w, _, _) => ConfirmedEarlier(events, n, t, w);
    case Waiting(w, _, _, ok) =>
      ConfirmedEarlier(events, n, t, w);
      if ok { assert SyncedAt(events, n, t, w); }
    case ChangeOver(w, _, ok) =>
      SyncedEarlier(events, n, t, w);
      if ok { assert ReturnedAt(events, n, t, w); }
    case _ =>
  }

  lemma {:induction false} TrailRun(events: seq<Event>, t: Thread)
    ensures t in Run(events).threads ==> Trail(events, t, Run(events).threads[t])
  {
    if events != [] {
      var init, e := events[..|events| - 1], events[|events| - 1];
      TrailRun(init, t);
      var s := Run(init);
      if t in s.threads {
        ThreadMoves(s, e, t);
        if Apply(s, e).threads[t] == s.threads[t] {
          TrailStays(events, t, s.threads[t]);
        } else {
          TrailMoves(events, t, s.threads[t], Apply(s, e).threads[t]);
        }
      } else if t in Apply(s, e).threads {
        NewThread(s, e, t);
      }
    }
  }

  /** A waiting change waits on, or ends. */
  lemma {:induction false} WaitingStays(events: seq<Event>, k: nat, t: Thread)
    requires k <= |events|
    requires var c := Lookup(Run(events[..k]).threads, t); c.Some? && c.value.Waiting?
    ensures
      var c := Lookup(Run(events).threads, t);
      c.Some? && (c.value.ChangeOver? || c == Lookup(Run(events[..k]).threads, t))
  {
    if k == |events| {
      assert events[..k] == events;
    } else {
      var init := events[..|events| - 1];
      assert init[..k] == events[..k];
      WaitingStays(init, k, t);
      WaitingStep(Run(init), events[|events| - 1], t);
    }
  }

  lemma WaitingStep(s: State, e: Event, t: Thread)
    requires t in s.threads && (s.threads[t].Waiting? || s.threads[t].ChangeOver?)
    ensures
      var c := Lookup(Apply(s, e).threads, t);
      c.Some? && (c.value.ChangeOver? || c.value == s.threads[t])
  {
    if s.threads[t].ChangeOver? {
      OverStays(s, e, t);
    } else if !OfThread(e, t) {
      OthersKeep(s, e, t);
    }
  }

  lemma RunOn(events: seq<Event>, i: nat)
    requires i < |events|
    ensures Run(events[..i + 1]) == Apply(Run(events[..i]), events[i])
  {
    assert events[..i + 1][..i] == events[..i];
  }

  predicate WaitsFine(s: State, t: Thread, w: Write) {
    t in s.threads && s.threads[t].Waiting? && s.threads[t].write == w && s.threads[t].ok
  }

  lemma SyncedWaits(events: seq<Event>, r: nat, t: Thread, w: Write)
    requires SyncedAt(events, r, t, w)
    ensures WaitsFine(Run(events[..r + 1]), t, w)
  {
    RunOn(events, r);
  }

  lemma ReturnedEnds(events: seq<Event>, d: nat, t: Thread, w: Write)
    requires ReturnedAt(events, d, t, w) && WaitsFine(Run(events[..d]), t, w)
    ensures EndedInNil(Run(events[..d + 1]), t, w)
  {
    RunOn(events, d);
  }

  lemma StillWaitsFine(events: seq<Event>, k: nat, d: nat, t: Thread, w: Write)
    requires k <= d && ReturnedAt(events, d, t, w) && WaitsFine(Run(events[..k]), t, w)
    ensures WaitsFine(Run(events[..d]), t, w)
  {
    assert events[..d][..k] == events[..k];
    WaitingStays(events[..d], k, t);
  }

  lemma NilStays(events: seq<Event>, k: nat, t: Thread, w: Write)
    requires k <= |events| && EndedInNil(Run(events[..k]), t, w)
    ensures EndedInNil(Run(events), t, w)
  {
    ResultStays(events, k, t);
  }

  lemma CompletedEnds(events: seq<Event>, t: Thread, w: Write, r: nat, d: nat)
    requires r < d < |events| && SyncedAt(events, r, t, w) && ReturnedAt(events, d, t, w)
    ensures EndedInNil(Run(events[..d + 1]), t, w)
  {
    SyncedWaits(events, r, t, w);
    StillWaitsFine(events, r + 1, d, t, w);
    ReturnedEnds(events, d, t, w);
  }

  lemma CompletedIsNil(events: seq<Event>, t: Thread, w: Write)
    requires Completed(events, |events|, t, w)
    ensures EndedInNil(Run(events), t, w)
  {
    var d :| 0 <= d < |events| && ReturnedAt(events, d, t, w) && Synced(events, d, t, w);
    var r :| 0 <= r < d && SyncedAt(events, r, t, w) && Confirmed(events, r, t, w);
    CompletedEnds(events, t, w, r, d);
    NilStays(events, d + 1, t, w);
  }

  /**
   In every run a change has returned nil exactly if its store write met an existing target and was confirmed (a
   shutdown needs neither), what it had to publish was published before it released the gate, and it then returned
   with every request that it had collected gone.
   */
  lemma ReturnsNilIff(events: seq<Event>, t: Thread, w: Write)
    ensures EndedInNil(Run(events), t, w) <==> Completed(events, |events|, t, w)
  {
    TrailRun(events, t);
    if Completed(events, |events|, t, w) {
      CompletedIsNil(events, t, w);
    }
  }

  // ----- A run in which a revocation returns nil -----

  const REVOKED_KEYS := map["k" := KeyRow(false, L.UNLIMITED)]

  const ENTERED := ADMITTED.(writer := Some(1), threads := ADMITTED.threads[1 := ChangeIn(Revoke("k"))])

  const PERSISTED := ENTERED.(keys := REVOKED_KEYS, threads := ADMITTED.threads[1 := Persisted(Revoke("k"), 0)])

  const MARKED := PERSISTED.(requests := [Request("k", None, true, Running)],
    threads := ADMITTED.threads[1 := Marked(Revoke("k"), {0}, 0)])

  const RELEASED := MARKED.(writer := None, threads := ADMITTED.threads[1 := Waiting(Revoke("k"), {0}, 0, true)])

  const FREED := RELEASED.(requests := [Request("k", None, true, Done)], active := {}, counts := map[],
    history := multiset{RecordTried(0), SlotFreed(0)})

  lemma RevocationPersists() returns (events: seq<Event>)
    ensures Run(events) == PERSISTED
  {
    events := RequestIsAdmitted();
    events := Go(events, ADMITTED, ChangeEnter(1, Revoke("k")), ENTERED);
    RevokeWrites();
    events := Go(events, ENTERED, ChangePersist(1, Applied), PERSISTED);
  }

  lemma RevokeWrites()
    ensures Apply(ENTERED, ChangePersist(1, Applied)) == PERSISTED
  {
    assert Written(ENTERED, Revoke("k")) == ENTERED.(keys := REVOKED_KEYS);
  }

  lemma RevokeMarks()
    ensures MarkStep(PERSISTED, 1, Revoke("k"), 0) == MARKED
  {
    assert MatchingActive(PERSISTED, OnKey("k")) == {0};
    assert CancelAll(PERSISTED.requests, {0}) == MARKED.requests;
  }

  lemma RevocationMarks() returns (events: seq<Event>)
    ensures Run(events) == MARKED
  {
    events := RevocationPersists();
    RevokeMarks();
    events := Go(events, PERSISTED, ChangeMark(1), MARKED);
  }

  lemma MarkedReleases()
    ensures ChangeStep(MARKED, ChangeRelease(1, false), 1, MARKED.threads[1]) == RELEASED
  {
    assert MARKED.threads[1] == Marked(Revoke("k"), {0}, 0);
  }

  lemma RevocationWaits() returns (events: seq<Event>)
    ensures Run(events) == RELEASED
  {
    events := RevocationMarks();
    MarkedReleases();
    events := Go(events, MARKED, ChangeRelease(1, false), RELEASED);
  }

  const FINISHING := RELEASED.(requests := [Request("k", None, true, Finishing)])

  const RECORDED := RELEASED.(requests := [Request("k", None, true, Recorded)], history := multiset{RecordTried(0)})

  lemma CanceledRequestFinishes() returns (events: seq<Event>)
    ensures Run(events) == FINISHING
  {
    events := RevocationWaits();
    events := Go(events, RELEASED, FinishStart(0), FINISHING);
  }

  lemma CanceledRequestRecords() returns (events: seq<Event>)
    ensures Run(events) == RECORDED
  {
    events := CanceledRequestFinishes();
    events := Go(events, FINISHING, FinishRecord(0), RECORDED);
  }

  lemma RecordedIsFreed()
    ensures RequestStep(RECORDED, FinishRelease(0), 0) == FREED
  {
    assert L.Freed(RECORDED.counts, "k") == map[];
  }

  lemma CanceledRequestIsFreed() returns (events: seq<Event>)
    ensures Run(events) == FREED
  {
    events := CanceledRequestRecords();
    RecordedIsFreed();
    events := Go(events, RECORDED, FinishRelease(0), FREED);
  }

  const RETURNED := FREED.(threads := ADMITTED.threads[1 := ChangeOver(Revoke("k"), 0, true)])

  lemma FreedReturns()
    ensures ChangeStep(FREED, ChangeReturn(1), 1, FREED.threads[1]) == RETURNED
  {
    assert FREED.threads[1] == Waiting(Revoke("k"), {0}, 0, true);
    assert AllDone(FREED, {0});
  }

  lemma RevocationReturns() returns (events: seq<Event>)
    ensures Run(events) == RETURNED
  {
    events := CanceledRequestIsFreed();
    FreedReturns();
    events := Go(events, FREED, ChangeReturn(1), RETURNED);
  }

  /**
   A revocation with a running request does return nil. It cancels the request and waits; the request records
   its end and frees its slot, and then the change returns.
   */
  lemma RevocationReturnsNil() returns (events: seq<Event>)
    ensures
      var s := Run(events);
      && EndedInNil(s, 1, Revoke("k")) && s.keys == REVOKED_KEYS && s.active == {} && s.counts == map[]
      && s.requests == [Request("k", None, true, Done)]
  {
    events := RevocationReturns();
  }

  // ----- What a write leaves in the store -----

  predicate StoreAfter(s: State, x: State, w: Write) {
    match w
    case Revoke(key) =>
      && key in s.keys && Lookup(x.keys, key) == Some(KeyRow(false, s.keys[key].limit))
      && x.keys - {key} == s.keys - {key} && x.accounts == s.accounts
    case SetLimit(key, limit) =>
      && key in s.keys && Lookup(x.keys, key) == Some(KeyRow(s.keys[key].enabled, limit))
      && x.keys - {key} == s.keys - {key} && x.accounts == s.accounts
    case Disable(account) => StoresAccount(s, x, account, Some(false))
    case Delete(account) => StoresAccount(s, x, account, None)
    case Enable(account) => StoresAccount(s, x, account, Some(true))
    case Shutdown => x.keys == s.keys && x.accounts == s.accounts
  }

  predicate StoresAccount(s: State, x: State, account: Account, enabled: Option<bool>) {
    Lookup(x.accounts, account) == enabled && x.accounts - {account} == s.accounts - {account} && x.keys == s.keys
  }

  lemma WriteStores(s: State, w: Write)
    requires Exists(s, w)
    ensures StoreAfter(s, Written(s, w), w) && (Written(s, w).closed <==> s.closed || w.Shutdown?)
  {
  }

  lemma PersistKeeps(s: State, t: Thread, w: Write, outcome: Outcome)
    ensures
      var x := PersistStep(s, t, w, outcome);
      if Exists(s, w) && (w.Shutdown? || !outcome.NotApplied?)
      then x.keys == Written(s, w).keys && x.accounts == Written(s, w).accounts && x.closed == Written(s, w).closed
      else x.keys == s.keys && x.accounts == s.accounts && x.closed == s.closed
  {
  }

  /**
   After its persist step the store holds what the change asked for, and nothing else of it changed; a write that
   was refused or not applied changed nothing.
   */
  lemma PersistStores(s: State, t: Thread, w: Write, outcome: Outcome)
    requires Lookup(s.threads, t) == Some(ChangeIn(w))
    ensures
      var x := Apply(s, ChangePersist(t, outcome));
      if Accepts(s, w) && (w.Shutdown? || !outcome.NotApplied?)
      then StoreAfter(s, x, w) && (x.closed <==> s.closed || w.Shutdown?)
      else x.keys == s.keys && x.accounts == s.accounts && x.closed == s.closed
  {
    PersistKeeps(s, t, w, outcome);
    if Exists(s, w) {
      WriteStores(s, w);
    }
  }

  /** The requests that a change must stop. */
  predicate Affects(w: Write, r: Request) {
    match w
    case Revoke(key) => r.key == key
    case Disable(account) => r.account == Some(account)
    case Delete(account) => r.account == Some(account)
    case Shutdown => true
    case _ => false
  }

  /** Its mark cancels and collects exactly the active requests that the change must stop, and touches no other. */
  lemma MarkCancelsExactly(s: State, t: Thread, w: Write, epoch: nat, req: Req)
    requires Lookup(s.threads, t) == Some(Persisted(w, epoch)) && req < |s.requests|
    ensures
      var x := Apply(s, ChangeMark(t));
      && |x.requests| == |s.requests| && t in x.threads && x.threads[t].Marked?
      && (req in x.threads[t].waits <==> req in s.active && Affects(w, s.requests[req]))
      && x.requests[req] ==
         if req in x.threads[t].waits then s.requests[req].(canceled := true) else s.requests[req]
  {
  }

  /**
   The wait of a change ends with its answer exactly once none of the collected requests is active; it may be given up,
   with an error, exactly if there was one to wait for and the change is no shutdown.
   */
  lemma WaitEndsIff(s: State, t: Thread, w: Write, waits: set<Req>, epoch: nat, ok: bool)
    requires Lookup(s.threads, t) == Some(Waiting(w, waits, epoch, ok))
    ensures Apply(s, ChangeReturn(t)) ==
            if waits !! s.active then s.(threads := s.threads[t := ChangeOver(w, epoch, ok)]) else s
    ensures Apply(s, ChangeGiveUp(t)) ==
            if waits != {} && !w.Shutdown? then s.(threads := s.threads[t := ChangeOver(w, epoch, false)]) else s
  {
    assert AllDone(s, waits) <==> waits !! s.active;
  }

  // ----- Requests -----

  /**
   The gate lets readers in exactly while nobody holds it alone, and a change exactly while nobody is inside; once
   closed it admits nothing but a shutdown.
   */
  lemma GateLetsInIff(s: State, t: Thread, key: Key, req: Req, account: Account, w: Write)
    requires t !in s.threads
    ensures
      && (Lookup(Apply(s, AdmitEnter(t, key)).threads, t) == Some(AdmitIn(key)) <==> s.writer.None? && !s.closed)
      && (Lookup(Apply(s, RegisterEnter(t, req, account)).threads, t) == Some(RegisterIn(req, account)) <==>
          s.writer.None?)
      && (Lookup(Apply(s, ChangeEnter(t, w)).threads, t) == Some(ChangeIn(w)) <==>
          s.writer.None? && s.readers == {} && (s.closed ==> w.Shutdown?))
      && (Lookup(Apply(s, ChangeEnter(t, w)).threads, t) == Some(ChangeOver(w, 0, false)) <==>
          s.writer.None? && s.readers == {} && s.closed && !w.Shutdown?)
  {
  }

  /** A caller gets past the store exactly with a stored, enabled key. */
  lemma AuthenticatedIff(s: State, t: Thread, key: Key)
    requires Lookup(s.threads, t) == Some(AdmitIn(key))
    ensures
      var call := Lookup(Apply(s, AdmitRead(t)).threads, t);
      if key in s.keys && s.keys[key].enabled then call == Some(AdmitAuth(key, s.keys[key]))
      else call == Some(AdmitOver(None))
  {
  }

  /** Request `|s.requests|` of the key is new and active in `x`. */
  predicate Admitted(s: State, x: State, t: Thread, key: Key) {
    && Lookup(x.threads, t) == Some(AdmitOver(Some(|s.requests|)))
    && x.requests == s.requests + [Request(key, None, false, Running)] && x.active == s.active + {|s.requests|}
  }

  predicate NotAdmitted(s: State, x: State, t: Thread) {
    Lookup(x.threads, t) == Some(AdmitOver(None)) && x.requests == s.requests && x.active == s.active
  }

  lemma AdmitsIff(s: State, t: Thread, key: Key, row: KeyRow, ctxDone: bool)
    ensures
      var x := AdmitCommitStep(s, t, key, row, ctxDone);
      if !ctxDone && !Blank(key) && (row.limit == -1 || L.Count(s.counts, key) < row.limit)
      then Admitted(s, x, t, key) else NotAdmitted(s, x, t)
  {
  }

  lemma OneMoreActive(s: State, x: State, t: Thread, key: Key)
    requires Admitted(s, x, t, key) && PhasesOK(s)
    ensures |ActiveOf(x, key)| == |ActiveOf(s, key)| + 1
  {
    assert ActiveOf(x, key) == ActiveOf(s, key) + {|s.requests|};
  }

  /**
   In every run an authenticated caller who is still there gets a slot exactly if the key's limit is unlimited or
   above the number of its active requests, and then has one new active request; otherwise no request starts.
   */
  lemma AdmittedIff(events: seq<Event>, t: Thread, key: Key, row: KeyRow, ctxDone: bool)
    requires Lookup(Run(events).threads, t) == Some(AdmitAuth(key, row))
    ensures
      var s, x := Run(events), Apply(Run(events), AdmitCommit(t, ctxDone));
      if !ctxDone && !Blank(key) && (row.limit == -1 || |ActiveOf(s, key)| < row.limit)
      then Admitted(s, x, t, key) && |ActiveOf(x, key)| == |ActiveOf(s, key)| + 1 else NotAdmitted(s, x, t)
  {
    InvRun(events);
    var s := Run(events);
    assert L.Count(s.counts, key) == |ActiveOf(s, key)|;
    AdmitsIff(s, t, key, row, ctxDone);
    var x := Apply(s, AdmitCommit(t, ctxDone));
    if Admitted(s, x, t, key) {
      OneMoreActive(s, x, t, key);
    }
  }

  lemma RegistersIff(s: State, t: Thread, req: Req, account: Account, fits: bool)
    requires req < |s.requests|
    ensures
      var x := RegisterCommitStep(s, t, req, account, fits);
      var ok := fits && !s.requests[req].canceled;
      && Lookup(x.threads, t) == Some(RegisterOver(ok))
      && x.requests == if ok then s.requests[req := s.requests[req].(account := Some(account))] else s.requests
  {
  }

  /** A request comes to be registered on an account exactly if it is not canceled and the row read was fit for it. */
  lemma RegisteredIff(s: State, t: Thread, req: Req, account: Account, fits: bool)
    requires Lookup(s.threads, t) == Some(RegisterGot(req, account, fits)) && req < |s.requests|
    ensures
      var x := Apply(s, RegisterCommit(t));
      var ok := fits && !s.requests[req].canceled;
      && Lookup(x.threads, t) == Some(RegisterOver(ok))
      && x.requests == if ok then s.requests[req := s.requests[req].(account := Some(account))] else s.requests
  {
    RegistersIff(s, t, req, account, fits);
  }

  /** The row is fit exactly if it is stored, enabled and of the wanted identity. */
  lemma FitIff(s: State, t: Thread, req: Req, account: Account, agrees: bool)
    requires Lookup(s.threads, t) == Some(RegisterIn(req, account))
    ensures
      var call := Lookup(Apply(s, RegisterRead(t, agrees)).threads, t);
      if account in s.accounts then call == Some(RegisterGot(req, account, agrees && s.accounts[account]))
      else call == Some(RegisterOver(false))
  {
  }

  /**
   Closing a running request takes it through all of its cleanup, whatever else is going on: it is canceled, its
   record is tried once, its slot is freed once, and then it is active no more.
   */
  lemma CleanupFrees(events: seq<Event>, req: Req)
    requires req < |Run(events).requests| && Run(events).requests[req].phase.Running?
    ensures
      var s := Run(events);
      var x := Apply(Apply(Apply(s, FinishStart(req)), FinishRecord(req)), FinishRelease(req));
      var key := s.requests[req].key;
      && req in s.active && x.active == s.active - {req}
      && x.requests == s.requests[req := s.requests[req].(canceled := true, phase := Done)]
      && x.history == s.history + multiset{RecordTried(req), SlotFreed(req)}
      && L.Count(x.counts, key) == L.Count(s.counts, key) - 1
  {
    InvRun(events);
    var s := Run(events);
    assert PhaseOK(s, req);
    SlotIsCounted(s, req);
    RecordsItsEnd(s, req);
    FreesItsSlot(Apply(Apply(s, FinishStart(req)), FinishRecord(req)), req);
  }

  lemma RecordsItsEnd(s: State, req: Req)
    requires req < |s.requests| && s.requests[req].phase.Running?
    ensures Apply(Apply(s, FinishStart(req)), FinishRecord(req)) ==
            Update(s, req, s.requests[req].(canceled := true, phase := Recorded)).(
              history := s.history + multiset{RecordTried(req)})
  {
    assert Apply(s, FinishStart(req)) == Update(s, req, s.requests[req].(canceled := true, phase := Finishing));
  }

  lemma FreesItsSlot(s: State, req: Req)
    requires req < |s.requests| && s.requests[req].phase.Recorded? && s.requests[req].key in s.counts
    requires L.Pruned(s.counts)
    ensures
      var x, key := Apply(s, FinishRelease(req)), s.requests[req].key;
      && x.active == s.active - {req} && x.requests == s.requests[req := s.requests[req].(phase := Done)]
      && x.history == s.history + multiset{SlotFreed(req)} && L.Count(x.counts, key) == L.Count(s.counts, key) - 1
  {
  }

  /** A client that goes away cancels its request, and no other. */
  lemma ClientCancels(s: State, req: Req, other: Req)
    requires req < |s.requests| && other < |s.requests|
    ensures
      var x := Apply(s, ClientCancel(req));
      && |x.requests| == |s.requests| && x.active == s.active
      && x.requests[other] == if other == req then s.requests[other].(canceled := true) else s.requests[other]
  {
  }

  /** A new key admits with its limit, a new account is enabled; an ID in use keeps what is stored. */
  lemma CreationIsStored(s: State, key: Key, limit: int, account: Account)
    ensures Lookup(Apply(s, CreateKey(key, limit)).keys, key) ==
            if key in s.keys then Some(s.keys[key]) else Some(KeyRow(true, limit))
    ensures Lookup(Apply(s, CreateAccount(account)).accounts, account) ==
            if account in s.accounts then Some(s.accounts[account]) else Some(true)
  {
  }
}
