/**
 The per-account model catalog: a cache with one shared fetch per account, rejection
 of results that no longer belong, last-good data and capped exponential backoff.
 Each step is one region under the catalog's lock. Times are nanoseconds, 0 is Go's
 zero time. Steps that do not apply leave the state unchanged.
 */
module ModelCatalog {
  import opened Common
  import DB = AccountStore

  type ID = DB.ID
  /** A pointer to a catalog entry: an index into `State.entries`. */
  type Ref = nat
  /** A pointer to a running fetch: an index into `State.jobs`. */
  type JobID = nat
  type Models = seq<string>

  const SECOND := 1_000_000_000
  const TTL := 300 * SECOND

  datatype Failure = Failure(category: Category, httpStatus: nat)

  datatype Account = Account(id: ID, name: string, credentials: DB.Credentials)

  datatype Entry = Entry(
    account: Account, models: Models, loaded: bool, everLoaded: bool,
    failure: Option<Failure>, failures: nat, nextRefresh: nat, refresh: Option<JobID>)

  datatype Job = Job(entry: Ref, account: Account)

  datatype Fetched = Success(models: Models) | Failed(failure: Failure)

  /** What happened to each entry, in order. */
  datatype Note =
    | Born(ref: Ref)
    | Rotated(ref: Ref, newIdentity: bool)
    | FetchStarted(ref: Ref, at: nat)
    | Accepted(ref: Ref, credentials: DB.Credentials, result: Fetched, at: nat)

  datatype State = State(
    accounts: map<ID, Ref>, entries: seq<Entry>, jobs: seq<Job>, closed: bool, clock: nat, log: seq<Note>)

  const INITIAL := State(map[], [], [], false, 0, [])

  datatype Event =
    | SetAccounts(accounts: seq<Account>)
    | StartDue(id: ID)
    | Complete(job: JobID, result: Fetched)
    | Close
    | Tick(nanoseconds: nat)

  // ----- Backoff -----

  function Pow2(n: nat): (p: nat)
    ensures p > 0
  {
    if n == 0 then 1 else 2 * Pow2(n - 1)
  }

  /** Two's complement wrap-around of a 64-bit integer. */
  function Wrap64(n: int): int {
    (n + 0x8000_0000_0000_0000) % 0x1_0000_0000_0000_0000 - 0x8000_0000_0000_0000
  }

  function RetryGap(failures: int): (gap: nat)
    ensures SECOND <= gap <= TTL
  {
    SmallPowers();
    if failures <= 1 then SECOND
    else if failures > 9 then TTL
    else
      var gap := Wrap64(SECOND * Pow2(failures - 1));
      if gap > TTL then TTL else gap
  }

  lemma {:induction false} Pow2Grows(m: nat, n: nat)
    requires m <= n
    ensures Pow2(m) <= Pow2(n)
  {
    if m < n {
      Pow2Grows(m, n - 1);
    }
  }

  lemma SmallPowers()
    ensures Pow2(1) == 2 && Pow2(2) == 4 && Pow2(3) == 8 && Pow2(4) == 16
    ensures Pow2(5) == 32 && Pow2(6) == 64 && Pow2(7) == 128 && Pow2(8) == 256 && Pow2(9) == 512
  {
    assert Pow2(3) == 8;
    assert Pow2(6) == 64;
  }

  /** After the k-th consecutive failure the gap is min(2^(k-1), 300) seconds, for every k; no shift overflows. */
  lemma RetryGapIsCappedDoubling(k: nat)
    requires k >= 1
    ensures RetryGap(k) == Min(Pow2(k - 1), 300) * SECOND
  {
    SmallPowers();
    if k > 9 {
      Pow2Grows(9, k - 1);
    }
  }

  // What the guard of retryGap prevents.

  const MODULUS := 0x1_0000_0000_0000_0000

  /** The shift of retryGap, without the guard before it. */
  function Shifted(k: nat): int
    requires k >= 1
  {
    Wrap64(SECOND * Pow2(k - 1))
  }

  lemma LargePowers()
    ensures Pow2(33) == 8_589_934_592 && Pow2(55) == 36_028_797_018_963_968
  {
    SmallPowers();
    assert Pow2(11) == 2048;
    Pow2Adds(11, 11);
    Pow2Adds(22, 11);
    Pow2Adds(22, 33);
  }

  lemma WrapsToZero(q: int)
    ensures Wrap64(q * MODULUS) == 0
  {
  }

  /**
   Without the guard the shift is exact up to 34 failures and never after, and is zero from 56. A gap that
   is not positive would slip past the cap; the shift is negative at 35, though positive again at 38.
   */
  lemma UnguardedShift(k: nat)
    requires k >= 1
    ensures Shifted(k) == SECOND * Pow2(k - 1) <==> k <= 34
    ensures k >= 56 ==> Shifted(k) == 0
  {
    LargePowers();
    if k <= 34 {
      Pow2Grows(k - 1, 33);
    } else {
      Pow2Grows(34, k - 1);
      if k >= 56 {
        Pow2Adds(k - 56, 55);
        WrapsToZero(1_953_125 * Pow2(k - 56));
      }
    }
  }

  lemma SignsOfTheShift()
    ensures Shifted(35) < 0 < Shifted(38)
  {
    LargePowers();
    assert Pow2(34) == 2 * Pow2(33) && Pow2(35) == 2 * Pow2(34) && Pow2(36) == 2 * Pow2(35) && Pow2(37) == 2 * Pow2(36);
  }

  lemma {:induction false} Pow2Adds(m: nat, n: nat)
    ensures Pow2(m + n) == Pow2(m) * Pow2(n)
  {
    if m > 0 {
      Pow2Adds(m - 1, n);
    }
  }

  // ----- Steps -----

  predicate Transient(f: Failure) {
    f.category == TRANSPORT_FAILURE || f.category == PROVIDER_LIMIT || f.httpStatus >= 500
  }

  predicate ValidList(accounts: seq<Account>) {
    && (forall i :: 0 <= i < |accounts| ==> accounts[i].id != "" && DB.ValidCredentials(accounts[i].credentials))
    && (forall i, j :: 0 <= i < j < |accounts| ==> accounts[i].id != accounts[j].id)
  }

  /** The entry of an account that stays in the list, with its new snapshot. */
  function Adopt(e: Entry, a: Account): Entry {
    var was, now := e.account.credentials, a.credentials;
    if was == now then e.(account := a)
    else
      var e := e.(refresh := None, failure := None, failures := 0, nextRefresh := 0, account := a);
      if was.chatGPTAccountID != now.chatGPTAccountID then e.(models := [], loaded := false, everLoaded := false) else e
  }

  function NewEntry(a: Account): Entry {
    Entry(a, [], false, false, None, 0, 0, None)
  }

  function PlaceKnown(s: State, ref: Ref, a: Account): State
    requires ref < |s.entries|
  {
    var e := s.entries[ref];
    var was, now := e.account.credentials, a.credentials;
    s.(accounts := s.accounts[a.id := ref], entries := s.entries[ref := Adopt(e, a)],
       log := if was == now then s.log else s.log + [Rotated(ref, was.chatGPTAccountID != now.chatGPTAccountID)])
  }

  function PlaceNew(s: State, a: Account): State {
    s.(accounts := s.accounts[a.id := |s.entries|], entries := s.entries + [NewEntry(a)],
        log := s.log + [Born(|s.entries|)])
  }

  /** Puts one account of the new list into the catalog; `known` is the membership before the call. */
  function Place(s: State, known: map<ID, Ref>, a: Account): State {
    if a.id in known && known[a.id] < |s.entries| then PlaceKnown(s, known[a.id], a) else PlaceNew(s, a)
  }

  function PlaceAll(s: State, known: map<ID, Ref>, accounts: seq<Account>): State {
    if accounts == [] then s
    else Place(PlaceAll(s, known, accounts[..|accounts| - 1]), known, accounts[|accounts| - 1])
  }

  function SetStep(s: State, accounts: seq<Account>): State {
    if s.closed || !ValidList(accounts) then s else PlaceAll(s.(accounts := map[]), s.accounts, accounts)
  }

  function StartStep(s: State, id: ID): State {
    if s.closed || id !in s.accounts || s.accounts[id] >= |s.entries| then s
    else
      var ref := s.accounts[id];
      var e := s.entries[ref];
      if e.refresh.Some? || s.clock < e.nextRefresh then s
      else
        s.(entries := s.entries[ref := e.(refresh := Some(|s.jobs|), nextRefresh := s.clock + TTL)],
           jobs := s.jobs + [Job(ref, e.account)], log := s.log + [FetchStarted(ref, s.clock)])
  }

  /** The entry still belongs to its account and still waits for this very fetch. */
  predicate Attached(s: State, job: JobID) {
    && job < |s.jobs|
    && Lookup(s.accounts, s.jobs[job].account.id) == Some(s.jobs[job].entry)
    && s.jobs[job].entry < |s.entries| && s.entries[s.jobs[job].entry].refresh == Some(job)
  }

  function Settled(e: Entry, result: Fetched, now: nat): Entry {
    var e := e.(refresh := None, failure := None);
    match result
    case Success(models) =>
        e.(models := models, loaded := true, everLoaded := true, failures := 0, nextRefresh := now + TTL)
    case Failed(failure) =>
      var e := e.(failure := Some(failure));
      var e := if Transient(failure) then e else e.(models := [], loaded := false);
      if e.everLoaded then e.(nextRefresh := now + TTL)
      else e.(failures := e.failures + 1, nextRefresh := now + RetryGap(e.failures + 1))
  }

  function CompleteStep(s: State, job: JobID, result: Fetched): State {
    if !Attached(s, job) then s
    else
      var ref := s.jobs[job].entry;
      s.(entries := s.entries[ref := Settled(s.entries[ref], result, s.clock)],
         log := s.log + [Accepted(ref, s.jobs[job].account.credentials, result, s.clock)])
  }

  function Apply(s: State, e: Event): State {
    match e
    case SetAccounts(accounts) => SetStep(s, accounts)
    case StartDue(id) => StartStep(s, id)
    case Complete(job, result) => CompleteStep(s, job, result)
    case Close => s.(closed := true)
    case Tick(nanoseconds) => s.(clock := s.clock + nanoseconds)
  }

  function Run(events: seq<Event>): State {
    if events == [] then INITIAL else Apply(Run(events[..|events| - 1]), events[|events| - 1])
  }

  // ----- The history of one entry -----

  /**
   The history of one entry, folded: the last success after the last non-transient failure or identity
   change; whether its identity ever loaded; failures in a row, last start and last end since its
   credentials changed; whether a fetch is in flight; and the failure that the last end met.
   */
  datatype Digest = Digest(
    good: Option<Models>, ever: bool, streak: nat, start: Option<nat>, end: Option<nat>, inFlight: bool,
    failure: Option<Failure>)

  const UNBORN := Digest(None, false, 0, None, None, false, None)

  function After(d: Digest, n: Note): Digest {
    match n
    case Born(_) => UNBORN
    case Rotated(_, newIdentity) =>
      Digest(if newIdentity then None else d.good, if newIdentity then false else d.ever, 0, None, None, false, None)
    case FetchStarted(_, at) => d.(start := Some(at), inFlight := true)
    case Accepted(_, _, Success(models), at) => Digest(Some(models), true, 0, d.start, Some(at), false, None)
    case Accepted(_, _, Failed(failure), at) =>
      Digest(if Transient(failure) then d.good else None, d.ever, d.streak + 1, d.start, Some(at), false, Some(failure))
  }

  function Fold(log: seq<Note>, ref: Ref): Digest {
    if log == [] then UNBORN
    else
      var d := Fold(log[..|log| - 1], ref);
      var n := log[|log| - 1];
      if n.ref == ref then After(d, n) else d
  }

  /** A start that shares no running fetch and keeps the required distance. */
  predicate PacedStart(d: Digest, at: nat) {
    && !d.inFlight
    && (d.ever && d.start.Some? ==> at >= d.start.value + TTL)
    && (!d.ever && d.end.Some? ==> at >= d.end.value + RetryGap(d.streak))
  }

  predicate Paced(log: seq<Note>) {
    log != [] ==>
      && Paced(log[..|log| - 1])
      && var n := log[|log| - 1];
      (n.FetchStarted? ==> PacedStart(Fold(log[..|log| - 1], n.ref), n.at))
  }

  lemma Appended(log: seq<Note>, n: Note)
    ensures forall ref: Ref :: Fold(log + [n], ref) == if n.ref == ref then After(Fold(log, ref), n) else Fold(log, ref)
    ensures Paced(log + [n]) <==> Paced(log) && (n.FetchStarted? ==> PacedStart(Fold(log, n.ref), n.at))
  {
    assert (log + [n])[..|log|] == log;
  }

  /** When the next fetch is due: at once without an end since the credentials changed, else a gap after the last. */
  function Due(d: Digest): nat {
    if d.end.None? then 0 else if d.ever then d.end.value + TTL else d.end.value + RetryGap(d.streak)
  }

  // ----- The invariant -----

  predicate EntryOK(e: Entry, d: Digest, clock: nat) {
    && d.good == (if e.loaded then Some(e.models) else None) && (!e.loaded ==> e.models == [])
    && d.ever == e.everLoaded && d.failure == e.failure
    && (!e.everLoaded ==> e.failures == d.streak && !e.loaded)
    && d.inFlight == e.refresh.Some?
    && (d.start.Some? ==> d.start.value <= clock) && (d.inFlight ==> d.start.Some?)
    && (e.refresh.None? && d.ever && d.start.Some? ==> e.nextRefresh >= d.start.value + TTL)
    && (e.refresh.None? && !d.ever && d.end.Some? ==> e.nextRefresh >= d.end.value + RetryGap(d.streak))
    && (e.refresh.None? ==> e.nextRefresh == Due(d))
    && (d.inFlight && d.start.Some? ==> e.nextRefresh == d.start.value + TTL)
    && (d.end.None? ==> d.streak == 0) && (d.end.Some? && !d.ever ==> d.streak >= 1)
  }

  predicate JobOK(s: State, ref: Ref)
    requires ref < |s.entries|
  {
    var e := s.entries[ref];
    e.refresh.Some? ==>
      && e.refresh.value < |s.jobs| && s.jobs[e.refresh.value].entry == ref
      && s.jobs[e.refresh.value].account.id == e.account.id
      && s.jobs[e.refresh.value].account.credentials == e.account.credentials
      && forall j :: e.refresh.value < j < |s.jobs| ==> s.jobs[j].entry != ref
  }

  ghost predicate Shape(s: State) {
    && (forall id :: id in s.accounts ==> s.accounts[id] < |s.entries| && s.entries[s.accounts[id]].account.id == id)
    && (forall i :: 0 <= i < |s.log| ==> s.log[i].ref < |s.entries|)
    && (forall j :: 0 <= j < |s.jobs| ==> s.jobs[j].entry < |s.entries|)
  }

  ghost predicate EntriesOK(s: State) {
    forall ref :: 0 <= ref < |s.entries| ==> EntryOK(s.entries[ref], Fold(s.log, ref), s.clock) && JobOK(s, ref)
  }

  ghost predicate Inv(s: State) {
    Shape(s) && EntriesOK(s) && Paced(s.log)
  }

  lemma {:induction false} Unborn(log: seq<Note>, ref: Ref)
    requires forall i :: 0 <= i < |log| ==> log[i].ref != ref
    ensures Fold(log, ref) == UNBORN
  {
    if log != [] {
      Unborn(log[..|log| - 1], ref);
    }
  }

  lemma AdoptOK(e: Entry, d: Digest, clock: nat, a: Account)
    requires EntryOK(e, d, clock) && e.account.credentials != a.credentials
    ensures EntryOK(Adopt(e, a),
        After(d, Rotated(0, e.account.credentials.chatGPTAccountID != a.credentials.chatGPTAccountID)), clock)
  {
  }

  lemma PlaceSameInv(s: State, ref: Ref, a: Account)
    requires Inv(s) && ref < |s.entries| && s.entries[ref].account.id == a.id
    requires s.entries[ref].account.credentials == a.credentials
    ensures Inv(PlaceKnown(s, ref, a))
  {
    var t := PlaceKnown(s, ref, a);
    forall r | 0 <= r < |t.entries| ensures EntryOK(t.entries[r], Fold(t.log, r), t.clock) && JobOK(t, r) {
      assert EntryOK(s.entries[r], Fold(s.log, r), s.clock) && JobOK(s, r);
    }
  }

  lemma PlaceRotatedInv(s: State, ref: Ref, a: Account)
    requires Inv(s) && ref < |s.entries| && s.entries[ref].account.id == a.id
    requires s.entries[ref].account.credentials != a.credentials
    ensures Inv(PlaceKnown(s, ref, a))
  {
    var t := PlaceKnown(s, ref, a);
    Appended(s.log, t.log[|s.log|]);
    assert EntryOK(s.entries[ref], Fold(s.log, ref), s.clock);
    AdoptOK(s.entries[ref], Fold(s.log, ref), s.clock, a);
    assert EntryOK(t.entries[ref], Fold(t.log, ref), t.clock) && JobOK(t, ref);
    forall r | 0 <= r < |t.entries| && r != ref ensures EntryOK(t.entries[r], Fold(t.log, r), t.clock) && JobOK(t, r) {
      assert EntryOK(s.entries[r], Fold(s.log, r), s.clock) && JobOK(s, r);
    }
  }

  lemma PlaceNewInv(s: State, a: Account)
    requires Inv(s)
    ensures Inv(PlaceNew(s, a))
  {
    var t := PlaceNew(s, a);
    Appended(s.log, Born(|s.entries|));
    Unborn(s.log, |s.entries|);
    forall r | 0 <= r < |t.entries| ensures EntryOK(t.entries[r], Fold(t.log, r), t.clock) && JobOK(t, r) {
      if r < |s.entries| {
        assert EntryOK(s.entries[r], Fold(s.log, r), s.clock) && JobOK(s, r);
      }
    }
  }

  /** The membership before the call still names the entries of its accounts. */
  ghost predicate Known(s: State, known: map<ID, Ref>) {
    forall id :: id in known ==> known[id] < |s.entries| && s.entries[known[id]].account.id == id
  }

  lemma PlaceInv(s: State, known: map<ID, Ref>, a: Account)
    requires Inv(s) && Known(s, known)
    ensures Inv(Place(s, known, a)) && Known(Place(s, known, a), known)
  {
    if a.id in known {
      if s.entries[known[a.id]].account.credentials == a.credentials {
        PlaceSameInv(s, known[a.id], a);
      } else {
        PlaceRotatedInv(s, known[a.id], a);
      }
    } else {
      PlaceNewInv(s, a);
    }
  }

  lemma {:induction false} PlaceAllInv(s: State, known: map<ID, Ref>, accounts: seq<Account>)
    requires Inv(s) && Known(s, known)
    ensures Inv(PlaceAll(s, known, accounts)) && Known(PlaceAll(s, known, accounts), known)
  {
    if accounts != [] {
      PlaceAllInv(s, known, accounts[..|accounts| - 1]);
      PlaceInv(PlaceAll(s, known, accounts[..|accounts| - 1]), known, accounts[|accounts| - 1]);
    }
  }

  lemma SetInv(s: State, accounts: seq<Account>)
    requires Inv(s)
    ensures Inv(SetStep(s, accounts))
  {
    var cleared := s.(accounts := map[]);
    assert EntriesOK(cleared);
    PlaceAllInv(cleared, s.accounts, accounts);
  }

  lemma StartInv(s: State, id: ID)
    requires Inv(s)
    ensures Inv(StartStep(s, id))
  {
    var t := StartStep(s, id);
    if t != s {
      var ref := s.accounts[id];
      Appended(s.log, FetchStarted(ref, s.clock));
      assert EntryOK(s.entries[ref], Fold(s.log, ref), s.clock);
      assert EntriesOK(t);
    }
  }

  lemma SettledOK(e: Entry, d: Digest, clock: nat, credentials: DB.Credentials, result: Fetched)
    requires EntryOK(e, d, clock) && e.refresh.Some?
    ensures EntryOK(Settled(e, result, clock), After(d, Accepted(0, credentials, result, clock)), clock)
  {
    RetryGapIsCappedDoubling(d.streak + 1);
  }

  lemma CompleteInv(s: State, job: JobID, result: Fetched)
    requires Inv(s)
    ensures Inv(CompleteStep(s, job, result))
  {
    var t := CompleteStep(s, job, result);
    if t != s {
      var ref := s.jobs[job].entry;
      assert t.log == s.log + [t.log[|s.log|]];
      Appended(s.log, t.log[|s.log|]);
      SettledOK(s.entries[ref], Fold(s.log, ref), s.clock, s.jobs[job].account.credentials, result);
      assert EntriesOK(t);
    }
  }

  lemma InvStep(s: State, e: Event)
    requires Inv(s)
    ensures Inv(Apply(s, e))
  {
    match e
    case SetAccounts(accounts) => SetInv(s, accounts);
    case StartDue(id) => StartInv(s, id);
    case Complete(job, result) => CompleteInv(s, job, result);
    case _ =>
      assert forall ref :: 0 <= ref < |s.entries| ==>
          EntryOK(s.entries[ref], Fold(s.log, ref), s.clock) && JobOK(s, ref);
      assert EntriesOK(Apply(s, e));
  }

  lemma {:induction false} InvRun(events: seq<Event>)
    ensures Inv(Run(events))
  {
    if events != [] {
      InvRun(events[..|events| - 1]);
      InvStep(Run(events[..|events| - 1]), events[|events| - 1]);
    }
  }

  // ----- The cache is a fold over its accepted completions -----

  /** An entry shows exactly the last success after the last non-transient failure or identity change. */
  lemma CacheIsTheFold(events: seq<Event>, ref: Ref)
    requires ref < |Run(events).entries|
    ensures
      var s := Run(events);
      var e, d := s.entries[ref], Fold(s.log, ref);
      && d.good == (if e.loaded then Some(e.models) else None)
      && (!e.loaded ==> e.models == [])
      && d.ever == e.everLoaded && d.failure == e.failure && (!d.ever ==> e.failures == d.streak)
  {
    InvRun(events);
    assert EntryOK(Run(events).entries[ref], Fold(Run(events).log, ref), Run(events).clock);
  }

  predicate Clears(n: Note, ref: Ref) {
    n.ref == ref &&
        (n.Born? || (n.Rotated? && n.newIdentity) || (n.Accepted? && n.result.Failed? && !Transient(n.result.failure)))
  }

  predicate Succeeds(n: Note, ref: Ref) {
    n.ref == ref && n.Accepted? && n.result.Success?
  }

  /** `good` is what the words say: the models of the last success, if nothing has cleared them since. */
  lemma {:induction false} GoodIsLastSuccess(log: seq<Note>, ref: Ref, i: nat)
    requires i < |log| && Succeeds(log[i], ref)
    requires forall k :: i < k < |log| ==> !Clears(log[k], ref) && !Succeeds(log[k], ref)
    ensures Fold(log, ref).good == Some(log[i].result.models)
  {
    if i < |log| - 1 {
      GoodIsLastSuccess(log[..|log| - 1], ref, i);
    }
  }

  lemma {:induction false} NothingGoodWithoutSuccess(log: seq<Note>, ref: Ref, i: int)
    requires -1 <= i < |log| && (i >= 0 ==> Clears(log[i], ref))
    requires forall k :: i < k < |log| ==> !Succeeds(log[k], ref)
    ensures Fold(log, ref).good.None?
  {
    if i < |log| - 1 {
      NothingGoodWithoutSuccess(log[..|log| - 1], ref, i);
    }
  }

  // ----- Results that no longer belong change nothing -----

  lemma DetachedPlace(s: State, known: map<ID, Ref>, a: Account, job: JobID)
    requires job < |s.jobs| && s.jobs[job].entry < |s.entries| && s.entries[s.jobs[job].entry].refresh != Some(job)
    ensures
      var t := Place(s, known, a);
      job < |t.jobs| && t.jobs[job] == s.jobs[job] && t.jobs[job].entry < |t.entries| &&
          t.entries[t.jobs[job].entry].refresh != Some(job)
  {
  }

  lemma {:induction false} DetachedPlaceAll(s: State, known: map<ID, Ref>, accounts: seq<Account>, job: JobID)
    requires job < |s.jobs| && s.jobs[job].entry < |s.entries| && s.entries[s.jobs[job].entry].refresh != Some(job)
    ensures
      var t := PlaceAll(s, known, accounts);
      job < |t.jobs| && t.jobs[job] == s.jobs[job] && t.jobs[job].entry < |t.entries| &&
          t.entries[t.jobs[job].entry].refresh != Some(job)
  {
    if accounts != [] {
      DetachedPlaceAll(s, known, accounts[..|accounts| - 1], job);
      DetachedPlace(PlaceAll(s, known, accounts[..|accounts| - 1]), known, accounts[|accounts| - 1], job);
    }
  }

  /** Membership after a `PlaceAll` comes from `known` or is a new entry. */
  lemma {:induction false} PlacedFrom(s: State, known: map<ID, Ref>, accounts: seq<Account>, id: ID)
    requires s.accounts == map[]
    ensures
      var t := PlaceAll(s, known, accounts);
      && |t.entries| >= |s.entries| && t.jobs == s.jobs
      && (id in t.accounts ==> t.accounts[id] >= |s.entries| || (id in known && t.accounts[id] == known[id]))
  {
    if accounts != [] {
      PlacedFrom(s, known, accounts[..|accounts| - 1], id);
    }
  }

  /** A fetch that was started and has lost its entry never gets it back. */
  lemma DetachedStays(s: State, e: Event, job: JobID)
    requires Inv(s) && job < |s.jobs| && !Attached(s, job)
    ensures job < |Apply(s, e).jobs| && Apply(s, e).jobs[job] == s.jobs[job] && !Attached(Apply(s, e), job)
  {
    var ref, id := s.jobs[job].entry, s.jobs[job].account.id;
    assert JobOK(s, ref);
    match e
    case SetAccounts(accounts) =>
      var cleared := s.(accounts := map[]);
      PlacedFrom(cleared, s.accounts, accounts, id);
      if s.entries[ref].refresh != Some(job) {
        DetachedPlaceAll(cleared, s.accounts, accounts, job);
      }
    case _ =>
  }

  /** The fetch is attached after `events` and was so after every shorter history of at least `k` events. */
  ghost predicate AttachedThroughout(events: seq<Event>, k: nat, job: JobID)
    requires k <= |events|
    decreases |events|
  {
    Attached(Run(events), job) && (k < |events| ==> AttachedThroughout(events[..|events| - 1], k, job))
  }

  /** A completion lands exactly if its entry waited for it in every state since the fetch was started. */
  lemma {:induction false} CompletionLandsIff(events: seq<Event>, k: nat, job: JobID)
    requires k <= |events| && job < |Run(events[..k]).jobs|
    ensures Attached(Run(events), job) <==> AttachedThroughout(events, k, job)
    ensures job < |Run(events).jobs|
  {
    if k == |events| {
      assert events[..k] == events;
    } else {
      var init := events[..|events| - 1];
      assert init[..k] == events[..k];
      CompletionLandsIff(init, k, job);
      AttachedStep(init, events[|events| - 1], job);
    }
  }

  lemma AttachedStep(events: seq<Event>, e: Event, job: JobID)
    requires job < |Run(events).jobs|
    ensures job < |Apply(Run(events), e).jobs|
    ensures Attached(Apply(Run(events), e), job) ==> Attached(Run(events), job)
  {
    InvRun(events);
    JobsGrow(Run(events), e);
    if !Attached(Run(events), job) {
      DetachedStays(Run(events), e, job);
    }
  }

  lemma JobsGrow(s: State, e: Event)
    ensures |s.jobs| <= |Apply(s, e).jobs|
  {
    if e.SetAccounts? {
      PlacedFrom(s.(accounts := map[]), s.accounts, e.accounts, "");
    }
  }

  /**
   While a fetch is attached, the entry has the credentials that the fetch was started with; so an accepted
   completion belongs to the entry's current credentials, and one of a removed, re-added or rotated account
   changes nothing.
   */
  lemma AcceptedWithCurrentCredentials(events: seq<Event>, job: JobID, result: Fetched)
    ensures
      var s := Run(events);
      if Attached(s, job) then
        && s.entries[s.jobs[job].entry].account.credentials == s.jobs[job].account.credentials
        && s.entries[s.jobs[job].entry].account.id == s.jobs[job].account.id
      else Apply(s, Complete(job, result)) == s
  {
    InvRun(events);
    if Attached(Run(events), job) {
      assert JobOK(Run(events), Run(events).jobs[job].entry);
    }
  }

  // ----- Pacing -----

  lemma {:induction false} PacedAt(log: seq<Note>, j: nat)
    requires Paced(log) && j < |log| && log[j].FetchStarted?
    ensures PacedStart(Fold(log[..j], log[j].ref), log[j].at)
  {
    if j < |log| - 1 {
      PacedAt(log[..|log| - 1], j);
      assert log[..|log| - 1][..j] == log[..j];
    }
  }

  /** Since a fetch started, with no credential change, the fold remembers a start no earlier than it. */
  lemma {:induction false} StartRemembered(log: seq<Note>, ref: Ref, i: nat)
    requires i < |log| && log[i].FetchStarted? && log[i].ref == ref
    requires forall k :: i < k < |log| && log[k].ref == ref ==> !log[k].Born? && !log[k].Rotated?
    requires forall k, m :: 0 <= k < m < |log| && log[k].FetchStarted? && log[m].FetchStarted? ==>
        log[k].at <= log[m].at
    ensures Fold(log, ref).start.Some? && Fold(log, ref).start.value >= log[i].at
  {
    if i < |log| - 1 {
      StartRemembered(log[..|log| - 1], ref, i);
    }
  }

  ghost predicate Ordered(s: State) {
    && (forall k :: 0 <= k < |s.log| && s.log[k].FetchStarted? ==> s.log[k].at <= s.clock)
    && (forall k, m :: 0 <= k < m < |s.log| && s.log[k].FetchStarted? && s.log[m].FetchStarted? ==>
        s.log[k].at <= s.log[m].at)
  }

  lemma {:induction false} PlaceAllOrdered(s: State, known: map<ID, Ref>, accounts: seq<Account>)
    requires Ordered(s)
    ensures Ordered(PlaceAll(s, known, accounts)) && PlaceAll(s, known, accounts).clock == s.clock
  {
    if accounts != [] {
      PlaceAllOrdered(s, known, accounts[..|accounts| - 1]);
    }
  }

  lemma {:induction false} OrderedRun(events: seq<Event>)
    ensures Ordered(Run(events))
  {
    if events != [] {
      var s, e := Run(events[..|events| - 1]), events[|events| - 1];
      OrderedRun(events[..|events| - 1]);
      if e.SetAccounts? {
        PlaceAllOrdered(s.(accounts := map[]), s.accounts, e.accounts);
      }
    }
  }

  /** Once its identity has loaded, fetches of an entry with unchanged credentials start five minutes apart. */
  lemma StartsFiveMinutesApart(events: seq<Event>, i: nat, j: nat)
    requires
      var log := Run(events).log;
      && i < j < |log| && log[i].FetchStarted? && log[j].FetchStarted? && log[i].ref == log[j].ref
      && (forall k :: i < k < j && log[k].ref == log[i].ref ==> !log[k].Born? && !log[k].Rotated?)
      && Fold(log[..j], log[j].ref).ever
    ensures Run(events).log[j].at >= Run(events).log[i].at + TTL
  {
    var log := Run(events).log;
    InvRun(events);
    OrderedRun(events);
    PacedAt(log, j);
    StartRemembered(log[..j], log[i].ref, i);
  }

  /** Before that, the k-th failure in a row delays the next start by at least min(2^(k-1), 300) seconds. */
  lemma FailuresDelayTheNextStart(events: seq<Event>, i: nat, j: nat)
    requires
      var log := Run(events).log;
      && i < j < |log| && log[i].Accepted? && log[j].FetchStarted? && log[i].ref == log[j].ref
      && (forall k :: i < k < j ==> log[k].ref != log[i].ref)
      && !Fold(log[..j], log[j].ref).ever
    ensures
      var log := Run(events).log;
      var streak := Fold(log[..j], log[j].ref).streak;
      streak >= 1 && log[j].at >= log[i].at + Min(Pow2(streak - 1), 300) * SECOND
  {
    var log := Run(events).log;
    InvRun(events);
    PacedAt(log, j);
    EndRemembered(log[..j], log[i].ref, i);
    RetryGapIsCappedDoubling(Fold(log[..j], log[j].ref).streak);
  }

  lemma {:induction false} EndRemembered(log: seq<Note>, ref: Ref, i: nat)
    requires i < |log| && log[i].Accepted? && log[i].ref == ref && !Fold(log, ref).ever
    requires forall k :: i < k < |log| ==> log[k].ref != ref
    ensures Fold(log, ref).end == Some(log[i].at) && Fold(log, ref).streak >= 1
  {
    if i < |log| - 1 {
      EndRemembered(log[..|log| - 1], ref, i);
    }
  }

  /** The five minutes or the capped doubling after the last end, and nothing before the first. */
  predicate MayStart(d: Digest, now: nat) {
    && !d.inFlight
    && (d.end.Some? ==>
          var seconds := if d.ever then 300 else Min(Pow2(if d.streak == 0 then 0 else d.streak - 1), 300);
          now >= d.end.value + seconds * SECOND)
  }

  /**
   In every reachable state a fetch of an account is started exactly if the catalog is open and lists the account, no
   fetch of its entry is running, and the gap after the last one has passed; it is then started now, for the
   credentials that the entry has, and nothing else is logged.
   */
  lemma StartsExactlyWhenDue(events: seq<Event>, id: ID)
    ensures
      var s, t := Run(events), Apply(Run(events), StartDue(id));
      if !s.closed && id in s.accounts && MayStart(Fold(s.log, s.accounts[id]), s.clock) then
        && s.accounts[id] < |s.entries| && t.log == s.log + [FetchStarted(s.accounts[id], s.clock)]
        && t.jobs == s.jobs + [Job(s.accounts[id], s.entries[s.accounts[id]].account)]
      else t == s
  {
    InvRun(events);
    var s := Run(events);
    if id in s.accounts {
      var d := Fold(s.log, s.accounts[id]);
      assert EntryOK(s.entries[s.accounts[id]], d, s.clock);
      if d.streak >= 1 {
        RetryGapIsCappedDoubling(d.streak);
      }
    }
  }

  /** `SetAccounts` makes membership exactly its list. */
  lemma {:induction false} MembershipIsTheList(s: State, known: map<ID, Ref>, accounts: seq<Account>)
    requires s.accounts == map[]
    ensures PlaceAll(s, known, accounts).accounts.Keys == set a | a in accounts :: a.id
  {
    if accounts != [] {
      var n := |accounts| - 1;
      MembershipIsTheList(s, known, accounts[..n]);
      assert accounts == accounts[..n] + [accounts[n]];
      assert (set a | a in accounts :: a.id) == (set a | a in accounts[..n] :: a.id) + {accounts[n].id};
    }
  }

  // ----- The catalog itself -----

  function StartAll(s: State, ids: seq<ID>): State {
    if ids == [] then s else StartStep(StartAll(s, ids[..|ids| - 1]), ids[|ids| - 1])
  }

  lemma {:induction false} StartAllInv(s: State, ids: seq<ID>)
    requires Inv(s)
    ensures Inv(StartAll(s, ids))
  {
    if ids != [] {
      StartAllInv(s, ids[..|ids| - 1]);
      StartInv(StartAll(s, ids[..|ids| - 1]), ids[|ids| - 1]);
    }
  }

  lemma StartOneMore(s: State, ids: seq<ID>, id: ID)
    ensures StartAll(s, ids + [id]) == StartStep(StartAll(s, ids), id)
  {
    assert (ids + [id])[..|ids|] == ids;
  }

  class Catalog {
    var accounts: map<ID, Ref>
    var entries: seq<Entry>
    var jobs: seq<Job>
    var closed: bool
    var clock: nat
    ghost var log: seq<Note>

    constructor ()
      ensures Valid() && Snap() == INITIAL
    {
      accounts, entries, jobs, closed, clock, log := map[], [], [], false, 0, [];
    }

    ghost function Snap(): State
      reads this
    {
      State(accounts, entries, jobs, closed, clock, log)
    }

    ghost predicate Valid()
      reads this
    {
      Inv(Snap())
    }

    static method Acceptable(list: seq<Account>) returns (ok: bool)
      ensures ok == ValidList(list)
    {
      var seen: set<ID> := {};
      for i := 0 to |list|
        invariant seen == set k | 0 <= k < i :: list[k].id
        invariant ValidList(list[..i])
      {
        var a := list[i];
        if a.id == "" || !DB.ValidCredentials(a.credentials) || a.id in seen {
          return false;
        }
        seen := seen + {a.id};
      }
      assert list[..|list|] == list;
      ok := true;
    }

    method PlaceAccount(known: map<ID, Ref>, a: Account)
      requires Known(Snap(), known)
      modifies this
      ensures Snap() == Place(old(Snap()), known, a)
    {
      if a.id !in known {
        accounts := accounts[a.id := |entries|];
        log := log + [Born(|entries|)];
        entries := entries + [NewEntry(a)];
        return;
      }
      var ref := known[a.id];
      var e := entries[ref];
      if e.account.credentials != a.credentials {
        var newIdentity := e.account.credentials.chatGPTAccountID != a.credentials.chatGPTAccountID;
        e := e.(refresh := None);
        if newIdentity {
          e := e.(models := [], loaded := false, everLoaded := false);
        }
        e := e.(failure := None, failures := 0, nextRefresh := 0);
        log := log + [Rotated(ref, newIdentity)];
      }
      entries := entries[ref := e.(account := a)];
      accounts := accounts[a.id := ref];
    }

    method PlaceList(known: map<ID, Ref>, list: seq<Account>)
      requires Valid() && Known(Snap(), known)
      modifies this
      ensures Snap() == PlaceAll(old(Snap()), known, list)
    {
      ghost var s := Snap();
      for i := 0 to |list|
        invariant Snap() == PlaceAll(s, known, list[..i])
      {
        assert Known(Snap(), known) by { PlaceAllInv(s, known, list[..i]); }
        PlaceAccount(known, list[i]);
        assert list[..i + 1][..i] == list[..i];
      }
      assert list[..|list|] == list;
    }

    method SetAccounts(list: seq<Account>) returns (ok: bool)
      requires Valid()
      modifies this
      ensures Valid() && Snap() == SetStep(old(Snap()), list)
      ensures ok <==> !old(closed) && ValidList(list)
    {
      SetInv(Snap(), list);
      if closed {
        return false;
      }
      ok := Acceptable(list);
      if !ok {
        return;
      }
      var known := accounts;
      accounts := map[];
      assert EntriesOK(Snap()) by { assert EntriesOK(old(Snap())); }
      PlaceList(known, list);
    }

    method StartIfDue(id: ID)
      requires id in accounts ==> accounts[id] < |entries|
      modifies this
      ensures Snap() == StartStep(old(Snap()), id)
    {
      if closed || id !in accounts {
        return;
      }
      var ref := accounts[id];
      var e := entries[ref];
      if e.refresh.Some? || clock < e.nextRefresh {
        return;
      }
      entries := entries[ref := e.(refresh := Some(|jobs|), nextRefresh := clock + TTL)];
      jobs := jobs + [Job(ref, e.account)];
      log := log + [FetchStarted(ref, clock)];
    }

    /** The loop of `Snapshot` that starts due fetches, over the entries in any order. */
    method StartDueFetches() returns (ghost order: seq<ID>)
      requires Valid()
      modifies this
      ensures Valid() && Snap() == StartAll(old(Snap()), order)
      ensures accounts == old(accounts) && forall id :: id in order <==> id in accounts
    {
      order := [];
      var rest := accounts.Keys;
      while rest != {}
        invariant accounts == old(accounts) && rest <= accounts.Keys
        invariant |entries| == |old(entries)|
        invariant Snap() == StartAll(old(Snap()), order)
        invariant forall id :: id in order <==> id in accounts && id !in rest
        decreases rest
      {
        var id :| id in rest;
        rest := rest - {id};
        StartIfDue(id);
        StartOneMore(old(Snap()), order, id);
        order := order + [id];
      }
      StartAllInv(old(Snap()), order);
    }

    /** The fields that a fetch result leaves in its entry. */
    method Settle(before: Entry, result: Fetched) returns (e: Entry)
      ensures e == Settled(before, result, clock)
    {
      e := before.(refresh := None, failure := None);
      match result {
        case Success(models) =>
          e := e.(models := models, loaded := true, everLoaded := true, failures := 0);
          e := e.(nextRefresh := clock + TTL);
        case Failed(failure) =>
          e := e.(failure := Some(failure));
          if !Transient(failure) {
            e := e.(models := [], loaded := false);
          }
          if e.everLoaded {
            e := e.(nextRefresh := clock + TTL);
          } else {
            e := e.(failures := e.failures + 1);
            e := e.(nextRefresh := clock + RetryGap(e.failures));
          }
      }
    }

    /** refresh, after its fetch returned. */
    method FinishFetch(job: JobID, result: Fetched)
      requires Valid() && job < |jobs|
      modifies this
      ensures Valid() && Snap() == CompleteStep(old(Snap()), job, result)
    {
      CompleteInv(Snap(), job, result);
      var ref := jobs[job].entry;
      if Lookup(accounts, jobs[job].account.id) != Some(ref) || entries[ref].refresh != Some(job) {
        return;
      }
      var e := Settle(entries[ref], result);
      entries := entries[ref := e];
      log := log + [Accepted(ref, jobs[job].account.credentials, result, clock)];
    }
  }
}
