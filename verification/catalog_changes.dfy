/**
 What changes the model catalog: which fetch results it takes, and what a new list of accounts keeps
 of what it knew.
 */
module CatalogChanges {
  import opened Common
  import opened ModelCatalog
  import DB = AccountStore

  // ----- Fetch results -----

  /** The catalog still waits for the fetch: its account is listed with that entry, and no later event ended it. */
  ghost predicate AwaitedBy(s: State, job: JobID)
    requires job < |s.jobs|
  {
    && Lookup(s.accounts, s.jobs[job].account.id) == Some(s.jobs[job].entry)
    && Fold(s.log, s.jobs[job].entry).inFlight
    && forall j :: job < j < |s.jobs| ==> s.jobs[j].entry != s.jobs[job].entry
  }

  lemma AwaitedIsAttached(s: State, job: JobID)
    requires Inv(s) && job < |s.jobs|
    ensures Attached(s, job) <==> AwaitedBy(s, job)
  {
    var ref := s.jobs[job].entry;
    assert EntryOK(s.entries[ref], Fold(s.log, ref), s.clock) && JobOK(s, ref);
  }

  /**
   In every reachable state a fetch result is taken exactly if its account is listed with the entry that the fetch was
   started for, no end and no rotation followed that start, and it is the entry's latest; else nothing changes.
   */
  lemma ResultIsTakenIff(events: seq<Event>, job: JobID, result: Fetched)
    requires job < |Run(events).jobs|
    ensures
      var s, t := Run(events), Apply(Run(events), Complete(job, result));
      var ref := s.jobs[job].entry;
      if AwaitedBy(s, job)
      then ref < |s.entries| && t.log == s.log + [Accepted(ref, s.entries[ref].account.credentials, result, s.clock)]
      else t == s
  {
    InvRun(events);
    AwaitedIsAttached(Run(events), job);
    assert JobOK(Run(events), Run(events).jobs[job].entry);
  }

  /**
   A failed result that is taken keeps the last good models exactly if it met a transport failure, a provider limit or
   a server error; any other leaves none. A good result shows its models.
   */
  lemma FailedResultKeepsModelsIff(events: seq<Event>, job: JobID, result: Fetched)
    requires job < |Run(events).jobs| && AwaitedBy(Run(events), job)
    ensures
      var s, t := Run(events), Apply(Run(events), Complete(job, result));
      var ref := s.jobs[job].entry;
      && ref < |s.entries| == |t.entries|
      && match result {
        case Success(models) => t.entries[ref].loaded && t.entries[ref].models == models
        case Failed(failure) =>
          var keeps := failure.category in {"transport_failure", "provider_limit"} || failure.httpStatus >= 500;
          && t.entries[ref].loaded == (keeps && s.entries[ref].loaded)
          && t.entries[ref].models == (if keeps then s.entries[ref].models else [])
      }
  {
    InvRun(events);
    AwaitedIsAttached(Run(events), job);
  }

  // ----- A new list -----

  predicate DistinctIDs(accounts: seq<Account>) {
    forall i, j :: 0 <= i < j < |accounts| ==> accounts[i].id != accounts[j].id
  }

  /** What a listed account's entry remembers when the account goes on with these credentials. */
  function Remembered(d: Digest, was: DB.Credentials, now: DB.Credentials): Digest {
    if was == now then d
    else if was.chatGPTAccountID == now.chatGPTAccountID then UNBORN.(good := d.good, ever := d.ever)
    else UNBORN
  }

  lemma PlaceLeaves(s: State, known: map<ID, Ref>, a: Account, ref: Ref)
    requires Inv(s) && Known(s, known) && ref < |s.entries| && s.entries[ref].account.id != a.id
    ensures
      var t := Place(s, known, a);
      && |s.entries| <= |t.entries| && t.entries[ref] == s.entries[ref] && Fold(t.log, ref) == Fold(s.log, ref)
  {
    var t := Place(s, known, a);
    if t.log != s.log {
      Appended(s.log, t.log[|s.log|]);
    }
  }

  /** Entries of accounts that the list does not name stay as they are. */
  lemma {:induction false} ListLeaves(s: State, known: map<ID, Ref>, accounts: seq<Account>, id: ID)
    requires Inv(s) && Known(s, known) && id in known
    requires forall i :: 0 <= i < |accounts| ==> accounts[i].id != id
    ensures
      var t := PlaceAll(s, known, accounts);
      && |s.entries| <= |t.entries| && t.entries[known[id]] == s.entries[known[id]]
      && Fold(t.log, known[id]) == Fold(s.log, known[id])
  {
    if accounts != [] {
      var n := |accounts| - 1;
      ListLeaves(s, known, accounts[..n], id);
      PlaceAllInv(s, known, accounts[..n]);
      PlaceLeaves(PlaceAll(s, known, accounts[..n]), known, accounts[n], known[id]);
    }
  }

  lemma {:induction false} ListGrows(s: State, known: map<ID, Ref>, accounts: seq<Account>)
    ensures |s.entries| <= |PlaceAll(s, known, accounts).entries|
  {
    if accounts != [] {
      ListGrows(s, known, accounts[..|accounts| - 1]);
    }
  }

  /** The entry of account `a`, which the list names, in the state after it; `s` is the state before. */
  ghost predicate Goes(s: State, known: map<ID, Ref>, t: State, a: Account) {
    && a.id in t.accounts && t.accounts[a.id] < |t.entries|
    && var ref := t.accounts[a.id];
    && t.entries[ref].account == a
    && if a.id in known
       then
         && ref == known[a.id] < |s.entries|
         && Fold(t.log, ref) == Remembered(Fold(s.log, ref), s.entries[ref].account.credentials, a.credentials)
       else ref >= |s.entries| && Fold(t.log, ref) == UNBORN
  }

  lemma PlacedGoes(s: State, known: map<ID, Ref>, accounts: seq<Account>, a: Account)
    requires Inv(s) && Known(s, known) && forall i :: 0 <= i < |accounts| ==> accounts[i].id != a.id
    ensures Goes(s, known, Place(PlaceAll(s, known, accounts), known, a), a)
  {
    var p := PlaceAll(s, known, accounts);
    var t := Place(p, known, a);
    PlaceAllInv(s, known, accounts);
    ListGrows(s, known, accounts);
    if a.id in known {
      ListLeaves(s, known, accounts, a.id);
      if t.log != p.log {
        Appended(p.log, t.log[|p.log|]);
      }
    } else {
      Unborn(p.log, |p.entries|);
      Appended(p.log, Born(|p.entries|));
    }
  }

  lemma PlaceLeavesGoing(s: State, known: map<ID, Ref>, p: State, a: Account, b: Account)
    requires Inv(p) && Known(p, known) && Goes(s, known, p, a) && a.id != b.id
    ensures Goes(s, known, Place(p, known, b), a)
  {
    PlaceLeaves(p, known, b, p.accounts[a.id]);
  }

  lemma {:induction false} ListedGoes(s: State, known: map<ID, Ref>, accounts: seq<Account>, i: nat)
    requires Inv(s) && Known(s, known) && DistinctIDs(accounts) && i < |accounts|
    ensures Goes(s, known, PlaceAll(s, known, accounts), accounts[i])
  {
    var n := |accounts| - 1;
    if i < n {
      ListedGoes(s, known, accounts[..n], i);
      PlaceAllInv(s, known, accounts[..n]);
      PlaceLeavesGoing(s, known, PlaceAll(s, known, accounts[..n]), accounts[i], accounts[n]);
    } else {
      PlacedGoes(s, known, accounts[..n], accounts[n]);
    }
  }

  /** A list of distinct, named accounts with valid credentials. */
  predicate GoodList(accounts: seq<Account>) {
    && DistinctIDs(accounts)
    && forall i :: 0 <= i < |accounts| ==> accounts[i].id != "" && DB.ValidCredentials(accounts[i].credentials)
  }

  /**
   In every reachable state a closed catalog or a bad list changes nothing; else the list becomes the membership. An
   account that goes on keeps its entry: all of it with the same credentials, the last good models with other
   credentials of one identity, nothing with a new identity. An account that joins, or comes back, starts afresh.
   */
  lemma ListReplacesMembership(events: seq<Event>, accounts: seq<Account>)
    ensures
      var s, t := Run(events), Apply(Run(events), SetAccounts(accounts));
      if s.closed || !GoodList(accounts) then t == s
      else
        && t.accounts.Keys == (set a | a in accounts :: a.id)
        && forall i :: 0 <= i < |accounts| ==> Goes(s, s.accounts, t, accounts[i])
  {
    var s, t := Run(events), Apply(Run(events), SetAccounts(accounts));
    InvRun(events);
    if !s.closed && GoodList(accounts) {
      var cleared := s.(accounts := map[]);
      assert EntriesOK(cleared) by { assert EntriesOK(s); }
      MembershipIsTheList(cleared, s.accounts, accounts);
      forall i | 0 <= i < |accounts| ensures Goes(s, s.accounts, t, accounts[i]) {
        ListedGoes(cleared, s.accounts, accounts, i);
      }
    }
  }

  // ----- The end -----

  lemma {:induction false} PlacingKeepsClosed(s: State, known: map<ID, Ref>, accounts: seq<Account>)
    ensures PlaceAll(s, known, accounts).closed == s.closed
  {
    if accounts != [] {
      PlacingKeepsClosed(s, known, accounts[..|accounts| - 1]);
    }
  }

  /** The catalog is closed exactly if its `Close` was called. */
  lemma {:induction false} ClosedIffClosed(events: seq<Event>)
    ensures Run(events).closed <==> Close in events
  {
    if events != [] {
      var s, e := Run(events[..|events| - 1]), events[|events| - 1];
      ClosedIffClosed(events[..|events| - 1]);
      assert events == events[..|events| - 1] + [e];
      if e.SetAccounts? {
        PlacingKeepsClosed(s.(accounts := map[]), s.accounts, e.accounts);
      }
    }
  }
}
