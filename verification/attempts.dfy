/** Candidate accounts of one request, cooldowns after provider limits, and the attempts that `open` makes. */
module Attempts {
  import opened Common
  import RR = RoundRobin

  type ID = RR.ID

  const MAX_ATTEMPTS := 3

  /** An attempt's error: a provider failure, possibly caused by cancellation, or any other error. */
  datatype Error =
    | Failure(category: Category, safeToRetry: bool, retryAfter: Cooldown, canceled: bool)
    | OtherError(canceled: bool)

  predicate SafeRetry(e: Error) {
    !e.canceled && e.Failure? && e.safeToRetry && (e.category == PROVIDER_LIMIT || e.category == ACCOUNT_PROBLEM)
  }

  // ----- Candidates -----

  datatype Candidate = Candidate(id: ID, identity: string)

  /** A listed model, with the field for which ValidateModel refuses the request, if it does. */
  datatype Entry = Entry(model: string, refused: Option<string>)

  datatype AccountCatalog = AccountCatalog(id: ID, identity: string, models: seq<Entry>)

  predicate Offers(c: AccountCatalog, model: string) {
    Entry(model, None) in c.models
  }

  /** The snapshot lists the model for the account, in a form that fits. */
  predicate Offered(snapshot: seq<AccountCatalog>, model: string, id: ID) {
    exists c :: c in snapshot && c.id == id && Offers(c, model)
  }

  /** The accounts that offer the model in a form that fits the request, once for each such catalog entry. */
  function CandidatesOf(snapshot: seq<AccountCatalog>, model: string): seq<Candidate> {
    if snapshot == [] then []
    else
      var c := snapshot[|snapshot| - 1];
      CandidatesOf(snapshot[..|snapshot| - 1], model) + FromAccount(c, model, |c.models|)
  }

  function FromAccount(c: AccountCatalog, model: string, n: nat): seq<Candidate>
    requires n <= |c.models|
  {
    if n == 0 then []
    else
      FromAccount(c, model, n - 1) + if c.models[n - 1] == Entry(model, None) then [Candidate(c.id, c.identity)] else []
  }

  /** The fields for which entries of the model were refused, in the order of the snapshot. */
  function RefusalsOf(snapshot: seq<AccountCatalog>, model: string): seq<string> {
    if snapshot == [] then []
    else
      var c := snapshot[|snapshot| - 1];
      RefusalsOf(snapshot[..|snapshot| - 1], model) + RefusalsIn(c, model, |c.models|)
  }

  function RefusalsIn(c: AccountCatalog, model: string, n: nat): seq<string>
    requires n <= |c.models|
  {
    if n == 0 then []
    else
      var e := c.models[n - 1];
      RefusalsIn(c, model, n - 1) + if e.model == model && e.refused.Some? then [e.refused.value] else []
  }

  function LastOr(fields: seq<string>, default: string): string {
    if fields == [] then default else fields[|fields| - 1]
  }

  lemma {:induction false} FromAccountIff(c: AccountCatalog, model: string, n: nat, x: Candidate)
    requires n <= |c.models|
    ensures x in FromAccount(c, model, n) <==> x == Candidate(c.id, c.identity) && Entry(model, None) in c.models[..n]
  {
    if n > 0 {
      FromAccountIff(c, model, n - 1, x);
      assert c.models[..n] == c.models[..n - 1] + [c.models[n - 1]];
    }
  }

  /** A candidate is exactly an account of the snapshot with a fitting entry of the requested model. */
  lemma {:induction false} CandidatesIff(snapshot: seq<AccountCatalog>, model: string, x: Candidate)
    ensures x in CandidatesOf(snapshot, model) <==>
            exists c :: c in snapshot && x == Candidate(c.id, c.identity) && Offers(c, model)
  {
    if snapshot != [] {
      var n := |snapshot| - 1;
      CandidatesIff(snapshot[..n], model, x);
      FromAccountIff(snapshot[n], model, |snapshot[n].models|, x);
      assert snapshot[n].models[..|snapshot[n].models|] == snapshot[n].models;
      assert snapshot == snapshot[..n] + [snapshot[n]];
    }
  }

  datatype CandidateError = NoAccounts | Refused(field: string)

  /** requestCandidates: without a candidate, the last refusal names the field, and "model" if nobody lists it. */
  method RequestCandidates(snapshot: seq<AccountCatalog>, model: string)
      returns (r: Result<seq<Candidate>, CandidateError>)
    ensures r == CandidatesOrError(snapshot, model)
  {
    var candidates, field := [], "model";
    for i := 0 to |snapshot|
      invariant candidates == CandidatesOf(snapshot[..i], model)
      invariant field == LastOr(RefusalsOf(snapshot[..i], model), "model")
    {
      var c := snapshot[i];
      ghost var before, refusals := candidates, RefusalsOf(snapshot[..i], model);
      for k := 0 to |c.models|
        invariant candidates == before + FromAccount(c, model, k)
        invariant field == LastOr(refusals + RefusalsIn(c, model, k), "model")
      {
        if c.models[k].model == model {
          if c.models[k].refused.Some? {
            field := c.models[k].refused.value;
          } else {
            candidates := candidates + [Candidate(c.id, c.identity)];
          }
        }
      }
      assert snapshot[..i + 1][..i] == snapshot[..i];
    }
    assert snapshot[..|snapshot|] == snapshot;
    if candidates == [] {
      return Err(if |snapshot| == 0 then NoAccounts else Refused(field));
    }
    r := Ok(candidates);
  }

  function CandidatesOrError(snapshot: seq<AccountCatalog>, model: string): Result<seq<Candidate>, CandidateError> {
    if CandidatesOf(snapshot, model) != [] then Ok(CandidatesOf(snapshot, model))
    else if snapshot == [] then Err(NoAccounts)
    else Err(Refused(LastOr(RefusalsOf(snapshot, model), "model")))
  }

  /** The entry names the model and is refused for the field. */
  predicate Refuses(e: Entry, model: string, field: string) {
    e.model == model && e.refused == Some(field)
  }

  /** No entry of the model from the `k`-th on is refused. */
  predicate NoneRefused(c: AccountCatalog, model: string, k: nat) {
    forall m :: k <= m < |c.models| && c.models[m].model == model ==> c.models[m].refused.None?
  }

  /** The `k`-th entry of the `i`-th account is the last one of the model that is refused. */
  predicate RefusedLastAt(snapshot: seq<AccountCatalog>, model: string, field: string, i: nat, k: nat) {
    && i < |snapshot| && k < |snapshot[i].models| && Refuses(snapshot[i].models[k], model, field)
    && NoneRefused(snapshot[i], model, k + 1)
    && forall j :: i < j < |snapshot| ==> NoneRefused(snapshot[j], model, 0)
  }

  /** The field of the last refusal, or "model" if nothing was refused. */
  ghost predicate LastRefusal(snapshot: seq<AccountCatalog>, model: string, field: string) {
    || (field == "model" && NobodyRefuses(snapshot, model))
    || exists i, k :: RefusedLastAt(snapshot, model, field, i, k)
  }

  lemma {:induction false} RefusalsInLast(c: AccountCatalog, model: string, n: nat) returns (k: nat)
    requires n <= |c.models| && NoneRefused(c, model, n)
    ensures
      var fields := RefusalsIn(c, model, n);
      if fields == [] then NoneRefused(c, model, 0)
      else k < |c.models| && Refuses(c.models[k], model, fields[|fields| - 1]) && NoneRefused(c, model, k + 1)
  {
    k := 0;
    if n > 0 {
      if c.models[n - 1].model == model && c.models[n - 1].refused.Some? {
        k := n - 1;
      } else {
        k := RefusalsInLast(c, model, n - 1);
      }
    }
  }

  /** A refusal stays the last one when the next account refuses nothing. */
  lemma StillRefusedLast(snapshot: seq<AccountCatalog>, c: AccountCatalog, model: string, field: string, i: nat, k: nat)
    requires RefusedLastAt(snapshot, model, field, i, k) && NoneRefused(c, model, 0)
    ensures RefusedLastAt(snapshot + [c], model, field, i, k)
  {
    assert (snapshot + [c])[i] == snapshot[i];
  }

  predicate NobodyRefuses(snapshot: seq<AccountCatalog>, model: string) {
    forall j :: 0 <= j < |snapshot| ==> NoneRefused(snapshot[j], model, 0)
  }

  lemma {:induction false} RefusalsLast(snapshot: seq<AccountCatalog>, model: string) returns (i: nat, k: nat)
    ensures
      var fields := RefusalsOf(snapshot, model);
      if fields == [] then NobodyRefuses(snapshot, model)
      else RefusedLastAt(snapshot, model, fields[|fields| - 1], i, k)
  {
    i, k := 0, 0;
    if snapshot != [] {
      var n := |snapshot| - 1;
      var c := snapshot[n];
      i, k := RefusalsLast(snapshot[..n], model);
      var m := RefusalsInLast(c, model, |c.models|);
      var before, last := RefusalsOf(snapshot[..n], model), RefusalsIn(c, model, |c.models|);
      assert snapshot == snapshot[..n] + [c];
      if last != [] {
        i, k := n, m;
      } else if before != [] {
        StillRefusedLast(snapshot[..n], c, model, before[|before| - 1], i, k);
        assert before + last == before;
      }
    }
  }

  /**
   A request finds candidates exactly if some account offers its model in a form that fits; without accounts it is
   told so, and else it is told the field of the last refusal, which is "model" when nobody lists the model.
   */
  lemma CandidatesOrErrorIff(snapshot: seq<AccountCatalog>, model: string)
    ensures CandidatesOrError(snapshot, model).Ok? <==> exists c :: c in snapshot && Offers(c, model)
    ensures
      var r := CandidatesOrError(snapshot, model);
      r.Err? ==> if snapshot == [] then r.error == NoAccounts
                 else r.error.Refused? && LastRefusal(snapshot, model, r.error.field)
  {
    var i, k := RefusalsLast(snapshot, model);
    var xs := CandidatesOf(snapshot, model);
    if xs != [] {
      CandidatesIff(snapshot, model, xs[0]);
    }
    if c :| c in snapshot && Offers(c, model) {
      CandidatesIff(snapshot, model, Candidate(c.id, c.identity));
    }
  }

  // ----- Cooldowns over overlapping requests -----

  datatype State = State(cooldowns: map<ID, nat>, positions: map<string, ID>, clock: nat)

  datatype Event =
    | NoteLimit(id: ID, retryAfter: Cooldown)
    | Select(model: string, candidates: seq<Candidate>, tried: set<ID>, picked: ID)
    | Sync(enabled: set<ID>)
    | Tick(seconds: nat)

  function Until(now: nat, retryAfter: Cooldown): nat {
    if retryAfter.RetryAt? && retryAfter.until > now then retryAfter.until else now + MINUTE
  }

  predicate Cooling(s: State, id: ID) {
    id in s.cooldowns && s.clock < s.cooldowns[id]
  }

  function Eligible(s: State, candidates: seq<Candidate>, tried: set<ID>): seq<ID> {
    if candidates == [] then []
    else
      var init := Eligible(s, candidates[..|candidates| - 1], tried);
      var id := candidates[|candidates| - 1].id;
      if id in tried || Cooling(s, id) then init else init + [id]
  }

  lemma {:induction false} EligibleIff(s: State, candidates: seq<Candidate>, tried: set<ID>, id: ID)
    ensures id in Eligible(s, candidates, tried) <==>
            id !in tried && !Cooling(s, id) && exists c :: c in candidates && c.id == id
  {
    if candidates != [] {
      var n := |candidates| - 1;
      EligibleIff(s, candidates[..n], tried, id);
      assert candidates == candidates[..n] + [candidates[n]];
    }
  }

  /** A selection is a step only if round-robin picks `picked` among the eligible candidates. */
  function Apply(s: State, e: Event): State {
    match e
    case NoteLimit(id, retryAfter) =>
      var until := Until(s.clock, retryAfter);
      if id in s.cooldowns && until <= s.cooldowns[id] then s else s.(cooldowns := s.cooldowns[id := until])
    case Select(model, candidates, tried, picked) =>
      var ids := Eligible(s, candidates, tried);
      s.(cooldowns := s.cooldowns - RR.Elements(ids),
         positions := if picked in ids then s.positions[model := picked] else s.positions)
    case Sync(enabled) => s.(cooldowns := map id | id in s.cooldowns && id in enabled :: s.cooldowns[id])
    case Tick(seconds) => s.(clock := s.clock + seconds)
  }

  function Run(s: State, events: seq<Event>): State {
    if events == [] then s else Apply(Run(s, events[..|events| - 1]), events[|events| - 1])
  }

  predicate CooledUntil(s: State, id: ID, until: nat) {
    s.clock < until ==> id in s.cooldowns && s.cooldowns[id] >= until
  }

  lemma CooledStep(s: State, e: Event, id: ID, until: nat)
    requires CooledUntil(s, id, until) && (e.Sync? ==> id in e.enabled)
    ensures CooledUntil(Apply(s, e), id, until)
  {
    if e.Select? {
      EligibleIff(s, e.candidates, e.tried, id);
    }
  }

  /**
   After a provider limit cooled an account until U, whatever other failures, selections and syncs
   overlap, the account is eligible for no selection before U, unless a sync saw it disabled.
   */
  lemma {:induction false} CooledIsNotSelected(s: State, id: ID, retryAfter: Cooldown, events: seq<Event>,
      candidates: seq<Candidate>, tried: set<ID>)
    requires forall k :: 0 <= k < |events| && events[k].Sync? ==> id in events[k].enabled
    ensures
      var until := Until(s.clock, retryAfter);
      var t := Run(Apply(s, NoteLimit(id, retryAfter)), events);
      t.clock < until ==> id !in Eligible(t, candidates, tried)
  {
    var until := Until(s.clock, retryAfter);
    var s1 := Apply(s, NoteLimit(id, retryAfter));
    CooledRun(s1, events, id, until);
    EligibleIff(Run(s1, events), candidates, tried, id);
  }

  lemma {:induction false} CooledRun(s: State, events: seq<Event>, id: ID, until: nat)
    requires CooledUntil(s, id, until)
    requires forall k :: 0 <= k < |events| && events[k].Sync? ==> id in events[k].enabled
    ensures CooledUntil(Run(s, events), id, until)
  {
    if events != [] {
      var n := |events| - 1;
      CooledRun(s, events[..n], id, until);
      CooledStep(Run(s, events[..n]), events[n], id, until);
    }
  }

  // ----- Cooldowns are exactly the limits that still last -----

  /** A provider limit noted at `now` lasts until the provider's time if that lies ahead, else for a minute. */
  predicate LastsUntil(now: nat, retryAfter: Cooldown, at: nat) {
    && (retryAfter.RetryAt? && now < retryAfter.until ==> at == retryAfter.until)
    && (!(retryAfter.RetryAt? && now < retryAfter.until) ==> at == now + 60)
  }

  /** The `k`-th event noted a limit of the account that lasts past `now`, and no later sync saw it disabled. */
  ghost predicate StillLimits(s: State, events: seq<Event>, k: nat, id: ID, now: nat)
    requires k < |events|
  {
    && events[k].NoteLimit? && events[k].id == id
    && (exists at :: now < at && LastsUntil(Run(s, events[..k]).clock, events[k].retryAfter, at))
    && forall j :: k < j < |events| && events[j].Sync? ==> id in events[j].enabled
  }

  ghost predicate Limited(s: State, events: seq<Event>, id: ID, now: nat) {
    exists k :: 0 <= k < |events| && StillLimits(s, events, k, id, now)
  }

  lemma LastsIsUntil(now: nat, retryAfter: Cooldown, at: nat)
    ensures LastsUntil(now, retryAfter, at) <==> at == Until(now, retryAfter)
  {
  }

  lemma StillLimitsPrefix(s: State, events: seq<Event>, e: Event, k: nat, id: ID, now: nat)
    requires k < |events|
    ensures StillLimits(s, events + [e], k, id, now) <==>
            StillLimits(s, events, k, id, now) && (e.Sync? ==> id in e.enabled)
  {
    assert (events + [e])[..k] == events[..k] && (events + [e])[|events|] == e;
    assert forall j :: 0 <= j < |events| ==> (events + [e])[j] == events[j];
  }

  lemma StillLimitsLast(s: State, events: seq<Event>, e: Event, id: ID, now: nat)
    ensures StillLimits(s, events + [e], |events|, id, now) <==>
            e.NoteLimit? && e.id == id && now < Until(Run(s, events).clock, e.retryAfter)
  {
    assert (events + [e])[..|events|] == events;
    if e.NoteLimit? {
      LastsIsUntil(Run(s, events).clock, e.retryAfter, Until(Run(s, events).clock, e.retryAfter));
      assert forall at :: LastsUntil(Run(s, events).clock, e.retryAfter, at) ==>
          at == Until(Run(s, events).clock, e.retryAfter);
    }
  }

  lemma LimitedOneMore(s: State, events: seq<Event>, e: Event, id: ID, now: nat)
    ensures Limited(s, events + [e], id, now) <==>
            || (Limited(s, events, id, now) && (e.Sync? ==> id in e.enabled))
            || (e.NoteLimit? && e.id == id && now < Until(Run(s, events).clock, e.retryAfter))
  {
    StillLimitsLast(s, events, e, id, now);
    forall k | 0 <= k < |events|
      ensures StillLimits(s, events + [e], k, id, now) <==>
              StillLimits(s, events, k, id, now) && (e.Sync? ==> id in e.enabled)
    {
      StillLimitsPrefix(s, events, e, k, id, now);
    }
    if Limited(s, events, id, now) && (e.Sync? ==> id in e.enabled) {
      var k :| 0 <= k < |events| && StillLimits(s, events, k, id, now);
      assert StillLimits(s, events + [e], k, id, now);
    }
    if e.NoteLimit? && e.id == id && now < Until(Run(s, events).clock, e.retryAfter) {
      assert StillLimits(s, events + [e], |events|, id, now);
    }
  }

  predicate LastsPast(s: State, id: ID, now: nat) {
    id in s.cooldowns && now < s.cooldowns[id]
  }

  lemma StepLastsPast(s: State, e: Event, id: ID, now: nat)
    requires s.clock <= now
    ensures LastsPast(Apply(s, e), id, now) <==>
            || (LastsPast(s, id, now) && (e.Sync? ==> id in e.enabled))
            || (e.NoteLimit? && e.id == id && now < Until(s.clock, e.retryAfter))
  {
    if e.Select? {
      EligibleIff(s, e.candidates, e.tried, id);
    }
  }

  lemma {:induction false} LimitsLast(s: State, events: seq<Event>, id: ID, now: nat)
    requires s.cooldowns == map[] && Run(s, events).clock <= now
    ensures LastsPast(Run(s, events), id, now) <==> Limited(s, events, id, now)
  {
    if events != [] {
      var init, e := events[..|events| - 1], events[|events| - 1];
      assert events == init + [e];
      LimitsLast(s, init, id, now);
      LimitedOneMore(s, init, e, id, now);
      StepLastsPast(Run(s, init), e, id, now);
    }
  }

  /**
   However requests overlap, an account is passed over for a cooldown exactly if some provider limit that it met still
   lasts: until the provider's own time where that lay ahead, for one minute otherwise, and until a sync that saw the
   account disabled. No limit shortens another, and no selection ends one early.
   */
  lemma PassedOverIffLimited(s: State, events: seq<Event>, candidates: seq<Candidate>, tried: set<ID>, id: ID)
    requires s.cooldowns == map[]
    ensures id in Eligible(Run(s, events), candidates, tried) <==>
            && id !in tried && (exists c :: c in candidates && c.id == id)
            && !Limited(s, events, id, Run(s, events).clock)
  {
    LimitsLast(s, events, id, Run(s, events).clock);
    EligibleIff(Run(s, events), candidates, tried, id);
  }

  /** A selection is remembered for its model alone, and leaves no cooldown of an account that it could choose. */
  lemma ChoiceIsRemembered(s: State, model: string, candidates: seq<Candidate>, tried: set<ID>, picked: ID, id: ID,
      other: string)
    requires picked in Eligible(s, candidates, tried)
    ensures
      var t := Apply(s, Select(model, candidates, tried, picked));
      && Lookup(t.positions, other) == (if other == model then Some(picked) else Lookup(s.positions, other))
      && (id in Eligible(s, candidates, tried) ==> id !in t.cooldowns)
      && (id !in Eligible(s, candidates, tried) ==> Lookup(t.cooldowns, id) == Lookup(s.cooldowns, id))
  {
  }

  // ----- The attempts of one request -----

  datatype Outcome = Opened | Failed(error: Error, ctxDone: bool)

  /** What happens around one attempt: other requests' steps before it, and how it ends. */
  datatype Turn = Turn(others: seq<Event>, outcome: Outcome)

  predicate IsCandidate(candidates: seq<Candidate>, id: ID) {
    exists c :: c in candidates && c.id == id
  }

  datatype OpenResult =
    | Stream
    | NoEligible
    | LastError(error: Error)
    | Canceled
    | SnapshotFailed(snapshotError: Error)
    | NoCandidates(reason: CandidateError)

  /** The shared state after one attempt: others' steps, the selection, and a limit's cooldown. */
  function AfterTurn(s: State, model: string, candidates: seq<Candidate>, turn: Turn, tried: set<ID>, id: ID): State {
    AfterOutcome(Apply(Run(s, turn.others), Select(model, candidates, tried, id)), id, turn.outcome)
  }

  function AfterOutcome(s: State, id: ID, outcome: Outcome): State {
    if outcome.Failed? && outcome.error.Failure? && outcome.error.category == PROVIDER_LIMIT && !outcome.ctxDone
    then Apply(s, NoteLimit(id, outcome.error.retryAfter)) else s
  }

  /** An attempt starts a cooldown of its account exactly if it met a provider limit while its request lived. */
  lemma LimitCools(s: State, id: ID, outcome: Outcome, other: ID)
    ensures Cooling(AfterOutcome(s, id, outcome), other) <==>
            || Cooling(s, other)
            || (other == id && outcome.Failed? && !outcome.ctxDone && outcome.error.Failure? &&
                outcome.error.category == PROVIDER_LIMIT)
  {
  }

  predicate Distinct(ids: seq<ID>) {
    forall i, j :: 0 <= i < j < |ids| ==> ids[i] != ids[j]
  }

  predicate AllCandidates(candidates: seq<Candidate>, ids: seq<ID>) {
    forall i :: 0 <= i < |ids| ==> IsCandidate(candidates, ids[i])
  }

  /** Only a failure of the account or its limit, with nothing sent yet, lets another account be tried. */
  predicate AllowsAnother(e: Error) {
    match e
    case Failure(category, safeToRetry, _, canceled) =>
      category in {"provider_limit", "account_problem"} && safeToRetry && !canceled
    case OtherError(_) => false
  }

  lemma SafeRetryIff(e: Error)
    ensures SafeRetry(e) <==> AllowsAnother(e)
  {
  }

  /** The first `n` turns ended in failures that allow trying another account. */
  predicate SafeFailures(turns: seq<Turn>, n: int)
    requires n <= |turns|
  {
    forall k :: 0 <= k < n ==>
        turns[k].outcome.Failed? && AllowsAnother(turns[k].outcome.error) && !turns[k].outcome.ctxDone
  }

  lemma OneMoreAttempt(candidates: seq<Candidate>, attempts: seq<ID>, id: ID)
    requires id !in RR.Elements(attempts) && IsCandidate(candidates, id)
    requires Distinct(attempts) && AllCandidates(candidates, attempts)
    ensures Distinct(attempts + [id]) && AllCandidates(candidates, attempts + [id])
    ensures RR.Elements(attempts + [id]) == RR.Elements(attempts) + {id}
  {
  }

  lemma EmptySelection(s: State, model: string, candidates: seq<Candidate>, tried: set<ID>)
    requires Eligible(s, candidates, tried) == []
    ensures Apply(s, Select(model, candidates, tried, "")) == s
  {
    assert s.cooldowns - RR.Elements([]) == s.cooldowns;
  }

  /** The executor's selection state, shared by all requests. */
  class Dispatcher {
    var cooldowns: map<ID, nat>
    var clock: nat
    const selector: RR.Selector

    constructor (selector: RR.Selector)
      ensures cooldowns == map[] && clock == 0 && this.selector == selector
    {
      cooldowns, clock, this.selector := map[], 0, selector;
    }

    function Snap(): State
      reads this, selector
    {
      State(cooldowns, selector.positions, clock)
    }

    /** selectAccount */
    method SelectAccount(model: string, candidates: seq<Candidate>, tried: set<ID>) returns (r: Option<Candidate>)
      modifies this, selector
      ensures r.None? <==> Eligible(old(Snap()), candidates, tried) == []
      ensures r.Some? ==> r.value in candidates && r.value.id !in tried && !Cooling(old(Snap()), r.value.id)
      ensures r.Some? ==>
                var ids := RR.Elements(Eligible(old(Snap()), candidates, tried));
                RR.IsNext(Lookup(old(selector.positions), model), ids, r.value.id)
      ensures Snap() == Apply(old(Snap()), Select(model, candidates, tried, if r.Some? then r.value.id else ""))
    {
      ghost var s := Snap();
      var ids: seq<ID> := [];
      for i := 0 to |candidates|
        invariant ids == Eligible(s, candidates[..i], tried)
        invariant cooldowns == s.cooldowns - RR.Elements(ids)
        invariant selector.positions == s.positions && clock == s.clock
      {
        var id := candidates[i].id;
        assert candidates[..i + 1][..i] == candidates[..i];
        EligibleIff(s, candidates[..i], tried, id);
        assert id !in tried ==> (Cooling(s, id) <==> id in cooldowns && clock < cooldowns[id]);
        if !(id in tried || (id in cooldowns && clock < cooldowns[id])) {
          cooldowns := cooldowns - {id};
          ids := ids + [id];
          assert RR.Elements(ids) == RR.Elements(ids[..|ids| - 1]) + {id};
        }
      }
      assert candidates[..|candidates|] == candidates;
      var id, ok := selector.Select(model, ids);
      if !ok {
        return None;
      }
      EligibleIff(s, candidates, tried, id);
      assert id in ids;
      r := None;
      for i := 0 to |candidates|
        invariant r.None? && forall k :: 0 <= k < i ==> candidates[k].id != id
        invariant Snap() == Apply(s, Select(model, candidates, tried, id))
      {
        if candidates[i].id == id {
          return Some(candidates[i]);
        }
      }
      assert false;
    }

    /** noteFailure, its part that changes cooldowns. */
    method NoteFailure(id: ID, e: Error, ctxDone: bool)
      modifies this
      ensures Snap() == if e.Failure? && e.category == PROVIDER_LIMIT && !ctxDone
                        then Apply(old(Snap()), NoteLimit(id, e.retryAfter)) else old(Snap())
    {
      if e.Failure? && e.category == PROVIDER_LIMIT && !ctxDone {
        var until := clock + MINUTE;
        if e.retryAfter.RetryAt? && e.retryAfter.until > clock {
          until := e.retryAfter.until;
        }
        if id !in cooldowns || until > cooldowns[id] {
          cooldowns := cooldowns[id := until];
        }
      }
    }

    /** The steps of other requests between two of this one. */
    method Others(events: seq<Event>)
      modifies this, selector
      ensures Snap() == Run(old(Snap()), events)
    {
      var s := Run(Snap(), events);
      cooldowns, clock, selector.positions := s.cooldowns, s.clock, s.positions;
    }

    /** One turn of open's loop: the selection and, when the attempt fails, noteFailure. */
    method Attempt(model: string, candidates: seq<Candidate>, tried: set<ID>, turn: Turn) returns (id: Option<ID>)
      modifies this, selector
      ensures id.None? ==> Snap() == Run(old(Snap()), turn.others) && Eligible(Snap(), candidates, tried) == []
      ensures id.Some? ==> id.value !in tried && IsCandidate(candidates, id.value)
      ensures id.Some? ==> Snap() == AfterTurn(old(Snap()), model, candidates, turn, tried, id.value)
    {
      Others(turn.others);
      ghost var before := Snap();
      var selected := SelectAccount(model, candidates, tried);
      if selected.None? {
        EmptySelection(before, model, candidates, tried);
        return None;
      }
      id := Some(selected.value.id);
      if turn.outcome.Failed? {
        NoteFailure(selected.value.id, turn.outcome.error, turn.outcome.ctxDone);
      }
    }

    /** open: without a snapshot or a candidate it fails before any attempt; else it makes its attempts. */
    method Open(model: string, snapshot: Result<seq<AccountCatalog>, Error>, turns: seq<Turn>)
      returns (r: OpenResult, attempts: seq<ID>)
      requires |turns| >= MAX_ATTEMPTS
      modifies this, selector
      ensures snapshot.Err? ==> r == SnapshotFailed(snapshot.error) && attempts == [] && Snap() == old(Snap())
      ensures snapshot.Ok? && CandidatesOrError(snapshot.value, model).Err? ==>
                r == NoCandidates(CandidatesOrError(snapshot.value, model).error) && attempts == [] &&
                    Snap() == old(Snap())
      ensures snapshot.Ok? && CandidatesOrError(snapshot.value, model).Ok? ==>
                && |attempts| <= MAX_ATTEMPTS && Distinct(attempts) && SafeFailures(turns, |attempts| - 1)
                && forall i :: 0 <= i < |attempts| ==> Offered(snapshot.value, model, attempts[i])
    {
      if snapshot.Err? {
        return SnapshotFailed(snapshot.error), [];
      }
      var candidates := RequestCandidates(snapshot.value, model);
      if candidates.Err? {
        return NoCandidates(candidates.error), [];
      }
      r, attempts := TryCandidates(model, candidates.value, turns);
      forall i | 0 <= i < |attempts| ensures Offered(snapshot.value, model, attempts[i]) {
        assert IsCandidate(candidates.value, attempts[i]);
        var x :| x in candidates.value && x.id == attempts[i];
        CandidatesIff(snapshot.value, model, x);
        assert Offered(snapshot.value, model, x.id);
      }
    }

    /**
     open's loop: at most three attempts, on distinct candidates, each after only safe failures of other
     accounts; `turns` supplies the outcomes and what runs in between.
     */
    method TryCandidates(model: string, candidates: seq<Candidate>, turns: seq<Turn>)
      returns (r: OpenResult, attempts: seq<ID>)
      requires |turns| >= MAX_ATTEMPTS
      modifies this, selector
      ensures |attempts| <= MAX_ATTEMPTS
      ensures Distinct(attempts) && AllCandidates(candidates, attempts)
      ensures SafeFailures(turns, |attempts| - 1)
      ensures r.Stream? || r.NoEligible? || r.LastError? || r.Canceled?
      ensures r.Stream? ==> attempts != [] && turns[|attempts| - 1].outcome.Opened?
      ensures r.NoEligible? ==> attempts == []
      ensures r.Canceled? ==>
          attempts != [] && turns[|attempts| - 1].outcome.Failed? && turns[|attempts| - 1].outcome.ctxDone
      ensures r.LastError? ==>
          attempts != [] && turns[|attempts| - 1].outcome.Failed? && r.error == turns[|attempts| - 1].outcome.error
      ensures r.NoEligible? || (r.LastError? && AllowsAnother(r.error) && |attempts| < MAX_ATTEMPTS) ==>
                Eligible(Snap(), candidates, RR.Elements(attempts)) == []
    {
      attempts := [];
      var tried: set<ID> := {};
      r := NoEligible;
      for i := 0 to MAX_ATTEMPTS
        invariant |attempts| == i && tried == RR.Elements(attempts)
        invariant Distinct(attempts) && AllCandidates(candidates, attempts) && SafeFailures(turns, i)
        invariant r == if i == 0 then NoEligible else LastError(turns[i - 1].outcome.error)
      {
        var selected := Attempt(model, candidates, tried, turns[i]);
        if selected.None? {
          return;
        }
        var id := selected.value;
        OneMoreAttempt(candidates, attempts, id);
        attempts := attempts + [id];
        tried := tried + {id};
        match turns[i].outcome
        case Opened =>
          return Stream, attempts;
        case Failed(error, ctxDone) =>
          if ctxDone {
            return Canceled, attempts;
          }
          r := LastError(error);
          SafeRetryIff(error);
          if !SafeRetry(error) {
            return;
          }
      }
    }
  }
}
