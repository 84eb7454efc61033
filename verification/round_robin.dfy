/** Round-robin account selection: the smallest candidate above the last choice, wrapping around. */
module RoundRobin {
  import opened Common
  import opened TextOrder

  type ID = string

  predicate After(last: Option<ID>, id: ID) {
    last.Some? && Less(last.value, id)
  }

  function Elements(ids: seq<ID>): set<ID> {
    set id | id in ids
  }

  ghost predicate Smallest(ids: set<ID>, id: ID) {
    id in ids && forall x :: x in ids ==> !Less(x, id)
  }

  /** `id` is the smallest of `ids` above `last` or, if there is none above, the smallest of all. */
  ghost predicate IsNext(last: Option<ID>, ids: set<ID>, id: ID) {
    var above := set x | x in ids && After(last, x);
    Smallest(if above != {} then above else ids, id)
  }

  /** The choice depends on the set of candidates only, not on their order or repetition. */
  lemma NextIsUnique(last: Option<ID>, ids: set<ID>, a: ID, b: ID)
    requires IsNext(last, ids, a) && IsNext(last, ids, b)
    ensures a == b
  {
    Total(a, b);
  }

  class Selector {
    var positions: map<string, ID>

    constructor ()
      ensures positions == map[]
    {
      positions := map[];
    }

    method Select(model: string, candidates: seq<ID>) returns (next: ID, ok: bool)
      modifies this
      ensures ok <==> candidates != []
      ensures !ok ==> positions == old(positions)
      ensures ok ==> positions == old(positions)[model := next]
      ensures ok ==> IsNext(Lookup(old(positions), model), Elements(candidates), next)
    {
      if candidates == [] {
        return "", false;
      }
      var last := Lookup(positions, model);
      var smallest := candidates[0];
      next := "";
      var foundNext := false;
      Irreflexive(smallest);
      for i := 0 to |candidates|
        invariant positions == old(positions)
        invariant smallest in candidates && forall k :: 0 <= k < i ==> !Less(candidates[k], smallest)
        invariant foundNext ==> next in candidates && After(last, next)
        invariant forall k :: 0 <= k < i && After(last, candidates[k]) ==> foundNext && !Less(candidates[k], next)
      {
        var id := candidates[i];
        Irreflexive(id);
        if Less(id, smallest) {
          forall k | 0 <= k < i ensures !Less(candidates[k], id) {
            if Less(candidates[k], id) { Transitive(candidates[k], id, smallest); }
          }
          smallest := id;
        }
        if After(last, id) && (!foundNext || Less(id, next)) {
          forall k | 0 <= k < i && After(last, candidates[k]) ensures !Less(candidates[k], id) {
            if Less(candidates[k], id) { Transitive(candidates[k], id, next); }
          }
          next := id;
          foundNext := true;
        }
      }
      ghost var ids := Elements(candidates);
      ghost var above := set x | x in ids && After(last, x);
      if foundNext {
        assert next in above;
      } else {
        assert above == {} by {
          forall x | x in ids ensures !After(last, x) {
            var k :| 0 <= k < |candidates| && candidates[k] == x;
          }
        }
        next := smallest;
      }
      assert Smallest(if above != {} then above else ids, next);
      positions := positions[model := next];
      ok := true;
    }

    /** Any sequence of calls, for any models: what each returned and the positions they leave. */
    method SelectEach(calls: seq<Call>) returns (results: seq<Option<ID>>)
      modifies this
      ensures SelectRun(old(positions), calls, results) && positions == PositionsAfter(old(positions), calls, results)
    {
      results := [];
      for i := 0 to |calls|
        invariant SelectRun(old(positions), calls[..i], results)
        invariant positions == PositionsAfter(old(positions), calls[..i], results)
      {
        var next, ok := Select(calls[i].model, calls[i].candidates);
        var result := if ok then Some(next) else None;
        assert calls[..i + 1][..i] == calls[..i] && (results + [result])[..i] == results;
        results := results + [result];
      }
      assert calls[..|calls|] == calls;
    }
  }

  // ----- Runs of calls for any models -----

  datatype Call = Call(model: string, candidates: seq<ID>)

  function PositionsAfter(positions: map<string, ID>, calls: seq<Call>, results: seq<Option<ID>>): map<string, ID>
    requires |calls| == |results|
  {
    if calls == [] then positions
    else
      var n := |calls| - 1;
      var before := PositionsAfter(positions, calls[..n], results[..n]);
      if results[n].Some? then before[calls[n].model := results[n].value] else before
  }

  /** Each call without candidates returned nothing, and each other one the next after its model's position. */
  ghost predicate SelectRun(positions: map<string, ID>, calls: seq<Call>, results: seq<Option<ID>>) {
    |calls| == |results| &&
    (calls != [] ==>
      var n := |calls| - 1;
      && SelectRun(positions, calls[..n], results[..n])
      && (results[n].None? <==> calls[n].candidates == [])
      && (results[n].Some? ==>
            var last := Lookup(PositionsAfter(positions, calls[..n], results[..n]), calls[n].model);
            IsNext(last, Elements(calls[n].candidates), results[n].value)))
  }

  /** The candidate sets of the calls for one model that had candidates. */
  function ListsFor(model: string, calls: seq<Call>): seq<set<ID>> {
    if calls == [] then []
    else
      var n := |calls| - 1;
      var init := ListsFor(model, calls[..n]);
      if calls[n].model == model && calls[n].candidates != [] then init + [Elements(calls[n].candidates)] else init
  }

  /** What those calls chose. */
  function PicksFor(model: string, calls: seq<Call>, results: seq<Option<ID>>): seq<ID>
    requires |calls| == |results|
  {
    if calls == [] then []
    else
      var n := |calls| - 1;
      var init := PicksFor(model, calls[..n], results[..n]);
      if calls[n].model == model && results[n].Some? then init + [results[n].value] else init
  }

  lemma SameChoice(last: Option<ID>, lists: seq<set<ID>>, picks: seq<ID>, list: set<ID>, pick: ID, i: nat)
    requires i <= |picks| == |lists|
    ensures Previous(last, picks + [pick], i) == Previous(last, picks, i)
    ensures (lists + [list])[i] == (if i < |lists| then lists[i] else list)
    ensures (picks + [pick])[i] == (if i < |picks| then picks[i] else pick)
  {
  }

  lemma ChoosesOneMore(last: Option<ID>, lists: seq<set<ID>>, picks: seq<ID>, list: set<ID>, pick: ID)
    requires Chooses(last, lists, picks) && IsNext(Previous(last, picks, |picks|), list, pick)
    ensures Chooses(last, lists + [list], picks + [pick])
  {
    var ls, ps := lists + [list], picks + [pick];
    forall i | 0 <= i < |ps| ensures IsNext(Previous(last, ps, i), ls[i], ps[i]) {
      SameChoice(last, lists, picks, list, pick, i);
      if i < |picks| {
        assert IsNext(Previous(last, picks, i), lists[i], picks[i]);
      }
    }
  }

  /** In any run of calls, those for one model are consecutive choices for it, whatever comes in between. */
  lemma {:induction false} EachModelChooses(positions: map<string, ID>, calls: seq<Call>, results: seq<Option<ID>>,
      model: string)
    requires SelectRun(positions, calls, results)
    ensures
      var last, picks := Lookup(positions, model), PicksFor(model, calls, results);
      && Chooses(last, ListsFor(model, calls), picks)
      && Lookup(PositionsAfter(positions, calls, results), model) == Previous(last, picks, |picks|)
  {
    if calls != [] {
      var n := |calls| - 1;
      EachModelChooses(positions, calls[..n], results[..n], model);
      if calls[n].model == model && results[n].Some? {
        ChoosesOneMore(Lookup(positions, model), ListsFor(model, calls[..n]), PicksFor(model, calls[..n], results[..n]),
                       Elements(calls[n].candidates), results[n].value);
      }
    }
  }

  // ----- Runs of consecutive calls for one model -----

  function Previous(last: Option<ID>, picks: seq<ID>, i: nat): Option<ID>
    requires i <= |picks|
  {
    if i == 0 then last else Some(picks[i - 1])
  }

  /** Consecutive calls with candidate sets `lists`, from position `last`, chose `picks`. */
  ghost predicate Chooses(last: Option<ID>, lists: seq<set<ID>>, picks: seq<ID>) {
    && |lists| == |picks|
    && forall i :: 0 <= i < |lists| ==> IsNext(Previous(last, picks, i), lists[i], picks[i])
  }

  predicate AtMost(x: ID, a: ID) {
    !Less(a, x)
  }

  /** Going round from `last`, `x` comes no later than `a`. */
  predicate Ahead(last: Option<ID>, a: ID, x: ID) {
    if last.None? then AtMost(x, a)
    else if Less(last.value, a) then Less(last.value, x) && AtMost(x, a)
    else Less(last.value, x) || AtMost(x, a)
  }

  function AheadIn(ids: set<ID>, last: Option<ID>, a: ID): set<ID> {
    set x | x in ids && Ahead(last, a, x)
  }

  /** A choice other than `a`, made while `a` was a candidate, was ahead of `a` and is no longer. */
  lemma ChoiceMovesTowards(last: Option<ID>, list: set<ID>, pick: ID, a: ID, x: ID)
    requires IsNext(last, list, pick) && a in list && pick != a
    ensures Ahead(last, a, pick) && !Ahead(Some(pick), a, pick) && Ahead(Some(pick), a, a)
    ensures Ahead(Some(pick), a, x) ==> Ahead(last, a, x)
  {
    Irreflexive(a);
    Irreflexive(pick);
    Total(pick, a);
    var above := set y | y in list && After(last, y);
    if last.Some? {
      Total(last.value, a);
      Total(last.value, pick);
      if Less(last.value, a) {
        assert a in above;
        assert AtMost(pick, a);
      }
      if above != {} {
        assert After(last, pick);
      } else {
        assert !After(last, a);
      }
    }
    ForPick(last, pick, a, x);
  }

  lemma ForPick(last: Option<ID>, pick: ID, a: ID, x: ID)
    requires last.None? ==> Less(pick, a)
    requires last.Some? && Less(last.value, a) ==> Less(last.value, pick) && Less(pick, a)
    requires last.Some? && !Less(last.value, a) ==> Less(last.value, pick) || Less(pick, a)
    ensures Ahead(Some(pick), a, x) ==> Ahead(last, a, x)
  {
    StrictTotalOrder();
  }

  /** Each call that passes `a` over shrinks what is ahead of `a` by its own choice. */
  lemma AheadShrinks(ids: set<ID>, last: Option<ID>, list: set<ID>, pick: ID, a: ID)
    requires IsNext(last, list, pick) && a in list && list <= ids && pick != a
    ensures AheadIn(ids, Some(pick), a) < AheadIn(ids, last, a) && a in AheadIn(ids, Some(pick), a)
  {
    forall x ensures Ahead(Some(pick), a, x) ==> Ahead(last, a, x) {
      ChoiceMovesTowards(last, list, pick, a, x);
    }
    ChoiceMovesTowards(last, list, pick, a, pick);
    assert pick in AheadIn(ids, last, a) && pick !in AheadIn(ids, Some(pick), a);
  }

  lemma ProperSubsetSize(a: set<ID>, b: set<ID>)
    requires a < b
    ensures |a| < |b|
  {
    var x :| x in b && x !in a;
    assert a <= b - {x};
    SubsetSize(a, b - {x});
  }

  /** While `a` is passed over, the calls made so far and what is ahead of `a` fit into the `ids`. */
  lemma {:induction false} PassedOver(ids: set<ID>, last: Option<ID>, lists: seq<set<ID>>, picks: seq<ID>, a: ID,
      k: nat)
    requires Chooses(last, lists, picks) && k <= |picks|
    requires forall i :: 0 <= i < |lists| ==> a in lists[i] && lists[i] <= ids
    requires a !in picks[..k]
    ensures |AheadIn(ids, Previous(last, picks, k), a)| + k <= |ids|
    ensures k > 0 ==> a in AheadIn(ids, Previous(last, picks, k), a) && |AheadIn(ids, Previous(last, picks, k), a)| > 0
  {
    if k == 0 {
      SubsetSize(AheadIn(ids, last, a), ids);
    } else {
      assert picks[..k - 1] == picks[..k][..k - 1];
      PassedOver(ids, last, lists, picks, a, k - 1);
      assert picks[k - 1] in picks[..k];
      AheadShrinks(ids, Previous(last, picks, k - 1), lists[k - 1], picks[k - 1], a);
      ProperSubsetSize(AheadIn(ids, Previous(last, picks, k), a), AheadIn(ids, Previous(last, picks, k - 1), a));
    }
  }

  /**
   Bounded waiting: an account that is a candidate of n consecutive calls, whose lists vary freely over
   n distinct IDs, is chosen by one of them, from any position.
   */
  lemma BoundedWaiting(ids: set<ID>, last: Option<ID>, lists: seq<set<ID>>, picks: seq<ID>, a: ID)
    requires Chooses(last, lists, picks) && |lists| == |ids|
    requires a in ids && forall i :: 0 <= i < |lists| ==> a in lists[i] && lists[i] <= ids
    ensures a in picks
  {
    if a !in picks {
      assert picks[..|picks|] == picks;
      PassedOver(ids, last, lists, picks, a, |picks|);
    }
  }

  /**
   Bounded waiting of the selector itself: in any run of calls, an account that is a candidate of n calls
   for one model, whose lists are drawn from n distinct IDs, is returned by one of those calls.
   */
  lemma SelectorWaitIsBounded(
    positions: map<string, ID>, calls: seq<Call>, results: seq<Option<ID>>, model: string, ids: set<ID>, a: ID)
    requires SelectRun(positions, calls, results) && |ListsFor(model, calls)| == |ids| && a in ids
    requires forall i :: 0 <= i < |ListsFor(model, calls)| ==>
        a in ListsFor(model, calls)[i] && ListsFor(model, calls)[i] <= ids
    ensures exists k :: 0 <= k < |calls| && calls[k].model == model && results[k] == Some(a)
  {
    EachModelChooses(positions, calls, results, model);
    BoundedWaiting(ids, Lookup(positions, model), ListsFor(model, calls), PicksFor(model, calls, results), a);
    PickedByCall(model, calls, results, a);
  }

  lemma {:induction false} PickedByCall(model: string, calls: seq<Call>, results: seq<Option<ID>>, a: ID)
    requires |calls| == |results| && a in PicksFor(model, calls, results)
    ensures exists k :: 0 <= k < |calls| && calls[k].model == model && results[k] == Some(a)
  {
    var n := |calls| - 1;
    if calls[n].model == model && results[n] == Some(a) {
    } else {
      PickedByCall(model, calls[..n], results[..n], a);
      var k :| 0 <= k < n && calls[..n][k].model == model && results[..n][k] == Some(a);
      assert calls[k].model == model && results[k] == Some(a);
    }
  }

  lemma {:induction false} NoRepetition(picks: seq<ID>, ids: set<ID>)
    requires Elements(picks) == ids && |picks| == |ids|
    ensures multiset(picks) == multiset(ids)
  {
    if picks != [] {
      var x, rest := picks[0], picks[1..];
      assert picks == [x] + rest;
      assert Elements(picks) == {x} + Elements(rest);
      assert x in rest ==> {x} + Elements(rest) == Elements(rest);
      ElementsSize(rest);
      assert Elements(rest) == ids - {x};
      NoRepetition(rest, ids - {x});
      assert multiset(ids) == multiset(ids - {x}) + multiset{x};
    }
  }

  lemma {:induction false} ElementsSize(picks: seq<ID>)
    ensures |Elements(picks)| <= |picks|
  {
    if picks != [] {
      ElementsSize(picks[1..]);
      assert picks == [picks[0]] + picks[1..];
      assert Elements(picks) == {picks[0]} + Elements(picks[1..]);
    }
  }

  /** With a fixed set of n IDs any n consecutive calls choose each of them exactly once. */
  lemma EachExactlyOnce(ids: set<ID>, last: Option<ID>, picks: seq<ID>)
    requires Chooses(last, seq(|ids|, _ => ids), picks)
    ensures multiset(picks) == multiset(ids)
  {
    var lists := seq(|ids|, _ => ids);
    forall a | a in ids ensures a in picks {
      BoundedWaiting(ids, last, lists, picks, a);
    }
    forall x | x in picks ensures x in ids {
      var i :| 0 <= i < |picks| && picks[i] == x;
      assert IsNext(Previous(last, picks, i), lists[i], picks[i]);
    }
    NoRepetition(picks, ids);
  }
}
