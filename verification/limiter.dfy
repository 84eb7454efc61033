/** Per-key slot counts: acquired without queuing, freed at most once per slot. */
module Limiter {
  import opened Common

  type Key = string

  const UNLIMITED := -1

  type Counts = map<Key, nat>

  datatype Refusal = InvalidKey | InvalidLimit | LimitReached

  function Count(active: Counts, key: Key): nat {
    if key in active then active[key] else 0
  }

  function Refused(active: Counts, key: Key, limit: int): Option<Refusal> {
    if Blank(key) then Some(InvalidKey)
    else if limit < UNLIMITED then Some(InvalidLimit)
    else if limit != UNLIMITED && Count(active, key) >= limit then Some(LimitReached)
    else None
  }

  function Acquired(active: Counts, key: Key): Counts {
    active[key := Count(active, key) + 1]
  }

  function Freed(active: Counts, key: Key): Counts
    requires key in active
  {
    if active[key] <= 1 then active - {key} else active[key := active[key] - 1]
  }

  /** A slot is given exactly to a named key whose limit is none or above its count; each refusal names its cause. */
  lemma GivenIff(active: Counts, key: Key, limit: int)
    ensures Refused(active, key, limit).None? <==>
            !Blank(key) && limit >= -1 && (limit == -1 || Count(active, key) < limit)
    ensures Refused(active, key, limit) == Some(InvalidKey) <==> Blank(key)
    ensures Refused(active, key, limit) == Some(InvalidLimit) <==> !Blank(key) && limit < -1
  {
  }

  /** Keys without an active slot are absent. */
  predicate Pruned(active: Counts) {
    forall k :: k in active ==> active[k] > 0
  }

  /** Taking a slot and freeing it gives back the same counts, with no entry left behind. */
  lemma AcquireThenFree(active: Counts, key: Key)
    requires Pruned(active)
    ensures Freed(Acquired(active, key), key) == active && Pruned(Acquired(active, key))
  {
    var after := Freed(Acquired(active, key), key);
    assert forall k :: k in after <==> k in active;
  }

  /** One acquisition. Copies of a Go slot share one of these. */
  class Slot {
    const key: Key
    var released: bool

    constructor (key: Key)
      ensures this.key == key && !released
    {
      this.key, released := key, false;
    }
  }

  ghost function HeldOf(slots: set<Slot>, key: Key): set<Slot> {
    set s | s in slots && s.key == key
  }

  lemma HeldWith(slots: set<Slot>, slot: Slot, key: Key)
    requires slot !in slots
    ensures |HeldOf(slots + {slot}, key)| == |HeldOf(slots, key)| + if key == slot.key then 1 else 0
  {
    assert HeldOf(slots + {slot}, key) == HeldOf(slots, key) + if key == slot.key then {slot} else {};
  }

  class SlotLimiter {
    var active: Counts
    ghost var outstanding: set<Slot>

    constructor ()
      ensures Valid() && active == map[] && outstanding == {}
    {
      active, outstanding := map[], {};
    }

    ghost function Held(key: Key): set<Slot>
      reads this
    {
      HeldOf(outstanding, key)
    }

    /** The count of each key is the number of its slots that were not released. */
    ghost predicate Valid()
      reads this, outstanding
    {
      && Pruned(active)
      && (forall s :: s in outstanding ==> !s.released)
      && (forall key :: Count(active, key) == |Held(key)|)
    }

    method TryAcquire(key: Key, limit: int) returns (r: Result<Slot, Refusal>)
      requires Valid()
      modifies this
      ensures Valid()
      ensures r.Ok? <==> !Blank(key) && limit >= -1 && (limit == -1 || |old(Held(key))| < limit)
      ensures r == Err(InvalidKey) <==> Blank(key)
      ensures r == Err(InvalidLimit) <==> !Blank(key) && limit < -1
      ensures r.Err? ==>
          Some(r.error) == Refused(old(active), key, limit) && active == old(active) && outstanding == old(outstanding)
      ensures r.Ok? ==>
          fresh(r.value) && r.value.key == key && active == Acquired(old(active), key) &&
          outstanding == old(outstanding) + {r.value}
      ensures r.Ok? && limit != UNLIMITED ==> active[key] <= limit
    {
      if Blank(key) {
        return Err(InvalidKey);
      }
      if limit < UNLIMITED {
        return Err(InvalidLimit);
      }
      if limit != UNLIMITED && Count(active, key) >= limit {
        return Err(LimitReached);
      }
      var slot := new Slot(key);
      active := active[key := Count(active, key) + 1];
      outstanding := outstanding + {slot};
      forall k ensures Count(active, k) == |Held(k)| {
        assert Count(old(active), k) == |old(Held(k))|;
        HeldWith(old(outstanding), slot, k);
      }
      r := Ok(slot);
    }

    /** Slot.Release: the first call frees the slot, later calls do nothing. */
    method Release(slot: Slot)
      requires Valid() && (slot.released || slot in outstanding)
      modifies this, slot
      ensures Valid() && slot.released && outstanding == old(outstanding) - {slot}
      ensures active == if old(slot.released) || slot.key !in old(active) then old(active)
          else Freed(old(active), slot.key)
      ensures !old(slot.released) ==> slot.key in old(active)
    {
      if slot.released {
        return;
      }
      var key := slot.key;
      assert slot in Held(key);
      slot.released := true;
      active := active[key := active[key] - 1];
      if active[key] == 0 {
        active := active - {key};
      }
      outstanding := outstanding - {slot};
      forall k ensures Count(active, k) == |Held(k)| {
        assert Held(k) == if k == key then old(Held(k)) - {slot} else old(Held(k));
      }
    }
  }
}
