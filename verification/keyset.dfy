/** Keyset pagination of the request log: the store's ordered query, the cursor, and walks over a changing table. */
module Keyset {
  import opened Common
  import TextOrder

  // ----- Time bounds -----

  const NANOS_PER_MILLI := 1_000_000
  const NANOS_PER_SECOND := 1_000_000_000

  type Nanos = n | 0 <= n < NANOS_PER_SECOND

  /** A Go time: seconds since 1970, possibly negative, and nanoseconds within that second. */
  datatype Time = Time(seconds: int, nanos: Nanos)

  function UnixNanos(t: Time): int {
    t.seconds * NANOS_PER_SECOND + t.nanos
  }

  function UnixMilli(t: Time): int {
    t.seconds * 1000 + t.nanos / NANOS_PER_MILLI
  }

  function CeilMillis(t: Time): int {
    UnixMilli(t) + if t.nanos % NANOS_PER_MILLI != 0 then 1 else 0
  }

  /** A whole millisecond is at or after `t` exactly when it is at or after CeilMillis(t), before 1970 too. */
  lemma CeilMillisExact(t: Time, m: int)
    ensures m * NANOS_PER_MILLI >= UnixNanos(t) <==> m >= CeilMillis(t)
  {
    var q, r := t.nanos / NANOS_PER_MILLI, t.nanos % NANOS_PER_MILLI;
    assert t.nanos == q * NANOS_PER_MILLI + r;
    assert UnixNanos(t) == UnixMilli(t) * NANOS_PER_MILLI + r;
    if m < UnixMilli(t) {
      assert (UnixMilli(t) - m) * NANOS_PER_MILLI >= NANOS_PER_MILLI;
    } else if m > UnixMilli(t) {
      assert (m - UnixMilli(t)) * NANOS_PER_MILLI >= NANOS_PER_MILLI;
    }
  }

  // ----- Rows and filters -----

  /** usage.Counter */
  datatype Counter = Counter(tokens: int, known: bool)

  /** An absent account or model is "". */
  datatype Row = Row(
    finishedAt: int, key: string, account: string, model: string, result: string, duration: int, usage: seq<Counter>)

  predicate ValidCounter(c: Counter) {
    c.tokens >= 0 && (!c.known ==> c.tokens == 0)
  }

  /** What InsertRequest accepts. */
  predicate ValidRow(id: string, r: Row) {
    && id != "" && r.key != "" && r.result != "" && r.duration >= 0
    && forall k :: 0 <= k < |r.usage| ==> ValidCounter(r.usage[k])
  }

  /** Request IDs are the primary key. */
  type Table = map<string, Row>

  datatype Filter = Filter(from: Option<Time>, to: Option<Time>, key: string, account: string, model: string,
      result: string)

  predicate TextMatches(wanted: string, actual: string) {
    wanted == "" || wanted == actual
  }

  /** The conditions of requestWhere. */
  predicate Selected(f: Filter, r: Row) {
    && (f.from.Some? ==> r.finishedAt >= CeilMillis(f.from.value))
    && (f.to.Some? ==> r.finishedAt < CeilMillis(f.to.value))
    && TextMatches(f.key, r.key) && TextMatches(f.account, r.account)
    && TextMatches(f.model, r.model) && TextMatches(f.result, r.result)
  }

  /** What a filter means: from is inclusive and to exclusive, to the nanosecond; an empty text admits any. */
  predicate Matches(f: Filter, r: Row) {
    var at := r.finishedAt * NANOS_PER_MILLI;
    && (f.from.Some? ==> UnixNanos(f.from.value) <= at)
    && (f.to.Some? ==> at < UnixNanos(f.to.value))
    && (f.key != "" ==> r.key == f.key) && (f.account != "" ==> r.account == f.account)
    && (f.model != "" ==> r.model == f.model) && (f.result != "" ==> r.result == f.result)
  }

  lemma SelectedIsMatches(f: Filter, r: Row)
    ensures Selected(f, r) <==> Matches(f, r)
  {
    if f.from.Some? {
      CeilMillisExact(f.from.value, r.finishedAt);
    }
    if f.to.Some? {
      CeilMillisExact(f.to.value, r.finishedAt);
    }
  }

  predicate ValidFilter(f: Filter) {
    f.from.Some? && f.to.Some? ==> UnixNanos(f.from.value) < UnixNanos(f.to.value)
  }

  // ----- The order of the log -----

  datatype Position = Position(finishedAt: int, id: string)

  /** `(finished_at, id) < (?, ?)` */
  predicate Below(p: Position, q: Position) {
    p.finishedAt < q.finishedAt || (p.finishedAt == q.finishedAt && TextOrder.Less(p.id, q.id))
  }

  lemma BelowTransitive(p: Position, q: Position, r: Position)
    requires Below(p, q) && Below(q, r)
    ensures Below(p, r)
  {
    if p.finishedAt == q.finishedAt == r.finishedAt {
      TextOrder.Transitive(p.id, q.id, r.id);
    }
  }

  lemma BelowTotal(p: Position, q: Position)
    ensures Below(p, q) || p == q || Below(q, p)
    ensures !(Below(p, q) && Below(q, p)) && !Below(p, p)
  {
    TextOrder.Total(p.id, q.id);
    TextOrder.Irreflexive(p.id);
    if TextOrder.Less(p.id, q.id) && TextOrder.Less(q.id, p.id) {
      TextOrder.Transitive(p.id, q.id, p.id);
    }
  }

  function At(t: Table, id: string): Position
    requires id in t
  {
    Position(t[id].finishedAt, id)
  }

  datatype Item = Item(id: string, row: Row)

  function Pos(x: Item): Position {
    Position(x.row.finishedAt, x.id)
  }

  predicate Descending(items: seq<Item>) {
    forall i, j :: 0 <= i < j < |items| ==> Below(Pos(items[j]), Pos(items[i]))
  }

  // ----- One query -----

  predicate IsTop(t: Table, ids: set<string>, id: string)
    requires forall x :: x in ids ==> x in t
  {
    id in ids && forall x :: x in ids && x != id ==> Below(At(t, x), At(t, id))
  }

  lemma {:induction false} HasTop(t: Table, ids: set<string>)
    requires ids != {} && forall x :: x in ids ==> x in t
    ensures exists id :: IsTop(t, ids, id)
  {
    var x :| x in ids;
    if ids == {x} {
      assert IsTop(t, ids, x);
    } else {
      HasTop(t, ids - {x});
      var y :| IsTop(t, ids - {x}, y);
      BelowTotal(At(t, x), At(t, y));
      if Below(At(t, x), At(t, y)) {
        assert IsTop(t, ids, y);
      } else {
        forall z | z in ids && z != x ensures Below(At(t, z), At(t, x)) {
          if z != y {
            BelowTransitive(At(t, z), At(t, y), At(t, x));
          }
        }
        assert IsTop(t, ids, x);
      }
    }
  }

  function Top(t: Table, ids: set<string>): (id: string)
    requires ids != {} && forall x :: x in ids ==> x in t
    ensures IsTop(t, ids, id)
  {
    HasTop(t, ids);
    assert forall x, y :: IsTop(t, ids, x) && IsTop(t, ids, y) ==> x == y by {
      forall x, y | IsTop(t, ids, x) && IsTop(t, ids, y) ensures x == y {
        BelowTotal(At(t, x), At(t, y));
      }
    }
    var id :| id in ids && IsTop(t, ids, id);
    id
  }

  /** ORDER BY finished_at DESC, id DESC LIMIT limit, over the rows of `ids`. */
  function Page(t: Table, ids: set<string>, limit: nat): seq<Item>
    requires forall x :: x in ids ==> x in t
  {
    if limit == 0 || ids == {} then []
    else [Item(Top(t, ids), t[Top(t, ids)])] + Page(t, ids - {Top(t, ids)}, limit - 1)
  }

  /** The rows that the WHERE clause selects. */
  function Window(t: Table, f: Filter, after: Option<Position>): (ids: set<string>)
    ensures forall x :: x in ids ==> x in t
  {
    set id | id in t && Selected(f, t[id]) && (after.Some? ==> Below(At(t, id), after.value))
  }

  predicate Holds(items: seq<Item>, id: string) {
    exists i :: 0 <= i < |items| && items[i].id == id
  }

  /** `items` are the first `limit` rows of `ids` in descending order. */
  predicate IsPage(items: seq<Item>, t: Table, ids: set<string>, limit: nat)
    requires forall x :: x in ids ==> x in t
  {
    && Descending(items) && |items| <= limit
    && (forall i :: 0 <= i < |items| ==> items[i].id in ids && items[i].row == t[items[i].id])
    && (forall id :: id in ids ==> Holds(items, id) || (|items| == limit && BelowAll(At(t, id), items)))
  }

  predicate BelowAll(p: Position, items: seq<Item>) {
    forall i :: 0 <= i < |items| ==> Below(p, Pos(items[i]))
  }

  lemma {:induction false} PageIsPage(t: Table, ids: set<string>, limit: nat)
    requires forall x :: x in ids ==> x in t
    ensures IsPage(Page(t, ids, limit), t, ids, limit)
  {
    if limit > 0 && ids != {} {
      var id := Top(t, ids);
      var rest := Page(t, ids - {id}, limit - 1);
      PageIsPage(t, ids - {id}, limit - 1);
      PageCons(t, ids, limit, id, rest);
    }
  }

  lemma PageCons(t: Table, ids: set<string>, limit: nat, id: string, rest: seq<Item>)
    requires limit > 0 && (forall x :: x in ids ==> x in t) && IsTop(t, ids, id)
    requires IsPage(rest, t, ids - {id}, limit - 1)
    ensures IsPage([Item(id, t[id])] + rest, t, ids, limit)
  {
    var items := [Item(id, t[id])] + rest;
    forall i | 0 <= i < |rest| ensures Below(Pos(rest[i]), At(t, id)) && items[i + 1] == rest[i] {
      assert rest[i].id in ids - {id};
      assert Pos(rest[i]) == At(t, rest[i].id);
    }
    assert Descending(items);
    forall x | x in ids ensures Holds(items, x) || (|items| == limit && BelowAll(At(t, x), items)) {
      if x == id {
        assert items[0].id == x;
      } else if Holds(rest, x) {
        var i :| 0 <= i < |rest| && rest[i].id == x;
        assert items[i + 1].id == x;
      }
    }
  }

  // ----- The store -----

  datatype StoreError = Invalid

  function ListRequests(t: Table, f: Filter, after: Option<Position>, limit: int): Result<seq<Item>, StoreError> {
    if limit < 1 || limit > 101 || !ValidFilter(f) then Err(Invalid)
    else Ok(Page(t, Window(t, f, after), limit))
  }

  /** The requests table. */
  class RequestLog {
    var rows: Table

    constructor ()
      ensures rows == map[]
    {
      rows := map[];
    }

    /** InsertRequest: an invalid record or a duplicate ID changes nothing. */
    method InsertRequest(id: string, row: Row) returns (ok: bool)
      modifies this
      ensures ok <==> ValidRow(id, row) && id !in old(rows)
      ensures rows == if ok then old(rows)[id := row] else old(rows)
    {
      if id == "" || row.key == "" || row.result == "" || row.duration < 0 {
        return false;
      }
      for k := 0 to |row.usage|
        invariant forall i :: 0 <= i < k ==> ValidCounter(row.usage[i])
        invariant rows == old(rows)
      {
        if !ValidCounter(row.usage[k]) {
          return false;
        }
      }
      ok := id !in rows;
      if ok {
        rows := rows[id := row];
      }
    }

    /**
     DeleteRequestsBefore: at most 1,000 rows, all older than `before` to the nanosecond; and when
     fewer than 1,000 went, no older row is left.
     */
    method DeleteRequestsBefore(before: Time) returns (deleted: nat)
      modifies this
      ensures deleted == |old(rows)| - |rows| <= 1000
      ensures forall id :: id in rows ==> id in old(rows) && rows[id] == old(rows)[id]
      ensures forall id :: id in old(rows) && id !in rows ==>
          old(rows)[id].finishedAt * NANOS_PER_MILLI < UnixNanos(before)
      ensures deleted < 1000 ==> forall id :: id in rows ==> rows[id].finishedAt * NANOS_PER_MILLI >= UnixNanos(before)
    {
      forall m: int ensures m * NANOS_PER_MILLI >= UnixNanos(before) <==> m >= CeilMillis(before) {
        CeilMillisExact(before, m);
      }
      deleted := 0;
      var expired := set id | id in rows && rows[id].finishedAt < CeilMillis(before);
      while deleted < 1000 && expired != {}
        invariant deleted == |old(rows)| - |rows| <= 1000
        invariant forall id :: id in rows ==> id in old(rows) && rows[id] == old(rows)[id]
        invariant forall id :: id in old(rows) && id !in rows ==> old(rows)[id].finishedAt < CeilMillis(before)
        invariant forall id :: id in expired <==> id in rows && rows[id].finishedAt < CeilMillis(before)
        decreases |expired|
      {
        var id :| id in expired;
        expired := expired - {id};
        rows := rows - {id};
        deleted := deleted + 1;
      }
    }
  }

  // ----- Cursors -----

  function CharLength(c: char): nat {
    if c < '\U{80}' then 1 else if c < '\U{800}' then 2 else if c < '\U{10000}' then 3 else 4
  }

  /** The length in UTF-8. */
  function ByteLength(s: string): nat {
    if s == "" then 0 else CharLength(s[0]) + ByteLength(s[1..])
  }

  /** The cursor parameter; a decoded cursor carries the hash of a filter, which stands for that filter. */
  datatype Cursor = Absent | Malformed | Cursor(time: Option<int>, id: string, filter: Filter)

  const MAX_CURSOR_ID := 128

  function DecodeCursor(c: Cursor, f: Filter): Result<Option<Position>, StoreError> {
    match c
    case Absent => Ok(None)
    case Malformed => Err(Invalid)
    case Cursor(time, id, filter) =>
      if time.None? || id == "" || ByteLength(id) > MAX_CURSOR_ID || filter != f then Err(Invalid)
      else Ok(Some(Position(time.value, id)))
  }

  predicate CursorID(id: string) {
    id != "" && ByteLength(id) <= MAX_CURSOR_ID
  }

  function EncodeCursor(p: Position, f: Filter): Cursor {
    Cursor(Some(p.finishedAt), p.id, f)
  }

  // ----- The listing -----

  datatype Listing = Listing(items: seq<Item>, next: Cursor)

  /** listRequests; the route admits limits from 1 to 100. */
  method ListPage(t: Table, f: Filter, cursor: Cursor, limit: int) returns (r: Result<Listing, StoreError>)
    requires 1 <= limit <= 100
    ensures r == PageAt(t, f, cursor, limit)
  {
    var after := DecodeCursor(cursor, f);
    if !ValidFilter(f) || after.Err? {
      return Err(Invalid);
    }
    var rows := ListRequests(t, f, after.value, limit + 1);
    var items, next := rows.value, Absent;
    if |items| > limit {
      items := items[..limit];
      var last := items[|items| - 1];
      next := EncodeCursor(Position(last.row.finishedAt, last.id), f);
    }
    r := Ok(Listing(items, next));
  }

  function PageAt(t: Table, f: Filter, cursor: Cursor, limit: int): Result<Listing, StoreError>
    requires 1 <= limit <= 100
  {
    var after := DecodeCursor(cursor, f);
    if !ValidFilter(f) || after.Err? then Err(Invalid)
    else
      var items := Page(t, Window(t, f, after.value), limit + 1);
      Ok(if |items| > limit then Listing(items[..limit], EncodeCursor(Pos(items[limit - 1]), f))
          else Listing(items, Absent))
  }

  /** What a listing promises: a page of the window, full and followed by more exactly when it has a cursor. */
  predicate GoodListing(l: Listing, t: Table, f: Filter, after: Option<Position>, limit: nat) {
    && Descending(l.items) && |l.items| <= limit
    && (forall i :: 0 <= i < |l.items| ==> InWindow(l.items[i], t, f, after))
    && match l.next {
         case Absent => forall id :: id in Window(t, f, after) ==> Holds(l.items, id)
         case Malformed => false
         case Cursor(_, _, _) =>
           && |l.items| == limit > 0 && l.next == EncodeCursor(Pos(l.items[limit - 1]), f)
           && (forall id :: id in Window(t, f, after) ==> Holds(l.items, id) || BelowAll(At(t, id), l.items))
           && exists id :: id in Window(t, f, after) && BelowAll(At(t, id), l.items)
       }
  }

  predicate InWindow(x: Item, t: Table, f: Filter, after: Option<Position>) {
    x.id in t && x.row == t[x.id] && Matches(f, x.row) && (after.Some? ==> Below(Pos(x), after.value))
  }

  lemma ListingIsGood(t: Table, f: Filter, cursor: Cursor, limit: int)
    requires 1 <= limit <= 100 && PageAt(t, f, cursor, limit).Ok?
    ensures GoodListing(PageAt(t, f, cursor, limit).value, t, f, DecodeCursor(cursor, f).value, limit)
  {
    var after := DecodeCursor(cursor, f).value;
    var items := Page(t, Window(t, f, after), limit + 1);
    PageIsPage(t, Window(t, f, after), limit + 1);
    if |items| > limit {
      CutListing(items, t, f, after, limit);
    } else {
      WholeListing(items, t, f, after, limit);
    }
  }

  lemma PageInWindow(items: seq<Item>, t: Table, f: Filter, after: Option<Position>, limit: nat)
    requires IsPage(items, t, Window(t, f, after), limit)
    ensures forall i :: 0 <= i < |items| ==> InWindow(items[i], t, f, after)
  {
    forall i | 0 <= i < |items| ensures InWindow(items[i], t, f, after) {
      SelectedIsMatches(f, items[i].row);
    }
  }

  lemma WholeListing(items: seq<Item>, t: Table, f: Filter, after: Option<Position>, limit: nat)
    requires IsPage(items, t, Window(t, f, after), limit + 1) && |items| <= limit
    ensures GoodListing(Listing(items, Absent), t, f, after, limit)
  {
    PageInWindow(items, t, f, after, limit + 1);
  }

  lemma CutListing(items: seq<Item>, t: Table, f: Filter, after: Option<Position>, limit: nat)
    requires IsPage(items, t, Window(t, f, after), limit + 1) && |items| == limit + 1 && limit > 0
    ensures GoodListing(Listing(items[..limit], EncodeCursor(Pos(items[limit - 1]), f)), t, f, after, limit)
  {
    PageInWindow(items, t, f, after, limit + 1);
    Truncated(items, t, Window(t, f, after), limit);
  }

  lemma Truncated(items: seq<Item>, t: Table, ids: set<string>, limit: nat)
    requires (forall x :: x in ids ==> x in t) && IsPage(items, t, ids, limit + 1) && |items| == limit + 1
    ensures forall id :: id in ids ==> Holds(items[..limit], id) || BelowAll(At(t, id), items[..limit])
    ensures items[limit].id in ids && BelowAll(At(t, items[limit].id), items[..limit])
  {
    assert At(t, items[limit].id) == Pos(items[limit]);
    forall id | id in ids ensures Holds(items[..limit], id) || BelowAll(At(t, id), items[..limit]) {
      if Holds(items, id) {
        var i :| 0 <= i < |items| && items[i].id == id;
        if i < limit {
          assert items[..limit][i].id == id;
        }
      }
    }
  }

  // ----- Walks -----

  /** One request of a walk: the table as it then is, and the page size asked for. */
  datatype Visit = Visit(table: Table, limit: int)

  predicate Admitted(visits: seq<Visit>) {
    forall k :: 0 <= k < |visits| ==> 1 <= visits[k].limit <= 100
  }

  datatype End = Finished | Unfinished | Rejected

  datatype Trail = Trail(items: seq<Item>, end: End)

  /** A client lists, and follows next_cursor until a page has none. */
  function Walk(f: Filter, cursor: Cursor, visits: seq<Visit>): Trail
    requires Admitted(visits)
    decreases |visits|
  {
    if visits == [] then Trail([], Unfinished)
    else
      match PageAt(visits[0].table, f, cursor, visits[0].limit)
      case Err(_) => Trail([], Rejected)
      case Ok(l) =>
        if l.next.Absent? then Trail(l.items, Finished)
        else
          var rest := Walk(f, l.next, visits[1..]);
          Trail(l.items + rest.items, rest.end)
  }

  /** A cursor is accepted exactly with its own filter and an ID that fits, and then names its position. */
  lemma CursorRoundTrip(p: Position, f: Filter, g: Filter)
    ensures DecodeCursor(EncodeCursor(p, f), g) == if f == g && CursorID(p.id) then Ok(Some(p)) else Err(Invalid)
  {
  }

  /** A listing is refused exactly for an empty range, or a cursor that is malformed or was made for another filter. */
  lemma ListingRefusedIff(t: Table, f: Filter, cursor: Cursor, limit: int)
    requires 1 <= limit <= 100
    ensures PageAt(t, f, cursor, limit).Err? <==>
            || (f.from.Some? && f.to.Some? && UnixNanos(f.from.value) >= UnixNanos(f.to.value))
            || cursor.Malformed?
            || (cursor.Cursor? && (cursor.time.None? || cursor.id == "" || ByteLength(cursor.id) > 128 ||
                                   cursor.filter != f))
  {
  }

  predicate AllBelow(items: seq<Item>, after: Option<Position>) {
    after.Some? ==> forall i :: 0 <= i < |items| ==> Below(Pos(items[i]), after.value)
  }

  lemma DescendingAppend(a: seq<Item>, b: seq<Item>)
    requires Descending(a) && Descending(b) && |a| > 0 && AllBelow(b, Some(Pos(a[|a| - 1])))
    ensures Descending(a + b)
  {
    var c := a + b;
    forall i, j | 0 <= i < j < |c| ensures Below(Pos(c[j]), Pos(c[i])) {
      if i < |a| - 1 && |a| <= j {
        BelowTransitive(Pos(c[j]), Pos(a[|a| - 1]), Pos(c[i]));
      }
    }
  }

  lemma AppendBelow(a: seq<Item>, b: seq<Item>, after: Option<Position>)
    requires |a| > 0 && AllBelow(a, after) && AllBelow(b, Some(Pos(a[|a| - 1])))
    ensures AllBelow(a + b, after)
  {
    if after.Some? {
      forall i | 0 <= i < |b| ensures Below(Pos(b[i]), after.value) {
        BelowTransitive(Pos(b[i]), Pos(a[|a| - 1]), after.value);
      }
    }
  }

  lemma ListingBelow(l: Listing, t: Table, f: Filter, after: Option<Position>, limit: nat)
    requires GoodListing(l, t, f, after, limit)
    ensures AllBelow(l.items, after)
  {
    assert forall i :: 0 <= i < |l.items| ==> InWindow(l.items[i], t, f, after);
  }

  /** Whatever is inserted or deleted between pages, the walk descends strictly from its cursor. */
  lemma {:induction false} WalkDescends(f: Filter, cursor: Cursor, visits: seq<Visit>)
    requires Admitted(visits)
    ensures
      var items := Walk(f, cursor, visits).items;
      Descending(items) && (DecodeCursor(cursor, f).Ok? ==> AllBelow(items, DecodeCursor(cursor, f).value))
    decreases |visits|
  {
    if visits != [] && PageAt(visits[0].table, f, cursor, visits[0].limit).Ok? {
      var l := PageAt(visits[0].table, f, cursor, visits[0].limit).value;
      ListingIsGood(visits[0].table, f, cursor, visits[0].limit);
      var after := DecodeCursor(cursor, f).value;
      ListingBelow(l, visits[0].table, f, after, visits[0].limit);
      if !l.next.Absent? {
        WalkDescends(f, l.next, visits[1..]);
        JoinPages(l, visits[0].table, f, after, visits[0].limit, Walk(f, l.next, visits[1..]).items);
      }
    }
  }

  lemma JoinPages(l: Listing, t: Table, f: Filter, after: Option<Position>, limit: nat, rest: seq<Item>)
    requires GoodListing(l, t, f, after, limit) && !l.next.Absent? && Descending(rest)
    requires if DecodeCursor(l.next, f).Ok? then AllBelow(rest, DecodeCursor(l.next, f).value) else rest == []
    ensures Descending(l.items + rest) && AllBelow(l.items + rest, after)
  {
    ListingBelow(l, t, f, after, limit);
    var last := Pos(l.items[|l.items| - 1]);
    CursorRoundTrip(last, f, f);
    assert AllBelow(rest, Some(last));
    DescendingAppend(l.items, rest);
    AppendBelow(l.items, rest, after);
  }

  /** No row is returned twice. */
  lemma NoRowTwice(f: Filter, cursor: Cursor, visits: seq<Visit>, i: nat, j: nat)
    requires Admitted(visits) && i < j < |Walk(f, cursor, visits).items|
    ensures Pos(Walk(f, cursor, visits).items[i]) != Pos(Walk(f, cursor, visits).items[j])
  {
    WalkDescends(f, cursor, visits);
    var items := Walk(f, cursor, visits).items;
    BelowTotal(Pos(items[j]), Pos(items[i]));
  }

  /** A walk lists the newest requests first, and those that finished together by descending ID. */
  lemma NewestFirst(f: Filter, cursor: Cursor, visits: seq<Visit>, i: nat, j: nat)
    requires Admitted(visits) && i < j < |Walk(f, cursor, visits).items|
    ensures
      var x, y := Walk(f, cursor, visits).items[i], Walk(f, cursor, visits).items[j];
      x.row.finishedAt > y.row.finishedAt || (x.row.finishedAt == y.row.finishedAt && TextOrder.Less(y.id, x.id))
  {
    WalkDescends(f, cursor, visits);
  }

  /** Wherever the row is present, it is the same. */
  predicate Constant(id: string, visits: seq<Visit>) {
    forall j, k :: 0 <= j < k < |visits| && id in visits[j].table && id in visits[k].table ==>
      visits[j].table[id] == visits[k].table[id]
  }

  /** An ID whose row never changes is returned at most once, even if it is deleted and inserted again. */
  lemma NoIDTwice(f: Filter, cursor: Cursor, visits: seq<Visit>, id: string, i: nat, j: nat)
    requires Admitted(visits) && Constant(id, visits) && i < j < |Walk(f, cursor, visits).items|
    ensures !(Walk(f, cursor, visits).items[i].id == id == Walk(f, cursor, visits).items[j].id)
  {
    var items := Walk(f, cursor, visits).items;
    NoRowTwice(f, cursor, visits, i, j);
    WalkSound(f, cursor, visits);
    assert From(items[i], f, visits) && From(items[j], f, visits);
    if items[i].id == id == items[j].id {
      SameRow(id, visits, items[i], items[j], f);
    }
  }

  lemma SameRow(id: string, visits: seq<Visit>, x: Item, y: Item, f: Filter)
    requires Constant(id, visits) && From(x, f, visits) && From(y, f, visits) && x.id == id == y.id
    ensures x == y
  {
    var j :| 0 <= j < |visits| && Lookup(visits[j].table, id) == Some(x.row);
    var k :| 0 <= k < |visits| && Lookup(visits[k].table, id) == Some(y.row);
    assert j < k ==> visits[j].table[id] == visits[k].table[id];
    assert k < j ==> visits[k].table[id] == visits[j].table[id];
  }

  predicate From(x: Item, f: Filter, visits: seq<Visit>) {
    Matches(f, x.row) && exists k :: 0 <= k < |visits| && Lookup(visits[k].table, x.id) == Some(x.row)
  }

  predicate AllFrom(items: seq<Item>, f: Filter, visits: seq<Visit>) {
    forall i :: 0 <= i < |items| ==> From(items[i], f, visits)
  }

  /** Every returned row matches the filter and was in a table that was visited. */
  lemma {:induction false} WalkSound(f: Filter, cursor: Cursor, visits: seq<Visit>)
    requires Admitted(visits)
    ensures AllFrom(Walk(f, cursor, visits).items, f, visits)
    decreases |visits|
  {
    if visits != [] && PageAt(visits[0].table, f, cursor, visits[0].limit).Ok? {
      var l := PageAt(visits[0].table, f, cursor, visits[0].limit).value;
      FromHead(f, cursor, visits, l);
      if !l.next.Absent? {
        WalkSound(f, l.next, visits[1..]);
        FromTail(Walk(f, l.next, visits[1..]).items, f, visits);
      }
    }
  }

  lemma FromHead(f: Filter, cursor: Cursor, visits: seq<Visit>, l: Listing)
    requires visits != [] && Admitted(visits) && PageAt(visits[0].table, f, cursor, visits[0].limit) == Ok(l)
    ensures AllFrom(l.items, f, visits)
  {
    ListingIsGood(visits[0].table, f, cursor, visits[0].limit);
    forall i | 0 <= i < |l.items| ensures From(l.items[i], f, visits) {
      assert InWindow(l.items[i], visits[0].table, f, DecodeCursor(cursor, f).value);
      assert Lookup(visits[0].table, l.items[i].id) == Some(l.items[i].row);
    }
  }

  lemma FromTail(items: seq<Item>, f: Filter, visits: seq<Visit>)
    requires visits != [] && AllFrom(items, f, visits[1..])
    ensures AllFrom(items, f, visits)
  {
    forall i | 0 <= i < |items| ensures From(items[i], f, visits) {
      var x := items[i];
      var k :| 0 <= k < |visits[1..]| && Lookup(visits[1..][k].table, x.id) == Some(x.row);
      assert Lookup(visits[k + 1].table, x.id) == Some(x.row);
    }
  }

  predicate Throughout(x: Item, visits: seq<Visit>) {
    forall k :: 0 <= k < |visits| ==> Lookup(visits[k].table, x.id) == Some(x.row)
  }

  /** A finished walk returned every matching row below its cursor that was present throughout. */
  lemma {:induction false} WalkComplete(f: Filter, cursor: Cursor, visits: seq<Visit>, x: Item)
    requires Admitted(visits) && Walk(f, cursor, visits).end.Finished?
    requires Throughout(x, visits) && Matches(f, x.row)
    requires DecodeCursor(cursor, f).Ok? && AllBelow([x], DecodeCursor(cursor, f).value)
    ensures x in Walk(f, cursor, visits).items
    decreases |visits|
  {
    var t := visits[0].table;
    var l := PageAt(t, f, cursor, visits[0].limit).value;
    var after := DecodeCursor(cursor, f).value;
    ListingIsGood(t, f, cursor, visits[0].limit);
    assert Lookup(t, x.id) == Some(x.row);
    SelectedIsMatches(f, x.row);
    assert [x][0] == x;
    assert after.Some? ==> Below(Pos(x), after.value);
    assert x.id in Window(t, f, after);
    if Holds(l.items, x.id) {
      HeldIsItem(l, t, f, after, x);
    } else {
      assert BelowAll(At(t, x.id), l.items);
      assert Pos(x) == At(t, x.id);
      var rest := visits[1..];
      assert forall k :: 0 <= k < |rest| ==> rest[k] == visits[k + 1];
      assert DecodeCursor(l.next, f).Ok?;
      assert AllBelow([x], DecodeCursor(l.next, f).value);
      WalkComplete(f, l.next, rest, x);
    }
  }

  lemma HeldIsItem(l: Listing, t: Table, f: Filter, after: Option<Position>, x: Item)
    requires Holds(l.items, x.id) && Lookup(t, x.id) == Some(x.row)
    requires forall i :: 0 <= i < |l.items| ==> InWindow(l.items[i], t, f, after)
    ensures x in l.items
  {
    var i :| 0 <= i < |l.items| && l.items[i].id == x.id;
    assert InWindow(l.items[i], t, f, after);
    assert l.items[i] == x;
  }

  predicate CursorIDs(visits: seq<Visit>) {
    forall k, id :: 0 <= k < |visits| && id in visits[k].table ==> CursorID(id)
  }

  /** With IDs that fit a cursor, no page of a walk is refused. */
  lemma {:induction false} WalkIsNotRejected(f: Filter, cursor: Cursor, visits: seq<Visit>)
    requires Admitted(visits) && CursorIDs(visits) && ValidFilter(f) && DecodeCursor(cursor, f).Ok?
    ensures !Walk(f, cursor, visits).end.Rejected?
    decreases |visits|
  {
    if visits != [] {
      var l := PageAt(visits[0].table, f, cursor, visits[0].limit).value;
      ListingIsGood(visits[0].table, f, cursor, visits[0].limit);
      if !l.next.Absent? {
        assert InWindow(l.items[|l.items| - 1], visits[0].table, f, DecodeCursor(cursor, f).value);
        CursorRoundTrip(Pos(l.items[|l.items| - 1]), f, f);
        WalkIsNotRejected(f, l.next, visits[1..]);
      }
    }
  }

  // ----- When a cursor is refused -----

  /** The pages that a walk receives. */
  function Pages(f: Filter, cursor: Cursor, visits: seq<Visit>): seq<Listing>
    requires Admitted(visits)
    decreases |visits|
  {
    if visits == [] || PageAt(visits[0].table, f, cursor, visits[0].limit).Err? then []
    else
      var l := PageAt(visits[0].table, f, cursor, visits[0].limit).value;
      [l] + if l.next.Absent? then [] else Pages(f, l.next, visits[1..])
  }

  function Flatten(pages: seq<Listing>): seq<Item> {
    if pages == [] then [] else pages[0].items + Flatten(pages[1..])
  }

  lemma {:induction false} WalkIsItsPages(f: Filter, cursor: Cursor, visits: seq<Visit>)
    requires Admitted(visits)
    ensures Walk(f, cursor, visits).items == Flatten(Pages(f, cursor, visits))
    decreases |visits|
  {
    if visits != [] && PageAt(visits[0].table, f, cursor, visits[0].limit).Ok? {
      var l := PageAt(visits[0].table, f, cursor, visits[0].limit).value;
      if l.next.Absent? {
        assert Flatten([l]) == l.items + Flatten([]);
      } else {
        WalkIsItsPages(f, l.next, visits[1..]);
        assert ([l] + Pages(f, l.next, visits[1..]))[1..] == Pages(f, l.next, visits[1..]);
      }
    }
  }

  /** The page ended in a row whose ID does not fit a cursor, although more rows follow. */
  predicate EndsUnfit(l: Listing) {
    !l.next.Absent? && |l.items| > 0 && !CursorID(l.items[|l.items| - 1].id)
  }

  /** Some page whose cursor the client followed ended so. */
  predicate FollowsUnfit(pages: seq<Listing>, visits: nat) {
    exists k :: 0 <= k < |pages| && k + 1 < visits && EndsUnfit(pages[k])
  }

  /** A walk with a valid filter and first cursor is refused exactly if it follows the cursor of such a page. */
  lemma {:induction false} WalkRejectedIff(f: Filter, cursor: Cursor, visits: seq<Visit>)
    requires Admitted(visits) && ValidFilter(f) && DecodeCursor(cursor, f).Ok?
    ensures Walk(f, cursor, visits).end.Rejected? <==> FollowsUnfit(Pages(f, cursor, visits), |visits|)
    decreases |visits|
  {
    if visits != [] {
      var l := PageAt(visits[0].table, f, cursor, visits[0].limit).value;
      ListingIsGood(visits[0].table, f, cursor, visits[0].limit);
      if !l.next.Absent? {
        NextDecodes(l, visits[0].table, f, DecodeCursor(cursor, f).value, visits[0].limit);
        if EndsUnfit(l) {
          RefusedNext(f, l, visits);
        } else {
          WalkRejectedIff(f, l.next, visits[1..]);
          UnfitLater(l, Pages(f, l.next, visits[1..]), |visits|);
        }
      }
    }
  }

  lemma NextDecodes(l: Listing, t: Table, f: Filter, after: Option<Position>, limit: nat)
    requires GoodListing(l, t, f, after, limit) && !l.next.Absent?
    ensures DecodeCursor(l.next, f).Ok? <==> !EndsUnfit(l)
  {
    CursorRoundTrip(Pos(l.items[|l.items| - 1]), f, f);
  }

  lemma RefusedNext(f: Filter, l: Listing, visits: seq<Visit>)
    requires Admitted(visits) && visits != [] && EndsUnfit(l) && DecodeCursor(l.next, f).Err?
    ensures Walk(f, l.next, visits[1..]).end.Rejected? <==> FollowsUnfit([l] + Pages(f, l.next, visits[1..]), |visits|)
  {
    assert Pages(f, l.next, visits[1..]) == [];
    assert ([l] + [])[0] == l;
  }

  lemma UnfitLater(l: Listing, pages: seq<Listing>, visits: nat)
    requires visits > 0 && !EndsUnfit(l)
    ensures FollowsUnfit([l] + pages, visits) <==> FollowsUnfit(pages, visits - 1)
  {
    if k :| 0 <= k < |pages| && k + 1 < visits - 1 && EndsUnfit(pages[k]) {
      assert ([l] + pages)[k + 1] == pages[k];
    }
    if k :| 0 <= k < |[l] + pages| && k + 1 < visits && EndsUnfit(([l] + pages)[k]) {
      assert ([l] + pages)[k] == pages[k - 1];
    }
  }

  lemma {:induction false} ByteLengthAtLeast(s: string)
    ensures ByteLength(s) >= |s|
  {
    if s != "" {
      ByteLengthAtLeast(s[1..]);
    }
  }

  const ANY := Filter(None, None, "", "", "", "")

  function LongID(): string {
    seq(129, _ => 'a')
  }

  /** The newer of its two rows has an ID of 129 bytes. */
  function LongTable(): Table {
    map[LongID() := SomeRow(2), "b" := SomeRow(1)]
  }

  function SomeRow(finishedAt: int): Row {
    Row(finishedAt, "key", "", "", "ok", 0, [])
  }

  /** A refused cursor is reachable: reading that table one row at a time fails on its second page. */
  lemma LongIDStopsTheWalk()
    ensures Walk(ANY, Absent, [Visit(LongTable(), 1), Visit(LongTable(), 1)]).end.Rejected?
  {
    var visits := [Visit(LongTable(), 1), Visit(LongTable(), 1)];
    LongPage();
    FirstOfPages(ANY, Absent, visits);
    WalkRejectedIff(ANY, Absent, visits);
    assert EndsUnfit(Pages(ANY, Absent, visits)[0]);
  }

  lemma FirstOfPages(f: Filter, cursor: Cursor, visits: seq<Visit>)
    requires Admitted(visits) && visits != [] && PageAt(visits[0].table, f, cursor, visits[0].limit).Ok?
    ensures
      var pages := Pages(f, cursor, visits);
      |pages| > 0 && pages[0] == PageAt(visits[0].table, f, cursor, visits[0].limit).value
  {
  }

  lemma LongPage()
    ensures
      var r := PageAt(LongTable(), ANY, Absent, 1);
      r.Ok? && EndsUnfit(r.value)
  {
    ByteLengthAtLeast(LongID());
    assert |LongID()| == 129 && LongID() != "b";
    ListingIsGood(LongTable(), ANY, Absent, 1);
    FirstPage(LongTable(), PageAt(LongTable(), ANY, Absent, 1).value);
  }

  lemma FirstPage(t: Table, l: Listing)
    requires t == LongTable() && LongID() != "b" && GoodListing(l, t, ANY, None, 1)
    ensures !l.next.Absent? && |l.items| == 1 && l.items[0].id == LongID()
  {
    var ids := Window(t, ANY, None);
    assert LongID() in ids && "b" in ids;
    assert l.next.Absent? ==> Holds(l.items, "b");
    if !Holds(l.items, LongID()) {
      assert BelowAll(At(t, LongID()), l.items);
      assert InWindow(l.items[0], t, ANY, None);
    }
  }

  // ----- Walks over a table that does not change -----

  predicate Unchanging(t: Table, visits: seq<Visit>) {
    forall k :: 0 <= k < |visits| ==> visits[k].table == t
  }

  lemma {:induction false} SameRowsSameOrder(a: seq<Item>, b: seq<Item>)
    requires Descending(a) && Descending(b) && forall x :: x in a <==> x in b
    ensures a == b
  {
    if a == [] {
      EmptyTogether(a, b);
    } else {
      assert a[0] in b;
      FirstIsFirst(a, b);
      Tails(a, b);
      SameRowsSameOrder(a[1..], b[1..]);
      assert a == [a[0]] + a[1..] && b == [b[0]] + b[1..];
    }
  }

  lemma EmptyTogether(a: seq<Item>, b: seq<Item>)
    requires forall x :: x in a <==> x in b
    ensures a == [] ==> b == []
  {
    if |b| > 0 {
      var x := b[0];
      assert x in b;
    }
  }

  lemma FirstIsFirst(a: seq<Item>, b: seq<Item>)
    requires Descending(a) && Descending(b) && a != [] && b != [] && forall x :: x in a <==> x in b
    ensures a[0] == b[0]
  {
    assert a[0] in b && b[0] in a;
    var i :| 0 <= i < |a| && a[i] == b[0];
    var j :| 0 <= j < |b| && b[j] == a[0];
    BelowTotal(Pos(a[0]), Pos(b[0]));
  }

  lemma Tails(a: seq<Item>, b: seq<Item>)
    requires Descending(a) && Descending(b) && a != [] && b != [] && a[0] == b[0] && forall x :: x in a <==> x in b
    ensures Descending(a[1..]) && Descending(b[1..])
    ensures forall x :: x in a[1..] <==> x in b[1..]
  {
    BelowTotal(Pos(a[0]), Pos(a[0]));
    assert a == [a[0]] + a[1..] && b == [b[0]] + b[1..];
    assert a[0] !in a[1..] && b[0] !in b[1..];
    forall x ensures x in a[1..] <==> x in b[1..] {
      assert x in a <==> x == a[0] || x in a[1..];
      assert x in b <==> x == b[0] || x in b[1..];
    }
  }

  /** Over an unchanging table any page sizes give, when the walk finishes, the one full listing. */
  lemma WalkOfUnchangingTable(t: Table, f: Filter, visits: seq<Visit>)
    requires Admitted(visits) && Unchanging(t, visits) && Walk(f, Absent, visits).end.Finished?
    ensures Walk(f, Absent, visits).items == Page(t, Window(t, f, None), |Window(t, f, None)| + 1)
  {
    var items := Walk(f, Absent, visits).items;
    var ids := Window(t, f, None);
    var full := Page(t, ids, |ids| + 1);
    WalkDescends(f, Absent, visits);
    PageIsPage(t, ids, |ids| + 1);
    forall x ensures x in items <==> x in full {
      if x in items {
        WalkedIsListed(t, f, visits, x);
      }
      if x in full {
        ListedIsWalked(t, f, visits, x);
      }
    }
    SameRowsSameOrder(items, full);
  }

  lemma WalkedIsListed(t: Table, f: Filter, visits: seq<Visit>, x: Item)
    requires Admitted(visits) && Unchanging(t, visits) && x in Walk(f, Absent, visits).items
    ensures x in Page(t, Window(t, f, None), |Window(t, f, None)| + 1)
  {
    var items := Walk(f, Absent, visits).items;
    var i :| 0 <= i < |items| && items[i] == x;
    WalkSound(f, Absent, visits);
    assert From(items[i], f, visits);
    SelectedIsMatches(f, x.row);
    FullHolds(t, f, x);
  }

  lemma ListedIsWalked(t: Table, f: Filter, visits: seq<Visit>, x: Item)
    requires Admitted(visits) && Unchanging(t, visits) && Walk(f, Absent, visits).end.Finished?
    requires x in Page(t, Window(t, f, None), |Window(t, f, None)| + 1)
    ensures x in Walk(f, Absent, visits).items
  {
    var ids := Window(t, f, None);
    var full := Page(t, ids, |ids| + 1);
    var i :| 0 <= i < |full| && full[i] == x;
    PageIsPage(t, ids, |ids| + 1);
    PageInWindow(full, t, f, None, |ids| + 1);
    assert InWindow(full[i], t, f, None);
    WalkComplete(f, Absent, visits, x);
  }

  lemma FullHolds(t: Table, f: Filter, x: Item)
    requires x.id in Window(t, f, None) && t[x.id] == x.row
    ensures
      var ids := Window(t, f, None);
      x in Page(t, ids, |ids| + 1)
  {
    var ids := Window(t, f, None);
    var full := Page(t, ids, |ids| + 1);
    PageIsPage(t, ids, |ids| + 1);
    PageLength(t, ids, |ids| + 1);
    assert Holds(full, x.id);
    var i :| 0 <= i < |full| && full[i].id == x.id;
    assert full[i] == x;
  }

  lemma {:induction false} PageLength(t: Table, ids: set<string>, limit: nat)
    requires forall x :: x in ids ==> x in t
    ensures |Page(t, ids, limit)| == Min(limit, |ids|)
  {
    if limit > 0 && ids != {} {
      PageLength(t, ids - {Top(t, ids)}, limit - 1);
    }
  }

  /** Such a walk finishes within one page more than there are rows. */
  lemma {:induction false} UnchangingWalkFinishes(t: Table, f: Filter, cursor: Cursor, visits: seq<Visit>)
    requires Admitted(visits) && Unchanging(t, visits) && CursorIDs(visits) && ValidFilter(f) &&
        DecodeCursor(cursor, f).Ok?
    requires |visits| > |Window(t, f, DecodeCursor(cursor, f).value)|
    ensures Walk(f, cursor, visits).end.Finished?
    decreases |visits|
  {
    var l := PageAt(t, f, cursor, visits[0].limit).value;
    if !l.next.Absent? {
      NextShrinks(t, f, cursor, visits[0].limit, l);
      UnchangingWalkFinishes(t, f, l.next, visits[1..]);
    }
  }

  lemma NextShrinks(t: Table, f: Filter, cursor: Cursor, limit: int, l: Listing)
    requires 1 <= limit <= 100 && PageAt(t, f, cursor, limit) == Ok(l) && !l.next.Absent?
    requires forall id :: id in t ==> CursorID(id)
    ensures DecodeCursor(l.next, f).Ok?
    ensures |Window(t, f, DecodeCursor(l.next, f).value)| < |Window(t, f, DecodeCursor(cursor, f).value)|
  {
    ListingIsGood(t, f, cursor, limit);
    var last := l.items[|l.items| - 1];
    assert InWindow(last, t, f, DecodeCursor(cursor, f).value);
    CursorRoundTrip(Pos(last), f, f);
    WindowShrinks(t, f, DecodeCursor(cursor, f).value, last);
  }

  lemma WindowShrinks(t: Table, f: Filter, after: Option<Position>, x: Item)
    requires InWindow(x, t, f, after)
    ensures |Window(t, f, Some(Pos(x)))| < |Window(t, f, after)|
  {
    var small, large := Window(t, f, Some(Pos(x))), Window(t, f, after);
    SelectedIsMatches(f, x.row);
    BelowTotal(Pos(x), Pos(x));
    assert x.id in large && x.id !in small;
    forall id | id in small ensures id in large {
      if after.Some? {
        BelowTransitive(At(t, id), Pos(x), after.value);
      }
    }
    SubsetSize(small, large - {x.id});
  }
}
