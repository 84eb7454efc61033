/**
 Stored accounts as a table of rows whose credentials column is a ciphertext.
 The ciphertext is the revision that conditional writes compare, so the model
 gives every encryption a nonce that was never used before.
 */
module AccountStore {
  import opened Common

  type ID = string

  /** `expiresAt == 0` is Go's zero time. */
  datatype Credentials = Credentials(chatGPTAccountID: string, accessToken: string, refreshToken: string,
      expiresAt: nat)

  datatype Ciphertext = Ciphertext(nonce: nat, plaintext: Credentials)

  datatype Row = Row(name: string, enabled: bool, sealed: Ciphertext)

  /** What a read returns. A record that no read made has no revision. */
  datatype Record = Record(id: ID, name: string, credentials: Credentials, enabled: bool, revision: Option<Ciphertext>)

  datatype Error = NotFound | Conflict | Invalid | Unavailable

  /** A statement may fail before or after the database applied it. */
  datatype Fault = Healthy | LostBefore | LostAfter

  datatype State = State(rows: map<ID, Row>, next: nat)

  /** One write statement of one client. */
  datatype Op =
    | Create(id: ID, name: string, credentials: Credentials, enabled: bool, fault: Fault)
    | Replace(previous: Record, credentials: Credentials, fault: Fault)
    | EnableWrite(previous: Record, fault: Fault)
    | Disable(id: ID, fault: Fault)
    | Delete(id: ID, fault: Fault)

  predicate ValidCredentials(c: Credentials) {
    !Blank(c.chatGPTAccountID) && !Blank(c.accessToken)
  }

  function Read(s: State, id: ID): (r: Result<Record, Error>) {
    if Blank(id) then Err(Invalid)
    else if id !in s.rows then Err(NotFound)
    else
      var row := s.rows[id];
      Ok(Record(id, row.name, row.sealed.plaintext, row.enabled, Some(row.sealed)))
  }

  /** Applies a statement to row `id` when its WHERE clause `hit` matches; `row == None` deletes. */
  function Statement(s: State, id: ID, hit: bool, row: Option<Row>, fault: Fault): (State, Result<(), Error>) {
    if fault.LostBefore? then (s, Err(Unavailable))
    else
      var rows := if !hit then s.rows else if row.Some? then s.rows[id := row.value] else s.rows - {id};
      (s.(rows := rows),
       if fault.LostAfter? then Err(Unavailable) else if hit then Ok(()) else Err(NotFound))
  }

  function Seal(s: State, c: Credentials): (State, Ciphertext) {
    (s.(next := s.next + 1), Ciphertext(s.next, c))
  }

  function Stale(r: (State, Result<(), Error>)): (State, Result<(), Error>) {
    (r.0, if r.1 == Err(NotFound) then Err(Conflict) else r.1)
  }

  function Perform(s: State, op: Op): (State, Result<(), Error>) {
    match op
    case Create(id, name, credentials, enabled, fault) =>
      if Blank(id) || Blank(name) || !ValidCredentials(credentials) then (s, Err(Invalid))
      else
        var (s, sealed) := Seal(s, credentials);
        Stale(Statement(s, id, id !in s.rows, Some(Row(name, enabled, sealed)), fault))
    case Replace(previous, credentials, fault) =>
      if Blank(previous.id) || previous.revision.None? || !ValidCredentials(credentials) then (s, Err(Invalid))
      else
        var (s, sealed) := Seal(s, credentials);
        var id := previous.id;
        var hit := Live(s, id, previous.revision.value);
        Stale(Statement(s, id, hit, if hit then Some(s.rows[id].(sealed := sealed)) else None, fault))
    case EnableWrite(previous, fault) =>
      var (s, sealed) := Seal(s, previous.credentials);
      var id := previous.id;
      var hit := id in s.rows && !s.rows[id].enabled && previous.revision == Some(s.rows[id].sealed);
      Statement(s, id, hit, if hit then Some(s.rows[id].(enabled := true, sealed := sealed)) else None, fault)
    case Disable(id, fault) =>
      if Blank(id) then (s, Err(Invalid))
      else Statement(s, id, id in s.rows, if id in s.rows then Some(s.rows[id].(enabled := false)) else None, fault)
    case Delete(id, fault) =>
      if Blank(id) then (s, Err(Invalid)) else Statement(s, id, id in s.rows, None, fault)
  }

  function Apply(s: State, op: Op): State {
    Perform(s, op).0
  }

  function Run(s: State, ops: seq<Op>): State {
    if ops == [] then s else Apply(Run(s, ops[..|ops| - 1]), ops[|ops| - 1])
  }

  /** Row `id` is present, enabled and still holds exactly the ciphertext `c`. */
  predicate Live(s: State, id: ID, c: Ciphertext) {
    id in s.rows && s.rows[id].enabled && s.rows[id].sealed == c
  }

  /** `Live` in every state of the run `ops` from `s`. */
  ghost predicate LiveThroughout(s: State, ops: seq<Op>, id: ID, c: Ciphertext) {
    forall k :: 0 <= k <= |ops| ==> Live(Run(s, ops[..k]), id, c)
  }

  /** Every stored nonce was used by an earlier encryption. */
  ghost predicate Sound(s: State) {
    forall id :: id in s.rows ==> s.rows[id].sealed.nonce < s.next
  }

  lemma SoundStep(s: State, op: Op)
    requires Sound(s)
    ensures Sound(Apply(s, op)) && s.next <= Apply(s, op).next
  {
  }

  lemma {:induction false} SoundRun(s: State, ops: seq<Op>)
    requires Sound(s)
    ensures Sound(Run(s, ops)) && s.next <= Run(s, ops).next
  {
    if ops != [] {
      SoundRun(s, ops[..|ops| - 1]);
      SoundStep(Run(s, ops[..|ops| - 1]), ops[|ops| - 1]);
    }
  }

  /** A used ciphertext that is not live never becomes live again. */
  lemma DeadStaysDead(s: State, op: Op, id: ID, c: Ciphertext)
    requires c.nonce < s.next
    ensures Live(Apply(s, op), id, c) ==> Live(s, id, c)
  {
  }

  lemma RunPrefix(s: State, ops: seq<Op>, k: nat)
    requires k <= |ops|
    ensures Run(s, ops) == Run(Run(s, ops[..k]), ops[k..])
  {
    if k == |ops| {
      assert ops[..k] == ops;
    } else {
      var last := |ops| - 1;
      RunPrefix(s, ops[..last], k);
      assert ops[..last][..k] == ops[..k];
      assert ops[..last][k..] == ops[k..][..|ops[k..]| - 1];
    }
  }

  /**
   No ABA: after any run of writes a ciphertext that was used at the start is live exactly
   if it was live in every state of that run.
   */
  lemma {:induction false} NoABA(s: State, ops: seq<Op>, id: ID, c: Ciphertext)
    requires Sound(s) && c.nonce < s.next
    ensures Live(Run(s, ops), id, c) <==> LiveThroughout(s, ops, id, c)
  {
    if ops == [] {
      assert ops[..0] == ops;
    } else {
      var n := |ops| - 1;
      var init := ops[..n];
      NoABA(s, init, id, c);
      SoundRun(s, init);
      DeadStaysDead(Run(s, init), ops[n], id, c);
      assert forall k :: 0 <= k <= n ==> init[..k] == ops[..k];
      assert ops[..|ops|] == ops;
    }
  }

  /**
   A conditional replacement made with a snapshot lands exactly if the row has been present,
   enabled and unwritten in every state since the snapshot was read.
   */
  lemma ReplaceLandsIff(s: State, ops: seq<Op>, id: ID, credentials: Credentials)
    requires Sound(s) && Read(s, id).Ok?
    ensures
      var previous := Read(s, id).value;
      Perform(Run(s, ops), Replace(previous, credentials, Healthy)).1 ==
      if !ValidCredentials(credentials) then Err(Invalid)
      else if LiveThroughout(s, ops, id, s.rows[id].sealed) then Ok(())
      else Err(Conflict)
  {
    NoABA(s, ops, id, s.rows[id].sealed);
  }

  /**
   A disabling or deleting write of the row that reached the database, or a valid replacement made with its
   ciphertext. Whether it reached the database is its fault's to say, not the table's.
   */
  predicate Ends(op: Op, id: ID, c: Ciphertext) {
    match op
    case Disable(i, fault) => i == id && !Blank(id) && !fault.LostBefore?
    case Delete(i, fault) => i == id && !Blank(id) && !fault.LostBefore?
    case Replace(previous, credentials, fault) =>
      && previous.id == id && previous.revision == Some(c) && !Blank(id) && ValidCredentials(credentials)
      && !fault.LostBefore?
    case _ => false
  }

  lemma LiveStep(s: State, op: Op, id: ID, c: Ciphertext)
    requires Live(s, id, c) && c.nonce < s.next
    ensures Live(Apply(s, op), id, c) <==> !Ends(op, id, c)
  {
  }

  ghost predicate NothingEnds(ops: seq<Op>, id: ID, c: Ciphertext) {
    forall k :: 0 <= k < |ops| ==> !Ends(ops[k], id, c)
  }

  /** A live ciphertext stays live exactly if no operation of the run disables, deletes or replaces it. */
  lemma {:induction false} LiveIffNothingEnds(s: State, ops: seq<Op>, id: ID, c: Ciphertext)
    requires Sound(s) && Live(s, id, c)
    ensures Live(Run(s, ops), id, c) <==> NothingEnds(ops, id, c)
  {
    if ops != [] {
      var n := |ops| - 1;
      var init := ops[..n];
      LiveIffNothingEnds(s, init, id, c);
      SoundRun(s, init);
      assert NothingEnds(ops, id, c) <==> NothingEnds(init, id, c) && !Ends(ops[n], id, c) by {
        assert forall k :: 0 <= k < n ==> init[k] == ops[k];
      }
      if Live(Run(s, init), id, c) {
        LiveStep(Run(s, init), ops[n], id, c);
      } else {
        DeadStaysDead(Run(s, init), ops[n], id, c);
      }
    }
  }

  /**
   What a snapshot is worth is told by the operations since it was read: a valid replacement made with it
   conflicts, and changes no row, exactly if the account was read disabled or one of them disabled, deleted or
   replaced it. What was enabled or created again since does not bring it back.
   */
  lemma StaleSnapshotConflicts(s: State, ops: seq<Op>, id: ID, credentials: Credentials)
    requires Sound(s) && Read(s, id).Ok? && ValidCredentials(credentials)
    ensures
      var previous, before := Read(s, id).value, Run(s, ops);
      var (after, r) := Perform(before, Replace(previous, credentials, Healthy));
      if previous.enabled && NothingEnds(ops, id, s.rows[id].sealed) then r == Ok(()) && Read(after, id).Ok?
      else r == Err(Conflict) && after.rows == before.rows
  {
    var c := s.rows[id].sealed;
    NoABA(s, ops, id, c);
    if Live(s, id, c) {
      LiveIffNothingEnds(s, ops, id, c);
    } else {
      assert ops[..0] == [];
      assert !Live(Run(s, ops[..0]), id, c);
    }
  }

  /**
   What a statement that reached the database leaves to be read: a new account as it was created, a replaced one
   with the new credentials, a disabled one with its values kept, nothing of a deleted one, and every other
   account as before. One that did not reach it leaves every account as it was.
   */
  lemma WriteThenRead(s: State, op: Op, id: ID)
    requires !Blank(id)
    ensures
      var before, (after, r) := Read(s, id), Perform(s, op);
      Read(after, id) ==
      match op {
        case Create(i, name, credentials, enabled, fault) =>
          if i == id && before.Err? && !Blank(name) && ValidCredentials(credentials) && !fault.LostBefore?
          then Ok(Record(id, name, credentials, enabled, Some(Ciphertext(s.next, credentials)))) else before
        case Replace(previous, credentials, fault) =>
          if previous.id == id && before.Ok? && before.value.enabled && before.value.revision == previous.revision
             && ValidCredentials(credentials) && !fault.LostBefore?
          then Ok(before.value.(credentials := credentials, revision := Some(Ciphertext(s.next, credentials))))
          else before
        case EnableWrite(previous, fault) =>
          if previous.id == id && before.Ok? && !before.value.enabled && before.value.revision == previous.revision
             && !fault.LostBefore?
          then Ok(before.value.(enabled := true, credentials := previous.credentials,
                    revision := Some(Ciphertext(s.next, previous.credentials))))
          else before
        case Disable(i, fault) =>
          if i == id && before.Ok? && !fault.LostBefore? then Ok(before.value.(enabled := false)) else before
        case Delete(i, fault) => if i == id && !fault.LostBefore? then Err(NotFound) else before
      }
  {
  }

  /**
   What a statement answers that the database neither lost nor cut off: a new account needs a free ID, the
   conditional writes need the account still as it was read, disabling and deleting need any account.
   */
  lemma WriteReports(s: State, op: Op)
    ensures
      var r := Perform(s, op).1;
      match op {
        case Create(id, name, credentials, _, Healthy) =>
          && (r == Err(Invalid) <==> Blank(id) || Blank(name) || !ValidCredentials(credentials))
          && (r != Err(Invalid) ==> r == if Read(s, id).Ok? then Err(Conflict) else Ok(()))
        case Replace(previous, credentials, Healthy) =>
          && (r == Err(Invalid) <==>
              Blank(previous.id) || previous.revision.None? || !ValidCredentials(credentials))
          && (r != Err(Invalid) ==>
                var got := Read(s, previous.id);
                r == if got.Ok? && got.value.enabled && got.value.revision == previous.revision
                     then Ok(()) else Err(Conflict))
        case EnableWrite(previous, Healthy) =>
          !Blank(previous.id) ==>
            var got := Read(s, previous.id);
            r == if got.Ok? && !got.value.enabled && got.value.revision == previous.revision
                 then Ok(()) else Err(NotFound)
        case Disable(id, Healthy) => r == if Read(s, id).Ok? then Ok(()) else Err(Read(s, id).error)
        case Delete(id, Healthy) => r == if Read(s, id).Ok? then Ok(()) else Err(Read(s, id).error)
        case _ => r == Err(Unavailable) || r == Err(Invalid)
      }
  {
  }

  /** Once a write has replaced a live revision, no later write made with that revision lands. */
  lemma RevisionWinsOnce(s: State, first: Op, ops: seq<Op>, second: Op)
    requires Sound(s)
    requires first.Replace? && second.Replace? && first.previous.id == second.previous.id
    requires first.previous.revision == second.previous.revision
    requires Apply(s, first).rows != s.rows
    ensures Apply(Run(Apply(s, first), ops), second).rows == Run(Apply(s, first), ops).rows
  {
    var c := first.previous.revision.value;
    var t := Apply(s, first);
    SoundStep(s, first);
    NoABA(t, ops, first.previous.id, c);
    assert Run(t, ops[..0]) == t;
  }

  /**
   An enabling write made with a snapshot changes the row only while the snapshot's ciphertext
   is still stored on a disabled row; it then keeps the name and the credential values.
   */
  lemma EnableKeepsValues(s: State, ops: seq<Op>, id: ID, fault: Fault)
    requires Sound(s) && Read(s, id).Ok?
    ensures
      var before := Run(s, ops);
      var after := Apply(before, EnableWrite(Read(s, id).value, fault));
      && after.rows - {id} == before.rows - {id}
      && (after.rows != before.rows ==>
            && id in before.rows && id in after.rows && !before.rows[id].enabled && after.rows[id].enabled
            && after.rows[id].name == before.rows[id].name
            && after.rows[id].sealed.plaintext == before.rows[id].sealed.plaintext == s.rows[id].sealed.plaintext
            && after.rows[id].sealed.nonce == before.next)
  {
  }

  /** A read may fail in the database, whatever it holds. */
  function ReadOr(s: State, id: ID, failed: bool): Result<Record, Error> {
    if failed && !Blank(id) then Err(Unavailable) else Read(s, id)
  }

  /** One turn of EnableAccount's loop: its read's fate, other clients' steps before its write, the write's fate. */
  datatype Try = Try(readFails: bool, others: seq<Op>, fault: Fault)

  const QUIET := Try(false, [], Healthy)

  /** EnableAccount's loop; after the given tries nothing interferes any more. */
  function EnableLoop(s: State, id: ID, tries: seq<Try>): (State, Result<(), Error>)
    decreases |tries|
  {
    var try := if tries == [] then QUIET else tries[0];
    match ReadOr(s, id, try.readFails)
    case Err(e) => (s, Err(e))
    case Ok(previous) =>
      if previous.enabled then (s, Ok(()))
      else
        var (t, r) := Perform(Run(s, try.others), EnableWrite(previous, try.fault));
        if tries != [] && r == Err(NotFound) then EnableLoop(t, id, tries[1..]) else (t, r)
  }

  predicate Faulty(try: Try) {
    try.readFails || !try.fault.Healthy?
  }

  /**
   Whatever other clients do, the loop ends in success with the account enabled, or finds it deleted, or
   reports a failed statement; and that last only if a read or write did fail.
   */
  lemma {:induction false} EnableLoopOutcome(s: State, id: ID, tries: seq<Try>)
    requires !Blank(id)
    ensures
      var (t, r) := EnableLoop(s, id, tries);
      match r {
        case Ok(_) => id in t.rows && t.rows[id].enabled
        case Err(e) => if e.NotFound? then id !in t.rows
            else e.Unavailable? && exists k :: 0 <= k < |tries| && Faulty(tries[k])
      }
    decreases |tries|
  {
    var try := if tries == [] then QUIET else tries[0];
    var got := ReadOr(s, id, try.readFails);
    assert tries != [] && Faulty(try) ==> Faulty(tries[0]);
    if got.Ok? && !got.value.enabled && tries != [] {
      var step := Perform(Run(s, try.others), EnableWrite(got.value, try.fault));
      if step.1 == Err(NotFound) {
        EnableLoopOutcome(step.0, id, tries[1..]);
        if k :| 0 <= k < |tries[1..]| && Faulty(tries[1..][k]) {
          assert Faulty(tries[k + 1]);
        }
      }
    }
  }

  /**
   A try that reports a failed statement has enabled the row exactly if its snapshot was still stored and the
   reply was lost after the write; the row then keeps its name and values, and calling again succeeds at once.
   */
  lemma HiddenEnable(s: State, id: ID, others: seq<Op>, fault: Fault, later: seq<Try>)
    requires Read(s, id).Ok? && !s.rows[id].enabled && !fault.Healthy?
    requires later == [] || !later[0].readFails
    ensures
      var before := Run(s, others);
      var (t, r) := EnableLoop(s, id, [Try(false, others, fault)]);
      var stored := id in before.rows && !before.rows[id].enabled && before.rows[id].sealed == s.rows[id].sealed;
      && r == Err(Unavailable)
      && if stored && fault.LostAfter?
         then
           && t.rows == before.rows[id :=
               before.rows[id].(enabled := true, sealed := Ciphertext(before.next, s.rows[id].sealed.plaintext))]
           && EnableLoop(t, id, later) == (t, Ok(()))
         else t.rows == before.rows
  {
  }

  /** The open database. `history` holds every write since it was created empty. */
  class Store {
    var rows: map<ID, Row>
    var next: nat
    ghost var history: seq<Op>

    constructor ()
      ensures Valid() && history == []
    {
      rows, next, history := map[], 0, [];
    }

    function Snap(): State
      reads this
    {
      State(rows, next)
    }

    ghost predicate Valid()
      reads this
    {
      Snap() == Run(State(map[], 0), history) && Sound(Snap())
    }

    ghost method Note(op: Op)
      requires Sound(Snap())
      requires Run(State(map[], 0), history) == Snap()
      modifies this`history
      ensures history == old(history) + [op]
      ensures Run(State(map[], 0), history) == Apply(Snap(), op) && Sound(Apply(Snap(), op))
    {
      SoundStep(Snap(), op);
      history := history + [op];
      assert history[..|history| - 1] == old(history);
    }

    method Encrypt(c: Credentials) returns (sealed: Ciphertext)
      modifies this`next
      ensures (Snap(), sealed) == Seal(old(Snap()), c)
    {
      sealed := Ciphertext(next, c);
      next := next + 1;
    }

    method CreateAccount(id: ID, name: string, credentials: Credentials, enabled: bool, fault: Fault)
      returns (r: Result<(), Error>)
      requires Valid()
      modifies this
      ensures Valid() && history == old(history) + [Create(id, name, credentials, enabled, fault)]
      ensures (Snap(), r) == Perform(old(Snap()), Create(id, name, credentials, enabled, fault))
    {
      Note(Create(id, name, credentials, enabled, fault));
      if Blank(id) || Blank(name) || !ValidCredentials(credentials) {
        return Err(Invalid);
      }
      var sealed := Encrypt(credentials);
      if fault.LostBefore? {
        return Err(Unavailable);
      }
      var hit := id !in rows;
      if hit {
        rows := rows[id := Row(name, enabled, sealed)];
      }
      r := if fault.LostAfter? then Err(Unavailable) else if hit then Ok(()) else Err(Conflict);
    }

    method GetAccount(id: ID, failed: bool) returns (r: Result<Record, Error>)
      ensures r == ReadOr(Snap(), id, failed)
    {
      if Blank(id) {
        return Err(Invalid);
      }
      if failed {
        return Err(Unavailable);
      }
      if id !in rows {
        return Err(NotFound);
      }
      var row := rows[id];
      r := Ok(Record(id, row.name, row.sealed.plaintext, row.enabled, Some(row.sealed)));
    }

    method ReplaceAccountCredentialsIfUnchanged(previous: Record, credentials: Credentials, fault: Fault)
      returns (r: Result<(), Error>)
      requires Valid()
      modifies this
      ensures Valid() && history == old(history) + [Replace(previous, credentials, fault)]
      ensures (Snap(), r) == Perform(old(Snap()), Replace(previous, credentials, fault))
    {
      Note(Replace(previous, credentials, fault));
      if Blank(previous.id) || previous.revision.None? || !ValidCredentials(credentials) {
        return Err(Invalid);
      }
      var sealed := Encrypt(credentials);
      if fault.LostBefore? {
        return Err(Unavailable);
      }
      var id := previous.id;
      var hit := id in rows && rows[id].sealed == previous.revision.value && rows[id].enabled;
      if hit {
        rows := rows[id := rows[id].(sealed := sealed)];
      }
      r := if fault.LostAfter? then Err(Unavailable) else if hit then Ok(()) else Err(Conflict);
    }

    /** The statements other clients run between a read and the write that depends on it. */
    method OtherClients(ops: seq<Op>)
      requires Valid()
      modifies this
      ensures Valid() && Snap() == Run(old(Snap()), ops)
    {
      var s := Run(Snap(), ops);
      SoundRun(Snap(), ops);
      assert Run(State(map[], 0), history + ops) == s by {
        RunPrefix(State(map[], 0), history + ops, |history|);
        assert (history + ops)[..|history|] == history && (history + ops)[|history|..] == ops;
      }
      rows, next, history := s.rows, s.next, history + ops;
    }

    method EnableAccount(id: ID, tries: seq<Try>) returns (r: Result<(), Error>)
      requires Valid()
      modifies this
      ensures Valid() && (Snap(), r) == EnableLoop(old(Snap()), id, tries)
    {
      var i := 0;
      while true
        invariant 0 <= i <= |tries| && Valid()
        invariant EnableLoop(old(Snap()), id, tries) == EnableLoop(Snap(), id, tries[i..])
        decreases |tries| - i
      {
        var try := if i < |tries| then tries[i] else QUIET;
        var got := GetAccount(id, try.readFails);
        if got.Err? {
          return Err(got.error);
        }
        var previous := got.value;
        if previous.enabled {
          return Ok(());
        }
        assert i < |tries| ==> tries[i..][0] == tries[i] && tries[i..][1..] == tries[i + 1..];
        OtherClients(try.others);
        r := WriteEnabled(previous, try.fault);
        if r != Err(NotFound) {
          return;
        }
        i := i + 1;
      }
    }

    /** EnableAccount's statement. */
    method WriteEnabled(previous: Record, fault: Fault) returns (r: Result<(), Error>)
      requires Valid()
      modifies this
      ensures Valid() && (Snap(), r) == Perform(old(Snap()), EnableWrite(previous, fault))
    {
      Note(EnableWrite(previous, fault));
      var sealed := Encrypt(previous.credentials);
      if fault.LostBefore? {
        return Err(Unavailable);
      }
      var id := previous.id;
      var hit := id in rows && !rows[id].enabled && previous.revision == Some(rows[id].sealed);
      if hit {
        rows := rows[id := rows[id].(enabled := true, sealed := sealed)];
      }
      r := if fault.LostAfter? then Err(Unavailable) else if hit then Ok(()) else Err(NotFound);
    }

    method DisableAccount(id: ID, fault: Fault) returns (r: Result<(), Error>)
      requires Valid()
      modifies this
      ensures Valid() && history == old(history) + [Disable(id, fault)]
      ensures (Snap(), r) == Perform(old(Snap()), Disable(id, fault))
    {
      Note(Disable(id, fault));
      if Blank(id) {
        return Err(Invalid);
      }
      if fault.LostBefore? {
        return Err(Unavailable);
      }
      var hit := id in rows;
      if hit {
        rows := rows[id := rows[id].(enabled := false)];
      }
      r := if fault.LostAfter? then Err(Unavailable) else if hit then Ok(()) else Err(NotFound);
    }

    method DeleteAccount(id: ID, fault: Fault) returns (r: Result<(), Error>)
      requires Valid()
      modifies this
      ensures Valid() && history == old(history) + [Delete(id, fault)]
      ensures (Snap(), r) == Perform(old(Snap()), Delete(id, fault))
    {
      Note(Delete(id, fault));
      if Blank(id) {
        return Err(Invalid);
      }
      if fault.LostBefore? {
        return Err(Unavailable);
      }
      var hit := id in rows;
      rows := rows - {id};
      r := if fault.LostAfter? then Err(Unavailable) else if hit then Ok(()) else Err(NotFound);
    }
  }
}
