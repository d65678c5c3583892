/** Idempotent creation: whatever single and batch creates race for an idempotency key, one
    row wins, and every successful create answers with that row.
 */
module Idempotency {
  import opened Domain
  import opened Statements
  import opened Protocol
  import opened Lifecycle
  import opened Schedule

  predicate Owns(rows: Rows, id: Id, key: string) {
    id in rows && rows[id].idempotencyKey == Some(key)
  }

  ghost predicate KeysUnique(rows: Rows) {
    forall x, y, key :: Owns(rows, x, key) && Owns(rows, y, key) ==> x == y
  }

  lemma DraftKeysAreNew(rows: Rows, drafts: seq<Draft>, d: Draft, key: string, other: Id)
    requires Insertable(rows, drafts) && d in drafts && d.notification.idempotencyKey == Some(key)
    ensures !Owns(rows, other, key)
  {
    assert !KeyTaken(rows, key);
  }

  lemma DraftKeysDiffer(rows: Rows, drafts: seq<Draft>, i: nat, j: nat, key: string)
    requires Insertable(rows, drafts) && i < |drafts| && j < |drafts|
    requires drafts[i].notification.idempotencyKey == drafts[j].notification.idempotencyKey == Some(key)
    ensures i == j
  {
  }

  // A row after an insert comes from the drafts or was there before.
  lemma InsertedOwner(rows: Rows, drafts: seq<Draft>, x: Id, key: string) returns (i: nat)
    requires Insertable(rows, drafts) && Owns(Insert(rows, drafts), x, key) && !Owns(rows, x, key)
    ensures i < |drafts| && drafts[i].id == x && drafts[i].notification.idempotencyKey == Some(key)
  {
    DraftRowsAt(drafts);
    i :| 0 <= i < |drafts| && drafts[i].id == x;
    assert drafts[i] in drafts;
  }

  lemma InsertKeepsKeysUnique(rows: Rows, drafts: seq<Draft>)
    requires KeysUnique(rows)
    ensures KeysUnique(Insert(rows, drafts))
  {
    if Insertable(rows, drafts) {
      var rows' := Insert(rows, drafts);
      forall x, y, key | Owns(rows', x, key) && Owns(rows', y, key) ensures x == y {
        if !Owns(rows, x, key) {
          var i := InsertedOwner(rows, drafts, x, key);
          DraftKeysAreNew(rows, drafts, drafts[i], key, y);
          var j := InsertedOwner(rows, drafts, y, key);
          DraftKeysDiffer(rows, drafts, i, j, key);
        } else if !Owns(rows, y, key) {
          var j := InsertedOwner(rows, drafts, y, key);
          DraftKeysAreNew(rows, drafts, drafts[j], key, x);
        }
      }
    }
  }

  lemma StepKeepsKeysUnique(s: State, a: Action)
    requires KeysUnique(s.rows)
    ensures KeysUnique(Next(s, a).rows)
  {
    if a.InsertDrafts? {
      InsertKeepsKeysUnique(s.rows, a.drafts);
    } else {
      var rows' := Next(s, a).rows;
      forall id | id in rows' ensures id in s.rows && rows'[id].idempotencyKey == s.rows[id].idempotencyKey {
        if id !in s.rows { OnlyInsertsAdd(s, a, id); }
        EveryWriteIsLegal(s, a, id);
      }
      assert forall id, key :: Owns(rows', id, key) ==> Owns(s.rows, id, key);
    }
  }

  /** At any time at most one row holds a key. */
  lemma {:induction false} OneRowPerKey(maxAttempts: int, staleAfter: Time, run: seq<Action>)
    ensures KeysUnique(Exec(Init(maxAttempts, staleAfter), run).rows)
  {
    if run != [] {
      OneRowPerKey(maxAttempts, staleAfter, run[..|run| - 1]);
      StepKeepsKeysUnique(Exec(Init(maxAttempts, staleAfter), run[..|run| - 1]), run[|run| - 1]);
    }
  }

  // ---- create calls in a run ------------------------------------------------------------

  datatype Reply = Created(id: Id) | Replayed(id: Id)

  // Step i of the run inserts drafts that include this one, and the caller learns of it.
  ghost predicate InsertsAt(s0: State, run: seq<Action>, i: nat, d: Draft) {
    && i < |run| && run[i].InsertDrafts? && run[i].io.Done? && d in run[i].drafts
    && run[i].task !in Exec(s0, run[..i]).tasks && Insertable(Exec(s0, run[..i]).rows, run[i].drafts)
  }

  // A create call for draft d: its insert runs at step i; when the key is already taken there,
  // a lookup before step j answers with the row that holds it.
  ghost predicate Answers(s0: State, run: seq<Action>, i: nat, j: nat, d: Draft, reply: Reply) {
    && i <= j <= |run| && d.notification.idempotencyKey.Some?
    && (match reply
        case Created(id) => id == d.id && InsertsAt(s0, run, i, d)
        case Replayed(id) => KeyTaken(Exec(s0, run[..i]).rows, d.notification.idempotencyKey.value)
                             && Owns(Exec(s0, run[..j]).rows, id, d.notification.idempotencyKey.value))
  }

  lemma OwnerStays(s0: State, run: seq<Action>, i: nat, j: nat, id: Id, key: string)
    requires i <= j <= |run| && Owns(Exec(s0, run[..i]).rows, id, key)
    ensures Owns(Exec(s0, run[..j]).rows, id, key)
  {
    assert run[..j] == run[..i] + run[i..j];
    ExecConcat(s0, run[..i], run[i..j]);
    TerminalIsFinal(Exec(s0, run[..i]), run[i..j], id);
  }

  lemma CreatedOwns(s0: State, run: seq<Action>, i: nat, d: Draft, key: string)
    requires InsertsAt(s0, run, i, d) && d.notification.idempotencyKey == Some(key)
    ensures Owns(Exec(s0, run[..i + 1]).rows, d.id, key) && !KeyTaken(Exec(s0, run[..i]).rows, key)
    ensures Owns(Exec(s0, run).rows, d.id, key)
  {
    ExecPrefix(s0, run, i);
    DraftRowsAt(run[i].drafts);
    assert run[..|run|] == run;
    OwnerStays(s0, run, i + 1, |run|, d.id, key);
  }

  /** The lookup behind a replay cannot miss: a key once taken stays taken. */
  lemma ReplayNeverMisses(s0: State, run: seq<Action>, i: nat, j: nat, key: string)
    requires i <= j <= |run| && KeyTaken(Exec(s0, run[..i]).rows, key)
    ensures exists id :: Owns(Exec(s0, run[..j]).rows, id, key)
  {
    var id :| id in Exec(s0, run[..i]).rows && Exec(s0, run[..i]).rows[id].idempotencyKey == Some(key);
    OwnerStays(s0, run, i, j, id, key);
  }

  lemma ReplyOwns(s0: State, run: seq<Action>, i: nat, j: nat, d: Draft, reply: Reply)
    requires Answers(s0, run, i, j, d, reply)
    ensures Owns(Exec(s0, run).rows, reply.id, d.notification.idempotencyKey.value)
  {
    var key := d.notification.idempotencyKey.value;
    if reply.Created? {
      CreatedOwns(s0, run, i, d, key);
    } else {
      assert run[..|run|] == run;
      OwnerStays(s0, run, j, |run|, reply.id, key);
    }
  }

  /** Under any interleaving, any two successful creates with the same key answer with the
      same notification, and at most one of them actually created it. */
  lemma CreateIsIdempotent(maxAttempts: int, staleAfter: Time, run: seq<Action>,
        i1: nat, j1: nat, d1: Draft, r1: Reply, i2: nat, j2: nat, d2: Draft, r2: Reply)
    requires Answers(Init(maxAttempts, staleAfter), run, i1, j1, d1, r1)
    requires Answers(Init(maxAttempts, staleAfter), run, i2, j2, d2, r2)
    requires d1.notification.idempotencyKey == d2.notification.idempotencyKey
    ensures r1.id == r2.id
    ensures r1.Created? && r2.Created? ==> i1 == i2 && d1 == d2
  {
    var s0, key := Init(maxAttempts, staleAfter), d1.notification.idempotencyKey.value;
    ReplyOwns(s0, run, i1, j1, d1, r1);
    ReplyOwns(s0, run, i2, j2, d2, r2);
    OneRowPerKey(maxAttempts, staleAfter, run);
    if r1.Created? && r2.Created? {
      if i1 < i2 { LaterInsertFails(s0, run, i1, d1, i2, d2, key); }
      if i2 < i1 { LaterInsertFails(s0, run, i2, d2, i1, d1, key); }
      SameInsert(s0, run, i1, d1, d2);
    }
  }

  lemma LaterInsertFails(s0: State, run: seq<Action>, i: nat, d: Draft, j: nat, e: Draft, key: string)
    requires InsertsAt(s0, run, i, d) && i < j <= |run| && d.notification.idempotencyKey == Some(key)
    requires e.notification.idempotencyKey == Some(key)
    ensures !InsertsAt(s0, run, j, e)
  {
    CreatedOwns(s0, run, i, d, key);
    OwnerStays(s0, run, i + 1, j, d.id, key);
    assert KeyTaken(Exec(s0, run[..j]).rows, key);
  }

  lemma SameInsert(s0: State, run: seq<Action>, i: nat, d: Draft, e: Draft)
    requires InsertsAt(s0, run, i, d) && InsertsAt(s0, run, i, e) && d.id == e.id
    ensures d == e
  {
    var a :| 0 <= a < |run[i].drafts| && run[i].drafts[a] == d;
    var b :| 0 <= b < |run[i].drafts| && run[i].drafts[b] == e;
  }
}
