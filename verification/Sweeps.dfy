/** Which rows the sweeps pick: the first of the eligible ones in the order of a timestamp. The
    two sweeps that write skip the rows that others have locked at that moment.
 */
module Sweeps {
  import opened Domain
  import opened Statements

  predicate Oldest(rows: Rows, among: set<Id>, key: SortKey, id: Id)
    requires among <= rows.Keys
  {
    id in among && forall x :: x in among ==> TimeOf(rows[id], key) <= TimeOf(rows[x], key)
  }

  lemma {:induction false} OldestExists(rows: Rows, among: set<Id>, key: SortKey) returns (oldest: Id)
    requires {} != among <= rows.Keys
    ensures Oldest(rows, among, key, oldest)
    decreases |among|
  {
    oldest :| oldest in among;
    var rest := among - {oldest};
    assert forall x :: x in among <==> x == oldest || x in rest;
    if rest != {} {
      var other := OldestExists(rows, rest, key);
      if TimeOf(rows[other], key) < TimeOf(rows[oldest], key) { oldest := other; }
    }
  }

  lemma FirstThenRest(rows: Rows, among: set<Id>, key: SortKey, n: nat, first: Id, rest: seq<Id>)
    requires among <= rows.Keys && n > 0 && Oldest(rows, among, key, first)
    requires FirstRows(rows, among - {first}, key, n - 1, rest)
    ensures FirstRows(rows, among, key, n, [first] + rest)
  {
    var ids := [first] + rest;
    assert forall id :: id in ids <==> id == first || id in rest;
    assert forall i :: 0 < i < |ids| ==> ids[i] == rest[i - 1] && rest[i - 1] in rest;
  }

  // The query has an answer, whatever n and the rows.
  lemma {:induction false} SomeFirstRows(rows: Rows, among: set<Id>, key: SortKey, n: nat) returns (ids: seq<Id>)
    requires among <= rows.Keys
    ensures FirstRows(rows, among, key, n, ids)
  {
    if n == 0 || among == {} {
      ids := [];
    } else {
      var first := OldestExists(rows, among, key);
      var rest := SomeFirstRows(rows, among - {first}, key, n - 1);
      FirstThenRest(rows, among, key, n, first, rest);
      ids := [first] + rest;
    }
  }

  // And one that starts with any row that is as old as all others.
  lemma FirstRowsFrom(rows: Rows, among: set<Id>, key: SortKey, n: nat, first: Id) returns (ids: seq<Id>)
    requires among <= rows.Keys && n > 0 && Oldest(rows, among, key, first)
    ensures FirstRows(rows, among, key, n, ids) && ids != [] && ids[0] == first
  {
    var rest := SomeFirstRows(rows, among - {first}, key, n - 1);
    FirstThenRest(rows, among, key, n, first, rest);
    ids := [first] + rest;
  }

  // ORDER BY ... LIMIT ... FOR UPDATE SKIP LOCKED; RETURNING gives the rows in no particular order.
  ghost predicate SkippingLocked(rows: Rows, among: set<Id>, key: SortKey, n: nat, ids: seq<Id>)
    requires among <= rows.Keys
  {
    exists locked: set<Id>, chosen: seq<Id> ::
      && FirstRows(rows, among - locked, key, n, chosen)
      && Distinct(ids) && (forall id :: id in ids <==> id in chosen)
  }

  lemma {:induction false} AsManyAs(a: seq<Id>, b: seq<Id>)
    requires Distinct(a) && forall id :: id in a ==> id in b
    ensures |a| <= |b|
  {
    if a != [] {
      var last := a[|a| - 1];
      assert last in a;
      var i :| 0 <= i < |b| && b[i] == last;
      var others := b[..i] + b[i + 1..];
      forall id | id in a[..|a| - 1] ensures id in others {
        assert id in a;
        var j :| 0 <= j < |b| && b[j] == id;
        assert b[j] == others[if j < i then j else j - 1];
      }
      AsManyAs(a[..|a| - 1], others);
    }
  }

  lemma AnyChoiceSkipsLocked(rows: Rows, among: set<Id>, key: SortKey, n: nat, ids: seq<Id>)
    requires among <= rows.Keys
    ensures SkippingLocked(rows, among, key, n, ids) <==>
              |ids| <= n && Distinct(ids) && forall id :: id in ids ==> id in among
  {
    if locked: set<Id>, chosen: seq<Id> :|
      && FirstRows(rows, among - locked, key, n, chosen)
      && Distinct(ids) && (forall id :: id in ids <==> id in chosen)
    {
      AsManyAs(ids, chosen);
    }
    if |ids| <= n && Distinct(ids) && forall id :: id in ids ==> id in among {
      var taken := set id | id in ids;
      var chosen := SomeFirstRows(rows, taken, key, n);
      assert among - (among - taken) == taken;
      forall id | id in ids ensures id in chosen {
        if id !in chosen {
          assert forall x :: x in chosen ==> x in ids;
          AsManyAs(chosen + [id], ids);
        }
      }
    }
  }

  /** The choices the two writing sweeps have are exactly those of their queries over the due
      and the stale rows, depending on what others have locked. */
  lemma SweepsSkipLocked(rows: Rows, due: set<Id>, stale: set<Id>, ids: seq<Id>, now: Time, staleAfter: Time)
    requires forall id :: id in due <==>
               && id in rows
               && var n := rows[id];
                  || (n.status == Scheduled && n.scheduledAt.Some? && n.scheduledAt.value <= now)
                  || (n.status == Pending && now - n.createdAt > staleAfter)
    requires forall id :: id in stale <==>
               id in rows && rows[id].status == Processing && now - rows[id].updatedAt > staleAfter
    ensures DueSweep(rows, ids, now, staleAfter) <==> SkippingLocked(rows, due, CreatedAt, 100, ids)
    ensures ProcessingSweep(rows, ids, now, staleAfter) <==> SkippingLocked(rows, stale, UpdatedAt, 100, ids)
  {
    assert due == DueRows(rows, now, staleAfter) && stale == StaleProcessingRows(rows, now, staleAfter);
    AnyChoiceSkipsLocked(rows, due, CreatedAt, 100, ids);
    AnyChoiceSkipsLocked(rows, stale, UpdatedAt, 100, ids);
  }
}
