/** Listing: keyset pages on (created_at, id), newest first, and what a client that follows
    next_cursor sees, on a fixed table and on one that changes between its requests.
 */
module Pagination {
  import opened Domain
  import opened Statements
  import opened Protocol
  import opened Lifecycle

  datatype Cursor = Cursor(createdAt: Time, id: Id)

  datatype Filter = Filter(status: Option<Status>, channel: Option<Channel>, batchId: Option<Id>, from: Option<Time>,
        to: Option<Time>)

  // A missing limit and a missing cursor are the absent query parameters.
  datatype ListQuery = ListQuery(filter: Filter, limit: Option<int>, cursor: Option<Cursor>)

  datatype Reply = BadRequest | Listed(ids: seq<Id>, nextCursor: Option<Cursor>)

  const DEFAULT_LIST_LIMIT := 50
  const MAX_LIST_LIMIT := 100

  predicate Matches(n: Notification, f: Filter) {
    && (f.status.None? || n.status == f.status.value)
    && (f.channel.None? || n.channel == f.channel.value)
    && (f.batchId.None? || n.batchId == f.batchId)
    && (f.from.None? || n.createdAt >= f.from.value)
    && (f.to.None? || n.createdAt <= f.to.value)
  }

  function KeyOf(rows: Rows, id: Id): Cursor
    requires id in rows
  {
    Cursor(rows[id].createdAt, id)
  }

  // a is listed before b.
  predicate Newer(a: Cursor, b: Cursor) {
    a.createdAt > b.createdAt || (a.createdAt == b.createdAt && a.id > b.id)
  }

  predicate Beyond(cursor: Option<Cursor>, key: Cursor) {
    cursor.Some? ==> Newer(cursor.value, key)
  }

  // The WHERE clause.
  predicate Selects(rows: Rows, f: Filter, cursor: Option<Cursor>, id: Id) {
    id in rows && Matches(rows[id], f) && Beyond(cursor, KeyOf(rows, id))
  }

  function Selected(rows: Rows, f: Filter, cursor: Option<Cursor>): set<Id> {
    set id | id in rows && Selects(rows, f, cursor, id)
  }

  predicate Descending(keys: seq<Cursor>) {
    forall i, j :: 0 <= i < j < |keys| ==> Newer(keys[i], keys[j])
  }

  function KeysOf(rows: Rows, ids: seq<Id>): seq<Cursor>
    requires forall id :: id in ids ==> id in rows
  {
    seq(|ids|, i requires 0 <= i < |ids| => KeyOf(rows, ids[i]))
  }

  // ---- ORDER BY created_at DESC, id DESC ----------------------------------------------------

  predicate IsNewest(rows: Rows, ids: set<Id>, top: Id)
    requires ids <= rows.Keys
  {
    top in ids && forall id :: id in ids && id != top ==> Newer(KeyOf(rows, top), KeyOf(rows, id))
  }

  lemma {:induction false} NewestExists(rows: Rows, ids: set<Id>)
    requires ids <= rows.Keys && ids != {}
    ensures exists top :: IsNewest(rows, ids, top)
  {
    var some :| some in ids;
    if ids == {some} {
      assert IsNewest(rows, ids, some);
    } else {
      NewestExists(rows, ids - {some});
      var rest :| IsNewest(rows, ids - {some}, rest);
      assert IsNewest(rows, ids, if Newer(KeyOf(rows, rest), KeyOf(rows, some)) then rest else some);
    }
  }

  function NewestOf(rows: Rows, ids: set<Id>): (top: Id)
    requires ids <= rows.Keys && ids != {}
    ensures IsNewest(rows, ids, top)
  {
    NewestExists(rows, ids);
    var top :| top in ids && IsNewest(rows, ids, top);
    top
  }

  lemma NewestFirst(rows: Rows, top: Id, rest: seq<Id>)
    requires top in rows && forall id :: id in rest ==> id in rows && Newer(KeyOf(rows, top), KeyOf(rows, id))
    requires Descending(KeysOf(rows, rest))
    ensures Descending(KeysOf(rows, [top] + rest))
  {
    var keys, later := KeysOf(rows, [top] + rest), KeysOf(rows, rest);
    forall i, j | 0 <= i < j < |keys| ensures Newer(keys[i], keys[j]) {
      assert keys[j] == later[j - 1] && rest[j - 1] in rest;
      if i > 0 { assert keys[i] == later[i - 1]; }
    }
  }

  function Ordered(rows: Rows, ids: set<Id>): (listed: seq<Id>)
    requires ids <= rows.Keys
    ensures |listed| == |ids| && forall id :: id in listed <==> id in ids
    ensures Descending(KeysOf(rows, listed))
  {
    if ids == {} then []
    else
      var top := NewestOf(rows, ids);
      var rest := Ordered(rows, ids - {top});
      NewestFirst(rows, top, rest);
      [top] + rest
  }

  // The rows of a listing are different, and so the rest of one is a listing too.
  lemma TailOfListing(rows: Rows, a: seq<Id>)
    requires a != [] && (forall id :: id in a ==> id in rows) && Descending(KeysOf(rows, a))
    ensures forall id :: id in a[1..] <==> id in a && id != a[0]
    ensures Descending(KeysOf(rows, a[1..]))
  {
    var keys := KeysOf(rows, a);
    assert a == [a[0]] + a[1..] && KeysOf(rows, a[1..]) == keys[1..];
    forall i | 0 <= i < |a[1..]| ensures a[1..][i] != a[0] { assert Newer(keys[0], keys[i + 1]); }
  }

  lemma HeadsAgree(rows: Rows, a: seq<Id>, b: seq<Id>)
    requires a != [] && b != []
    requires forall id :: id in a <==> id in b
    requires forall id :: id in a ==> id in rows
    requires Descending(KeysOf(rows, a)) && Descending(KeysOf(rows, b))
    ensures a[0] == b[0]
  {
    assert a[0] in a && b[0] in b;
    var i :| 0 <= i < |b| && b[i] == a[0];
    var j :| 0 <= j < |a| && a[j] == b[0];
    assert i == 0 || Newer(KeysOf(rows, b)[0], KeysOf(rows, b)[i]);
    assert j == 0 || Newer(KeysOf(rows, a)[0], KeysOf(rows, a)[j]);
  }

  /** Strict order by key leaves no choice: two listings of the same rows are equal. */
  lemma {:induction false} OneOrder(rows: Rows, a: seq<Id>, b: seq<Id>)
    requires forall id :: id in a <==> id in b
    requires forall id :: id in a ==> id in rows
    requires Descending(KeysOf(rows, a)) && Descending(KeysOf(rows, b))
    ensures a == b
  {
    assert a != [] ==> a[0] in b;
    assert b != [] ==> b[0] in a;
    if a != [] {
      HeadsAgree(rows, a, b);
      TailOfListing(rows, a);
      TailOfListing(rows, b);
      OneOrder(rows, a[1..], b[1..]);
    }
  }

  // ---- one request ------------------------------------------------------------------------------

  function Clamped(limit: Option<int>): (effective: nat)
    ensures 1 <= effective <= MAX_LIST_LIMIT
  {
    if limit.None? || limit.value <= 0 then DEFAULT_LIST_LIMIT
    else if limit.value > MAX_LIST_LIMIT then MAX_LIST_LIMIT
    else limit.value
  }

  function Take<T>(s: seq<T>, n: nat): seq<T> { if |s| <= n then s else s[..n] }

  method List(rows: Rows, f: Filter, cursor: Option<Cursor>, limit: nat) returns (ids: seq<Id>)
    ensures ids == Take(Ordered(rows, Selected(rows, f, cursor)), limit)
    ensures |ids| <= limit && forall id :: id in ids ==> id in rows
  {
    var ordered := Ordered(rows, Selected(rows, f, cursor));
    ids := Take(ordered, limit);
    forall id | id in ids ensures id in rows { assert id in ordered; }
  }

  // Both the service and the handler bring the limit into its range.
  method Clamp(limit: int) returns (effective: nat)
    ensures effective == Clamped(Some(limit))
  {
    var l := limit;
    if l <= 0 { l := DEFAULT_LIST_LIMIT; }
    if l > MAX_LIST_LIMIT { l := MAX_LIST_LIMIT; }
    effective := l;
  }

  predicate Acceptable(q: ListQuery) {
    (q.limit.Some? ==> q.limit.value >= 1)
        && (q.filter.from.Some? && q.filter.to.Some? ==> q.filter.from.value <= q.filter.to.value)
  }

  // The rows that a request asks for are those of its WHERE clause.
  lemma AskedFor(rows: Rows, f: Filter, cursor: Option<Cursor>)
    ensures Selected(rows, f, cursor) == set id | id in rows
              && (f.status == None || f.status == Some(rows[id].status))
              && (f.channel == None || f.channel == Some(rows[id].channel))
              && (f.batchId == None || f.batchId == rows[id].batchId)
              && (f.from.Some? ==> f.from.value <= rows[id].createdAt)
              && (f.to.Some? ==> rows[id].createdAt <= f.to.value)
              && (cursor.Some? ==> rows[id].createdAt < cursor.value.createdAt
                                   || (rows[id].createdAt == cursor.value.createdAt && id < cursor.value.id))
  {
  }

  // A page is the beginning of the listing.
  lemma PageIs(rows: Rows, among: set<Id>, limit: nat, page: seq<Id>)
    requires among <= rows.Keys && page == Take(Ordered(rows, among), limit)
    ensures |page| <= limit && forall id :: id in page ==> id in among
    ensures forall i, j :: 0 <= i < j < |page| ==>
              rows[page[i]].createdAt > rows[page[j]].createdAt
              || (rows[page[i]].createdAt == rows[page[j]].createdAt && page[i] > page[j])
    ensures limit > 0 ==> forall id :: id in among && id !in page ==>
              && |page| == limit
              && (rows[id].createdAt < rows[page[limit - 1]].createdAt
                  || (rows[id].createdAt == rows[page[limit - 1]].createdAt && id < page[limit - 1]))
  {
    var ordered := Ordered(rows, among);
    var keys := KeysOf(rows, ordered);
    forall i, j | 0 <= i < j < |ordered|
      ensures rows[ordered[i]].createdAt > rows[ordered[j]].createdAt
              || (rows[ordered[i]].createdAt == rows[ordered[j]].createdAt && ordered[i] > ordered[j])
    {
      assert Newer(keys[i], keys[j]);
    }
    forall id | id in page ensures id in among { assert id in ordered; }
    forall id | id in among && id !in page
      ensures |page| == limit && exists j :: limit <= j < |ordered| && ordered[j] == id
    {
      assert id in ordered;
    }
  }

  // The rest of the listing is beyond the next cursor.
  lemma ReplyIs(rows: Rows, q: ListQuery, r: Reply)
    requires r.Listed? && r.ids == Take(Ordered(rows, Selected(rows, q.filter, q.cursor)), Clamped(q.limit))
    requires r.nextCursor.Some? <==> |r.ids| == Clamped(q.limit)
    requires r.nextCursor.Some? ==>
               r.ids[|r.ids| - 1] in rows && r.nextCursor.value == KeyOf(rows, r.ids[|r.ids| - 1])
    ensures forall i :: 0 <= i < |r.ids| ==> r.ids[i] in rows
    ensures forall i, j :: 0 <= i < j < |r.ids| ==>
              || rows[r.ids[i]].createdAt > rows[r.ids[j]].createdAt
              || (rows[r.ids[i]].createdAt == rows[r.ids[j]].createdAt && r.ids[i] > r.ids[j])
    ensures forall id :: id in r.ids ==> id in Selected(rows, q.filter, q.cursor)
    ensures forall id :: id in Selected(rows, q.filter, q.cursor) && id !in r.ids ==>
              && r.nextCursor.Some?
              && (rows[id].createdAt < r.nextCursor.value.createdAt
                  || (rows[id].createdAt == r.nextCursor.value.createdAt && id < r.nextCursor.value.id))
  {
    PageIs(rows, Selected(rows, q.filter, q.cursor), Clamped(q.limit), r.ids);
  }

  /** One list request: the newest rows past the cursor that match, never more than the limit,
      and a next cursor, at the last of them, exactly when the page is full. */
  method Serve(rows: Rows, q: ListQuery) returns (r: Reply)
    ensures r.BadRequest? <==>
              || (q.limit.Some? && q.limit.value < 1)
              || (q.filter.from.Some? && q.filter.to.Some? && q.filter.to.value < q.filter.from.value)
    ensures r.Listed? ==>
              && r.ids == Take(Ordered(rows, Selected(rows, q.filter, q.cursor)), Clamped(q.limit))
              && (r.nextCursor.Some? <==> |r.ids| == Clamped(q.limit))
              && (r.nextCursor.Some? ==>
                  r.ids[|r.ids| - 1] in rows && r.nextCursor.value == KeyOf(rows, r.ids[|r.ids| - 1]))
    ensures r.Listed? ==> forall i :: 0 <= i < |r.ids| ==> r.ids[i] in rows
    ensures r.Listed? ==>
              var limit := if q.limit.None? then 50 else if q.limit.value > 100 then 100 else q.limit.value;
              && |r.ids| <= limit
              && r.nextCursor == if |r.ids| < limit then None
                                 else Some(Cursor(rows[r.ids[|r.ids| - 1]].createdAt, r.ids[|r.ids| - 1]))
    ensures r.Listed? ==> forall i, j :: 0 <= i < j < |r.ids| ==>
              || rows[r.ids[i]].createdAt > rows[r.ids[j]].createdAt
              || (rows[r.ids[i]].createdAt == rows[r.ids[j]].createdAt && r.ids[i] > r.ids[j])
    ensures r.Listed? ==>
              var f := q.filter;
              var asked := set id | id in rows
                && (f.status == None || f.status == Some(rows[id].status))
                && (f.channel == None || f.channel == Some(rows[id].channel))
                && (f.batchId == None || f.batchId == rows[id].batchId)
                && (f.from.Some? ==> f.from.value <= rows[id].createdAt)
                && (f.to.Some? ==> rows[id].createdAt <= f.to.value)
                && (q.cursor.Some? ==> rows[id].createdAt < q.cursor.value.createdAt
                                       || (rows[id].createdAt == q.cursor.value.createdAt && id < q.cursor.value.id));
              && (forall id :: id in r.ids ==> id in asked)
              && (forall id :: id in asked && id !in r.ids ==>
                    r.nextCursor.Some?
                    && (rows[id].createdAt < r.nextCursor.value.createdAt
                        || (rows[id].createdAt == r.nextCursor.value.createdAt && id < r.nextCursor.value.id)))
  {
    var limit := 0;
    if q.limit.Some? {
      if q.limit.value < 1 { return BadRequest; }
      limit := q.limit.value;
    }
    var queryLimit := Clamp(limit);
    if q.filter.from.Some? && q.filter.to.Some? && q.filter.to.value < q.filter.from.value { return BadRequest; }
    var ids := List(rows, q.filter, q.cursor, queryLimit);
    var effectiveLimit := Clamp(limit);
    var next: Option<Cursor> := None;
    if |ids| == effectiveLimit {
      var last := ids[|ids| - 1];
      assert last in ids;
      next := Some(KeyOf(rows, last));
    }
    r := Listed(ids, next);
    ReplyIs(rows, q, r);
    AskedFor(rows, q.filter, q.cursor);
  }

  // ---- a whole walk --------------------------------------------------------------------------------

  // created_at is never rewritten: each table holds every row under the same key.
  ghost predicate Stamped(rows: Rows, created: Id -> Time) {
    forall id :: id in rows ==> rows[id].createdAt == created(id)
  }

  ghost function Stamps(ids: seq<Id>, created: Id -> Time): seq<Cursor> {
    seq(|ids|, i requires 0 <= i < |ids| => Cursor(created(ids[i]), ids[i]))
  }

  ghost predicate MatchesThroughout(tables: seq<Rows>, n: nat, f: Filter, id: Id) {
    n <= |tables| && forall i :: 0 <= i < n ==> id in tables[i] && Matches(tables[i][id], f)
  }

  // Where the walk stands after some pages: everything that matched so far is either listed
  // or still ahead of the cursor.
  ghost predicate Frontier(listed: seq<Id>, cursor: Option<Cursor>, created: Id -> Time) {
    && Descending(Stamps(listed, created))
    && (cursor.None? ==> listed == [])
    && (cursor.Some? ==> listed != [] && cursor.value == Cursor(created(listed[|listed| - 1]), listed[|listed| - 1]))
  }

  lemma StampsAreKeys(rows: Rows, ids: seq<Id>, created: Id -> Time)
    requires Stamped(rows, created) && forall id :: id in ids ==> id in rows
    ensures Stamps(ids, created) == KeysOf(rows, ids)
  {
  }

  // The statement's full answer, before the LIMIT.
  ghost predicate Lists(rows: Rows, f: Filter, cursor: Option<Cursor>, ordered: seq<Id>) {
    (forall id :: id in ordered <==> Selects(rows, f, cursor, id)) && Descending(KeysOf(rows, ordered))
  }

  // A page is in order and beyond the cursor.
  lemma PageInOrder(rows: Rows, f: Filter, cursor: Option<Cursor>, ordered: seq<Id>, limit: nat, created: Id -> Time)
    requires Stamped(rows, created) && Lists(rows, f, cursor, ordered)
    ensures var keys := Stamps(Take(ordered, limit), created);
            Descending(keys) && forall j :: 0 <= j < |keys| ==> Beyond(cursor, keys[j])
  {
    var keys := Stamps(Take(ordered, limit), created);
    StampsAreKeys(rows, ordered, created);
    assert forall j :: 0 <= j < |keys| ==> keys[j] == KeysOf(rows, ordered)[j];
    forall j | 0 <= j < |keys| ensures Beyond(cursor, keys[j]) { assert ordered[j] in ordered; }
  }

  // So it comes entirely after what has been listed.
  lemma PageExtends(rows: Rows, f: Filter, cursor: Option<Cursor>, ordered: seq<Id>, limit: nat, listed: seq<Id>,
        created: Id -> Time)
    requires Stamped(rows, created) && Frontier(listed, cursor, created) && Lists(rows, f, cursor, ordered)
    ensures Descending(Stamps(listed + Take(ordered, limit), created))
  {
    var page := Take(ordered, limit);
    PageInOrder(rows, f, cursor, ordered, limit, created);
    assert Stamps(listed + page, created) == Stamps(listed, created) + Stamps(page, created);
    OrderedConcat(Stamps(listed, created), Stamps(page, created));
  }

  lemma OrderedConcat(first: seq<Cursor>, second: seq<Cursor>)
    requires Descending(first) && Descending(second)
    requires first != [] ==> forall j :: 0 <= j < |second| ==> Newer(first[|first| - 1], second[j])
    ensures Descending(first + second)
  {
    var all := first + second;
    forall i, j | 0 <= i < j < |all| ensures Newer(all[i], all[j]) {
      if j >= |first| && i < |first| {
        assert i == |first| - 1 || Newer(first[i], first[|first| - 1]);
      }
    }
  }

  // Nothing that is still ahead is skipped by a page.
  lemma PageSkipsNothing(rows: Rows, f: Filter, cursor: Option<Cursor>, ordered: seq<Id>, limit: nat, id: Id)
    requires Lists(rows, f, cursor, ordered) && Selects(rows, f, cursor, id) && limit > 0
    ensures var page := Take(ordered, limit);
            id in page || (|page| == limit && page[limit - 1] in rows
                && Newer(KeyOf(rows, page[limit - 1]), KeyOf(rows, id)))
  {
    assert id in ordered;
    var k :| 0 <= k < |ordered| && ordered[k] == id;
    if limit <= k {
      assert ordered[limit - 1] in ordered;
      assert Newer(KeysOf(rows, ordered)[limit - 1], KeysOf(rows, ordered)[k]);
    } else {
      assert Take(ordered, limit)[k] == id;
    }
  }

  lemma DescendingIsDistinct(listed: seq<Id>, created: Id -> Time)
    requires Descending(Stamps(listed, created))
    ensures Distinct(listed)
  {
    var keys := Stamps(listed, created);
    forall i, j | 0 <= i < j < |listed| ensures listed[i] != listed[j] { assert Newer(keys[i], keys[j]); }
  }

  // Each listed row matched in the table of the page it came from.
  ghost predicate Sourced(tables: seq<Rows>, n: nat, f: Filter, listed: seq<Id>, source: seq<nat>) {
    && n <= |tables| && |source| == |listed|
    && forall k :: 0 <= k < |listed| ==>
        source[k] < n && listed[k] in tables[source[k]] && Matches(tables[source[k]][listed[k]], f)
  }

  // Whatever matched in all the tables read so far is listed or still ahead.
  ghost predicate NothingMissed(tables: seq<Rows>, n: nat, f: Filter, listed: seq<Id>, cursor: Option<Cursor>,
        done: bool, created: Id -> Time) {
    forall id :: MatchesThroughout(tables, n, f, id) ==>
        id in listed || (!done && Beyond(cursor, Cursor(created(id), id)))
  }

  // The answer to one request of the walk.
  ghost predicate AnswersPage(rows: Rows, f: Filter, cursor: Option<Cursor>, ordered: seq<Id>, limit: nat, r: Reply) {
    && Lists(rows, f, cursor, ordered) && r.Listed? && r.ids == Take(ordered, limit)
    && (r.nextCursor.Some? <==> |r.ids| == limit)
    && (r.nextCursor.Some? ==>
        r.ids != [] && r.ids[|r.ids| - 1] in rows && r.nextCursor.value == KeyOf(rows, r.ids[|r.ids| - 1]))
  }

  lemma PageIsSourced(tables: seq<Rows>, i: nat, f: Filter, cursor: Option<Cursor>, ordered: seq<Id>, limit: nat,
        listed: seq<Id>, source: seq<nat>, r: Reply)
    requires i < |tables| && Sourced(tables, i, f, listed, source)
               && AnswersPage(tables[i], f, cursor, ordered, limit, r)
    ensures Sourced(tables, i + 1, f, listed + r.ids, source + seq(|r.ids|, _ => i))
  {
    forall k | 0 <= k < |r.ids| ensures Selects(tables[i], f, cursor, r.ids[k]) {
      assert r.ids[k] == ordered[k] && ordered[k] in ordered;
    }
  }

  // What one more page does to a walk.
  lemma Advance(tables: seq<Rows>, i: nat, f: Filter, cursor: Option<Cursor>, ordered: seq<Id>, limit: nat,
        listed: seq<Id>, created: Id -> Time, r: Reply)
    requires i < |tables| && Stamped(tables[i], created) && Frontier(listed, cursor, created) && limit > 0
    requires AnswersPage(tables[i], f, cursor, ordered, limit, r)
               && NothingMissed(tables, i, f, listed, cursor, false, created)
    ensures Descending(Stamps(listed + r.ids, created))
    ensures r.nextCursor.Some? ==> Frontier(listed + r.ids, r.nextCursor, created)
    ensures NothingMissed(tables, i + 1, f, listed + r.ids, r.nextCursor, r.nextCursor.None?, created)
  {
    PageExtends(tables[i], f, cursor, ordered, limit, listed, created);
    forall id | MatchesThroughout(tables, i + 1, f, id) && id !in listed + r.ids
      ensures r.nextCursor.Some? && Beyond(r.nextCursor, Cursor(created(id), id))
    {
      assert MatchesThroughout(tables, i, f, id);
      assert id in tables[i] && Matches(tables[i][id], f);
      PageSkipsNothing(tables[i], f, cursor, ordered, limit, id);
    }
  }

  method FetchPage(rows: Rows, f: Filter, cursor: Option<Cursor>, limit: Option<int>)
    returns (r: Reply, ghost ordered: seq<Id>)
    requires Acceptable(ListQuery(f, limit, cursor))
    ensures AnswersPage(rows, f, cursor, ordered, Clamped(limit), r)
  {
    r := Serve(rows, ListQuery(f, limit, cursor));
    ordered := Ordered(rows, Selected(rows, f, cursor));
  }

  // Where a walk stands after some requests.
  ghost predicate WalkState(tables: seq<Rows>, requests: nat, f: Filter, limit: nat, listed: seq<Id>,
        cursor: Option<Cursor>, done: bool, source: seq<nat>, created: Id -> Time)
  {
    && Sourced(tables, requests, f, listed, source) && Descending(Stamps(listed, created))
    && NothingMissed(tables, requests, f, listed, cursor, done, created)
    && if done then requests > 0 && FullPages(requests - 1, limit) <= |listed| < FullPages(requests - 1, limit) + limit
       else Frontier(listed, cursor, created) && |listed| == FullPages(requests, limit)
  }

  lemma WalkStarts(tables: seq<Rows>, f: Filter, limit: nat, created: Id -> Time)
    ensures WalkState(tables, 0, f, limit, [], None, false, [], created)
  {
  }

  method NextPage(tables: seq<Rows>, i: nat, f: Filter, limit: Option<int>, listed: seq<Id>, cursor: Option<Cursor>,
        ghost source: seq<nat>, ghost created: Id -> Time)
    returns (r: Reply, ghost source': seq<nat>)
    requires Acceptable(ListQuery(f, limit, None))
    requires i < |tables| && Stamped(tables[i], created)
    requires WalkState(tables, i, f, Clamped(limit), listed, cursor, false, source, created)
    ensures r.Listed?
    ensures WalkState(tables, i + 1, f, Clamped(limit), listed + r.ids,
                      r.nextCursor, r.nextCursor.None?, source', created)
  {
    ghost var ordered;
    r, ordered := FetchPage(tables[i], f, cursor, limit);
    Advance(tables, i, f, cursor, ordered, Clamped(limit), listed, created, r);
    PageIsSourced(tables, i, f, cursor, ordered, Clamped(limit), listed, source, r);
    source' := source + seq(|r.ids|, _ => i);
  }

  // The walk, with its length counted in full pages.
  method WalkPages(tables: seq<Rows>, f: Filter, limit: Option<int>, ghost created: Id -> Time)
    returns (listed: seq<Id>, requests: nat, done: bool, ghost source: seq<nat>, ghost cursor': Option<Cursor>)
    requires Acceptable(ListQuery(f, limit, None))
    requires forall i :: 0 <= i < |tables| ==> Stamped(tables[i], created)
    ensures requests <= |tables| && (!done ==> requests == |tables|)
    ensures WalkState(tables, requests, f, Clamped(limit), listed, cursor', done, source, created)
  {
    listed, requests, done, source := [], 0, false, [];
    var cursor: Option<Cursor> := None;
    WalkStarts(tables, f, Clamped(limit), created);
    while !done && requests < |tables|
      invariant requests <= |tables|
                  && WalkState(tables, requests, f, Clamped(limit), listed, cursor, done, source, created)
      decreases |tables| - requests
    {
      var r;
      r, source := NextPage(tables, requests, f, limit, listed, cursor, source, created);
      listed, cursor, done, requests := listed + r.ids, r.nextCursor, r.nextCursor.None?, requests + 1;
    }
    cursor' := cursor;
  }

  /** Following next_cursor while other requests insert and update rows (tables[i] is the table
      when page i is read): the pages together are in listing order, so nothing appears twice,
      and once the walk ends every row that matched in each of those tables has appeared. */
  method Walk(tables: seq<Rows>, f: Filter, limit: Option<int>, ghost created: Id -> Time)
    returns (listed: seq<Id>, requests: nat, done: bool, ghost source: seq<nat>)
    requires limit.Some? ==> limit.value >= 1
    requires f.from.Some? && f.to.Some? ==> f.from.value <= f.to.value
    requires forall i :: 0 <= i < |tables| ==> Stamped(tables[i], created)
    ensures requests <= |tables| && (!done ==> requests == |tables|)
    ensures Distinct(listed) && Descending(Stamps(listed, created))
    ensures Sourced(tables, requests, f, listed, source)
    ensures |source| == |listed| && forall k :: 0 <= k < |listed| ==>
              && source[k] < requests && listed[k] in tables[source[k]]
              && Matches(tables[source[k]][listed[k]], f)
    ensures done ==> forall id :: MatchesThroughout(tables, requests, f, id) ==> id in listed
    ensures done ==> forall id :: (forall i :: 0 <= i < requests ==> id in tables[i] && Matches(tables[i][id], f)) ==>
              id in listed
    ensures if done then requests == Pages(|listed|, Clamped(limit)) else |listed| == requests * Clamped(limit)
  {
    ghost var cursor;
    listed, requests, done, source, cursor := WalkPages(tables, f, limit, created);
    DescendingIsDistinct(listed, created);
    PagesCount(|listed|, requests, Clamped(limit), done);
  }

  // How many rows that many full pages hold.
  function FullPages(pages: int, limit: nat): nat
    decreases pages
  {
    if pages <= 0 then 0 else FullPages(pages - 1, limit) + limit
  }

  lemma {:induction false} FullPagesIs(pages: nat, limit: nat)
    ensures FullPages(pages, limit) == limit * pages
  {
    if pages > 0 {
      FullPagesIs(pages - 1, limit);
      assert limit * pages == limit * (pages - 1) + limit;
    }
  }

  function Pages(rows: nat, limit: nat): (pages: nat)
    requires limit > 0
    ensures pages > 0
  {
    rows / limit + 1
  }

  lemma PagesCount(listed: nat, requests: nat, limit: nat, done: bool)
    requires limit > 0 && (done ==> requests > 0)
    requires if done then FullPages(requests - 1, limit) <= listed < FullPages(requests - 1, limit) + limit
             else listed == FullPages(requests, limit)
    ensures if done then requests == Pages(listed, limit) else listed == requests * limit
  {
    if done {
      FullPagesIs(requests - 1, limit);
      DivideBack(requests - 1, listed - FullPages(requests - 1, limit), limit);
    } else {
      FullPagesIs(requests, limit);
    }
  }

  lemma Spaced(a: int, b: int, d: nat)
    ensures a < b ==> d * a + d <= d * b
  {
    if a < b {
      var k := b - a - 1;
      assert d * (a + 1 + k) == d * a + d + d * k;
    }
  }

  lemma DivideBack(q: nat, r: nat, d: nat)
    requires d > 0 && r < d
    ensures (d * q + r) / d == q
  {
    var x := d * q + r;
    var e := x / d;
    assert x == d * e + x % d;
    Spaced(e, q, d);
    Spaced(q, e, d);
  }

  /** On a fixed table the walk is the full listing: the filtered rows in (created_at, id)
      descending order, each once, in one request more than the number of full pages. */
  method WalkFixed(rows: Rows, f: Filter, limit: Option<int>) returns (listed: seq<Id>, requests: nat)
    requires limit.Some? ==> limit.value >= 1
    requires f.from.Some? && f.to.Some? ==> f.from.value <= f.to.value
    ensures listed == Ordered(rows, Selected(rows, f, None))
    ensures requests == Pages(|Selected(rows, f, None)|, Clamped(limit))
  {
    ghost var created := (id: Id) => if id in rows then rows[id].createdAt else 0;
    var matching := Selected(rows, f, None);
    var pages := Pages(|matching|, Clamped(limit));
    var tables := seq(pages, _ => rows);
    var done;
    ghost var source;
    listed, requests, done, source := Walk(tables, f, limit, created);
    FullListing(rows, tables, f, Clamped(limit), listed, requests, done, source, created);
  }

  lemma FullListing(rows: Rows, tables: seq<Rows>, f: Filter, limit: nat, listed: seq<Id>, requests: nat, done: bool,
        source: seq<nat>, created: Id -> Time)
    requires limit > 0 && Stamped(rows, created)
    requires |tables| == Pages(|Selected(rows, f, None)|, limit) && forall i :: 0 <= i < |tables| ==> tables[i] == rows
    requires requests <= |tables| && (!done ==> requests == |tables|)
    requires Distinct(listed) && Descending(Stamps(listed, created))
    requires Sourced(tables, requests, f, listed, source)
    requires done ==> forall id :: MatchesThroughout(tables, requests, f, id) ==> id in listed
    requires if done then requests == Pages(|listed|, limit) else |listed| == requests * limit
    ensures listed == Ordered(rows, Selected(rows, f, None)) && requests == Pages(|Selected(rows, f, None)|, limit)
  {
    var matching := Selected(rows, f, None);
    assert forall id :: id in listed ==> id in matching;
    DistinctFits(listed, matching);
    if !done {
      assert false;
    }
    forall id | id in matching ensures id in listed { assert MatchesThroughout(tables, requests, f, id); }
    StampsAreKeys(rows, listed, created);
    OneOrder(rows, listed, Ordered(rows, matching));
  }

  // ---- the premise: keys are stable under every component --------------------------------------------

  /** Whatever the components do, a row keeps its place in the listing order. */
  lemma RowKeysNeverChange(s: State, run: seq<Action>, id: Id)
    requires id in s.rows
    ensures id in Exec(s, run).rows && KeyOf(Exec(s, run).rows, id) == KeyOf(s.rows, id)
  {
    TerminalIsFinal(s, run, id);
  }
}
