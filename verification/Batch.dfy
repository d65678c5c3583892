/** Batch creation: the classification loop, what it conserves, and which batches the unique
    index can still refuse.
 */
module Batch {
  import opened Domain
  import opened Statements
  import opened Creation

  datatype ItemStatus = Accepted | Rejected | Duplicate

  datatype ItemResult = ItemResult(index: nat, status: ItemStatus, notification: Option<Draft>, existingId: Option<Id>)

  // One request: its items, what content each resolves to (if any), the validation rule, the
  // identities assigned to the items, and the moment of creation.
  datatype Request = Request(
    inputs: seq<CreateInput>,
    contents: seq<Option<string>>,
    ids: seq<Id>,
    batchId: Id,
    now: Time)

  predicate WellFormed(q: Request) {
    |q.contents| == |q.inputs| && |q.ids| == |q.inputs| && Distinct(q.ids) && NIL !in q.ids
  }

  function DraftOf(q: Request, i: nat): Draft
    requires WellFormed(q) && i < |q.inputs| && q.contents[i].Some?
  {
    Draft(q.ids[i], NewNotification(q.inputs[i], q.contents[i].value, q.now, Some(q.batchId)))
  }

  // ---- what each item's outcome means ---------------------------------------------------------

  // Item i counts as having carried the key, whether or not it turned out valid.
  predicate Carries(q: Request, i: nat, key: string)
    requires WellFormed(q)
  {
    i < |q.inputs| && q.contents[i].Some? && q.inputs[i].idempotencyKey == Some(key)
  }

  predicate CarriedBefore(q: Request, i: nat, key: string)
    requires WellFormed(q)
  {
    exists j :: 0 <= j < i && Carries(q, j, key)
  }

  predicate IsDuplicate(q: Request, stored: map<string, Id>, i: nat)
    requires WellFormed(q) && i < |q.inputs|
  {
    q.contents[i].Some? && q.inputs[i].idempotencyKey.Some?
    && (q.inputs[i].idempotencyKey.value in stored || CarriedBefore(q, i, q.inputs[i].idempotencyKey.value))
  }

  predicate IsAccepted(q: Request, stored: map<string, Id>, valid: Notification -> bool, i: nat)
    requires WellFormed(q) && i < |q.inputs|
  {
    q.contents[i].Some? && !IsDuplicate(q, stored, i) && valid(DraftOf(q, i).notification)
  }

  // The rows to insert among the first n items, in order.
  function AcceptedDrafts(q: Request, stored: map<string, Id>, valid: Notification -> bool, n: nat): seq<Draft>
    requires WellFormed(q) && n <= |q.inputs|
  {
    if n == 0 then []
    else
      AcceptedDrafts(q, stored, valid, n - 1)
      + if IsAccepted(q, stored, valid, n - 1) then [DraftOf(q, n - 1)] else []
  }

  // The first item to carry the key.
  predicate FirstCarrier(q: Request, i: nat, key: string)
    requires WellFormed(q)
  {
    Carries(q, i, key) && !CarriedBefore(q, i, key)
  }

  // The keys known after the first n items: the stored ones and each first carrier's.
  ghost predicate KeysAfter(q: Request, stored: map<string, Id>, known: map<string, Id>, n: nat)
    requires WellFormed(q) && n <= |q.inputs|
  {
    && (forall key :: key in known <==> key in stored || CarriedBefore(q, n, key))
    && (forall key :: key in stored ==> known[key] == stored[key])
    && (forall key, j :: key in known && key !in stored && 0 <= j < n && FirstCarrier(q, j, key) ==>
        known[key] == q.ids[j])
  }

  ghost predicate Classified(q: Request, stored: map<string, Id>, valid: Notification -> bool, i: nat, r: ItemResult)
    requires WellFormed(q) && i < |q.inputs|
  {
    && r.index == i
    && (r.status == Duplicate <==> IsDuplicate(q, stored, i))
    && (r.status == Accepted <==> IsAccepted(q, stored, valid, i))
    && r.notification == (if IsAccepted(q, stored, valid, i) then Some(DraftOf(q, i)) else None)
    && (r.status != Duplicate ==> r.existingId.None?)
    && (r.status == Duplicate ==>
          var key := q.inputs[i].idempotencyKey.value;
          if key in stored then r.existingId == (if stored[key] != NIL then Some(stored[key]) else None)
          else forall j :: 0 <= j < i && FirstCarrier(q, j, key) ==> r.existingId == Some(q.ids[j]))
  }

  lemma CarriedStep(q: Request, i: nat, key: string)
    requires WellFormed(q) && i < |q.inputs|
    ensures CarriedBefore(q, i + 1, key) <==> CarriedBefore(q, i, key) || Carries(q, i, key)
  {
  }

  // The known keys before item i decide whether it is a duplicate, and of which notification.
  lemma KnownIsDuplicate(q: Request, stored: map<string, Id>, valid: Notification -> bool, known: map<string, Id>,
        i: nat)
    requires WellFormed(q) && i < |q.inputs| && KeysAfter(q, stored, known, i)
    requires q.contents[i].Some? && q.inputs[i].idempotencyKey.Some?
    ensures var key := q.inputs[i].idempotencyKey.value;
            && (key in known <==> IsDuplicate(q, stored, i))
            && (key in known ==> Classified(q, stored, valid, i,
                  ItemResult(i, Duplicate, None, if known[key] != NIL then Some(known[key]) else None)))
  {
    var key := q.inputs[i].idempotencyKey.value;
    forall j | 0 <= j < i && FirstCarrier(q, j, key) ensures q.ids[j] != NIL {
      assert q.ids[j] in q.ids;
    }
  }

  // An item whose content does not resolve, that has no key, or whose key is known, adds none.
  lemma KeysStay(q: Request, stored: map<string, Id>, known: map<string, Id>, i: nat)
    requires WellFormed(q) && i < |q.inputs| && KeysAfter(q, stored, known, i)
    requires q.contents[i].Some? && q.inputs[i].idempotencyKey.Some? ==> q.inputs[i].idempotencyKey.value in known
    ensures KeysAfter(q, stored, known, i + 1)
  {
    forall key ensures CarriedBefore(q, i + 1, key) <==> CarriedBefore(q, i, key) || Carries(q, i, key) {
      CarriedStep(q, i, key);
    }
  }

  lemma KeysGrow(q: Request, stored: map<string, Id>, known: map<string, Id>, i: nat)
    requires WellFormed(q) && i < |q.inputs| && KeysAfter(q, stored, known, i)
    requires q.contents[i].Some? && q.inputs[i].idempotencyKey.Some? && q.inputs[i].idempotencyKey.value !in known
    ensures KeysAfter(q, stored, known[q.inputs[i].idempotencyKey.value := q.ids[i]], i + 1)
  {
    forall key ensures CarriedBefore(q, i + 1, key) <==> CarriedBefore(q, i, key) || Carries(q, i, key) {
      CarriedStep(q, i, key);
    }
  }

  // The outcome of one item, written out.
  lemma OutcomeOf(q: Request, stored: map<string, Id>, valid: Notification -> bool, i: nat, r: ItemResult)
    requires WellFormed(q) && i < |q.inputs| && Classified(q, stored, valid, i, r)
    ensures var content, key := q.contents[i], q.inputs[i].idempotencyKey;
            && r.index == i
            && (r.status == Duplicate <==>
                  content.Some? && key.Some?
                  && (key.value in stored
                      || exists j :: 0 <= j < i && q.contents[j].Some? && q.inputs[j].idempotencyKey == key))
            && (r.status == Accepted <==>
                  content.Some? && r.status != Duplicate
                  && valid(NewNotification(q.inputs[i], content.value, q.now, Some(q.batchId))))
            && (r.status == Accepted ==>
                  r.notification
                    == Some(Draft(q.ids[i], NewNotification(q.inputs[i], content.value, q.now, Some(q.batchId)))))
            && (r.status != Accepted ==> r.notification == None)
            && (r.status != Duplicate ==> r.existingId == None)
  {
    var key := q.inputs[i].idempotencyKey;
    if j :| 0 <= j < i && q.contents[j].Some? && q.inputs[j].idempotencyKey == key && key.Some? {
      assert Carries(q, j, key.value);
    }
  }

  /** The classification loop: every item gets exactly one outcome, the counts add up to the
      number of items, and the rows to insert are the accepted items in request order. */
  method Classify(q: Request, stored: map<string, Id>, valid: Notification -> bool)
    returns (results: array<ItemResult>, toInsert: seq<Draft>, accepted: nat, rejected: nat)
    requires WellFormed(q)
    ensures fresh(results) && results.Length == |q.inputs|
    ensures forall i :: 0 <= i < |q.inputs| ==> Classified(q, stored, valid, i, results[i])
    ensures forall i :: 0 <= i < |q.inputs| ==>
              var content, key, r := q.contents[i], q.inputs[i].idempotencyKey, results[i];
              && r.index == i
              && (r.status == Duplicate <==>
                    content.Some? && key.Some?
                    && (key.value in stored
                        || exists j :: 0 <= j < i && q.contents[j].Some? && q.inputs[j].idempotencyKey == key))
              && (r.status == Accepted <==>
                    content.Some? && r.status != Duplicate
                    && valid(NewNotification(q.inputs[i], content.value, q.now, Some(q.batchId))))
              && (r.status == Accepted ==>
                    r.notification
                      == Some(Draft(q.ids[i], NewNotification(q.inputs[i], content.value, q.now, Some(q.batchId)))))
              && (r.status != Accepted ==> r.notification == None)
              && (r.status != Duplicate ==> r.existingId == None)
    ensures toInsert == AcceptedDrafts(q, stored, valid, |q.inputs|)
    ensures accepted == |toInsert| && accepted + rejected == |q.inputs|
  {
    var known: map<string, Id> := stored;
    results := new ItemResult[|q.inputs|](_ => ItemResult(0, Rejected, None, None));
    toInsert, accepted, rejected := [], 0, 0;
    for i := 0 to |q.inputs|
      invariant KeysAfter(q, stored, known, i)
      invariant forall j :: 0 <= j < i ==> Classified(q, stored, valid, j, results[j])
      invariant toInsert == AcceptedDrafts(q, stored, valid, i)
      invariant accepted == |toInsert| && accepted + rejected == i
    {
      var key := q.inputs[i].idempotencyKey;
      if q.contents[i].None? {
        KeysStay(q, stored, known, i);
        results[i] := ItemResult(i, Rejected, None, None);
        rejected := rejected + 1;
        continue;
      }
      var draft := DraftOf(q, i);
      if key.Some? {
        KnownIsDuplicate(q, stored, valid, known, i);
        if key.value in known {
          KeysStay(q, stored, known, i);
          var existing: Option<Id> := if known[key.value] != NIL then Some(known[key.value]) else None;
          results[i] := ItemResult(i, Duplicate, None, existing);
          rejected := rejected + 1;
          continue;
        }
        KeysGrow(q, stored, known, i);
        known := known[key.value := draft.id];
      } else {
        KeysStay(q, stored, known, i);
      }
      if !valid(draft.notification) {
        results[i] := ItemResult(i, Rejected, None, None);
        rejected := rejected + 1;
        continue;
      }
      results[i] := ItemResult(i, Accepted, Some(draft), None);
      toInsert := toInsert + [draft];
      accepted := accepted + 1;
    }
    forall i | 0 <= i < |q.inputs| { OutcomeOf(q, stored, valid, i, results[i]); }
  }

  // ---- what the classification guarantees ---------------------------------------------------------

  lemma {:induction false} AcceptedFrom(q: Request, stored: map<string, Id>, valid: Notification -> bool, n: nat,
        d: Draft)
    requires WellFormed(q) && n <= |q.inputs|
    ensures d in AcceptedDrafts(q, stored, valid, n) <==>
              exists i :: 0 <= i < n && IsAccepted(q, stored, valid, i) && DraftOf(q, i) == d
  {
    if n > 0 {
      AcceptedFrom(q, stored, valid, n - 1, d);
      if i :| 0 <= i < n && IsAccepted(q, stored, valid, i) && DraftOf(q, i) == d {
        assert i == n - 1 || i < n - 1;
      }
    }
  }

  /** The rows to insert are those of the accepted items, in request order. */
  lemma {:induction false} AcceptedInOrder(q: Request, stored: map<string, Id>, valid: Notification -> bool, n: nat)
    returns (items: seq<nat>)
    requires WellFormed(q) && n <= |q.inputs|
    ensures forall i :: i in items <==> 0 <= i < n && IsAccepted(q, stored, valid, i)
    ensures forall k, l :: 0 <= k < l < |items| ==> items[k] < items[l]
    ensures |AcceptedDrafts(q, stored, valid, n)| == |items|
    ensures forall k :: 0 <= k < |items| ==>
              && items[k] < n && q.contents[items[k]].Some?
              && AcceptedDrafts(q, stored, valid, n)[k] == DraftOf(q, items[k])
  {
    if n == 0 {
      items := [];
    } else {
      items := AcceptedInOrder(q, stored, valid, n - 1);
      if IsAccepted(q, stored, valid, n - 1) { items := items + [n - 1]; }
    }
  }

  predicate Differ(d: Draft, e: Draft) {
    d.id != e.id
    && (d.notification.idempotencyKey.Some? ==>
        d.notification.idempotencyKey != e.notification.idempotencyKey)
  }

  predicate PairwiseDiffer(ds: seq<Draft>) {
    forall i, j :: 0 <= i < j < |ds| ==> Differ(ds[i], ds[j])
  }

  lemma AcceptedKeyIsNew(q: Request, stored: map<string, Id>, valid: Notification -> bool, n: nat, d: Draft)
    requires WellFormed(q) && n < |q.inputs| && d in AcceptedDrafts(q, stored, valid, n)
               && IsAccepted(q, stored, valid, n)
    ensures Differ(d, DraftOf(q, n))
  {
    AcceptedFrom(q, stored, valid, n, d);
    var i :| 0 <= i < n && IsAccepted(q, stored, valid, i) && DraftOf(q, i) == d;
    if d.notification.idempotencyKey.Some? { assert Carries(q, i, d.notification.idempotencyKey.value); }
  }

  lemma {:induction false} AcceptedAreDistinct(q: Request, stored: map<string, Id>, valid: Notification -> bool, n: nat)
    requires WellFormed(q) && n <= |q.inputs|
    ensures PairwiseDiffer(AcceptedDrafts(q, stored, valid, n))
  {
    if n > 0 {
      AcceptedAreDistinct(q, stored, valid, n - 1);
      var before := AcceptedDrafts(q, stored, valid, n - 1);
      if IsAccepted(q, stored, valid, n - 1) {
        forall i | 0 <= i < |before| ensures Differ(before[i], DraftOf(q, n - 1)) {
          AcceptedKeyIsNew(q, stored, valid, n - 1, before[i]);
        }
      }
    }
  }

  /** The rows to insert never clash with each other or with a key that was looked up, so the
      insert is refused exactly when one of them clashes with a row already in the table: a
      request that raced this one. */
  lemma OnlyARaceRefusesTheInsert(q: Request, stored: map<string, Id>, valid: Notification -> bool, rows: Rows)
    requires WellFormed(q)
    ensures var ds := AcceptedDrafts(q, stored, valid, |q.inputs|);
            && (Insertable(rows, ds) <==> forall d :: d in ds ==>
                  d.id !in rows
                  && (d.notification.idempotencyKey.Some? ==>
                      !KeyTaken(rows, d.notification.idempotencyKey.value)))
            && (forall d :: d in ds && d.notification.idempotencyKey.Some? ==>
                d.notification.idempotencyKey.value !in stored)
  {
    var ds := AcceptedDrafts(q, stored, valid, |q.inputs|);
    AcceptedAreDistinct(q, stored, valid, |q.inputs|);
    forall d | d in ds
      ensures Initial(d.notification)
                && (d.notification.idempotencyKey.Some? ==> d.notification.idempotencyKey.value !in stored)
    {
      AcceptedFrom(q, stored, valid, |q.inputs|, d);
    }
  }

  lemma {:induction false} FirstCarrierExists(q: Request, i: nat, key: string) returns (j: nat)
    requires WellFormed(q) && CarriedBefore(q, i, key)
    ensures j < i && FirstCarrier(q, j, key)
  {
    j :| 0 <= j < i && Carries(q, j, key);
    if CarriedBefore(q, j, key) { j := FirstCarrierExists(q, j, key); }
  }

  /** A duplicate of a stored key points at the notification that holds it. One within the
      request points at the first item with its key, and that is a notification that is being
      created if and only if that item passed validation. */
  lemma DuplicatePointsAt(q: Request, stored: map<string, Id>, valid: Notification -> bool, i: nat, r: ItemResult)
    requires WellFormed(q) && i < |q.inputs| && Classified(q, stored, valid, i, r)
    requires r.status == Duplicate
    ensures var key := q.inputs[i].idempotencyKey;
            && key.Some?
            && (key.value in stored ==>
                  r.existingId == if stored[key.value] != NIL then Some(stored[key.value]) else None)
            && (key.value !in stored ==>
                  exists j :: 0 <= j < i && q.contents[j].Some? && q.inputs[j].idempotencyKey == key
                    && (forall l :: 0 <= l < j && q.contents[l].Some? ==> q.inputs[l].idempotencyKey != key)
                    && r.existingId == Some(q.ids[j])
                    && ((exists d :: d in AcceptedDrafts(q, stored, valid, |q.inputs|) && d.id == q.ids[j]) <==>
                        valid(DraftOf(q, j).notification)))
  {
    var key := q.inputs[i].idempotencyKey.value;
    if key in stored { return; }
    var j := FirstCarrierExists(q, i, key);
    forall l | 0 <= l < j && q.contents[l].Some? ensures q.inputs[l].idempotencyKey != Some(key) {
      assert !Carries(q, l, key);
    }
    if d :| d in AcceptedDrafts(q, stored, valid, |q.inputs|) && d.id == q.ids[j] {
      AcceptedFrom(q, stored, valid, |q.inputs|, d);
    }
    if valid(DraftOf(q, j).notification) {
      assert IsAccepted(q, stored, valid, j);
      AcceptedFrom(q, stored, valid, |q.inputs|, DraftOf(q, j));
    }
  }

  /** The promise that it points at an earlier notification is false in general: here item 1 is
      reported as a duplicate of item 0, which is itself rejected and never created. */
  lemma DuplicateOfNothing()
    ensures exists q: Request, valid: Notification -> bool ::
              WellFormed(q) && |q.inputs| == 2 && IsDuplicate(q, map[], 1) && AcceptedDrafts(q, map[], valid, 2) == []
  {
    var empty := CreateInput("", Sms, "hello", None, None, Some("order-42"));
    var q := Request([empty, empty.(recipient := "+905551234567")], [Some("hello"), Some("hello")], [1, 2], 3, 0);
    var valid := (n: Notification) => n.recipient != "";
    assert Carries(q, 0, "order-42");
    assert IsDuplicate(q, map[], 1);
    assert !IsAccepted(q, map[], valid, 0) && !IsAccepted(q, map[], valid, 1);
    assert AcceptedDrafts(q, map[], valid, 1) == [];
    assert AcceptedDrafts(q, map[], valid, 2) == [];
  }

  // ---- the key lookup ------------------------------------------------------------------------------

  // The request's keys that the table holds, each with its row.
  ghost predicate LookedUp(rows: Rows, inputs: seq<CreateInput>, stored: map<string, Id>) {
    && (forall key :: key in stored <==>
        KeyTaken(rows, key) && exists i :: 0 <= i < |inputs| && inputs[i].idempotencyKey == Some(key))
    && (forall key :: key in stored ==> stored[key] in rows && rows[stored[key]].idempotencyKey == Some(key))
  }

  /** The lookup returns exactly the request's keys that the table holds, each with its row. */
  method ExistingKeysFor(inputs: seq<CreateInput>, rows: Rows) returns (stored: map<string, Id>)
    ensures LookedUp(rows, inputs, stored)
    ensures forall key :: key in stored <==>
              && (exists id :: id in rows && rows[id].idempotencyKey == Some(key))
              && (exists i :: 0 <= i < |inputs| && inputs[i].idempotencyKey == Some(key))
    ensures forall key :: key in stored ==> stored[key] in rows && rows[stored[key]].idempotencyKey == Some(key)
  {
    var keys: seq<string> := [];
    for i := 0 to |inputs|
      invariant forall key :: key in keys <==> exists j :: 0 <= j < i && inputs[j].idempotencyKey == Some(key)
    {
      if inputs[i].idempotencyKey.Some? { keys := keys + [inputs[i].idempotencyKey.value]; }
    }
    stored := map[];
    for i := 0 to |keys|
      invariant forall key :: key in stored <==> KeyTaken(rows, key) && key in keys[..i]
      invariant forall key :: key in stored ==> stored[key] in rows && rows[stored[key]].idempotencyKey == Some(key)
    {
      if KeyTaken(rows, keys[i]) {
        var id :| id in rows && rows[id].idempotencyKey == Some(keys[i]);
        stored := stored[keys[i] := id];
      }
    }
    assert keys[..|keys|] == keys;
  }
}
