/** ORDER BY id, as an insertion sort. */
module Ordering {
  import opened Records

  function InsertBy<T>(x: T, rows: seq<T>, id: T -> int): seq<T> {
    if rows == [] then [x]
    else if id(x) <= id(rows[0]) then [x] + rows
    else [rows[0]] + InsertBy(x, rows[1..], id)
  }

  function SortBy<T>(rows: seq<T>, id: T -> int): seq<T> {
    if rows == [] then [] else InsertBy(rows[0], SortBy(rows[1..], id), id)
  }

  ghost predicate Ascending<T>(rows: seq<T>, id: T -> int) {
    forall i, j :: 0 <= i < j < |rows| ==> id(rows[i]) <= id(rows[j])
  }

  ghost predicate StrictlyAscending<T>(rows: seq<T>, id: T -> int) {
    forall i, j :: 0 <= i < j < |rows| ==> id(rows[i]) < id(rows[j])
  }

  lemma {:induction false} InsertKeepsRows<T>(x: T, rows: seq<T>, id: T -> int)
    ensures multiset(InsertBy(x, rows, id)) == multiset{x} + multiset(rows)
  {
    if rows != [] && id(x) > id(rows[0]) {
      InsertKeepsRows(x, rows[1..], id);
      assert rows == [rows[0]] + rows[1..];
    }
  }

  lemma {:induction false} InsertAscending<T>(x: T, rows: seq<T>, id: T -> int)
    requires Ascending(rows, id)
    ensures Ascending(InsertBy(x, rows, id), id)
  {
    if rows != [] && id(x) > id(rows[0]) {
      InsertAscending(x, rows[1..], id);
      InsertKeepsRows(x, rows[1..], id);
      var tail := InsertBy(x, rows[1..], id);
      forall j | 0 <= j < |tail| ensures id(rows[0]) <= id(tail[j]) {
        assert tail[j] in multiset(tail);
      }
    }
  }

  /** Sorting keeps exactly the rows and puts them in order. */
  lemma {:induction false} SortIsOrderedPermutation<T>(rows: seq<T>, id: T -> int)
    ensures multiset(SortBy(rows, id)) == multiset(rows)
    ensures Ascending(SortBy(rows, id), id)
    ensures |SortBy(rows, id)| == |rows|
  {
    if rows != [] {
      SortIsOrderedPermutation(rows[1..], id);
      InsertKeepsRows(rows[0], SortBy(rows[1..], id), id);
      InsertAscending(rows[0], SortBy(rows[1..], id), id);
      assert rows == [rows[0]] + rows[1..];
      assert |multiset(SortBy(rows, id))| == |multiset(rows)|;
    }
  }

  function EventId(e: Event): int { e.id }

  lemma OfAccountHead(x: Event, rows: seq<Event>, account: int)
    ensures OfAccount([x] + rows, account) == (if x.account == account then [x] else []) + OfAccount(rows, account)
  {
    OfAccountConcat([x], rows, account);
    OfAccountAppend([], x, account);
    assert [] + [x] == [x];
  }

  lemma {:induction false} InsertOfAccount(x: Event, rows: seq<Event>, account: int)
    requires x.account == account ==> forall e :: e in OfAccount(rows, account) ==> x.id < e.id
    ensures OfAccount(InsertBy(x, rows, EventId), account)
         == (if x.account == account then [x] else []) + OfAccount(rows, account)
  {
    OfAccountHead(x, rows, account);
    if rows != [] && x.id > rows[0].id {
      assert rows == [rows[0]] + rows[1..];
      OfAccountMembers(rows, account);
      OfAccountMembers(rows[1..], account);
      OfAccountHead(rows[0], rows[1..], account);
      InsertOfAccount(x, rows[1..], account);
      OfAccountHead(rows[0], InsertBy(x, rows[1..], EventId), account);
    } else if rows == [] {
      assert [x] + rows == [x];
    }
  }

  lemma SplitAscending(head: seq<Event>, rest: seq<Event>)
    requires StrictlyAscending(head + rest, EventId)
    ensures StrictlyAscending(rest, EventId)
    ensures forall x, e :: x in head && e in rest ==> x.id < e.id
  {
    var all := head + rest;
    forall i, j | 0 <= i < j < |rest| ensures EventId(rest[i]) < EventId(rest[j]) {
      assert EventId(all[|head| + i]) < EventId(all[|head| + j]);
    }
    forall x, e | x in head && e in rest ensures x.id < e.id {
      var i :| 0 <= i < |head| && head[i] == x;
      var j :| 0 <= j < |rest| && rest[j] == e;
      assert EventId(all[i]) < EventId(all[|head| + j]);
    }
  }

  /** Where the rows of an account already ascend, sorting the table leaves their order alone. */
  lemma {:induction false} SortOfAccount(rows: seq<Event>, account: int)
    requires StrictlyAscending(OfAccount(rows, account), EventId)
    ensures OfAccount(SortBy(rows, EventId), account) == OfAccount(rows, account)
  {
    if rows != [] {
      var x, rest := rows[0], rows[1..];
      assert rows == [x] + rest;
      OfAccountHead(x, rest, account);
      SplitAscending(if x.account == account then [x] else [], OfAccount(rest, account));
      SortOfAccount(rest, account);
      InsertOfAccount(x, SortBy(rest, EventId), account);
    }
  }

  /** WHERE published_at IS NULL. */
  function Unpublished(outbox: seq<Event>, published: set<int>): seq<Event> {
    if outbox == [] then []
    else
      var last := outbox[|outbox| - 1];
      Unpublished(outbox[..|outbox| - 1], published) + if last.id in published then [] else [last]
  }

  /** The oldest unpublished rows by id, at most `limit` of them. */
  function Batch(outbox: seq<Event>, published: set<int>, limit: nat): seq<Event> {
    var rows := SortBy(Unpublished(outbox, published), EventId);
    if |rows| <= limit then rows else rows[..limit]
  }

  lemma {:induction false} UnpublishedMembers(outbox: seq<Event>, published: set<int>)
    ensures forall e :: e in Unpublished(outbox, published) <==> e in outbox && e.id !in published
  {
    if outbox != [] {
      UnpublishedMembers(outbox[..|outbox| - 1], published);
      assert outbox == outbox[..|outbox| - 1] + [outbox[|outbox| - 1]];
    }
  }

  lemma {:induction false} UnpublishedOfAccount(outbox: seq<Event>, published: set<int>, account: int)
    ensures OfAccount(Unpublished(outbox, published), account) == Unpublished(OfAccount(outbox, account), published)
  {
    if outbox != [] {
      var rest, last := outbox[..|outbox| - 1], outbox[|outbox| - 1];
      UnpublishedOfAccount(rest, published, account);
      if last.id !in published {
        OfAccountAppend(Unpublished(rest, published), last, account);
      } else {
        assert Unpublished(outbox, published) == Unpublished(rest, published);
      }
      if last.account == account {
        assert (OfAccount(rest, account) + [last])[..|OfAccount(rest, account)|] == OfAccount(rest, account);
      }
    }
  }

  lemma {:induction false} UnpublishedAscending(outbox: seq<Event>, published: set<int>)
    requires StrictlyAscending(outbox, EventId)
    ensures StrictlyAscending(Unpublished(outbox, published), EventId)
  {
    if outbox != [] {
      var rest, last := outbox[..|outbox| - 1], outbox[|outbox| - 1];
      UnpublishedAscending(rest, published);
      UnpublishedMembers(rest, published);
      forall e | e in Unpublished(rest, published) ensures e.id < last.id {
        var i :| 0 <= i < |rest| && rest[i] == e;
        assert EventId(outbox[i]) < EventId(outbox[|outbox| - 1]);
      }
      if last.id !in published {
        var rows := Unpublished(rest, published);
        forall i, j | 0 <= i < j < |rows + [last]| ensures EventId((rows + [last])[i]) < EventId((rows + [last])[j]) {
          if j == |rows| { assert rows[i] in rows; }
        }
      }
    }
  }

  /** The rows of one account in a batch are the first of its unpublished rows. */
  lemma BatchOfAccount(outbox: seq<Event>, published: set<int>, limit: nat, account: int)
    requires StrictlyAscending(OfAccount(outbox, account), EventId)
    ensures OfAccount(Batch(outbox, published, limit), account) <= Unpublished(OfAccount(outbox, account), published)
  {
    var rows := Unpublished(outbox, published);
    UnpublishedOfAccount(outbox, published, account);
    UnpublishedAscending(OfAccount(outbox, account), published);
    SortOfAccount(rows, account);
    var sorted := SortBy(rows, EventId);
    if |sorted| > limit {
      assert sorted == sorted[..limit] + sorted[limit..];
      OfAccountConcat(sorted[..limit], sorted[limit..], account);
    }
  }

  /** A batch holds unpublished rows, and no row outside it is older than a row inside it. */
  lemma BatchIsOldest(outbox: seq<Event>, published: set<int>, limit: nat)
    ensures var batch := Batch(outbox, published, limit);
      && |batch| == (if |Unpublished(outbox, published)| <= limit then |Unpublished(outbox, published)| else limit)
      && Ascending(batch, EventId)
      && (forall e :: e in batch ==> e in outbox && e.id !in published)
      && (forall e, e' :: e in batch && e' in outbox && e'.id !in published && e' !in batch ==> e.id <= e'.id)
  {
    var rows := Unpublished(outbox, published);
    var sorted := SortBy(rows, EventId);
    var batch := Batch(outbox, published, limit);
    UnpublishedMembers(outbox, published);
    SortIsOrderedPermutation(rows, EventId);
    forall e ensures e in sorted <==> e in rows {
      assert e in sorted <==> e in multiset(sorted);
      assert e in rows <==> e in multiset(rows);
    }
    forall e, e' | e in batch && e' in outbox && e'.id !in published && e' !in batch ensures e.id <= e'.id {
      var i :| 0 <= i < |batch| && batch[i] == e;
      assert e' in sorted;
      var j :| 0 <= j < |sorted| && sorted[j] == e';
      assert j >= |batch|;
      assert EventId(sorted[i]) <= EventId(sorted[j]);
    }
  }
}
