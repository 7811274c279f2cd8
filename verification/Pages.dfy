/** What one page of an account's history shows. */
module Pages {
  import opened Records
  import opened Operations
  import opened Ordering
  import opened Statements
  import opened Bookkeeping
  import opened Machine
  import opened Sequencing
  import opened Serializability
  import opened History

  /** The client is told of the entry and of its transaction, field by field. */
  ghost predicate Shows(l: Ledger, shown: StatementEntry, e: Entry) {
    && e.txId in l.txs
    && shown.entryId == e.id && shown.txId == e.txId && shown.amount == e.amount
    && shown.kind == l.txs[e.txId].kind && shown.reversalOf == l.txs[e.txId].reversalOf
    && (e.amount > 0 ==> shown.counterparty == l.txs[e.txId].source)
    && (e.amount < 0 ==> shown.counterparty == l.txs[e.txId].destination)
  }

  /** The entries of the account below the bound. */
  ghost function Wanted(l: Ledger, account: int, bound: int): set<Entry> {
    set e | e in l.entries && e.account == account && e.id < bound
  }

  /** The page shows wanted entries in descending order: all of them, or the newest `size`. */
  ghost predicate IsNewest(l: Ledger, wanted: set<Entry>, size: nat, shown: seq<StatementEntry>) {
    && |shown| == Min(size, |wanted|)
    && (forall i :: 0 <= i < |shown| ==> ShowsOneOf(l, shown[i], wanted))
    && (forall i, j :: 0 <= i < j < |shown| ==> shown[i].entryId > shown[j].entryId)
    && (forall e :: e in wanted ==> IsShown(shown, e) || IsOlder(shown, e))
  }

  ghost predicate ShowsOneOf(l: Ledger, shown: StatementEntry, wanted: set<Entry>) {
    exists e :: e in wanted && Shows(l, shown, e)
  }

  ghost predicate IsOlder(shown: seq<StatementEntry>, e: Entry) {
    forall i :: 0 <= i < |shown| ==> shown[i].entryId > e.id
  }

  ghost predicate IsShown(shown: seq<StatementEntry>, e: Entry) {
    exists i :: 0 <= i < |shown| && shown[i].entryId == e.id
  }

  lemma {:induction false} SelectedAscend(entries: seq<Entry>, account: int, bound: int)
    requires forall i, j :: 0 <= i < j < |entries| && entries[i].account == entries[j].account ==>
               entries[i].id < entries[j].id
    ensures StrictlyAscending(Selected(entries, account, bound), EntryId)
    ensures forall e :: e in Selected(entries, account, bound) <==> e in entries && e.account == account && e.id < bound
  {
    if entries != [] {
      var rest, last := entries[..|entries| - 1], entries[|entries| - 1];
      assert entries == rest + [last];
      SelectedAscend(rest, account, bound);
      var rows := Selected(rest, account, bound);
      forall i | 0 <= i < |rows| && last.account == account ensures rows[i].id < last.id {
        assert rows[i] in rows;
        var k :| 0 <= k < |rest| && rest[k] == rows[i];
        assert entries[k] == rest[k];
      }
    }
  }

  lemma {:induction false} DistinctCount(rows: seq<Entry>)
    requires forall i, j :: 0 <= i < j < |rows| ==> rows[i] != rows[j]
    ensures |set e | e in rows| == |rows|
  {
    if rows != [] {
      var rest, last := rows[..|rows| - 1], rows[|rows| - 1];
      DistinctCount(rest);
      assert last !in rest;
      assert (set e | e in rows) == (set e | e in rest) + {last} by { assert rows == rest + [last]; }
    }
  }

  /** Where descending rows stand that ascend in the table. */
  ghost predicate Descending(down: seq<Entry>) { forall i, j :: 0 <= i < j < |down| ==> down[i].id > down[j].id }

  lemma {:induction false} ReversedDescends(rows: seq<Entry>)
    requires StrictlyAscending(rows, EntryId)
    ensures Descending(History.Reverse(rows)) && |History.Reverse(rows)| == |rows|
    ensures forall e :: e in rows <==> e in History.Reverse(rows)
  {
    ReverseIndex(rows);
    var down := History.Reverse(rows);
    forall i, j | 0 <= i < j < |down| ensures down[i].id > down[j].id {
      assert EntryId(rows[|rows| - 1 - j]) < EntryId(rows[|rows| - 1 - i]);
    }
    forall e ensures e in rows <==> e in down {
      if e in rows {
        var k :| 0 <= k < |rows| && rows[k] == e;
        assert down[|rows| - 1 - k] == e;
      }
    }
  }

  function First(down: seq<Entry>, size: nat): seq<Entry> { if |down| <= size then down else down[..size] }

  /** The first of descending rows, described one by one. */
  lemma {:induction false} FirstAreShown(l: Ledger, down: seq<Entry>, wanted: set<Entry>, size: nat)
    requires Descending(down) && forall e :: e in down <==> e in wanted
    requires forall e :: e in down ==> e.txId in l.txs && e.amount != 0
    ensures IsNewest(l, wanted, size, DescribeAll(l, First(down, size))) && |down| == |wanted|
  {
    DistinctCount(down);
    assert wanted == set e | e in down;
    var shown := DescribeAll(l, First(down, size));
    EachIsShown(l, down, size);
    forall i | 0 <= i < |shown| ensures ShowsOneOf(l, shown[i], wanted) {
      assert down[i] in wanted && Shows(l, shown[i], down[i]);
    }
    forall e | e in wanted ensures IsShown(shown, e) || IsOlder(shown, e) {
      var k :| 0 <= k < |down| && down[k] == e;
      RestIsOlder(l, down, shown, k);
    }
  }

  lemma {:induction false} EachIsShown(l: Ledger, down: seq<Entry>, size: nat)
    requires forall e :: e in down ==> e.txId in l.txs && e.amount != 0
    ensures var shown := DescribeAll(l, First(down, size));
      |shown| == Min(size, |down|) && forall i :: 0 <= i < |shown| ==> Shows(l, shown[i], down[i])
  {
  }

  lemma {:induction false} RestIsOlder(l: Ledger, down: seq<Entry>, shown: seq<StatementEntry>, k: nat)
    requires Descending(down) && k < |down| && |shown| <= |down|
    requires forall i :: 0 <= i < |shown| ==> Shows(l, shown[i], down[i])
    ensures IsShown(shown, down[k]) || IsOlder(shown, down[k])
  {
    if k < |shown| { assert shown[k].entryId == down[k].id; }
  }

  /** The cursor 0 stands for none. */
  function Bound(before: int): int { if before == 0 then MAX_INT64 else before }

  /** The page has 10 entries, or the number asked for, but no more than 999, unless fewer are left; they are the
      newest of the account below the cursor. The next cursor is the last entry of a full page. */
  ghost predicate PageIsNewest(w: World, l: Ledger, account: int, limit: int, before: int) {
    var size := if limit <= 0 then 10 else Min(limit, 999);
    var wanted := Wanted(l, account, Bound(before));
    var page := HistoryPage(w, l, account, limit, before);
    && page.Ok? && IsNewest(l, wanted, size, page.value.entries)
    && page.value.nextCursor == if |wanted| < size then 0 else page.value.entries[size - 1].entryId
  }

  /** So it is in every reachable state. */
  lemma {:induction false} PageShowsTheNewest(w: World, run: seq<Action>, account: int, limit: int, before: int)
    requires Legal(w, run) && account in w.accounts
    ensures PageIsNewest(w, Execute(w, run).ledger, account, limit, before)
  {
    var trace := Execute(w, run).trace;
    InterleavingsAreSerializable(w, run);
    IdsFollowCommitsPerAccount(w, run, account);
    EntriesHaveTransactions(w, trace);
    var down := SortedRows(LedgerOf(w, trace), account, Bound(before));
    SortedPage(w, LedgerOf(w, trace), account, limit, before, down);
  }

  lemma {:induction false} SortedPage(w: World, l: Ledger, account: int, limit: int, before: int, down: seq<Entry>)
    requires account in w.accounts && down == SortBy(Selected(l.entries, account, Bound(before)), EntryIdDown)
    requires Descending(down) && forall e :: e in down <==> e in Wanted(l, account, Bound(before))
    requires forall e :: e in down ==> e.txId in l.txs && e.amount != 0
    ensures PageIsNewest(w, l, account, limit, before)
  {
    var size := Limit(limit);
    PageOfSorted(w, l, account, limit, before, down);
    FirstAreShown(l, down, Wanted(l, account, Bound(before)), size);
    LastShown(l, down, size);
  }

  lemma {:induction false} PageOfSorted(w: World, l: Ledger, account: int, limit: int, before: int, down: seq<Entry>)
    requires account in w.accounts && down == SortBy(Selected(l.entries, account, Bound(before)), EntryIdDown)
    ensures var page := First(down, Limit(limit));
      HistoryPage(w, l, account, limit, before) == Ok(Statement(DescribeAll(l, page), NextCursor(page, Limit(limit))))
  {
    assert AccountHistory(l.entries, account, Limit(limit), before) == First(down, Limit(limit));
  }

  lemma {:induction false} LastShown(l: Ledger, down: seq<Entry>, size: nat)
    requires size > 0
    ensures NextCursor(First(down, size), size)
         == if |down| < size then 0 else DescribeAll(l, First(down, size))[size - 1].entryId
  {
  }

  /** ORDER BY id DESC. */
  lemma {:induction false} SortedRows(l: Ledger, account: int, bound: int) returns (down: seq<Entry>)
    requires forall i, j :: 0 <= i < j < |l.entries| && l.entries[i].account == l.entries[j].account ==>
               l.entries[i].id < l.entries[j].id
    ensures down == SortBy(Selected(l.entries, account, bound), EntryIdDown)
    ensures Descending(down) && forall e :: e in down <==> e in Wanted(l, account, bound)
  {
    var rows := Selected(l.entries, account, bound);
    SelectedAscend(l.entries, account, bound);
    SortDescending(rows);
    ReversedDescends(rows);
    down := History.Reverse(rows);
  }

  lemma {:induction false} EntriesHaveTransactions(w: World, trace: Trace)
    requires Serial(w, trace)
    ensures forall e :: e in LedgerOf(w, trace).entries ==> e.txId in LedgerOf(w, trace).txs && e.amount != 0
  {
    var l := LedgerOf(w, trace);
    EveryTransactionHasTwoEntries(w, trace);
    forall e | e in l.entries ensures e.amount != 0 {
      EntryHasAmount(w, l, e);
    }
  }

  lemma {:induction false} EntryHasAmount(w: World, l: Ledger, e: Entry)
    requires DoubleEntry(l) && LedgerLaws.TxsWellFormed(w, l) && e in l.entries
    ensures e.amount != 0
  {
    EntryIsOneOfTwo(l.entries, e);
    assert TwoEntries(l, e.txId) && l.txs[e.txId].amount > 0;
  }
}
