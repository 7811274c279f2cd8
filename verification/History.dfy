/** What a client that follows the history's cursors gets to see while other transactions keep
    committing. */
module History {
  import opened Records
  import opened Operations
  import opened Ordering
  import opened Statements
  import opened LedgerLaws
  import opened Bookkeeping
  import opened Retries
  import opened Machine
  import opened Sequencing
  import opened Serializability

  // ---------------------------------------------------------------- one page

  function Reverse<T>(rows: seq<T>): seq<T> {
    if rows == [] then [] else [rows[|rows| - 1]] + Reverse(rows[..|rows| - 1])
  }

  lemma {:induction false} ReverseConcat<T>(xs: seq<T>, ys: seq<T>)
    ensures Reverse(xs + ys) == Reverse(ys) + Reverse(xs)
  {
    if ys == [] {
      assert xs + ys == xs;
    } else {
      var rest := ys[..|ys| - 1];
      assert (xs + ys)[..|xs + ys| - 1] == xs + rest;
      ReverseConcat(xs, rest);
    }
  }

  lemma {:induction false} ReverseIndex<T>(rows: seq<T>)
    ensures |Reverse(rows)| == |rows|
    ensures forall i :: 0 <= i < |rows| ==> Reverse(rows)[i] == rows[|rows| - 1 - i]
  {
    if rows != [] {
      ReverseIndex(rows[..|rows| - 1]);
    }
  }

  lemma {:induction false} InsertLast(x: Entry, rows: seq<Entry>)
    requires forall e :: e in rows ==> e.id > x.id
    ensures InsertBy(x, rows, EntryIdDown) == rows + [x]
  {
    if rows != [] {
      assert rows[0] in rows;
      InsertLast(x, rows[1..]);
      assert rows == [rows[0]] + rows[1..];
    }
  }

  /** Descending order of ascending rows is their reversal. */
  lemma {:induction false} SortDescending(rows: seq<Entry>)
    requires StrictlyAscending(rows, EntryId)
    ensures SortBy(rows, EntryIdDown) == Reverse(rows)
  {
    if rows != [] {
      var x, rest := rows[0], rows[1..];
      assert rows == [x] + rest;
      forall i, j | 0 <= i < j < |rest| ensures EntryId(rest[i]) < EntryId(rest[j]) {
        assert EntryId(rows[i + 1]) < EntryId(rows[j + 1]);
      }
      SortDescending(rest);
      ReverseIndex(rest);
      forall e | e in Reverse(rest) ensures e.id > x.id {
        var i :| 0 <= i < |rest| && Reverse(rest)[i] == e;
        assert EntryId(rows[0]) < EntryId(rows[|rest| - i]);
      }
      InsertLast(x, Reverse(rest));
      ReverseConcat([x], rest);
      assert Reverse([x]) == [x];
    }
  }

  /** The rows below a bound are the first m of the account's rows. */
  lemma {:induction false} SelectedIsPrefix(entries: seq<Entry>, account: int, before: int, m: nat)
    requires m <= |AccountEntries(entries, account)|
    requires forall i :: 0 <= i < |AccountEntries(entries, account)| ==>
               (AccountEntries(entries, account)[i].id < before <==> i < m)
    ensures Selected(entries, account, before) == AccountEntries(entries, account)[..m]
  {
    if entries != [] {
      var rest, last := entries[..|entries| - 1], entries[|entries| - 1];
      var all, fewer := AccountEntries(entries, account), AccountEntries(rest, account);
      assert forall i :: 0 <= i < |fewer| ==> fewer[i] == all[i];
      if last.account == account {
        assert all[|fewer|] == last;
        SelectedIsPrefix(rest, account, before, if m <= |fewer| then m else |fewer|);
      } else {
        SelectedIsPrefix(rest, account, before, m);
      }
    }
  }

  lemma {:induction false} AccountEntriesConcat(xs: seq<Entry>, ys: seq<Entry>, account: int)
    ensures AccountEntries(xs + ys, account) == AccountEntries(xs, account) + AccountEntries(ys, account)
  {
    if ys == [] {
      assert xs + ys == xs;
    } else {
      assert (xs + ys)[..|xs + ys| - 1] == xs + ys[..|ys| - 1];
      AccountEntriesConcat(xs, ys[..|ys| - 1], account);
    }
  }

  // ---------------------------------------------------------------- following the cursors

  /** The tables as one page request finds them, and the limit it asks for. */
  datatype Request = Request(ledger: Ledger, limit: int)

  /** All entries a client gets that starts with `before` and follows the cursors; the k-th
      page is read from the k-th request's tables. */
  function Follow(w: World, account: int, requests: seq<Request>, before: int): seq<StatementEntry> {
    if requests == [] then []
    else
      match HistoryPage(w, requests[0].ledger, account, requests[0].limit, before)
      case Err(e) => []
      case Ok(page) =>
        page.entries + if page.nextCursor == 0 then [] else Follow(w, account, requests[1..], page.nextCursor)
  }

  /** The rows of an account as the first request finds them. */
  ghost predicate Extends(first: Ledger, later: Ledger, account: int) {
    && first.entries <= later.entries
    && Grows(first, later)
    && StrictlyAscending(AccountEntries(later.entries, account), EntryId)
    && (forall e :: e in AccountEntries(later.entries, account) ==> 0 < e.id < MAX_INT64)
    && (forall e :: e in first.entries ==> e.txId in first.txs)
  }

  lemma PageOfPrefix(first: Ledger, later: Ledger, account: int, m: nat, before: int)
    requires Extends(first, later, account) && StandsAt(first, later, account, m, before)
    ensures Selected(later.entries, account, if before == 0 then MAX_INT64 else before)
         == AccountEntries(first.entries, account)[..m]
  {
    var bound := if before == 0 then MAX_INT64 else before;
    var mine, all := AccountEntries(first.entries, account), AccountEntries(later.entries, account);
    assert later.entries == first.entries + later.entries[|first.entries|..];
    AccountEntriesConcat(first.entries, later.entries[|first.entries|..], account);
    assert mine <= all;
    forall i | 0 <= i < |all| ensures all[i].id < bound <==> i < m {
      if before != 0 {
        assert mine[m] == all[m];
        assert i < m ==> EntryId(all[i]) < EntryId(all[m]);
        assert m < i ==> EntryId(all[m]) < EntryId(all[i]);
      } else {
        assert all[i] in all;
      }
    }
    SelectedIsPrefix(later.entries, account, bound, m);
  }

  lemma {:induction false} AccountEntriesMembers(entries: seq<Entry>, account: int)
    ensures forall e :: e in AccountEntries(entries, account) ==> e in entries && e.account == account
  {
    if entries != [] {
      AccountEntriesMembers(entries[..|entries| - 1], account);
    }
  }

  lemma DescriptionsStay(first: Ledger, later: Ledger, rows: seq<Entry>)
    requires Grows(first, later)
    requires forall e :: e in rows ==> e.txId in first.txs
    ensures DescribeAll(later, rows) == DescribeAll(first, rows)
  {
    forall i | 0 <= i < |rows| ensures Describe(later, rows[i]) == Describe(first, rows[i]) {
      assert rows[i] in rows;
    }
  }

  lemma PrefixAscends(rows: seq<Entry>, m: nat)
    requires StrictlyAscending(rows, EntryId) && m <= |rows|
    ensures StrictlyAscending(rows[..m], EntryId)
  {
    forall i, j | 0 <= i < j < m ensures EntryId(rows[..m][i]) < EntryId(rows[..m][j]) {
      assert EntryId(rows[i]) < EntryId(rows[j]);
    }
  }

  /** Where the client stands: at the start, or below the m-th of the rows of the first request. */
  ghost predicate StandsAt(first: Ledger, later: Ledger, account: int, m: nat, before: int) {
    var rows := AccountEntries(first.entries, account);
    && m <= |rows|
    && if before == 0 then later == first && m == |rows| else m < |rows| && before == rows[m].id
  }

  /** The rows of the next page, newest first. */
  function PageOf(rows: seq<Entry>, m: nat, limit: nat): seq<Entry>
    requires m <= |rows|
  {
    Reverse(if m <= limit then rows[..m] else rows[m - limit..m])
  }

  lemma FirstOfReverse(rows: seq<Entry>, m: nat, limit: nat)
    requires m <= |rows|
    ensures |Reverse(rows[..m])| == m
    ensures PageOf(rows, m, limit) == if m <= limit then Reverse(rows[..m]) else Reverse(rows[..m])[..limit]
  {
    ReverseIndex(rows[..m]);
    if m > limit {
      var k := m - limit;
      assert rows[..m] == rows[..k] + rows[k..m];
      ReverseConcat(rows[..k], rows[k..m]);
      ReverseIndex(rows[k..m]);
    }
  }

  lemma PageRows(first: Ledger, later: Ledger, account: int, limit: nat, m: nat, before: int)
    requires Extends(first, later, account) && StandsAt(first, later, account, m, before)
    ensures AccountHistory(later.entries, account, limit, before)
         == PageOf(AccountEntries(first.entries, account), m, limit)
  {
    var rows := AccountEntries(first.entries, account);
    PageOfPrefix(first, later, account, m, before);
    AccountEntriesAscend(first, later, account);
    PrefixAscends(rows, m);
    SortDescending(rows[..m]);
    FirstOfReverse(rows, m, limit);
  }

  lemma PageCursor(rows: seq<Entry>, m: nat, limit: nat)
    requires m <= |rows| && 0 < limit
    ensures NextCursor(PageOf(rows, m, limit), limit) == if m < limit then 0 else rows[m - limit].id
    ensures forall e :: e in PageOf(rows, m, limit) ==> e in rows
  {
    var part := if m <= limit then rows[..m] else rows[m - limit..m];
    ReverseIndex(part);
    assert m >= limit ==> part[0] == rows[m - limit];
    forall e | e in Reverse(part) ensures e in rows {
      var i :| 0 <= i < |Reverse(part)| && Reverse(part)[i] == e;
      assert part[|part| - 1 - i] in part;
    }
  }

  lemma DescribeConcat(l: Ledger, xs: seq<Entry>, ys: seq<Entry>)
    ensures DescribeAll(l, xs + ys) == DescribeAll(l, xs) + DescribeAll(l, ys)
  {
  }

  /** What a page of the rows leaves to the next one. */
  lemma SplitRows(rows: seq<Entry>, m: nat, limit: nat)
    requires limit <= m <= |rows|
    ensures Reverse(rows[..m]) == PageOf(rows, m, limit) + Reverse(rows[..m - limit])
  {
    assert rows[..m] == rows[..m - limit] + rows[m - limit..m];
    ReverseConcat(rows[..m - limit], rows[m - limit..m]);
    assert m == limit ==> rows[m - limit..m] == rows[..m];
  }

  lemma DescribedPage(w: World, account: int, first: Ledger, later: Ledger, limit: int, m: nat, before: int)
    requires account in w.accounts && Extends(first, later, account) && StandsAt(first, later, account, m, before)
    ensures var rows, n := AccountEntries(first.entries, account), Limit(limit);
      HistoryPage(w, later, account, limit, before)
      == Ok(Statement(DescribeAll(first, PageOf(rows, m, n)), if m < n then 0 else rows[m - n].id))
  {
    var rows, n := AccountEntries(first.entries, account), Limit(limit);
    PageRows(first, later, account, n, m, before);
    AccountEntriesMembers(first.entries, account);
    PageCursor(rows, m, n);
    DescriptionsStay(first, later, PageOf(rows, m, n));
  }

  /** From the m-th row on, the client sees exactly the rows below it, newest first. */
  lemma {:induction false} FollowFrom(w: World, account: int, requests: seq<Request>, first: Ledger, m: nat,
                                      before: int)
    requires account in w.accounts && m < |requests| && AllExtend(first, requests, account)
    requires StandsAt(first, requests[0].ledger, account, m, before)
    ensures Follow(w, account, requests, before) == Below(first, account, m)
    decreases m
  {
    var n := Limit(requests[0].limit);
    if m < n {
      LastPage(w, account, requests, first, m, before);
    } else {
      var next := FullPage(w, account, requests, first, m, before);
      FollowFrom(w, account, requests[1..], first, m - n, next);
    }
  }

  ghost predicate AllExtend(first: Ledger, requests: seq<Request>, account: int) {
    forall r :: r in requests ==> Extends(first, r.ledger, account)
  }

  /** The first m rows, newest first, as they are described to the client. */
  function Below(first: Ledger, account: int, m: nat): seq<StatementEntry>
    requires m <= |AccountEntries(first.entries, account)|
  {
    DescribeAll(first, Reverse(AccountEntries(first.entries, account)[..m]))
  }

  lemma {:induction false} LastPage(w: World, account: int, requests: seq<Request>, first: Ledger, m: nat, before: int)
    requires account in w.accounts && m < |requests| && AllExtend(first, requests, account)
    requires StandsAt(first, requests[0].ledger, account, m, before) && m < Limit(requests[0].limit)
    ensures Follow(w, account, requests, before) == Below(first, account, m)
  {
    var later := requests[0].ledger;
    assert requests[0] in requests && Extends(first, later, account);
    DescribedPage(w, account, first, later, requests[0].limit, m, before);
    TurnPage(w, account, requests, before);
  }

  /** A full page, and where it leaves the client. */
  lemma {:induction false} FullPage(w: World, account: int, requests: seq<Request>, first: Ledger, m: nat, before: int)
      returns (next: int)
    requires account in w.accounts && m < |requests| && AllExtend(first, requests, account)
    requires StandsAt(first, requests[0].ledger, account, m, before) && m >= Limit(requests[0].limit)
    ensures var n := Limit(requests[0].limit);
      && m - n < |requests[1..]| && AllExtend(first, requests[1..], account)
      && StandsAt(first, requests[1..][0].ledger, account, m - n, next)
      && (Follow(w, account, requests[1..], next) == Below(first, account, m - n) ==>
           Follow(w, account, requests, before) == Below(first, account, m))
  {
    var rows, later, n := AccountEntries(first.entries, account), requests[0].ledger, Limit(requests[0].limit);
    assert requests[0] in requests && requests[1] in requests && Extends(first, later, account);
    next := rows[m - n].id;
    DescribedPage(w, account, first, later, requests[0].limit, m, before);
    TurnPage(w, account, requests, before);
    NextStand(first, later, requests[1].ledger, account, m - n);
    PagesJoin(first, rows, m, n);
  }

  lemma {:induction false} PagesJoin(first: Ledger, rows: seq<Entry>, m: nat, n: nat)
    requires n <= m <= |rows|
    ensures DescribeAll(first, PageOf(rows, m, n)) + DescribeAll(first, Reverse(rows[..m - n]))
         == DescribeAll(first, Reverse(rows[..m]))
  {
    SplitRows(rows, m, n);
    DescribeConcat(first, PageOf(rows, m, n), Reverse(rows[..m - n]));
  }

  lemma {:induction false} TurnPage(w: World, account: int, requests: seq<Request>, before: int)
    requires requests != [] && HistoryPage(w, requests[0].ledger, account, requests[0].limit, before).Ok?
    ensures var page := HistoryPage(w, requests[0].ledger, account, requests[0].limit, before).value;
      Follow(w, account, requests, before)
      == page.entries + if page.nextCursor == 0 then [] else Follow(w, account, requests[1..], page.nextCursor)
  {
  }

  lemma NextStand(first: Ledger, later: Ledger, next: Ledger, account: int, m: nat)
    requires Extends(first, later, account) && m < |AccountEntries(first.entries, account)|
    ensures var before := AccountEntries(first.entries, account)[m].id;
      before != 0 && StandsAt(first, next, account, m, before)
  {
    assert AccountEntries(first.entries, account)[m] in AccountEntries(first.entries, account);
    RowsHaveIds(first, later, account);
  }

  lemma AccountEntriesAscend(first: Ledger, later: Ledger, account: int)
    requires Extends(first, later, account)
    ensures StrictlyAscending(AccountEntries(first.entries, account), EntryId)
  {
    var rest := later.entries[|first.entries|..];
    assert later.entries == first.entries + rest;
    AccountEntriesConcat(first.entries, rest, account);
    PrefixAscends(AccountEntries(later.entries, account), |AccountEntries(first.entries, account)|);
    var rows := AccountEntries(first.entries, account);
    assert AccountEntries(later.entries, account)[..|rows|] == rows;
  }

  lemma RowsHaveIds(first: Ledger, later: Ledger, account: int)
    requires Extends(first, later, account)
    ensures forall e :: e in AccountEntries(first.entries, account) ==> 0 < e.id < MAX_INT64
  {
    var rest := later.entries[|first.entries|..];
    assert later.entries == first.entries + rest;
    AccountEntriesConcat(first.entries, rest, account);
  }

  // ---------------------------------------------------------------- in a run

  /** The request of page k is served in the state after the first moments[k] actions of a run. */
  ghost function RequestsAt(w: World, run: seq<Action>, moments: seq<nat>, limits: seq<int>): seq<Request>
    requires Legal(w, run) && |moments| == |limits|
    requires forall k :: 0 <= k < |moments| ==> moments[k] <= |run|
  {
    seq(|moments|, k requires 0 <= k < |moments| =>
      (LegalPrefix(w, run, moments[k]); Request(Execute(w, run[..moments[k]]).ledger, limits[k])))
  }

  lemma LedgersExtend(w: World, run: seq<Action>, n: nat, account: int)
    requires Legal(w, run) && n <= |run|
    requires forall e :: e in Execute(w, run).ledger.entries ==> 0 < e.id < MAX_INT64
    ensures Legal(w, run[..n]) && Extends(Execute(w, run[..n]).ledger, Execute(w, run).ledger, account)
  {
    SerialOrderIsRealTimeOrder(w, run, n);
    InterleavingsAreSerializable(w, run);
    InterleavingsAreSerializable(w, run[..n]);
    var t, t' := Execute(w, run[..n]).trace, Execute(w, run).trace;
    assert t'[..|t|] == t;
    RowsStay(w, t', |t|);
    EntriesOnlyGrow(w, t', |t|);
    EveryTransactionHasTwoEntries(w, t);
    IdsFollowCommitsPerAccount(w, run, account);
    AccountEntriesMembers(Execute(w, run).ledger.entries, account);
    EntryIdsAscend(Execute(w, run).ledger.entries, account);
  }

  lemma {:induction false} EntriesOnlyGrow(w: World, trace: Trace, i: nat)
    requires Serial(w, trace) && i <= |trace|
    ensures LedgerOf(w, trace[..i]).entries <= LedgerOf(w, trace).entries
  {
    if i == |trace| {
      assert trace[..i] == trace;
    } else {
      var before, last := trace[..|trace| - 1], trace[|trace| - 1];
      EntriesOnlyGrow(w, before, i);
      assert before[..i] == trace[..i];
      SerialRunsAreSound(w, before);
      ChangeIsApplicable(w, LedgerOf(w, before), last.op, last.ids);
    }
  }

  lemma {:induction false} EntryIdsAscend(entries: seq<Entry>, account: int)
    requires forall i, j :: 0 <= i < j < |entries| && entries[i].account == entries[j].account ==>
               entries[i].id < entries[j].id
    ensures StrictlyAscending(AccountEntries(entries, account), EntryId)
  {
    if entries != [] {
      var rest, last := entries[..|entries| - 1], entries[|entries| - 1];
      EntryIdsAscend(rest, account);
      AccountEntriesMembers(rest, account);
      if last.account == account {
        var rows := AccountEntries(rest, account);
        forall i | 0 <= i < |rows| ensures rows[i].id < last.id {
          assert rows[i] in rows;
          var k :| 0 <= k < |rest| && rest[k] == rows[i];
          assert entries[k] == rest[k];
        }
      }
    }
  }

  /** Following the cursors from 0, with any limits, while any transactions commit between the
      pages, ends after at most one page more than there are entries, and yields exactly the
      account's entries present at the first page, each once, newest first. */
  lemma {:induction false} PagesCoverTheHistory(w: World, run: seq<Action>, account: int, moments: seq<nat>,
                                                limits: seq<int>)
    requires Legal(w, run) && account in w.accounts && |moments| == |limits|
    requires forall k :: 0 <= k < |moments| ==> moments[0] <= moments[k] <= |run|
    requires forall e :: e in Execute(w, run).ledger.entries ==> 0 < e.id < MAX_INT64
    requires |moments| > 0 && Legal(w, run[..moments[0]])
    requires |AccountEntries(Execute(w, run[..moments[0]]).ledger.entries, account)| < |moments|
    ensures var first := Execute(w, run[..moments[0]]).ledger;
      Follow(w, account, RequestsAt(w, run, moments, limits), 0)
      == DescribeAll(first, Reverse(AccountEntries(first.entries, account)))
  {
    var first := Execute(w, run[..moments[0]]).ledger;
    var requests := RequestsAt(w, run, moments, limits);
    var rows := AccountEntries(first.entries, account);
    forall r | r in requests ensures Extends(first, r.ledger, account) {
      var k :| 0 <= k < |requests| && requests[k] == r;
      LegalPrefix(w, run, moments[k]);
      EntriesOfPrefix(w, run, moments[k]);
      LedgersExtend(w, run[..moments[k]], moments[0], account);
      assert run[..moments[k]][..moments[0]] == run[..moments[0]];
    }
    FollowFrom(w, account, requests, first, |rows|, 0);
    assert rows[..|rows|] == rows;
  }

  lemma EntriesOfPrefix(w: World, run: seq<Action>, n: nat)
    requires Legal(w, run) && n <= |run|
    ensures Legal(w, run[..n]) && Execute(w, run[..n]).ledger.entries <= Execute(w, run).ledger.entries
  {
    SerialOrderIsRealTimeOrder(w, run, n);
    InterleavingsAreSerializable(w, run);
    InterleavingsAreSerializable(w, run[..n]);
    var t, t' := Execute(w, run[..n]).trace, Execute(w, run).trace;
    assert t'[..|t|] == t;
    EntriesOnlyGrow(w, t', |t|);
  }

  /** The counterparty of an entry is the other endpoint of its transaction, */
  lemma CounterpartyIsOtherEndpoint(w: World, trace: Trace, e: Entry)
    requires Serial(w, trace) && e in LedgerOf(w, trace).entries
    ensures e.txId in LedgerOf(w, trace).txs
    ensures var t, other := LedgerOf(w, trace).txs[e.txId], Describe(LedgerOf(w, trace), e).counterparty;
      other != e.account &&
      ((e.account == t.source && other == t.destination) || (e.account == t.destination && other == t.source))
  {
    var l := LedgerOf(w, trace);
    EveryTransactionHasTwoEntries(w, trace);
    EntryIsOneOfTwo(l.entries, e);
    assert TwoEntries(l, e.txId);
    OneOfTwo(EntriesOf(l.entries, e.txId), e, l.txs[e.txId]);
  }

  /** and the one that the entry's event names. */
  lemma CounterpartyIsInEvent(w: World, trace: Trace, i: nat)
    requires Serial(w, trace) && i < |LedgerOf(w, trace).entries|
    ensures 0 <= Twin(i) < |LedgerOf(w, trace).outbox|
    ensures var e, ev := LedgerOf(w, trace).entries[i], LedgerOf(w, trace).outbox[Twin(i)];
      ev.txId == e.txId && ev.account == e.account && ev.counterparty == Describe(LedgerOf(w, trace), e).counterparty
  {
    EveryEntryIsAnnouncedOnce(w, trace);
    MirroredCounterparty(w, LedgerOf(w, trace), i);
  }

  lemma MirroredCounterparty(w: World, l: Ledger, i: nat)
    requires OutboxMirrorsEntries(w, l) && i < |l.entries|
    ensures 0 <= Twin(i) < |l.outbox|
    ensures var e, ev := l.entries[i], l.outbox[Twin(i)];
      ev.txId == e.txId && ev.account == e.account && ev.counterparty == Describe(l, e).counterparty
  {
    assert Announces(w, l, l.outbox[Twin(i)], l.entries[i]);
  }

  lemma OneOfTwo(rows: seq<Entry>, e: Entry, t: Tx)
    requires |rows| == 2 && e in rows && t.amount > 0
    requires rows[0].account == t.source && rows[0].amount == -t.amount
    requires rows[1].account == t.destination && rows[1].amount == t.amount
    ensures if e.amount > 0 then e.account == t.destination else e.account == t.source
  {
  }

  lemma {:induction false} EntryIsOneOfTwo(entries: seq<Entry>, e: Entry)
    requires e in entries
    ensures e in EntriesOf(entries, e.txId)
  {
    var last := entries[|entries| - 1];
    if e != last {
      assert entries == entries[..|entries| - 1] + [last];
      EntryIsOneOfTwo(entries[..|entries| - 1], e);
    }
  }
}
