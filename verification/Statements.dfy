/** The paged account history as a function of the tables. */
module Statements {
  import opened Records
  import opened Operations
  import opened Ordering

  const MAX_INT64 := 0x7FFF_FFFF_FFFF_FFFF
  const MAX_LIMIT := 999
  const DEFAULT_LIMIT := 10

  datatype StatementEntry = StatementEntry(entryId: int, txId: int, amount: int, counterparty: int,
                                           kind: TxType, reversalOf: Option<int>)

  datatype Statement = Statement(entries: seq<StatementEntry>, nextCursor: int)

  /** An entry joined with its transaction. */
  datatype HistoryRow = HistoryRow(id: int, amount: int, txId: int, source: int, destination: int,
                                   kind: TxType, reversalOf: Option<int>)

  predicate JoinsTo(l: Ledger, e: Entry, row: HistoryRow) {
    && e.txId in l.txs
    && row.id == e.id && row.amount == e.amount && row.txId == e.txId
    && row.source == l.txs[e.txId].source && row.destination == l.txs[e.txId].destination
    && row.kind == l.txs[e.txId].kind && row.reversalOf == l.txs[e.txId].reversalOf
  }

  function EntryIdDown(e: Entry): int { -e.id }

  /** WHERE account_id = account AND id < before. */
  function Selected(entries: seq<Entry>, account: int, before: int): seq<Entry> {
    if entries == [] then []
    else
      var last := entries[|entries| - 1];
      Selected(entries[..|entries| - 1], account, before)
      + if last.account == account && last.id < before then [last] else []
  }

  lemma {:induction false} SelectedMembers(entries: seq<Entry>, account: int, before: int)
    ensures forall e :: e in Selected(entries, account, before) ==> e in entries
  {
    if entries != [] { SelectedMembers(entries[..|entries| - 1], account, before); }
  }

  function AccountEntries(entries: seq<Entry>, account: int): seq<Entry> {
    if entries == [] then []
    else
      var last := entries[|entries| - 1];
      AccountEntries(entries[..|entries| - 1], account) + if last.account == account then [last] else []
  }

  /** ... ORDER BY id DESC LIMIT limit, where the cursor 0 means no bound. */
  function AccountHistory(entries: seq<Entry>, account: int, limit: nat, before: int): seq<Entry> {
    var rows := SortBy(Selected(entries, account, if before == 0 then MAX_INT64 else before), EntryIdDown);
    if |rows| <= limit then rows else rows[..limit]
  }

  function Limit(limit: int): int {
    if limit <= 0 then DEFAULT_LIMIT else if limit > MAX_LIMIT then MAX_LIMIT else limit
  }

  function NextCursor(rows: seq<Entry>, limit: int): int {
    if rows == [] || |rows| < limit then 0 else rows[|rows| - 1].id
  }

  /** What the client is told of an entry. The schema allows none without a transaction. */
  function Describe(l: Ledger, e: Entry): StatementEntry {
    if e.txId in l.txs then
      var t := l.txs[e.txId];
      StatementEntry(e.id, e.txId, e.amount, if e.amount > 0 then t.source else t.destination, t.kind, t.reversalOf)
    else StatementEntry(e.id, e.txId, e.amount, 0, TxTransfer, None)
  }

  function DescribeAll(l: Ledger, rows: seq<Entry>): seq<StatementEntry> {
    seq(|rows|, i requires 0 <= i < |rows| => Describe(l, rows[i]))
  }

  function HistoryPage(w: World, l: Ledger, account: int, limit: int, before: int): Result<Statement, Error> {
    if account !in w.accounts then Err(AccountNotFound)
    else
      var rows := AccountHistory(l.entries, account, Limit(limit), before);
      Ok(Statement(DescribeAll(l, rows), NextCursor(rows, Limit(limit))))
  }
}
