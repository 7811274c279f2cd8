/** The queries as methods on the tables, inside one database transaction at a time. */
module Database {
  import opened Records
  import opened Operations
  import opened Ordering
  import opened Statements
  import opened Machine

  datatype QueryError = NotFound | DuplicateKey | Broken

  /** ledger_entries.transaction_id REFERENCES transactions. */
  ghost predicate ForeignKeys(l: Ledger) { forall e :: e in l.entries ==> e.txId in l.txs }

  class Store {
    const world: World
    /** Nothing ever fails, as opposed to: any statement may. */
    const reliable: bool
    /** Another relay copy holds the advisory lock. */
    const outboxLockedElsewhere: bool

    var committed: Ledger
    var published: set<int>

    // what the open transaction sees
    var work: Ledger
    var workPublished: set<int>

    // what the open transaction has locked, in the order of locking
    var locks: seq<Lock>
    var holdsOutbox: bool

    // the id sequences, which no rollback resets
    var nextTx: int
    var nextEntry: int
    var nextEvent: int

    ghost predicate Valid()
      reads this
    {
      && (forall id :: id in committed.txs ==> id < nextTx)
      && (forall id :: id in work.txs ==> id < nextTx)
      && ForeignKeys(committed) && ForeignKeys(work)
    }

    constructor (world: World, reliable: bool, outboxLockedElsewhere: bool)
      ensures Valid()
      ensures this.world == world && this.reliable == reliable && this.outboxLockedElsewhere == outboxLockedElsewhere
      ensures committed == EMPTY_LEDGER && work == EMPTY_LEDGER && published == {} && workPublished == {}
      ensures locks == [] && !holdsOutbox
    {
      this.world := world;
      this.reliable := reliable;
      this.outboxLockedElsewhere := outboxLockedElsewhere;
      committed, work := EMPTY_LEDGER, EMPTY_LEDGER;
      published, workPublished := {}, {};
      locks, holdsOutbox := [], false;
      nextTx, nextEntry, nextEvent := 1, 1, 1;
    }

    /** Whether the database fails to answer this time. */
    method Breaks() returns (broken: bool)
      ensures reliable ==> !broken
    {
      broken := *;
      if reliable { broken := false; }
    }

    // ------------------------------------------------------------ transactions

    method Begin() returns (ok: bool)
      requires Valid()
      modifies this`work, this`workPublished, this`locks, this`holdsOutbox
      ensures Valid() && (reliable ==> ok)
      ensures ok ==> work == committed && workPublished == published
      ensures locks == [] && !holdsOutbox
    {
      locks, holdsOutbox := [], false;
      var broken := Breaks();
      if broken { return false; }
      work, workPublished := committed, published;
      ok := true;
    }

    /** All the writes of the transaction become visible, or none; when the commit reports an
        error it may be either. The locks are released. */
    method Commit() returns (ok: bool)
      requires Valid()
      modifies this`committed, this`published, this`locks, this`holdsOutbox
      ensures Valid() && (reliable ==> ok) && locks == [] && !holdsOutbox
      ensures ok ==> committed == work && published == workPublished
      ensures !ok ==>
        || (committed == old(committed) && published == old(published))
        || (committed == work && published == workPublished)
    {
      ok := true;
      locks, holdsOutbox := [], false;
      var broken := Breaks();
      if broken {
        ok := false;
        var applied: bool := *;
        if !applied { return; }
      }
      committed, published := work, workPublished;
    }

    method Rollback()
      requires Valid()
      modifies this`work, this`workPublished, this`locks, this`holdsOutbox
      ensures Valid() && work == committed && workPublished == published && locks == [] && !holdsOutbox
    {
      locks, holdsOutbox := [], false;
      work, workPublished := committed, published;
    }

    // ------------------------------------------------------------ accounts

    method GetAccount(id: int) returns (r: Result<Account, QueryError>)
      ensures r.Ok? ==> id in world.accounts && r.value == world.accounts[id]
      ensures r == Err(NotFound) ==> id !in world.accounts
      ensures r != Err(DuplicateKey) && (reliable ==> r != Err(Broken))
    {
      var broken := Breaks();
      if broken { return Err(Broken); }
      if id !in world.accounts { return Err(NotFound); }
      r := Ok(world.accounts[id]);
    }

    /** SELECT ... FOR UPDATE: the row is locked to the end of the transaction. */
    method GetAccountForUpdate(id: int) returns (r: Result<Account, QueryError>)
      modifies this`locks
      ensures r.Ok? ==>
        id in world.accounts && r.value == world.accounts[id] && locks == old(locks) + [AccountRow(id)]
      ensures r.Err? ==> locks == old(locks)
      ensures r == Err(NotFound) ==> id !in world.accounts
      ensures r != Err(DuplicateKey) && (reliable ==> r != Err(Broken))
    {
      r := GetAccount(id);
      if r.Ok? { locks := locks + [AccountRow(id)]; }
    }

    method GetSystemAccountByCode(code: string) returns (r: Result<(int, Account), QueryError>)
      ensures r.Ok? ==>
        && code in world.codes && world.codes[code] == r.value.0
        && r.value.0 in world.accounts && r.value.1 == world.accounts[r.value.0]
      ensures r == Err(NotFound) ==> code !in world.codes || world.codes[code] !in world.accounts
      ensures r != Err(DuplicateKey) && (reliable ==> r != Err(Broken))
    {
      var broken := Breaks();
      if broken { return Err(Broken); }
      if code !in world.codes || world.codes[code] !in world.accounts { return Err(NotFound); }
      r := Ok((world.codes[code], world.accounts[world.codes[code]]));
    }

    /** SUM(amount) by a scan of the entries; a sum that is no 64-bit integer cannot be read. */
    method GetAccountBalance(id: int) returns (r: Result<int, QueryError>)
      ensures r.Ok? ==> r.value == Balance(work.entries, id) && FitsInt64(r.value)
      ensures r.Err? ==> r.error == Broken && (!reliable || !FitsInt64(Balance(work.entries, id)))
    {
      var broken := Breaks();
      if broken { return Err(Broken); }
      var sum := 0;
      for i := 0 to |work.entries|
        invariant sum == Balance(work.entries[..i], id)
      {
        assert work.entries[..i + 1] == work.entries[..i] + [work.entries[i]];
        BalanceAppend(work.entries[..i], work.entries[i], id);
        if work.entries[i].account == id {
          sum := sum + work.entries[i].amount;
        }
      }
      assert work.entries[..|work.entries|] == work.entries;
      if !FitsInt64(sum) { return Err(Broken); }
      r := Ok(sum);
    }

    // ------------------------------------------------------------ transactions and entries

    /** The unique index on the key makes others wait until the transaction has ended. */
    method CreateTransaction(p: Params) returns (r: Result<Tx, QueryError>)
      requires Valid()
      modifies this`work, this`nextTx, this`locks
      ensures Valid() && nextTx >= old(nextTx)
      ensures r.Ok? ==>
        && p.key !in old(work).keys
        && r.value == NewTx(p, old(nextTx))
        && work == old(work).(txs := old(work).txs[old(nextTx) := r.value],
                              keys := old(work).keys[p.key := old(nextTx)])
        && locks == old(locks) + [KeySlot(p.key)]
      ensures r.Err? ==> work == old(work) && locks == old(locks)
      ensures r == Err(DuplicateKey) ==> p.key in old(work).keys
      ensures r != Err(NotFound) && (reliable ==> r != Err(Broken))
    {
      var broken := Breaks();
      if broken { return Err(Broken); }
      var id := nextTx;
      nextTx := nextTx + 1;
      if p.key in work.keys { return Err(DuplicateKey); }
      var t := NewTx(p, id);
      work := work.(txs := work.txs[id := t], keys := work.keys[p.key := id]);
      locks := locks + [KeySlot(p.key)];
      r := Ok(t);
    }

    method GetTransaction(key: string) returns (r: Result<Tx, QueryError>)
      ensures r.Ok? ==> key in work.keys && work.keys[key] in work.txs && r.value == work.txs[work.keys[key]]
      ensures r == Err(NotFound) ==> key !in work.keys || work.keys[key] !in work.txs
      ensures r != Err(DuplicateKey) && (reliable ==> r != Err(Broken))
    {
      var broken := Breaks();
      if broken { return Err(Broken); }
      if key !in work.keys || work.keys[key] !in work.txs { return Err(NotFound); }
      r := Ok(work.txs[work.keys[key]]);
    }

    /** SELECT ... FOR UPDATE. */
    method GetTransactionByID(id: int) returns (r: Result<Tx, QueryError>)
      modifies this`locks
      ensures r.Ok? ==> id in work.txs && r.value == work.txs[id] && locks == old(locks) + [TxRow(id)]
      ensures r.Err? ==> locks == old(locks)
      ensures r == Err(NotFound) ==> id !in work.txs
      ensures r != Err(DuplicateKey) && (reliable ==> r != Err(Broken))
    {
      var broken := Breaks();
      if broken { return Err(Broken); }
      if id !in work.txs { return Err(NotFound); }
      locks := locks + [TxRow(id)];
      r := Ok(work.txs[id]);
    }

    method CreateLedgerEntry(txId: int, account: int, amount: int) returns (err: Option<QueryError>)
      requires Valid()
      modifies this`work, this`nextEntry
      ensures Valid() && nextEntry >= old(nextEntry)
      ensures err.None? ==>
        && work == old(work).(entries := old(work).entries + [Entry(old(nextEntry), txId, account, amount)])
        && nextEntry == old(nextEntry) + 1
      ensures err.Some? ==> work == old(work) && (!reliable || txId !in work.txs)
    {
      var broken := Breaks();
      if broken || txId !in work.txs { return Some(Broken); }
      work := work.(entries := work.entries + [Entry(nextEntry, txId, account, amount)]);
      nextEntry := nextEntry + 1;
      err := None;
    }

    /** Only a completed transaction changes its status. No affected row is reported as "not
        found", and so is a failed statement, which affects no row either. */
    method UpdateTransactionStatus(id: int, status: Status) returns (err: Option<QueryError>)
      requires Valid()
      modifies this`work
      ensures Valid()
      ensures err.None? ==>
        && id in old(work).txs && old(work).txs[id].status == Completed
        && work == old(work).(txs := old(work).txs[id := old(work).txs[id].(status := status)])
      ensures err.Some? ==> err.value == NotFound && work == old(work)
      ensures err.Some? && reliable ==> id !in work.txs || work.txs[id].status != Completed
    {
      var broken := Breaks();
      if broken || id !in work.txs || work.txs[id].status != Completed { return Some(NotFound); }
      work := work.(txs := work.txs[id := work.txs[id].(status := status)]);
      err := None;
    }

    /** ... JOIN transactions WHERE account_id AND id < before ORDER BY id DESC LIMIT, scanned into a
        slice. */
    method GetAccountHistory(account: int, limit: nat, before: int) returns (r: Result<seq<HistoryRow>, QueryError>)
      requires Valid()
      ensures r.Ok? ==>
        var entries := AccountHistory(work.entries, account, limit, before);
        && |r.value| == |entries|
        && forall i :: 0 <= i < |entries| ==> JoinsTo(work, entries[i], r.value[i])
      ensures r.Err? ==> r.error == Broken && !reliable
    {
      var broken := Breaks();
      if broken { return Err(Broken); }
      var matching := EntriesBelow(account, if before == 0 then MAX_INT64 else before);
      var sorted := SortBy(matching, EntryIdDown);
      SortIsOrderedPermutation(matching, EntryIdDown);
      forall e | e in sorted ensures e in work.entries { assert e in multiset(sorted); }
      var rows := JoinTransactions(if |sorted| <= limit then sorted else sorted[..limit]);
      r := Ok(rows);
    }

    method EntriesBelow(account: int, bound: int) returns (matching: seq<Entry>)
      ensures matching == Selected(work.entries, account, bound)
      ensures forall e :: e in matching ==> e in work.entries
    {
      matching := [];
      for i := 0 to |work.entries|
        invariant matching == Selected(work.entries[..i], account, bound)
      {
        assert work.entries[..i + 1][..i] == work.entries[..i];
        if work.entries[i].account == account && work.entries[i].id < bound {
          matching := matching + [work.entries[i]];
        }
      }
      assert work.entries[..|work.entries|] == work.entries;
      SelectedMembers(work.entries, account, bound);
    }

    method JoinTransactions(entries: seq<Entry>) returns (rows: seq<HistoryRow>)
      requires forall e :: e in entries ==> e.txId in work.txs
      ensures |rows| == |entries| && forall i :: 0 <= i < |entries| ==> JoinsTo(work, entries[i], rows[i])
    {
      rows := [];
      for i := 0 to |entries|
        invariant |rows| == i && forall k :: 0 <= k < i ==> JoinsTo(work, entries[k], rows[k])
      {
        var e := entries[i];
        var t := work.txs[e.txId];
        rows := rows + [HistoryRow(e.id, e.amount, e.txId, t.source, t.destination, t.kind, t.reversalOf)];
      }
    }

    // ------------------------------------------------------------ outbox

    method CreateOutboxEvent(account: int, txId: int, kind: TxType, amount: int, currency: string,
                             counterparty: int, reversalOf: Option<int>)
      returns (err: Option<QueryError>)
      requires Valid()
      modifies this`work, this`nextEvent
      ensures Valid() && nextEvent >= old(nextEvent)
      ensures err.None? ==>
        && work == old(work).(outbox := old(work).outbox +
             [Event(old(nextEvent), account, txId, kind, amount, currency, counterparty, reversalOf)])
        && nextEvent == old(nextEvent) + 1
      ensures err.Some? ==> work == old(work) && !reliable
    {
      var broken := Breaks();
      if broken { return Some(Broken); }
      var row := Event(nextEvent, account, txId, kind, amount, currency, counterparty, reversalOf);
      work := work.(outbox := work.outbox + [row]);
      nextEvent := nextEvent + 1;
      err := None;
    }

    /** pg_try_advisory_xact_lock: answers at once; the lock ends with the transaction. */
    method TryLockOutbox() returns (r: Result<bool, QueryError>)
      modifies this`holdsOutbox
      ensures r.Ok? ==> r.value == !outboxLockedElsewhere && holdsOutbox == (old(holdsOutbox) || r.value)
      ensures r.Err? ==> !reliable && holdsOutbox == old(holdsOutbox)
    {
      var broken := Breaks();
      if broken { return Err(Broken); }
      if !outboxLockedElsewhere { holdsOutbox := true; }
      r := Ok(!outboxLockedElsewhere);
    }

    /** WHERE published_at IS NULL ORDER BY id LIMIT, scanned into a slice. */
    method GetUnpublishedOutboxEvents(limit: nat) returns (r: Result<seq<Event>, QueryError>)
      ensures r.Ok? ==> r.value == Batch(work.outbox, workPublished, limit)
      ensures r.Err? ==> !reliable
    {
      var broken := Breaks();
      if broken { return Err(Broken); }
      var matching: seq<Event> := [];
      for i := 0 to |work.outbox|
        invariant matching == Unpublished(work.outbox[..i], workPublished)
      {
        assert work.outbox[..i + 1][..i] == work.outbox[..i];
        if work.outbox[i].id !in workPublished {
          matching := matching + [work.outbox[i]];
        }
      }
      assert work.outbox[..|work.outbox|] == work.outbox;
      var sorted := SortBy(matching, EventId);
      var rows: seq<Event> := [];
      while |rows| < |sorted| && |rows| < limit
        invariant |rows| <= |sorted| && |rows| <= limit && rows == sorted[..|rows|]
      {
        rows := rows + [sorted[|rows|]];
      }
      r := Ok(rows);
    }

    method MarkOutboxEventsPublished(ids: seq<int>) returns (err: Option<QueryError>)
      requires Valid()
      modifies this`workPublished
      ensures Valid()
      ensures err.None? ==> workPublished == old(workPublished) + set id | id in ids
      ensures err.Some? ==> workPublished == old(workPublished) && !reliable
    {
      var broken := Breaks();
      if broken { return Some(Broken); }
      workPublished := workPublished + set id | id in ids;
      err := None;
    }
  }
}
