/** The service's methods, statement by statement, proved to do what the atomic operations say. */
module Service {
  import opened Records
  import opened Operations
  import opened Statements
  import opened LedgerLaws
  import opened Promises
  import opened Database
  import opened Machine

  /** What a call that returned `r` has done to the committed tables. A database error leaves
      open whether the commit took effect. */
  ghost predicate Performed(w: World, before: Ledger, after: Ledger, op: Op, r: Outcome, ids: Ids) {
    && (if r == Err(StorageFailure)
        then after == before
             || (after == AtomicOp(w, before, op, ids).0 && UsesFreshIds(before, AtomicOp(w, before, op, ids).1, ids))
        else (after, r) == AtomicOp(w, before, op, ids) && UsesFreshIds(before, r, ids))
  }

  /** Such a call keeps the tables sound, and its promise. */
  lemma {:induction false} PerformedAsPromised(w: World, before: Ledger, after: Ledger, op: Op, r: Outcome, ids: Ids)
    requires Sound(w, before) && Performed(w, before, after, op, r, ids)
    ensures Sound(w, after) && (r != Err(StorageFailure) ==> Promise(w, before, after, op, r))
  {
    if after != before || r != Err(StorageFailure) {
      CallKeepsItsPromise(w, before, op, ids);
      ChangeIsApplicable(w, before, op, ids);
      SoundChange(w, before, ChangeOf(w, before, op), ids);
    }
  }

  /** What the body of a transaction has done to its own view of the tables; a failed body is
      rolled back, so then only the error matters. */
  ghost predicate BodyDone(w: World, before: Ledger, after: Ledger, op: Op, r: Outcome, ids: Ids) {
    && (r.Ok? ==> (after, r) == AtomicOp(w, before, op, ids))
    && (r.Err? && r.error != StorageFailure ==> r == AtomicOp(w, before, op, ids).1)
    && (r.Ok? && !r.value.replayed ==> FreshIds(before, ids))
  }

  /** The locks of the transfer core in the order in which it takes them. */
  function CoreLocks(p: Params, replayed: bool): seq<Lock> {
    [AccountRow(Min(p.from, p.to)), AccountRow(Max(p.from, p.to))] + if replayed then [] else [KeySlot(p.key)]
  }

  /** Reverse locks the row of its transaction first. */
  function CallLocks(w: World, before: Ledger, op: Op, replayed: bool): seq<Lock> {
    var params := if op.Reverse? then PrepareReversal(before.txs, op.txId, op.key) else Prepare(w, op);
    (if op.Reverse? then [TxRow(op.txId)] else []) + if params.Ok? then CoreLocks(params.value, replayed) else []
  }

  class MoneyService {
    const db: Store

    constructor (db: Store)
      ensures this.db == db
    {
      this.db := db;
    }

    /** The core of the money transfer. On success the transaction's view is the posted tables;
        a refusal is the right one. */
    method TransferCore(p: Params) returns (r: Outcome, ghost ids: Ids)
      requires db.Valid()
      modifies db`work, db`nextTx, db`nextEntry, db`nextEvent, db`locks
      ensures db.Valid()
      ensures r.Ok? ==> (db.work, r) == Post(db.world, old(db.work), p, ids)
      ensures r.Err? && r.error != StorageFailure ==> r == Post(db.world, old(db.work), p, ids).1
      ensures r.Ok? ==> db.locks == old(db.locks) + CoreLocks(p, r.value.replayed)
      ensures r.Ok? && !r.value.replayed ==> FreshIds(old(db.work), ids)
      ensures db.reliable && KeysAgree(old(db.work)) ==> r == Post(db.world, old(db.work), p, ids).1
    {
      ids := NO_IDS;
      var accounts := LockAccounts(p);
      if accounts.Err? { return Err(accounts.error), ids; }
      var (source, destination) := accounts.value;

      ids := ids.(tx := db.nextTx);
      var created := db.CreateTransaction(p);
      if created.Err? {
        if created.error == DuplicateKey {
          r := Replay(p);
          return r, ids;
        }
        return Err(StorageFailure), ids;
      }

      r, ids := PostNew(p, created.value, source, destination, old(db.work), ids);
    }

    /** A new transaction goes on with the balance and the rows. */
    method PostNew(p: Params, created: Tx, source: Account, destination: Account, ghost before: Ledger,
                   ghost drawn: Ids)
      returns (r: Outcome, ghost ids: Ids)
      requires db.Valid() && created == NewTx(p, drawn.tx)
      requires db.work == before.(txs := before.txs[drawn.tx := created], keys := before.keys[p.key := drawn.tx])
      requires p.from in db.world.accounts && db.world.accounts[p.from] == source
      requires p.to in db.world.accounts && db.world.accounts[p.to] == destination
      modifies db`work, db`nextEntry, db`nextEvent
      ensures db.Valid() && ids.tx == drawn.tx
      ensures r.Ok? ==>
        && Tells(r.value, created) && !r.value.replayed
        && Covered(db.world, before, p) && db.work == Posted(db.world, before, p, ids)
      ensures r.Err? ==>
        || (r.error == NotEnough && Readable(before, p) && !Affordable(db.world, before, p))
        || (r.error == StorageFailure && (!db.reliable || !Readable(before, p)))
    {
      ids := drawn;
      var refusal := CheckBalance(p, source);
      if refusal.Some? { return Err(refusal.value), ids; }
      r, ids := WriteRows(p, created, source, destination, ids);
    }

    /** Both accounts are locked, the one with the smaller id first. */
    method LockAccounts(p: Params) returns (r: Result<(Account, Account), Error>)
      requires db.Valid()
      modifies db`locks
      ensures db.Valid()
      ensures r.Ok? ==>
        && CheckAccounts(db.world, p) == None && SameCurrency(db.world, p.from, p.to)
        && r.value == (db.world.accounts[p.from], db.world.accounts[p.to])
        && db.locks == old(db.locks) + [AccountRow(Min(p.from, p.to)), AccountRow(Max(p.from, p.to))]
      ensures r.Err? && r.error != StorageFailure ==> CheckAccounts(db.world, p) == Some(r.error)
      ensures var accounts := db.world.accounts;
        && (r == Err(SourceAccountNotFound) ==> p.from !in accounts && (p.from <= p.to || p.to in accounts))
        && (r == Err(DestinationAccountNotFound) ==> p.to !in accounts && (p.to < p.from || p.from in accounts))
        && (r == Err(CurrencyMismatch) ==>
             p.from in accounts && p.to in accounts && accounts[p.from].currency != accounts[p.to].currency)
        && (r.Err? ==> r.error in {SourceAccountNotFound, DestinationAccountNotFound, CurrencyMismatch, StorageFailure})
      ensures db.reliable ==> r != Err(StorageFailure)
    {
      var first, second := Min(p.from, p.to), Max(p.from, p.to);

      var firstAccount := db.GetAccountForUpdate(first);
      if firstAccount.Err? {
        if firstAccount.error == NotFound {
          return Err(if first == p.from then SourceAccountNotFound else DestinationAccountNotFound);
        }
        return Err(StorageFailure);
      }
      var secondAccount := db.GetAccountForUpdate(second);
      if secondAccount.Err? {
        if secondAccount.error == NotFound {
          return Err(if second == p.from then SourceAccountNotFound else DestinationAccountNotFound);
        }
        return Err(StorageFailure);
      }

      var source, destination := firstAccount.value, secondAccount.value;
      if first != p.from {
        source, destination := secondAccount.value, firstAccount.value;
      }
      if source.currency != destination.currency {
        return Err(CurrencyMismatch);
      }
      r := Ok((source, destination));
    }

    /** Only system accounts and reversals may go below zero. */
    method CheckBalance(p: Params, source: Account) returns (refusal: Option<Error>)
      requires p.from in db.world.accounts && db.world.accounts[p.from] == source
      ensures var balance := Balance(db.work.entries, p.from);
        var unlimited := source.kind == System || p.kind == TxReversal;
        && (refusal == None ==> FitsInt64(balance) && (Wrap64(balance - p.amount) >= 0 || unlimited))
        && (refusal == Some(NotEnough) ==> FitsInt64(balance) && Wrap64(balance - p.amount) < 0 && !unlimited)
        && (refusal == Some(StorageFailure) ==> !db.reliable || !FitsInt64(balance))
        && (refusal.Some? ==> refusal.value == NotEnough || refusal.value == StorageFailure)
    {
      var balance := db.GetAccountBalance(p.from);
      if balance.Err? { return Some(StorageFailure); }
      if Wrap64(balance.value - p.amount) < 0 {
        var allowNegative := source.kind == System || p.kind == TxReversal;
        if !allowNegative { return Some(NotEnough); }
      }
      refusal := None;
    }

    /** The key is taken: the earlier transaction with the key answers, if the arguments match. */
    method Replay(p: Params) returns (r: Outcome)
      requires p.key in db.work.keys
      ensures r.Ok? ==>
        && RowMatches(db.work, p.key, p.from, p.to, p.amount)
        && Tells(r.value, db.work.txs[db.work.keys[p.key]]) && r.value.replayed
      ensures r.Err? && r.error != StorageFailure ==>
        && r.error == TransactionsMismatch
        && db.work.keys[p.key] in db.work.txs && !RowMatches(db.work, p.key, p.from, p.to, p.amount)
      ensures db.reliable && db.work.keys[p.key] in db.work.txs ==> r != Err(StorageFailure)
    {
      var previous := db.GetTransaction(p.key);
      assert previous.Err? ==> previous.error == NotFound || previous.error == Broken;
      if previous.Err? { return Err(StorageFailure); }
      r := if SameTransfer(p, previous.value) then Ok(ReceiptOf(previous.value, true)) else Err(TransactionsMismatch);
    }

    /** Both ledger entries and both outbox rows of a new transaction. */
    method WriteRows(p: Params, created: Tx, source: Account, destination: Account, ghost drawn: Ids)
      returns (r: Outcome, ghost ids: Ids)
      requires db.Valid() && created == NewTx(p, drawn.tx) && created.id in db.work.txs
      requires p.from in db.world.accounts && db.world.accounts[p.from] == source
      requires p.to in db.world.accounts && db.world.accounts[p.to] == destination
      modifies db`work, db`nextEntry, db`nextEvent
      ensures db.Valid() && ids.tx == drawn.tx
      ensures r.Ok? ==>
        && Tells(r.value, created) && !r.value.replayed
        && db.work == old(db.work).(
             entries := old(db.work).entries + [DebitEntry(p, ids), CreditEntry(p, ids)],
             outbox := old(db.work).outbox + [CreditEvent(db.world, p, ids), DebitEvent(db.world, p, ids)])
      ensures r.Err? ==> r.error == StorageFailure && !db.reliable
    {
      ids := drawn.(debit := db.nextEntry);
      var err := db.CreateLedgerEntry(created.id, p.from, -p.amount);
      if err.Some? { return Err(StorageFailure), ids; }
      ids := ids.(credit := db.nextEntry);
      err := db.CreateLedgerEntry(created.id, p.to, p.amount);
      if err.Some? { return Err(StorageFailure), ids; }

      ids := ids.(creditEvent := db.nextEvent);
      err := db.CreateOutboxEvent(p.to, created.id, created.kind, p.amount, destination.currency, p.from,
                                  created.reversalOf);
      if err.Some? { return Err(StorageFailure), ids; }
      ids := ids.(debitEvent := db.nextEvent);
      err := db.CreateOutboxEvent(p.from, created.id, created.kind, -p.amount, source.currency, p.to,
                                  created.reversalOf);
      if err.Some? { return Err(StorageFailure), ids; }

      assert db.work.entries == old(db.work).entries + [DebitEntry(p, ids), CreditEntry(p, ids)];
      assert db.work.outbox == old(db.work).outbox + [CreditEvent(db.world, p, ids), DebitEvent(db.world, p, ids)];
      r := Ok(ReceiptOf(created, false));
    }

    /** The end of WithTx: a failed body is rolled back, a successful one committed. */
    method EndTx(r: Outcome) returns (reported: Outcome)
      requires db.Valid()
      modifies db`committed, db`published, db`work, db`workPublished, db`locks, db`holdsOutbox
      ensures db.Valid() && db.locks == []
      ensures r.Err? ==> reported == r && db.committed == old(db.committed) && db.published == old(db.published)
      ensures r.Ok? ==>
        || (reported == r && db.committed == old(db.work) && db.published == old(db.workPublished))
        || (&& reported == Err(StorageFailure) && !db.reliable
            && ((db.committed == old(db.work) && db.published == old(db.workPublished))
                || (db.committed == old(db.committed) && db.published == old(db.published))))
    {
      reported := r;
      if r.Err? {
        db.Rollback();
      } else {
        var ok := db.Commit();
        if !ok { reported := Err(StorageFailure); }
      }
    }

    /** Transfer between two user accounts. */
    method Transfer(from: int, to: int, amount: Int64, key: string) returns (r: Outcome, ghost ids: Ids)
      requires db.Valid()
      modifies db
      ensures db.Valid() && db.published == old(db.published)
      ensures Performed(db.world, old(db.committed), db.committed, Op.Transfer(from, to, amount, key), r, ids)
      ensures Sound(db.world, old(db.committed)) ==> Sound(db.world, db.committed)
      ensures Sound(db.world, old(db.committed)) && r != Err(StorageFailure) ==>
        TransferPromise(db.world, old(db.committed), db.committed, r, from, to, amount, key)
      ensures db.reliable && KeysAgree(old(db.committed)) ==>
        r == AtomicOp(db.world, old(db.committed), Op.Transfer(from, to, amount, key), ids).1
    {
      ghost var before := db.committed;
      ids := NO_IDS;
      if amount <= 0 { return Err(InvalidAmount), ids; }
      if from == to { return Err(SameAccount), ids; }

      var begun := db.Begin();
      if !begun { return Err(StorageFailure), ids; }
      r, ids := TransferBody(from, to, amount, key);
      r := EndTx(r);
      if Sound(db.world, before) {
        PerformedAsPromised(db.world, before, db.committed, Op.Transfer(from, to, amount, key), r, ids);
      }
    }

    method TransferBody(from: int, to: int, amount: Int64, key: string) returns (r: Outcome, ghost ids: Ids)
      requires db.Valid() && amount > 0 && from != to
      modifies db`work, db`nextTx, db`nextEntry, db`nextEvent, db`locks
      ensures db.Valid()
      ensures BodyDone(db.world, old(db.work), db.work, Op.Transfer(from, to, amount, key), r, ids)
      ensures r.Ok? ==>
        db.locks == old(db.locks)
                    + CallLocks(db.world, old(db.work), Op.Transfer(from, to, amount, key), r.value.replayed)
      ensures db.reliable && KeysAgree(old(db.work)) ==>
        r == AtomicOp(db.world, old(db.work), Op.Transfer(from, to, amount, key), ids).1
    {
      ids := NO_IDS;
      var source := db.GetAccount(from);
      if source.Err? { return Err(if source.error == NotFound then SourceAccountNotFound else StorageFailure), ids; }
      var destination := db.GetAccount(to);
      if destination.Err? {
        return Err(if destination.error == NotFound then DestinationAccountNotFound else StorageFailure), ids;
      }
      if source.value.kind != User || destination.value.kind != User { return Err(SystemAccountNotAllowed), ids; }
      r, ids := TransferCore(Params(from, to, amount, TxTransfer, key, None));
    }

    /** Deposit with a system account as the source. */
    method Deposit(account: int, amount: Int64, channel: string, key: string) returns (r: Outcome, ghost ids: Ids)
      requires db.Valid()
      modifies db
      ensures db.Valid() && db.published == old(db.published)
      ensures Performed(db.world, old(db.committed), db.committed, Op.Deposit(account, amount, channel, key), r, ids)
      ensures Sound(db.world, old(db.committed)) ==> Sound(db.world, db.committed)
      ensures Sound(db.world, old(db.committed)) && r != Err(StorageFailure) ==>
        DepositPromise(db.world, old(db.committed), db.committed, r, account, amount, channel, key)
      ensures db.reliable && KeysAgree(old(db.committed)) ==>
        r == AtomicOp(db.world, old(db.committed), Op.Deposit(account, amount, channel, key), ids).1
    {
      ghost var before := db.committed;
      ids := NO_IDS;
      if amount <= 0 { return Err(InvalidAmount), ids; }

      var begun := db.Begin();
      if !begun { return Err(StorageFailure), ids; }
      r, ids := DepositBody(account, amount, channel, key);
      r := EndTx(r);
      if Sound(db.world, before) {
        PerformedAsPromised(db.world, before, db.committed, Op.Deposit(account, amount, channel, key), r, ids);
      }
    }

    method DepositBody(account: int, amount: Int64, channel: string, key: string) returns (r: Outcome, ghost ids: Ids)
      requires db.Valid() && amount > 0
      modifies db`work, db`nextTx, db`nextEntry, db`nextEvent, db`locks
      ensures db.Valid()
      ensures BodyDone(db.world, old(db.work), db.work, Op.Deposit(account, amount, channel, key), r, ids)
      ensures r.Ok? ==>
        db.locks == old(db.locks)
                    + CallLocks(db.world, old(db.work), Op.Deposit(account, amount, channel, key), r.value.replayed)
      ensures db.reliable && KeysAgree(old(db.work)) ==>
        r == AtomicOp(db.world, old(db.work), Op.Deposit(account, amount, channel, key), ids).1
    {
      ids := NO_IDS;
      var user := db.GetAccount(account);
      if user.Err? { return Err(if user.error == NotFound then DestinationAccountNotFound else StorageFailure), ids; }
      if user.value.kind != User { return Err(InvalidDepositDestination), ids; }

      var system := db.GetSystemAccountByCode(channel + "_IN_" + user.value.currency);
      if system.Err? { return Err(if system.error == NotFound then SystemAccountNotFound else StorageFailure), ids; }
      if system.value.1.kind != System { return Err(SystemAccountNotFound), ids; }
      if account == system.value.0 { return Err(SameAccount), ids; }
      r, ids := TransferCore(Params(system.value.0, account, amount, TxDeposit, key, None));
    }

    /** Withdrawal with a system account as the destination. */
    method Withdraw(account: int, amount: Int64, channel: string, key: string) returns (r: Outcome, ghost ids: Ids)
      requires db.Valid()
      modifies db
      ensures db.Valid() && db.published == old(db.published)
      ensures Performed(db.world, old(db.committed), db.committed, Op.Withdraw(account, amount, channel, key), r, ids)
      ensures Sound(db.world, old(db.committed)) ==> Sound(db.world, db.committed)
      ensures Sound(db.world, old(db.committed)) && r != Err(StorageFailure) ==>
        WithdrawPromise(db.world, old(db.committed), db.committed, r, account, amount, channel, key)
      ensures db.reliable && KeysAgree(old(db.committed)) ==>
        r == AtomicOp(db.world, old(db.committed), Op.Withdraw(account, amount, channel, key), ids).1
    {
      ghost var before := db.committed;
      ids := NO_IDS;
      if amount <= 0 { return Err(InvalidAmount), ids; }

      var begun := db.Begin();
      if !begun { return Err(StorageFailure), ids; }
      r, ids := WithdrawBody(account, amount, channel, key);
      r := EndTx(r);
      if Sound(db.world, before) {
        PerformedAsPromised(db.world, before, db.committed, Op.Withdraw(account, amount, channel, key), r, ids);
      }
    }

    method WithdrawBody(account: int, amount: Int64, channel: string, key: string) returns (r: Outcome, ghost ids: Ids)
      requires db.Valid() && amount > 0
      modifies db`work, db`nextTx, db`nextEntry, db`nextEvent, db`locks
      ensures db.Valid()
      ensures BodyDone(db.world, old(db.work), db.work, Op.Withdraw(account, amount, channel, key), r, ids)
      ensures r.Ok? ==>
        db.locks == old(db.locks)
                    + CallLocks(db.world, old(db.work), Op.Withdraw(account, amount, channel, key), r.value.replayed)
      ensures db.reliable && KeysAgree(old(db.work)) ==>
        r == AtomicOp(db.world, old(db.work), Op.Withdraw(account, amount, channel, key), ids).1
    {
      ids := NO_IDS;
      var user := db.GetAccount(account);
      if user.Err? { return Err(if user.error == NotFound then SourceAccountNotFound else StorageFailure), ids; }
      if user.value.kind != User { return Err(InvalidWithdrawSource), ids; }

      var system := db.GetSystemAccountByCode(channel + "_OUT_" + user.value.currency);
      if system.Err? { return Err(if system.error == NotFound then SystemAccountNotFound else StorageFailure), ids; }
      if system.value.1.kind != System { return Err(SystemAccountNotFound), ids; }
      if account == system.value.0 { return Err(SameAccount), ids; }
      r, ids := TransferCore(Params(account, system.value.0, amount, TxWithdrawal, key, None));
    }

    /** Reversal of a transaction: the money moves back and the original is marked. */
    method Reverse(txId: int, key: string) returns (r: Outcome, ghost ids: Ids)
      requires db.Valid()
      modifies db
      ensures db.Valid() && db.published == old(db.published)
      ensures Performed(db.world, old(db.committed), db.committed, Op.Reverse(txId, key), r, ids)
      ensures Sound(db.world, old(db.committed)) ==> Sound(db.world, db.committed)
      ensures Sound(db.world, old(db.committed)) && r != Err(StorageFailure) ==>
        ReversePromise(old(db.committed), db.committed, r, txId, key)
      ensures db.reliable && KeysAgree(old(db.committed)) ==>
        r == AtomicOp(db.world, old(db.committed), Op.Reverse(txId, key), ids).1
    {
      ghost var before := db.committed;
      ids := NO_IDS;
      var begun := db.Begin();
      if !begun { return Err(StorageFailure), ids; }
      r, ids := ReverseBody(txId, key);
      r := EndTx(r);
      if Sound(db.world, before) {
        PerformedAsPromised(db.world, before, db.committed, Op.Reverse(txId, key), r, ids);
      }
    }

    method ReverseBody(txId: int, key: string) returns (r: Outcome, ghost ids: Ids)
      requires db.Valid()
      modifies db`work, db`nextTx, db`nextEntry, db`nextEvent, db`locks
      ensures db.Valid()
      ensures BodyDone(db.world, old(db.work), db.work, Op.Reverse(txId, key), r, ids)
      ensures r.Ok? ==>
        db.locks == old(db.locks) + CallLocks(db.world, old(db.work), Op.Reverse(txId, key), r.value.replayed)
      ensures db.reliable && KeysAgree(old(db.work)) ==>
        r == AtomicOp(db.world, old(db.work), Op.Reverse(txId, key), ids).1
    {
      ids := NO_IDS;
      var tx := db.GetTransactionByID(txId);
      if tx.Err? { return Err(if tx.error == NotFound then TransactionNotFound else StorageFailure), ids; }
      if tx.value.status != Completed { return Err(ReverseIncompletedTx), ids; }
      if tx.value.kind == TxReversal { return Err(ReverseReversalTx), ids; }

      var t := tx.value;
      var p := Params(t.destination, t.source, t.amount, TxReversal, key, Some(t.id));
      r, ids := TransferCore(p);
      if r.Err? { return; }

      assert txId in db.work.txs && db.work.txs[txId] == t;
      var err := db.UpdateTransactionStatus(txId, Reversed);
      if err.Some? { r := Err(StorageFailure); }
    }

    /** The balance is not stored but summed up from the entries. */
    method AccountBalance(account: int) returns (r: Result<(string, int), Error>)
      requires db.Valid()
      modifies db`work, db`workPublished, db`committed, db`published, db`locks, db`holdsOutbox
      ensures db.Valid() && db.committed == old(db.committed) && db.published == old(db.published)
      ensures r.Ok? ==>
        && account in db.world.accounts
        && r.value == (db.world.accounts[account].currency, Balance(db.committed.entries, account))
      ensures r.Err? ==>
        || (r.error == AccountNotFound && account !in db.world.accounts)
        || (r.error == StorageFailure && (!db.reliable || !FitsInt64(Balance(db.committed.entries, account))))
    {
      var begun := db.Begin();
      if !begun { return Err(StorageFailure); }
      var found := db.GetAccount(account);
      if found.Err? {
        db.Rollback();
        return Err(if found.error == NotFound then AccountNotFound else StorageFailure);
      }
      var balance := db.GetAccountBalance(account);
      if balance.Err? {
        db.Rollback();
        return Err(StorageFailure);
      }
      var ok := db.Commit();
      if !ok { return Err(StorageFailure); }
      r := Ok((found.value.currency, balance.value));
    }

    /** One page of the account's history, newest entries first. */
    method AccountTransactionsHistory(account: int, limit: int, before: int) returns (r: Result<Statement, Error>)
      requires db.Valid()
      modifies db`work, db`workPublished, db`committed, db`published, db`locks, db`holdsOutbox
      ensures db.Valid() && db.committed == old(db.committed) && db.published == old(db.published)
      ensures r != Err(StorageFailure) ==> r == HistoryPage(db.world, db.committed, account, limit, before)
      ensures r.Ok? ==> account in db.world.accounts
      ensures r.Err? ==> r.error == StorageFailure || (r.error == AccountNotFound && account !in db.world.accounts)
      ensures db.reliable ==> r != Err(StorageFailure)
    {
      var size := limit;
      if size <= 0 { size := DEFAULT_LIMIT; }
      if size > MAX_LIMIT { size := MAX_LIMIT; }

      var rows := HistoryRows(account, size, before);
      if rows.Err? { return Err(rows.error); }

      var nextCursor := CursorAfter(rows.value, size);
      var entries := StatementEntries(rows.value);
      ghost var found := AccountHistory(db.committed.entries, account, size, before);
      assert |found| == |rows.value| && (found != [] ==> found[|found| - 1].id == rows.value[|found| - 1].id);
      assert entries == DescribeAll(db.committed, found);
      r := Ok(Statement(entries, nextCursor));
    }

    /** The last entry of a full page; a page that is not full is the last one. */
    method CursorAfter(rows: seq<HistoryRow>, size: nat) returns (nextCursor: int)
      ensures nextCursor == if 0 < |rows| && |rows| >= size then rows[|rows| - 1].id else 0
    {
      nextCursor := 0;
      if |rows| > 0 { nextCursor := rows[|rows| - 1].id; }
      if |rows| < size { nextCursor := 0; }
    }

    /** The transaction that reads the rows of one page. */
    method HistoryRows(account: int, size: nat, before: int) returns (r: Result<seq<HistoryRow>, Error>)
      requires db.Valid()
      modifies db`work, db`workPublished, db`committed, db`published, db`locks, db`holdsOutbox
      ensures db.Valid() && db.committed == old(db.committed) && db.published == old(db.published)
      ensures r.Ok? ==>
        var entries := AccountHistory(db.committed.entries, account, size, before);
        && account in db.world.accounts && |r.value| == |entries|
        && forall i :: 0 <= i < |entries| ==> JoinsTo(db.committed, entries[i], r.value[i])
      ensures r.Err? ==>
        (r.error == AccountNotFound && account !in db.world.accounts) || (r.error == StorageFailure && !db.reliable)
    {
      var begun := db.Begin();
      if !begun { return Err(StorageFailure); }
      var found := db.GetAccount(account);
      assert found.Err? ==> found.error == NotFound || found.error == Broken;
      if found.Err? {
        db.Rollback();
        return Err(if found.error == NotFound then AccountNotFound else StorageFailure);
      }
      var rows := db.GetAccountHistory(account, size, before);
      if rows.Err? {
        db.Rollback();
        return Err(StorageFailure);
      }
      var ok := db.Commit();
      if !ok { return Err(StorageFailure); }
      r := Ok(rows.value);
    }

    /** The counterparty is the account that the money came from, or went to. */
    method StatementEntries(rows: seq<HistoryRow>) returns (entries: seq<StatementEntry>)
      ensures |entries| == |rows|
      ensures forall i :: 0 <= i < |rows| ==>
        && entries[i].entryId == rows[i].id && entries[i].txId == rows[i].txId && entries[i].amount == rows[i].amount
        && entries[i].kind == rows[i].kind && entries[i].reversalOf == rows[i].reversalOf
        && entries[i].counterparty == if rows[i].amount > 0 then rows[i].source else rows[i].destination
      ensures forall l, e, i :: 0 <= i < |rows| && JoinsTo(l, e, rows[i]) ==> entries[i] == Describe(l, e)
    {
      entries := [];
      for i := 0 to |rows|
        invariant |entries| == i
        invariant forall k :: 0 <= k < i ==>
          && entries[k].entryId == rows[k].id && entries[k].txId == rows[k].txId && entries[k].amount == rows[k].amount
          && entries[k].kind == rows[k].kind && entries[k].reversalOf == rows[k].reversalOf
          && entries[k].counterparty == if rows[k].amount > 0 then rows[k].source else rows[k].destination
        invariant forall l, e, k :: 0 <= k < i && JoinsTo(l, e, rows[k]) ==> entries[k] == Describe(l, e)
      {
        var row := rows[i];
        var counterparty := row.destination;
        if row.amount > 0 { counterparty := row.source; }
        entries := entries + [StatementEntry(row.id, row.txId, row.amount, counterparty, row.kind, row.reversalOf)];
      }
    }
  }
}
