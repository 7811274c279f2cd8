/** What a caller can rely on: the answer of each call, and what it does to the tables, in terms of the call's own
    arguments and of the rows it finds. */
module Promises {
  import opened Records
  import opened Operations
  import opened LedgerLaws
  import opened Balances

  // ---------------------------------------------------------------- what can be said of tables and answers

  /** The source pays the destination, and no other balance changes. */
  ghost predicate Pays(l: Ledger, l': Ledger, source: int, destination: int, amount: int) {
    && source != destination
    && Balance(l'.entries, source) == Balance(l.entries, source) - amount
    && Balance(l'.entries, destination) == Balance(l.entries, destination) + amount
    && forall a :: a != source && a != destination ==> Balance(l'.entries, a) == Balance(l.entries, a)
  }

  /** The answer tells the client of that row, field by field. */
  predicate Tells(r: Receipt, t: Tx) {
    && r.txId == t.id && r.key == t.key && r.kind == t.kind && r.status == t.status && r.reversalOf == t.reversalOf
    && r.source == t.source && r.destination == t.destination && r.amount == t.amount
  }

  /** The row under the key has these endpoints and this amount. */
  predicate RowMatches(l: Ledger, key: string, source: int, destination: int, amount: int) {
    && key in l.keys && l.keys[key] in l.txs
    && l.txs[l.keys[key]].source == source
    && l.txs[l.keys[key]].destination == destination
    && l.txs[l.keys[key]].amount == amount
  }

  /** Every row stays as it was; only the original of a reversal becomes reversed. */
  ghost predicate RowsKept(l: Ledger, l': Ledger, original: Option<int>) {
    forall id :: id in l.txs ==>
      && id in l'.txs
      && l'.txs[id] == if original == Some(id) then l.txs[id].(status := Reversed) else l.txs[id]
  }

  /** One new row with these fields, under an unused id and the call's key, and the payment it stands for. */
  ghost predicate NewRow(l: Ledger, l': Ledger, r: Receipt, source: int, destination: int, amount: int, key: string,
                         kind: TxType, original: Option<int>) {
    && !r.replayed && r.txId !in l.txs
    && l'.txs.Keys == l.txs.Keys + {r.txId}
    && l'.txs[r.txId] == Tx(r.txId, source, destination, amount, key, kind, original, Completed)
    && l'.keys == l.keys[key := r.txId]
    && Tells(r, l'.txs[r.txId])
    && RowsKept(l, l', original)
    && Pays(l, l', source, destination, amount)
  }

  /** The row under the key is the answer; no row is added and no money moves. */
  ghost predicate OldRow(l: Ledger, l': Ledger, r: Receipt, key: string, original: Option<int>)
    requires key in l.keys && l.keys[key] in l.txs
  {
    && r.replayed && Tells(r, l.txs[l.keys[key]])
    && l'.txs.Keys == l.txs.Keys && RowsKept(l, l', original)
    && l'.keys == l.keys && l'.entries == l.entries && l'.outbox == l.outbox
  }

  /** A payment that has passed the checks of its call: each way it can end, and exactly when. `unlimited` says that
      the source may go below zero. On 64-bit integers a balance below amount - 2^63 is taken to be enough. */
  ghost predicate Settles(l: Ledger, l': Ledger, r: Outcome, source: int, destination: int, amount: int, key: string,
                          kind: TxType, original: Option<int>, unlimited: bool) {
    var balance, replays := Balance(l.entries, source), RowMatches(l, key, source, destination, amount);
    && (r.Ok? && r.value.replayed <==> replays)
    && (r == Err(TransactionsMismatch) <==> key in l.keys && !replays)
    && (r == Err(StorageFailure) <==> key !in l.keys && !(-TWO_63 <= balance < TWO_63))
    && (r == Err(NotEnough) <==>
          key !in l.keys && !unlimited && -TWO_63 <= balance < TWO_63 && amount - TWO_63 <= balance < amount)
    && (r.Err? ==> r.error == TransactionsMismatch || r.error == StorageFailure || r.error == NotEnough)
    && (replays && r.Ok? ==> OldRow(l, l', r.value, key, original))
    && (!replays && r.Ok? ==> NewRow(l, l', r.value, source, destination, amount, key, kind, original))
  }

  predicate IsKind(w: World, account: int, kind: AccountType) {
    account in w.accounts && w.accounts[account].kind == kind
  }

  /** The code belongs to a system account. */
  predicate IsSystemCode(w: World, code: string) { code in w.codes && IsKind(w, w.codes[code], System) }

  predicate SameCurrency(w: World, a: int, b: int) {
    a in w.accounts && b in w.accounts && w.accounts[a].currency == w.accounts[b].currency
  }

  // ---------------------------------------------------------------- the four calls

  /** Money moves between two different user accounts of one currency. */
  ghost predicate TransferPromise(w: World, l: Ledger, l': Ledger, r: Outcome, from: int, to: int, amount: int,
                                  key: string) {
    && (r.Err? ==> l' == l)
    && (r == Err(InvalidAmount) <==> amount <= 0)
    && (r == Err(SameAccount) <==> amount > 0 && from == to)
    && (r == Err(SourceAccountNotFound) <==> amount > 0 && from != to && from !in w.accounts)
    && (r == Err(DestinationAccountNotFound) <==>
          amount > 0 && from != to && from in w.accounts && to !in w.accounts)
    && (r == Err(SystemAccountNotAllowed) <==>
          && amount > 0 && from != to && from in w.accounts && to in w.accounts
          && (IsKind(w, from, System) || IsKind(w, to, System)))
    && (r == Err(CurrencyMismatch) <==>
          amount > 0 && from != to && IsKind(w, from, User) && IsKind(w, to, User) && !SameCurrency(w, from, to))
    && (amount > 0 && from != to && IsKind(w, from, User) && IsKind(w, to, User) && SameCurrency(w, from, to) ==>
          Settles(l, l', r, from, to, amount, key, TxTransfer, None, false))
  }

  /** A user account is paid from the system account of the channel and the user's currency. */
  ghost predicate DepositPromise(w: World, l: Ledger, l': Ledger, r: Outcome, user: int, amount: int, channel: string,
                                 key: string) {
    var code := if user in w.accounts then channel + "_IN_" + w.accounts[user].currency else "";
    && (r.Err? ==> l' == l)
    && (r == Err(InvalidAmount) <==> amount <= 0)
    && (r == Err(DestinationAccountNotFound) <==> amount > 0 && user !in w.accounts)
    && (r == Err(InvalidDepositDestination) <==> amount > 0 && IsKind(w, user, System))
    && (r == Err(SystemAccountNotFound) <==> amount > 0 && IsKind(w, user, User) && !IsSystemCode(w, code))
    && (r == Err(CurrencyMismatch) <==>
          amount > 0 && IsKind(w, user, User) && IsSystemCode(w, code) && !SameCurrency(w, user, w.codes[code]))
    && (amount > 0 && IsKind(w, user, User) && IsSystemCode(w, code) && SameCurrency(w, user, w.codes[code]) ==>
          Settles(l, l', r, w.codes[code], user, amount, key, TxDeposit, None, true))
  }

  /** A user account pays the system account of the channel and the user's currency. */
  ghost predicate WithdrawPromise(w: World, l: Ledger, l': Ledger, r: Outcome, user: int, amount: int, channel: string,
                                  key: string) {
    var code := if user in w.accounts then channel + "_OUT_" + w.accounts[user].currency else "";
    && (r.Err? ==> l' == l)
    && (r == Err(InvalidAmount) <==> amount <= 0)
    && (r == Err(SourceAccountNotFound) <==> amount > 0 && user !in w.accounts)
    && (r == Err(InvalidWithdrawSource) <==> amount > 0 && IsKind(w, user, System))
    && (r == Err(SystemAccountNotFound) <==> amount > 0 && IsKind(w, user, User) && !IsSystemCode(w, code))
    && (r == Err(CurrencyMismatch) <==>
          amount > 0 && IsKind(w, user, User) && IsSystemCode(w, code) && !SameCurrency(w, user, w.codes[code]))
    && (amount > 0 && IsKind(w, user, User) && IsSystemCode(w, code) && SameCurrency(w, user, w.codes[code]) ==>
          Settles(l, l', r, user, w.codes[code], amount, key, TxWithdrawal, None, false))
  }

  /** The destination of a completed transaction that is no reversal pays its amount back to the source, whether it
      can afford it or not, and the transaction is marked reversed. */
  ghost predicate ReversePromise(l: Ledger, l': Ledger, r: Outcome, txId: int, key: string) {
    && (r.Err? ==> l' == l)
    && (r == Err(TransactionNotFound) <==> txId !in l.txs)
    && (r == Err(ReverseIncompletedTx) <==> txId in l.txs && l.txs[txId].status == Reversed)
    && (r == Err(ReverseReversalTx) <==>
          txId in l.txs && l.txs[txId].status == Completed && l.txs[txId].kind == TxReversal)
    && (txId in l.txs && l.txs[txId].status == Completed && l.txs[txId].kind != TxReversal ==>
          var t := l.txs[txId];
          Settles(l, l', r, t.destination, t.source, t.amount, key, TxReversal, Some(txId), true))
  }

  ghost predicate Promise(w: World, l: Ledger, l': Ledger, op: Op, r: Outcome) {
    match op
    case Transfer(from, to, amount, key) => TransferPromise(w, l, l', r, from, to, amount, key)
    case Deposit(user, amount, channel, key) => DepositPromise(w, l, l', r, user, amount, channel, key)
    case Withdraw(user, amount, channel, key) => WithdrawPromise(w, l, l', r, user, amount, channel, key)
    case Reverse(txId, key) => ReversePromise(l, l', r, txId, key)
  }

  // ---------------------------------------------------------------- proofs

  /** The core of the money transfer settles a payment. */
  lemma PostSettles(w: World, l: Ledger, p: Params, ids: Ids)
    requires Sound(w, l) && p.from != p.to && 0 < p.amount < TWO_63 && SameCurrency(w, p.from, p.to)
    requires p.kind != TxReversal && p.reversalOf == None
    requires UsesFreshIds(l, Post(w, l, p, ids).1, ids)
    ensures Settles(l, Post(w, l, p, ids).0, Post(w, l, p, ids).1, p.from, p.to, p.amount, p.key, p.kind, None,
                    IsKind(w, p.from, System))
    ensures Post(w, l, p, ids).1.Err? ==> Post(w, l, p, ids).0 == l
  {
    if Readable(l, p) { Decided(w, l, p); }
    PostedPays(w, l, p, ids);
  }

  /** The test on machine integers decides as the promise says. */
  lemma Decided(w: World, l: Ledger, p: Params)
    requires 0 < p.amount < TWO_63 && Readable(l, p)
    ensures var balance := Balance(l.entries, p.from);
      Affordable(w, l, p) <==> !(p.amount - TWO_63 <= balance < p.amount) || MayOverdraw(w, p)
  {
    Int64TestWithoutBound(Balance(l.entries, p.from), p.amount);
  }

  lemma PostedPays(w: World, l: Ledger, p: Params, ids: Ids)
    requires p.from != p.to
    ensures Pays(l, Posted(w, l, p, ids), p.from, p.to, p.amount)
  {
    forall a ensures Balance(Posted(w, l, p, ids).entries, a)
                  == Balance(l.entries, a) + if a == p.to then p.amount else if a == p.from then -p.amount else 0
    {
      BalanceAppendTwo(l.entries, DebitEntry(p, ids), CreditEntry(p, ids), a);
    }
  }

  predicate UsesFreshIds(l: Ledger, r: Outcome, ids: Ids) { r.Ok? && !r.value.replayed ==> FreshIds(l, ids) }

  // the four calls, one by one

  lemma {:induction false} TransferIsKept(w: World, l: Ledger, from: int, to: int, amount: Int64, key: string, ids: Ids)
    requires Sound(w, l) && UsesFreshIds(l, AtomicOp(w, l, Transfer(from, to, amount, key), ids).1, ids)
    ensures var (l', r) := AtomicOp(w, l, Transfer(from, to, amount, key), ids);
      TransferPromise(w, l, l', r, from, to, amount, key)
  {
    if Prepare(w, Transfer(from, to, amount, key)).Ok? {
      var p := Prepare(w, Transfer(from, to, amount, key)).value;
      assert FitsInt64(amount) && p.amount == amount;
      if CheckAccounts(w, p) == None { PostSettles(w, l, p, ids); }
    }
  }

  lemma {:induction false} DepositIsKept(w: World, l: Ledger, user: int, amount: Int64, channel: string, key: string,
                                         ids: Ids)
    requires Sound(w, l) && UsesFreshIds(l, AtomicOp(w, l, Deposit(user, amount, channel, key), ids).1, ids)
    ensures var (l', r) := AtomicOp(w, l, Deposit(user, amount, channel, key), ids);
      DepositPromise(w, l, l', r, user, amount, channel, key)
  {
    if Prepare(w, Deposit(user, amount, channel, key)).Ok? {
      var p := Prepare(w, Deposit(user, amount, channel, key)).value;
      assert FitsInt64(amount) && p.amount == amount;
      if CheckAccounts(w, p) == None { PostSettles(w, l, p, ids); }
    }
  }

  lemma {:induction false} WithdrawIsKept(w: World, l: Ledger, user: int, amount: Int64, channel: string, key: string,
                                         ids: Ids)
    requires Sound(w, l) && UsesFreshIds(l, AtomicOp(w, l, Withdraw(user, amount, channel, key), ids).1, ids)
    ensures var (l', r) := AtomicOp(w, l, Withdraw(user, amount, channel, key), ids);
      WithdrawPromise(w, l, l', r, user, amount, channel, key)
  {
    if Prepare(w, Withdraw(user, amount, channel, key)).Ok? {
      var p := Prepare(w, Withdraw(user, amount, channel, key)).value;
      assert FitsInt64(amount) && p.amount == amount;
      if CheckAccounts(w, p) == None { PostSettles(w, l, p, ids); }
    }
  }

  lemma {:induction false} ReverseIsKept(w: World, l: Ledger, txId: int, key: string, ids: Ids)
    requires Sound(w, l) && UsesFreshIds(l, AtomicOp(w, l, Reverse(txId, key), ids).1, ids)
    ensures var (l', r) := AtomicOp(w, l, Reverse(txId, key), ids); ReversePromise(l, l', r, txId, key)
  {
    if PrepareReversal(l.txs, txId, key).Ok? {
      var p := PrepareReversal(l.txs, txId, key).value;
      PostedPays(w, l, p, ids);
    }
  }

  /** In a run every call keeps its promise on the tables that the calls before it have left. */
  lemma {:induction false} EveryCallKeepsItsPromise(w: World, trace: Trace, i: nat)
    requires Serial(w, trace) && i < |trace|
    ensures Promise(w, LedgerOf(w, trace[..i]), LedgerOf(w, trace[..i + 1]), trace[i].op, trace[i].outcome)
  {
    SerialAt(w, trace, i);
    SerialRunsAreSound(w, trace[..i]);
    CallKeepsItsPromise(w, LedgerOf(w, trace[..i]), trace[i].op, trace[i].ids);
  }

  lemma {:induction false} CallKeepsItsPromise(w: World, l: Ledger, op: Op, ids: Ids)
    requires Sound(w, l) && UsesFreshIds(l, AtomicOp(w, l, op, ids).1, ids)
    ensures Promise(w, l, AtomicOp(w, l, op, ids).0, op, AtomicOp(w, l, op, ids).1)
  {
    match op
    case Transfer(from, to, amount, key) => TransferIsKept(w, l, from, to, amount, key, ids);
    case Deposit(user, amount, channel, key) => DepositIsKept(w, l, user, amount, channel, key, ids);
    case Withdraw(user, amount, channel, key) => WithdrawIsKept(w, l, user, amount, channel, key, ids);
    case Reverse(txId, key) => ReverseIsKept(w, l, txId, key, ids);
  }
}
