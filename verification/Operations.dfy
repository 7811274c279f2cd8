/** The money operations as single atomic steps: the reference that the service's code and
    every interleaving of its statements are compared with. */
module Operations {
  import opened Records

  const TWO_63 := 0x8000_0000_0000_0000

  predicate FitsInt64(n: int) { -TWO_63 <= n < TWO_63 }

  /** A machine integer. */
  type Int64 = n: int | FitsInt64(n)

  /** Two's complement wrap-around. */
  function Wrap64(n: int): int { (n + TWO_63) % (2 * TWO_63) - TWO_63 }

  datatype Op =
    | Transfer(from: int, to: int, amount: Int64, key: string)
    | Deposit(account: int, amount: Int64, channel: string, key: string)
    | Withdraw(account: int, amount: Int64, channel: string, key: string)
    | Reverse(txId: int, key: string)

  datatype Error =
    | NotEnough
    | InvalidAmount
    | SameAccount
    | CurrencyMismatch
    | SourceAccountNotFound
    | DestinationAccountNotFound
    | TransactionNotFound
    | TransactionsMismatch
    | SystemAccountNotAllowed
    | InvalidDepositDestination
    | InvalidWithdrawSource
    | SystemAccountNotFound
    | ReverseIncompletedTx
    | ReverseReversalTx
    | AccountNotFound
    | StorageFailure  // any error of the database itself

  datatype Params = Params(from: int, to: int, amount: int, kind: TxType, key: string, reversalOf: Option<int>)

  datatype Receipt = Receipt(txId: int, source: int, destination: int, amount: int, key: string,
                             status: Status, kind: TxType, reversalOf: Option<int>, replayed: bool)

  type Outcome = Result<Receipt, Error>

  /** The serial numbers drawn by one operation. */
  datatype Ids = Ids(tx: int, debit: int, credit: int, creditEvent: int, debitEvent: int)

  const NO_IDS := Ids(0, 0, 0, 0, 0)

  function ReceiptOf(t: Tx, replayed: bool): Receipt {
    Receipt(t.id, t.source, t.destination, t.amount, t.key, t.status, t.kind, t.reversalOf, replayed)
  }

  /** Validation of Transfer, Deposit and Withdraw up to the call of the transfer core. */
  function Prepare(w: World, op: Op): Result<Params, Error>
    requires !op.Reverse?
  {
    match op
    case Transfer(from, to, amount, key) =>
      if amount <= 0 then Err(InvalidAmount)
      else if from == to then Err(SameAccount)
      else if from !in w.accounts then Err(SourceAccountNotFound)
      else if to !in w.accounts then Err(DestinationAccountNotFound)
      else if w.accounts[from].kind != User || w.accounts[to].kind != User then Err(SystemAccountNotAllowed)
      else Ok(Params(from, to, amount, TxTransfer, key, None))
    case Deposit(account, amount, channel, key) =>
      if amount <= 0 then Err(InvalidAmount)
      else if account !in w.accounts then Err(DestinationAccountNotFound)
      else if w.accounts[account].kind != User then Err(InvalidDepositDestination)
      else
        match SystemAccount(w, channel + "_IN_" + w.accounts[account].currency) {
          case None => Err(SystemAccountNotFound)
          case Some(system) =>
            if system == account then Err(SameAccount)
            else Ok(Params(system, account, amount, TxDeposit, key, None))
        }
    case Withdraw(account, amount, channel, key) =>
      if amount <= 0 then Err(InvalidAmount)
      else if account !in w.accounts then Err(SourceAccountNotFound)
      else if w.accounts[account].kind != User then Err(InvalidWithdrawSource)
      else
        match SystemAccount(w, channel + "_OUT_" + w.accounts[account].currency) {
          case None => Err(SystemAccountNotFound)
          case Some(system) =>
            if system == account then Err(SameAccount)
            else Ok(Params(account, system, amount, TxWithdrawal, key, None))
        }
  }

  /** The account with a given code, provided it is a system account. */
  function SystemAccount(w: World, code: string): Option<int> {
    if code in w.codes && w.codes[code] in w.accounts && w.accounts[w.codes[code]].kind == System
    then Some(w.codes[code])
    else None
  }

  /** Validation of Reverse: a reversal moves the money of `t` back. */
  function PrepareReversal(txs: map<int, Tx>, txId: int, key: string): Result<Params, Error> {
    if txId !in txs then Err(TransactionNotFound)
    else if txs[txId].status != Completed then Err(ReverseIncompletedTx)
    else if txs[txId].kind == TxReversal then Err(ReverseReversalTx)
    else
      var t := txs[txId];
      Ok(Params(t.destination, t.source, t.amount, TxReversal, key, Some(t.id)))
  }

  /** The two row locks are taken in the order of the ids, so a missing account is reported
      in that order too. */
  function CheckAccounts(w: World, p: Params): Option<Error> {
    var first, second := Min(p.from, p.to), Max(p.from, p.to);
    if first !in w.accounts then Some(MissingAccount(p, first))
    else if second !in w.accounts then Some(MissingAccount(p, second))
    else if w.accounts[p.from].currency != w.accounts[p.to].currency then Some(CurrencyMismatch)
    else None
  }

  function MissingAccount(p: Params, account: int): Error {
    if account == p.from then SourceAccountNotFound else DestinationAccountNotFound
  }

  /** What an idempotent retry is compared by: endpoints and amount only. */
  predicate SameTransfer(p: Params, t: Tx) {
    p.from == t.source && p.to == t.destination && p.amount == t.amount
  }

  /** Only system accounts and reversals may go below zero. */
  predicate MayOverdraw(w: World, p: Params) {
    (p.from in w.accounts && w.accounts[p.from].kind == System) || p.kind == TxReversal
  }

  /** A sum that is no machine integer cannot be read. */
  predicate Readable(l: Ledger, p: Params) { FitsInt64(Balance(l.entries, p.from)) }

  /** The test on machine integers, whose subtraction wraps around. */
  predicate Affordable(w: World, l: Ledger, p: Params) {
    Wrap64(Balance(l.entries, p.from) - p.amount) >= 0 || MayOverdraw(w, p)
  }

  predicate Covered(w: World, l: Ledger, p: Params) { Readable(l, p) && Affordable(w, l, p) }

  function NewTx(p: Params, id: int): Tx {
    Tx(id, p.from, p.to, p.amount, p.key, p.kind, p.reversalOf, Completed)
  }

  function DebitEntry(p: Params, ids: Ids): Entry { Entry(ids.debit, ids.tx, p.from, -p.amount) }

  function CreditEntry(p: Params, ids: Ids): Entry { Entry(ids.credit, ids.tx, p.to, p.amount) }

  function Currency(w: World, account: int): string {
    if account in w.accounts then w.accounts[account].currency else ""
  }

  function CreditEvent(w: World, p: Params, ids: Ids): Event {
    Event(ids.creditEvent, p.to, ids.tx, p.kind, p.amount, Currency(w, p.to), p.from, p.reversalOf)
  }

  function DebitEvent(w: World, p: Params, ids: Ids): Event {
    Event(ids.debitEvent, p.from, ids.tx, p.kind, -p.amount, Currency(w, p.from), p.to, p.reversalOf)
  }

  /** The rows of one transfer, all added at once. */
  function Posted(w: World, l: Ledger, p: Params, ids: Ids): Ledger {
    Ledger(l.txs[ids.tx := NewTx(p, ids.tx)],
           l.keys[p.key := ids.tx],
           l.entries + [DebitEntry(p, ids), CreditEntry(p, ids)],
           l.outbox + [CreditEvent(w, p, ids), DebitEvent(w, p, ids)])
  }

  /** The transfer core as one step. */
  function Post(w: World, l: Ledger, p: Params, ids: Ids): (Ledger, Outcome) {
    match CheckAccounts(w, p)
    case Some(e) => (l, Err(e))
    case None =>
      if p.key in l.keys then
        if l.keys[p.key] !in l.txs then (l, Err(StorageFailure))
        else if SameTransfer(p, l.txs[l.keys[p.key]]) then (l, Ok(ReceiptOf(l.txs[l.keys[p.key]], true)))
        else (l, Err(TransactionsMismatch))
      else if !Readable(l, p) then (l, Err(StorageFailure))
      else if !Affordable(w, l, p) then (l, Err(NotEnough))
      else (Posted(w, l, p, ids), Ok(ReceiptOf(NewTx(p, ids.tx), false)))
  }

  /** The transfer core gets as far as reading the balance. */
  predicate ReadsBalance(w: World, l: Ledger, p: Params) { CheckAccounts(w, p) == None && p.key !in l.keys }

  function MarkReversed(l: Ledger, txId: int): Ledger
    requires txId in l.txs
  {
    l.(txs := l.txs[txId := l.txs[txId].(status := Reversed)])
  }

  /** One whole call of the service, run alone against the committed tables. */
  function AtomicOp(w: World, l: Ledger, op: Op, ids: Ids): (r: (Ledger, Outcome)) {
    if op.Reverse? then
      match PrepareReversal(l.txs, op.txId, op.key) {
        case Err(e) => (l, Err(e))
        case Ok(p) =>
          var (l', outcome) := Post(w, l, p, ids);
          if outcome.Err? then (l, outcome)
          else if op.txId in l'.txs then (MarkReversed(l', op.txId), outcome)
          else (l, Err(StorageFailure))
      }
    else
      match Prepare(w, op) {
        case Err(e) => (l, Err(e))
        case Ok(p) => Post(w, l, p, ids)
      }
  }

  function ParamsOf(w: World, l: Ledger, op: Op): Result<Params, Error> {
    if op.Reverse? then PrepareReversal(l.txs, op.txId, op.key) else Prepare(w, op)
  }

  /** The call fails because the sum it reads is no machine integer. */
  predicate CallUnreadable(w: World, l: Ledger, op: Op) {
    && ParamsOf(w, l, op).Ok?
    && var p := ParamsOf(w, l, op).value;
       ReadsBalance(w, l, p) && !Readable(l, p)
  }

  /** The balance is so low that an ordinary debit wraps around to a positive number. */
  predicate CallWraps(w: World, l: Ledger, op: Op) {
    && ParamsOf(w, l, op).Ok?
    && var p := ParamsOf(w, l, op).value;
       && ReadsBalance(w, l, p) && Readable(l, p)
       && !MayOverdraw(w, p) && Balance(l.entries, p.from) < p.amount - TWO_63
  }

  /** A call together with the serial numbers it drew and what it returned. */
  datatype Item = Item(caller: int, op: Op, ids: Ids, outcome: Outcome)

  type Trace = seq<Item>

  /** The tables after running the calls of a trace one at a time. */
  function LedgerOf(w: World, trace: Trace): Ledger {
    if trace == [] then EMPTY_LEDGER
    else
      var last := trace[|trace| - 1];
      AtomicOp(w, LedgerOf(w, trace[..|trace| - 1]), last.op, last.ids).0
  }

  /** The call wrote a transaction of its own, as opposed to failing or replaying one. */
  predicate Posts(item: Item) { item.outcome.Ok? && !item.outcome.value.replayed }

  predicate FreshIds(l: Ledger, ids: Ids) { ids.tx !in l.txs }

  /** A trace is serial when each call returned what it returns when run alone on the tables
      left by the calls before it, and new transactions got unused ids. */
  predicate Serial(w: World, trace: Trace) {
    trace == [] ||
    var before, last := trace[..|trace| - 1], trace[|trace| - 1];
    && Serial(w, before)
    && last.outcome == AtomicOp(w, LedgerOf(w, before), last.op, last.ids).1
    && (Posts(last) ==> FreshIds(LedgerOf(w, before), last.ids))
  }

  lemma {:induction false} SerialPrefix(w: World, trace: Trace, n: nat)
    requires Serial(w, trace) && n <= |trace|
    ensures Serial(w, trace[..n])
  {
    if n < |trace| {
      SerialPrefix(w, trace[..|trace| - 1], n);
      assert trace[..|trace| - 1][..n] == trace[..n];
    } else {
      assert trace[..n] == trace;
    }
  }

  /** What serial means for the call at one position. */
  lemma SerialAt(w: World, trace: Trace, i: nat)
    requires Serial(w, trace) && i < |trace|
    ensures Serial(w, trace[..i]) && Serial(w, trace[..i + 1])
    ensures (LedgerOf(w, trace[..i + 1]), trace[i].outcome)
         == AtomicOp(w, LedgerOf(w, trace[..i]), trace[i].op, trace[i].ids)
    ensures Posts(trace[i]) ==> FreshIds(LedgerOf(w, trace[..i]), trace[i].ids)
  {
    SerialPrefix(w, trace, i);
    SerialPrefix(w, trace, i + 1);
    assert trace[..i + 1][..i] == trace[..i];
  }

  lemma SerialAppend(w: World, trace: Trace, item: Item)
    requires Serial(w, trace)
    requires item.outcome == AtomicOp(w, LedgerOf(w, trace), item.op, item.ids).1
    requires Posts(item) ==> FreshIds(LedgerOf(w, trace), item.ids)
    ensures Serial(w, trace + [item])
    ensures LedgerOf(w, trace + [item]) == AtomicOp(w, LedgerOf(w, trace), item.op, item.ids).0
  {
    assert (trace + [item])[..|trace|] == trace;
  }

  /** A refused call leaves every table, the key index included, as it was. */
  lemma RefusalChangesNothing(w: World, l: Ledger, op: Op, ids: Ids)
    ensures AtomicOp(w, l, op, ids).1.Err? ==> AtomicOp(w, l, op, ids).0 == l
  {
  }
}
