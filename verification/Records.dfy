/** Rows of the ledger database and the pure queries over its tables. */
module Records {

  datatype Option<+T> = None | Some(value: T)

  datatype Result<+T, +E> = Ok(value: T) | Err(error: E)

  datatype AccountType = User | System

  datatype TxType = TxWithdrawal | TxDeposit | TxTransfer | TxReversal

  /** The two statuses the service ever writes. */
  datatype Status = Completed | Reversed

  datatype Account = Account(currency: string, kind: AccountType)

  /** Everything that no operation changes: the accounts by id, the unique index on
      their codes, and the relay's batch size. */
  datatype World = World(accounts: map<int, Account>, codes: map<string, int>, batchSize: nat)

  datatype Tx = Tx(id: int, source: int, destination: int, amount: int, key: string,
                   kind: TxType, reversalOf: Option<int>, status: Status)

  datatype Entry = Entry(id: int, txId: int, account: int, amount: int)

  /** An outbox row: `account` is the partition key, `id` stands for the unique event id. */
  datatype Event = Event(id: int, account: int, txId: int, kind: TxType, amount: int,
                         currency: string, counterparty: int, reversalOf: Option<int>)

  /** The committed tables. `keys` is the unique index on idempotency keys; `entries` and
      `outbox` list their rows in the order in which they were committed. */
  datatype Ledger = Ledger(txs: map<int, Tx>, keys: map<string, int>, entries: seq<Entry>, outbox: seq<Event>)

  const EMPTY_LEDGER := Ledger(map[], map[], [], [])

  function Min(a: int, b: int): int { if a <= b then a else b }

  function Max(a: int, b: int): int { if a <= b then b else a }

  /** SUM(amount) over the entries of an account. */
  function Balance(entries: seq<Entry>, account: int): int {
    if entries == [] then 0
    else
      var last := entries[|entries| - 1];
      Balance(entries[..|entries| - 1], account) + if last.account == account then last.amount else 0
  }

  /** The rows of one account, that is, of one partition key. */
  function OfAccount(events: seq<Event>, account: int): seq<Event> {
    if events == [] then []
    else
      var last := events[|events| - 1];
      var rest := OfAccount(events[..|events| - 1], account);
      if last.account == account then rest + [last] else rest
  }

  /** The sum of the signed amounts of a list of events. */
  function Total(events: seq<Event>): int {
    if events == [] then 0
    else Total(events[..|events| - 1]) + events[|events| - 1].amount
  }

  lemma BalanceAppend(entries: seq<Entry>, e: Entry, account: int)
    ensures Balance(entries + [e], account)
         == Balance(entries, account) + if e.account == account then e.amount else 0
  {
    assert (entries + [e])[..|entries|] == entries;
  }

  lemma BalanceAppendTwo(entries: seq<Entry>, d: Entry, c: Entry, account: int)
    ensures Balance(entries + [d, c], account)
         == Balance(entries, account)
            + (if d.account == account then d.amount else 0)
            + (if c.account == account then c.amount else 0)
  {
    assert entries + [d, c] == entries + [d] + [c];
    BalanceAppend(entries, d, account);
    BalanceAppend(entries + [d], c, account);
  }

  lemma OfAccountAppend(events: seq<Event>, e: Event, account: int)
    ensures OfAccount(events + [e], account)
         == OfAccount(events, account) + if e.account == account then [e] else []
  {
    assert (events + [e])[..|events|] == events;
  }

  lemma {:induction false} OfAccountConcat(xs: seq<Event>, ys: seq<Event>, account: int)
    ensures OfAccount(xs + ys, account) == OfAccount(xs, account) + OfAccount(ys, account)
  {
    if ys == [] {
      assert xs + ys == xs;
    } else {
      var rest, last := ys[..|ys| - 1], ys[|ys| - 1];
      assert xs + ys == (xs + rest) + [last];
      assert ys == rest + [last];
      OfAccountConcat(xs, rest, account);
      OfAccountAppend(xs + rest, last, account);
      OfAccountAppend(rest, last, account);
    }
  }

  lemma {:induction false} OfAccountMembers(events: seq<Event>, account: int)
    ensures forall e :: e in OfAccount(events, account) <==> e in events && e.account == account
  {
    if events != [] {
      var rest, last := events[..|events| - 1], events[|events| - 1];
      assert events == rest + [last];
      OfAccountMembers(rest, account);
    }
  }

  lemma {:induction false} TotalConcat(xs: seq<Event>, ys: seq<Event>)
    ensures Total(xs + ys) == Total(xs) + Total(ys)
  {
    if ys == [] {
      assert xs + ys == xs;
    } else {
      var rest, last := ys[..|ys| - 1], ys[|ys| - 1];
      assert (xs + ys)[..|xs + ys| - 1] == xs + rest;
      TotalConcat(xs, rest);
    }
  }
}
