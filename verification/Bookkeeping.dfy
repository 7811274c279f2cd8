/** Double entry, conservation, and the outbox as a copy of the entries. */
module Bookkeeping {
  import opened Records
  import opened Operations
  import opened LedgerLaws

  /** The rows of ledger_entries that belong to one transaction. */
  function EntriesOf(entries: seq<Entry>, txId: int): seq<Entry> {
    if entries == [] then []
    else
      var last := entries[|entries| - 1];
      EntriesOf(entries[..|entries| - 1], txId) + if last.txId == txId then [last] else []
  }

  /** The sum of the amounts of the entries selected by `keep`. */
  function SumOf(entries: seq<Entry>, keep: Entry -> bool): int {
    if entries == [] then 0
    else
      var last := entries[|entries| - 1];
      SumOf(entries[..|entries| - 1], keep) + if keep(last) then last.amount else 0
  }

  lemma EntriesOfAppendTwo(entries: seq<Entry>, d: Entry, c: Entry, txId: int)
    requires d.txId == c.txId
    ensures EntriesOf(entries + [d, c], txId) == EntriesOf(entries, txId) + if d.txId == txId then [d, c] else []
  {
    assert (entries + [d, c])[..|entries| + 1] == entries + [d];
    assert (entries + [d])[..|entries|] == entries;
  }

  lemma SumOfAppendTwo(entries: seq<Entry>, d: Entry, c: Entry, keep: Entry -> bool)
    ensures SumOf(entries + [d, c], keep)
         == SumOf(entries, keep) + (if keep(d) then d.amount else 0) + (if keep(c) then c.amount else 0)
  {
    assert (entries + [d, c])[..|entries| + 1] == entries + [d];
    assert (entries + [d])[..|entries|] == entries;
  }

  lemma {:induction false} NoEntriesOf(entries: seq<Entry>, txId: int)
    requires forall e :: e in entries ==> e.txId != txId
    ensures EntriesOf(entries, txId) == []
  {
    if entries != [] {
      NoEntriesOf(entries[..|entries| - 1], txId);
    }
  }

  /** -amount on the source, then +amount on the destination, and nothing else. */
  ghost predicate TwoEntries(l: Ledger, id: int)
    requires id in l.txs
  {
    var rows, t := EntriesOf(l.entries, id), l.txs[id];
    && |rows| == 2
    && rows[0] == Entry(rows[0].id, id, t.source, -t.amount)
    && rows[1] == Entry(rows[1].id, id, t.destination, t.amount)
  }

  ghost predicate DoubleEntry(l: Ledger) {
    && (forall e :: e in l.entries ==> e.txId in l.txs)
    && (forall id :: id in l.txs ==> TwoEntries(l, id))
  }

  lemma DoubleEntryPosted(w: World, l: Ledger, p: Params, ids: Ids)
    requires DoubleEntry(l) && Postable(w, l, p, ids)
    ensures DoubleEntry(Posted(w, l, p, ids))
  {
    var l' := Posted(w, l, p, ids);
    var d, c := DebitEntry(p, ids), CreditEntry(p, ids);
    forall e | e in l'.entries ensures e.txId in l'.txs {
      assert e in l.entries || e == d || e == c;
    }
    forall id | id in l'.txs ensures TwoEntries(l', id) {
      EntriesOfAppendTwo(l.entries, d, c, id);
      if id == ids.tx {
        NoEntriesOf(l.entries, id);
      } else {
        assert TwoEntries(l, id);
      }
    }
  }

  lemma DoubleEntryMarked(l: Ledger, o: int)
    requires DoubleEntry(l) && o in l.txs
    ensures DoubleEntry(MarkReversed(l, o))
  {
    var l' := MarkReversed(l, o);
    forall id | id in l'.txs ensures TwoEntries(l', id) {
      assert TwoEntries(l, id);
    }
  }

  /** Every transaction has exactly its two entries, on two accounts of one currency. */
  lemma {:induction false} EveryTransactionHasTwoEntries(w: World, trace: Trace)
    requires Serial(w, trace)
    ensures DoubleEntry(LedgerOf(w, trace)) && TxsWellFormed(w, LedgerOf(w, trace))
  {
    SerialRunsAreSound(w, trace);
    if trace != [] {
      var before, last := trace[..|trace| - 1], trace[|trace| - 1];
      EveryTransactionHasTwoEntries(w, before);
      SerialRunsAreSound(w, before);
      var l := LedgerOf(w, before);
      var c := ChangeOf(w, l, last.op);
      ChangeIsApplicable(w, l, last.op, last.ids);
      match c {
        case Nothing =>
        case Mark(o) => DoubleEntryMarked(l, o);
        case Add(p) => DoubleEntryPosted(w, l, p, last.ids);
        case AddReversal(p, o) =>
          DoubleEntryPosted(w, l, p, last.ids);
          DoubleEntryMarked(Posted(w, l, p, last.ids), o);
      }
    }
  }

  /** Entries sum to zero over any selection that never separates the two halves of a
      transfer, that is, two entries of one transaction on accounts of one currency. */
  lemma {:induction false} Conservation(w: World, trace: Trace, keep: Entry -> bool)
    requires Serial(w, trace)
    requires forall d: Entry, c: Entry ::
               (&& d.txId == c.txId && d.account in w.accounts && c.account in w.accounts
                && w.accounts[d.account].currency == w.accounts[c.account].currency)
               ==> keep(d) == keep(c)
    ensures SumOf(LedgerOf(w, trace).entries, keep) == 0
  {
    if trace != [] {
      var before, last := trace[..|trace| - 1], trace[|trace| - 1];
      Conservation(w, before, keep);
      SerialRunsAreSound(w, before);
      var l := LedgerOf(w, before);
      var c := ChangeOf(w, l, last.op);
      ChangeIsApplicable(w, l, last.op, last.ids);
      if c.Add? || c.AddReversal? {
        SumOfAppendTwo(l.entries, DebitEntry(c.p, last.ids), CreditEntry(c.p, last.ids), keep);
      }
    }
  }

  /** In particular per transaction, per currency, and over the whole table. */
  lemma MoneyIsConserved(w: World, trace: Trace, txId: int, currency: string)
    requires Serial(w, trace)
    ensures SumOf(LedgerOf(w, trace).entries, (e: Entry) => e.txId == txId) == 0
    ensures SumOf(LedgerOf(w, trace).entries,
                  (e: Entry) => e.account in w.accounts && w.accounts[e.account].currency == currency) == 0
    ensures SumOf(LedgerOf(w, trace).entries, (e: Entry) => true) == 0
  {
    Conservation(w, trace, (e: Entry) => e.txId == txId);
    Conservation(w, trace, (e: Entry) => e.account in w.accounts && w.accounts[e.account].currency == currency);
    Conservation(w, trace, (e: Entry) => true);
  }

  /** The credit is announced before the debit but entered after it. */
  function Twin(i: int): int { if i % 2 == 0 then i + 1 else i - 1 }

  function Counterparty(t: Tx, amount: int): int { if amount > 0 then t.source else t.destination }

  /** The outbox row tells all that the tables know about the entry. */
  ghost predicate Announces(w: World, l: Ledger, ev: Event, e: Entry) {
    && e.txId in l.txs && e.account in w.accounts
    && ev.account == e.account && ev.txId == e.txId && ev.amount == e.amount
    && ev.currency == w.accounts[e.account].currency
    && ev.kind == l.txs[e.txId].kind && ev.reversalOf == l.txs[e.txId].reversalOf
    && ev.counterparty == Counterparty(l.txs[e.txId], e.amount)
  }

  ghost predicate OutboxMirrorsEntries(w: World, l: Ledger) {
    && |l.outbox| == |l.entries| && |l.entries| % 2 == 0
    && forall i :: 0 <= i < |l.entries| ==> Announces(w, l, l.outbox[Twin(i)], l.entries[i])
  }

  lemma MirrorPosted(w: World, l: Ledger, p: Params, ids: Ids)
    requires OutboxMirrorsEntries(w, l) && Postable(w, l, p, ids)
    ensures OutboxMirrorsEntries(w, Posted(w, l, p, ids))
  {
    var l' := Posted(w, l, p, ids);
    forall i | 0 <= i < |l'.entries| ensures Announces(w, l', l'.outbox[Twin(i)], l'.entries[i]) {
      if i < |l.entries| {
        assert 0 <= Twin(i) < |l.entries|;
        assert Announces(w, l, l.outbox[Twin(i)], l.entries[i]);
      }
    }
  }

  lemma MirrorMarked(w: World, l: Ledger, o: int)
    requires OutboxMirrorsEntries(w, l) && o in l.txs
    ensures OutboxMirrorsEntries(w, MarkReversed(l, o))
  {
    var l' := MarkReversed(l, o);
    forall i | 0 <= i < |l'.entries| ensures Announces(w, l', l'.outbox[Twin(i)], l'.entries[i]) {
      assert Announces(w, l, l.outbox[Twin(i)], l.entries[i]);
    }
  }

  /** Outbox rows and ledger entries correspond one to one. */
  lemma {:induction false} EveryEntryIsAnnouncedOnce(w: World, trace: Trace)
    requires Serial(w, trace)
    ensures OutboxMirrorsEntries(w, LedgerOf(w, trace))
  {
    if trace != [] {
      var before, last := trace[..|trace| - 1], trace[|trace| - 1];
      EveryEntryIsAnnouncedOnce(w, before);
      SerialRunsAreSound(w, before);
      var l := LedgerOf(w, before);
      var c := ChangeOf(w, l, last.op);
      ChangeIsApplicable(w, l, last.op, last.ids);
      match c {
        case Nothing =>
        case Mark(o) => MirrorMarked(w, l, o);
        case Add(p) => MirrorPosted(w, l, p, last.ids);
        case AddReversal(p, o) =>
          MirrorPosted(w, l, p, last.ids);
          MirrorMarked(w, Posted(w, l, p, last.ids), o);
      }
    }
  }

  /** Folding the amounts of an account's outbox rows gives its balance. */
  lemma {:induction false} EventsSumToBalance(w: World, trace: Trace, account: int)
    requires Serial(w, trace)
    ensures Total(OfAccount(LedgerOf(w, trace).outbox, account)) == Balance(LedgerOf(w, trace).entries, account)
  {
    if trace != [] {
      var before, last := trace[..|trace| - 1], trace[|trace| - 1];
      EventsSumToBalance(w, before, account);
      SerialRunsAreSound(w, before);
      var l := LedgerOf(w, before);
      var c := ChangeOf(w, l, last.op);
      ChangeIsApplicable(w, l, last.op, last.ids);
      if c.Add? || c.AddReversal? {
        var credit, debit := CreditEvent(w, c.p, last.ids), DebitEvent(w, c.p, last.ids);
        TotalGrows(l.outbox, credit, debit, account);
        BalanceAppendTwo(l.entries, DebitEntry(c.p, last.ids), CreditEntry(c.p, last.ids), account);
      }
    }
  }

  lemma TotalGrows(outbox: seq<Event>, credit: Event, debit: Event, account: int)
    ensures Total(OfAccount(outbox + [credit, debit], account))
         == Total(OfAccount(outbox, account))
            + (if credit.account == account then credit.amount else 0)
            + (if debit.account == account then debit.amount else 0)
  {
    OutboxGrows(outbox, credit, debit, account);
    var rows := OfAccount(outbox, account);
    var first := if credit.account == account then [credit] else [];
    var second := if debit.account == account then [debit] else [];
    TotalConcat(rows, first);
    TotalConcat(rows + first, second);
  }

  lemma OutboxGrows(outbox: seq<Event>, credit: Event, debit: Event, account: int)
    ensures OfAccount(outbox + [credit, debit], account)
         == OfAccount(outbox, account)
            + (if credit.account == account then [credit] else [])
            + (if debit.account == account then [debit] else [])
  {
    assert outbox + [credit, debit] == outbox + [credit] + [debit];
    OfAccountAppend(outbox, credit, account);
    OfAccountAppend(outbox + [credit], debit, account);
  }
}
