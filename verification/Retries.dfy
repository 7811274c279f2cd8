/** Idempotency keys: what a retried call returns, and what happens when a key is reused for
    a different operation. */
module Retries {
  import opened Records
  import opened Operations
  import opened LedgerLaws
  import opened Balances

  /** The tables make a call fail only by an unreadable balance: in particular the row behind a
      duplicate key is always found. */
  lemma {:induction false} DuplicateKeyIsAlwaysFound(w: World, trace: Trace, op: Op, ids: Ids)
    requires Serial(w, trace)
    ensures AtomicOp(w, LedgerOf(w, trace), op, ids).1 == Err(StorageFailure)
       <==> CallUnreadable(w, LedgerOf(w, trace), op)
  {
    SerialRunsAreSound(w, trace);
  }

  /** Nothing but the status of a transaction ever changes, and that only from completed to reversed. */
  ghost predicate Grows(l: Ledger, l': Ledger) {
    && (forall id :: id in l.txs ==>
          && id in l'.txs
          && l'.txs[id].(status := l.txs[id].status) == l.txs[id]
          && (l.txs[id].status == Reversed ==> l'.txs[id].status == Reversed))
    && (forall k :: k in l.keys ==> k in l'.keys && l'.keys[k] == l.keys[k])
  }

  lemma {:induction false} RowsStay(w: World, trace: Trace, n: nat)
    requires Serial(w, trace) && n <= |trace|
    ensures Grows(LedgerOf(w, trace[..n]), LedgerOf(w, trace))
    decreases |trace| - n
  {
    if n == |trace| {
      assert trace[..n] == trace;
    } else {
      RowsStay(w, trace, n + 1);
      SerialPrefix(w, trace, n);
      SerialPrefix(w, trace, n + 1);
      SerialRunsAreSound(w, trace[..n]);
      assert trace[..n + 1][..n] == trace[..n];
      var l := LedgerOf(w, trace[..n]);
      ChangeIsApplicable(w, l, trace[n].op, trace[n].ids);
      ChangeGrows(w, l, ChangeOf(w, l, trace[n].op), trace[n].ids);
      GrowsTransitive(l, LedgerOf(w, trace[..n + 1]), LedgerOf(w, trace));
    }
  }

  lemma ChangeGrows(w: World, l: Ledger, c: Change, ids: Ids)
    requires Applicable(w, l, c, ids)
    ensures Grows(l, Changed(w, l, c, ids))
  {
  }

  lemma GrowsTransitive(l: Ledger, l': Ledger, l'': Ledger)
    requires Grows(l, l') && Grows(l', l'')
    ensures Grows(l, l'')
  {
  }

  /** A taken key was taken by a call with that key. */
  lemma {:induction false} KeyHasOrigin(w: World, trace: Trace, key: string) returns (i: nat)
    requires Serial(w, trace) && key in LedgerOf(w, trace).keys
    ensures i < |trace| && Posts(trace[i]) && trace[i].op.key == key
  {
    var before, last := trace[..|trace| - 1], trace[|trace| - 1];
    SerialRunsAreSound(w, before);
    ChangeIsApplicable(w, LedgerOf(w, before), last.op, last.ids);
    if key in LedgerOf(w, before).keys {
      i := KeyHasOrigin(w, before, key);
    } else {
      i := |trace| - 1;
    }
  }

  /** A call that posted recorded its transaction under its key. */
  lemma {:induction false} PostedRow(w: World, trace: Trace, i: nat)
    requires Serial(w, trace) && i < |trace| && Posts(trace[i])
    ensures var l, r := LedgerOf(w, trace[..i + 1]), trace[i].outcome.value;
      && r.txId in l.txs && ReceiptOf(l.txs[r.txId], false) == r && r.status == Completed
      && trace[i].op.key in l.keys && l.keys[trace[i].op.key] == r.txId
      && (trace[i].op.Reverse? ==> trace[i].op.txId in l.txs && l.txs[trace[i].op.txId].status == Reversed)
  {
    SerialAt(w, trace, i);
    SerialRunsAreSound(w, trace[..i]);
    RowAfterPost(w, LedgerOf(w, trace[..i]), trace[i].op, trace[i].ids);
  }

  lemma RowAfterPost(w: World, l: Ledger, op: Op, ids: Ids)
    requires Sound(w, l) && FreshIds(l, ids)
    requires AtomicOp(w, l, op, ids).1.Ok? && !AtomicOp(w, l, op, ids).1.value.replayed
    ensures var l', r := AtomicOp(w, l, op, ids).0, AtomicOp(w, l, op, ids).1.value;
      && r.txId in l'.txs && ReceiptOf(l'.txs[r.txId], false) == r && r.status == Completed
      && op.key in l'.keys && l'.keys[op.key] == r.txId
      && (op.Reverse? ==> op.txId in l'.txs && l'.txs[op.txId].status == Reversed)
  {
    ChangeIsApplicable(w, l, op, ids);
  }

  /** The tables seen by a later call still hold everything an earlier call wrote. */
  lemma {:induction false} LaterCallSees(w: World, trace: Trace, i: nat, j: nat)
    requires Serial(w, trace) && i < j < |trace|
    ensures Grows(LedgerOf(w, trace[..i + 1]), LedgerOf(w, trace[..j]))
    ensures trace[j].outcome == AtomicOp(w, LedgerOf(w, trace[..j]), trace[j].op, trace[j].ids).1
  {
    SerialAt(w, trace, j);
    RowsStay(w, trace[..j], i + 1);
    assert trace[..j][..i + 1] == trace[..i + 1];
  }

  /** An identical Transfer, Deposit or Withdraw returns the first result again, whatever the
      balances are by then; only the status may meanwhile have become reversed. */
  lemma {:induction false} IdenticalRetryReplays(w: World, trace: Trace, i: nat, j: nat)
    requires Serial(w, trace) && i < j < |trace|
    requires Posts(trace[i]) && trace[j].op == trace[i].op && !trace[i].op.Reverse?
    ensures trace[j].outcome.Ok?
    ensures trace[j].outcome.value.(status := Completed, replayed := false) == trace[i].outcome.value
    ensures trace[j].outcome.value.replayed
    ensures var txs, id := LedgerOf(w, trace[..j]).txs, trace[i].outcome.value.txId;
      id in txs && trace[j].outcome.value.status == txs[id].status
  {
    PostedRow(w, trace, i);
    LaterCallSees(w, trace, i, j);
    SerialAt(w, trace, i);
  }

  /** A repeated Reverse is not replayed but refused. */
  lemma RepeatedReverseIsRefused(w: World, trace: Trace, i: nat, j: nat)
    requires Serial(w, trace) && i < j < |trace|
    requires trace[i].op.Reverse? && trace[i].outcome.Ok?
    requires trace[j].op.Reverse? && trace[j].op.txId == trace[i].op.txId
    ensures trace[j].outcome == Err(ReverseIncompletedTx)
  {
    LaterCallSees(w, trace, i, j);
    SerialAt(w, trace, i);
    SerialRunsAreSound(w, trace[..i]);
    ReverseMarks(w, LedgerOf(w, trace[..i]), trace[i].op, trace[i].ids);
    MarkedIsRefused(w, LedgerOf(w, trace[..j]), trace[j].op, trace[j].ids);
  }

  lemma ReverseMarks(w: World, l: Ledger, op: Op, ids: Ids)
    requires Sound(w, l) && op.Reverse? && AtomicOp(w, l, op, ids).1.Ok?
    requires !AtomicOp(w, l, op, ids).1.value.replayed ==> FreshIds(l, ids)
    ensures var l' := AtomicOp(w, l, op, ids).0; op.txId in l'.txs && l'.txs[op.txId].status == Reversed
  {
    ChangeIsApplicable(w, l, op, ids);
  }

  lemma MarkedIsRefused(w: World, l: Ledger, op: Op, ids: Ids)
    requires op.Reverse? && op.txId in l.txs && l.txs[op.txId].status == Reversed
    ensures AtomicOp(w, l, op, ids).1 == Err(ReverseIncompletedTx)
  {
  }

  /** A trace without the Transfer, Deposit and Withdraw calls whose key was already taken. */
  ghost function Erased(w: World, trace: Trace): Trace {
    if trace == [] then []
    else
      var before, last := trace[..|trace| - 1], trace[|trace| - 1];
      Erased(w, before) + if !last.op.Reverse? && last.op.key in LedgerOf(w, before).keys then [] else [last]
  }

  /** Retries leave no mark: without them the run is still serial and ends in the same tables. */
  lemma {:induction false} RetriesLeaveNoMark(w: World, trace: Trace)
    requires Serial(w, trace)
    ensures Serial(w, Erased(w, trace)) && LedgerOf(w, Erased(w, trace)) == LedgerOf(w, trace)
  {
    if trace != [] {
      var before, last := trace[..|trace| - 1], trace[|trace| - 1];
      RetriesLeaveNoMark(w, before);
      if !last.op.Reverse? && last.op.key in LedgerOf(w, before).keys {
        assert Erased(w, trace) == Erased(w, before);
      } else {
        SerialAppend(w, Erased(w, before), last);
      }
    }
  }

  /** A trace without the calls that returned an error. */
  ghost function Successful(trace: Trace): Trace {
    if trace == [] then []
    else Successful(trace[..|trace| - 1]) + if trace[|trace| - 1].outcome.Err? then [] else [trace[|trace| - 1]]
  }

  /** Calls that return an error leave no mark: without them the run is serial all the same, with
      the same results of the others and the same tables, key index included. */
  lemma {:induction false} ErrorsLeaveNoMark(w: World, trace: Trace)
    requires Serial(w, trace)
    ensures Serial(w, Successful(trace)) && LedgerOf(w, Successful(trace)) == LedgerOf(w, trace)
  {
    if trace != [] {
      var before, last := trace[..|trace| - 1], trace[|trace| - 1];
      ErrorsLeaveNoMark(w, before);
      if last.outcome.Err? {
        RefusalChangesNothing(w, LedgerOf(w, before), last.op, last.ids);
        assert Successful(trace) == Successful(before);
      } else {
        SerialAppend(w, Successful(before), last);
      }
    }
  }

  /** A key is only ever reused for the same operation with the same arguments. */
  ghost predicate KeysReusedIdentically(trace: Trace) {
    forall i, j {:trigger trace[i], trace[j]} ::
      0 <= i < j < |trace| && Posts(trace[i]) && trace[j].outcome.Ok? && trace[i].op.key == trace[j].op.key
      ==> trace[i].op == trace[j].op
  }

  /** Then no Reverse is ever a replay, so "reversed" always means that the money moved back. */
  lemma DisciplinedKeysAreFresh(w: World, trace: Trace)
    requires Serial(w, trace) && KeysReusedIdentically(trace)
    ensures ReversalKeysFresh(w, trace)
    ensures ReversedHasReversal(LedgerOf(w, trace))
  {
    forall j | 0 <= j < |trace| ensures !ReplaysAt(w, trace, j) {
      if ReplaysAt(w, trace, j) {
        SerialAt(w, trace, j);
        ReplayIsGuarded(w, LedgerOf(w, trace[..j]), trace[j].op, trace[j].ids);
        SerialPrefix(w, trace, j);
        var i := KeyHasOrigin(w, trace[..j], trace[j].op.key);
        assert trace[..j][i] == trace[i];
        RepeatedReverseIsRefused(w, trace, i, j);
        assert false;
      }
    }
    ReversedHasReversalExactly(w, trace);
  }

  /** Two user accounts and one source of money. */
  const EXAMPLE_WORLD := World(
    map[1 := Account("USD", User), 2 := Account("USD", User), 3 := Account("USD", System)],
    map["ATM_IN_USD" := 3], 10)

  lemma {:induction false} OneMoreCall(t: Trace, l: Ledger, op: Op, p: Params, ids: Ids) returns (t': Trace, l': Ledger)
    requires Serial(EXAMPLE_WORLD, t) && LedgerOf(EXAMPLE_WORLD, t) == l
    requires !op.Reverse? && Prepare(EXAMPLE_WORLD, op) == Ok(p) && CheckAccounts(EXAMPLE_WORLD, p) == None
    requires p.key !in l.keys && Covered(EXAMPLE_WORLD, l, p) && FreshIds(l, ids) && p.from != p.to
    ensures t' == t + [Item(|t|, op, ids, Ok(ReceiptOf(NewTx(p, ids.tx), false)))]
    ensures Serial(EXAMPLE_WORLD, t') && LedgerOf(EXAMPLE_WORLD, t') == l'
    ensures l'.keys == l.keys[p.key := ids.tx] && l'.txs == l.txs[ids.tx := NewTx(p, ids.tx)]
    ensures Balance(l'.entries, p.to) == Balance(l.entries, p.to) + p.amount
    ensures forall a :: a != p.to && a != p.from ==> Balance(l'.entries, a) == Balance(l.entries, a)
  {
    t' := t + [Item(|t|, op, ids, Ok(ReceiptOf(NewTx(p, ids.tx), false)))];
    l' := Posted(EXAMPLE_WORLD, l, p, ids);
    SerialAppend(EXAMPLE_WORLD, t, t'[|t|]);
    forall a
      ensures Balance(l'.entries, a)
           == Balance(l.entries, a) + (if a == p.to then p.amount else if a == p.from then -p.amount else 0)
    {
      BalanceAppendTwo(l.entries, DebitEntry(p, ids), CreditEntry(p, ids), a);
    }
  }

  lemma NoCalls() returns (t: Trace, l: Ledger)
    ensures t == [] && Serial(EXAMPLE_WORLD, t) && LedgerOf(EXAMPLE_WORLD, t) == l
    ensures l.keys == map[] && l.txs == map[] && forall a :: Balance(l.entries, a) == 0
  {
    t, l := [], EMPTY_LEDGER;
  }

  lemma {:induction false} MoneyIn() returns (t: Trace, l: Ledger)
    ensures Serial(EXAMPLE_WORLD, t) && LedgerOf(EXAMPLE_WORLD, t) == l && |t| == 1
    ensures l.keys.Keys == {"k0"} && l.txs.Keys == {1} && Balance(l.entries, 1) == 100 && Balance(l.entries, 2) == 0
  {
    assert "ATM" + "_IN_" + "USD" == "ATM_IN_USD";
    t, l := NoCalls();
    var p0 := Params(3, 1, 100, TxDeposit, "k0", None);
    t, l := OneMoreCall(t, l, Deposit(1, 100, "ATM", "k0"), p0, Ids(1, 1, 2, 1, 2));
  }

  lemma {:induction false} MoneyForth() returns (t: Trace, l: Ledger)
    ensures Serial(EXAMPLE_WORLD, t) && LedgerOf(EXAMPLE_WORLD, t) == l && |t| == 2
    ensures t[1].op == Transfer(1, 2, 100, "k1") && Posts(t[1]) && t[1].outcome.value.txId == 2
    ensures l.keys.Keys == {"k0", "k1"} && l.txs.Keys == {1, 2} && Balance(l.entries, 2) == 100
    ensures l.txs[2] == NewTx(Params(1, 2, 100, TxTransfer, "k1", None), 2)
  {
    t, l := MoneyIn();
    var p1 := Params(1, 2, 100, TxTransfer, "k1", None);
    t, l := OneMoreCall(t, l, Transfer(1, 2, 100, "k1"), p1, Ids(2, 3, 4, 3, 4));
  }

  lemma {:induction false} MoneyBackAndForth() returns (t: Trace, l: Ledger)
    ensures Serial(EXAMPLE_WORLD, t) && LedgerOf(EXAMPLE_WORLD, t) == l && |t| == 3
    ensures t[1].op == Transfer(1, 2, 100, "k1") && t[2].op == Transfer(2, 1, 100, "k2")
    ensures Posts(t[1]) && t[1].outcome.value.txId == 2 && Posts(t[2])
    ensures "k2" in l.keys && l.keys["k2"] == 3
    ensures 2 in l.txs && l.txs[2] == NewTx(Params(1, 2, 100, TxTransfer, "k1", None), 2)
    ensures 3 in l.txs && l.txs[3] == NewTx(Params(2, 1, 100, TxTransfer, "k2", None), 3)
  {
    t, l := MoneyForth();
    var p2 := Params(2, 1, 100, TxTransfer, "k2", None);
    t, l := OneMoreCall(t, l, Transfer(2, 1, 100, "k2"), p2, Ids(3, 5, 6, 5, 6));
  }

  /** Without that discipline it does not: here a Reverse succeeds with the key of an earlier
      transfer, marks its original reversed, and moves nothing. */
  lemma {:induction false} ReusedKeyReversesNothing() returns (t: Trace)
    ensures Serial(EXAMPLE_WORLD, t) && |t| == 4
    ensures t[1].op == Transfer(1, 2, 100, "k1") && t[2].op == Transfer(2, 1, 100, "k2") && t[3].op == Reverse(2, "k2")
    ensures Posts(t[1]) && t[1].outcome.value.txId == 2 && Posts(t[2]) && t[3].outcome.Ok?
    ensures var before, after := LedgerOf(EXAMPLE_WORLD, t[..3]), LedgerOf(EXAMPLE_WORLD, t);
      && 2 in before.txs && before.txs[2].status == Completed
      && 2 in after.txs && after.txs[2].status == Reversed
      && after.entries == before.entries && after.outbox == before.outbox
      && !ReversedHasReversal(after)
  {
    var before, l := MoneyBackAndForth();
    t := before + [Item(3, Reverse(2, "k2"), NO_IDS, Ok(ReceiptOf(l.txs[3], true)))];
    SerialAppend(EXAMPLE_WORLD, before, t[3]);
    assert t[..3] == before;
    ReversedHasReversalExactly(EXAMPLE_WORLD, t);
    assert ReplaysAt(EXAMPLE_WORLD, t, 3);
  }
}
