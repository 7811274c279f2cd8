/** What a balance is made of, how low it can go, and how large. */
module Balances {
  import opened Records
  import opened Operations
  import opened LedgerLaws
  import opened Sums

  function Signed(t: Tx, account: int): int {
    if t.destination == account then t.amount else if t.source == account then -t.amount else 0
  }

  ghost predicate HasReversal(l: Ledger, o: int) {
    exists r :: r in l.txs && l.txs[r].reversalOf == Some(o)
  }

  /** Transactions marked reversed although nothing moved their money back. */
  ghost function Orphans(l: Ledger): set<int> {
    set o | o in l.txs && l.txs[o].status == Reversed && !HasReversal(l, o)
  }

  /** A transaction still in force: completed, and not itself a reversal. */
  predicate InForce(t: Tx) { t.status == Completed && t.kind != TxReversal }

  ghost function InForceSum(l: Ledger, account: int): int {
    SumOver(l.txs.Keys, id => if id in l.txs && InForce(l.txs[id]) then Signed(l.txs[id], account) else 0)
  }

  ghost function OrphanSum(l: Ledger, account: int): int {
    SumOver(l.txs.Keys, id => if id in l.txs && id in Orphans(l) then Signed(l.txs[id], account) else 0)
  }

  /** Money debited from an account by reversals. */
  ghost function ReversalDebits(l: Ledger, account: int): int {
    SumOver(l.txs.Keys, id => ReversalDebit(l, account, id))
  }

  ghost function ReversalDebit(l: Ledger, account: int, id: int): int {
    if id in l.txs && l.txs[id].kind == TxReversal && l.txs[id].source == account then l.txs[id].amount else 0
  }

  // ---------------------------------------------------------------- what is in force

  lemma InForceAdded(w: World, l: Ledger, p: Params, ids: Ids, account: int)
    requires Sound(w, l) && Applicable(w, l, Add(p), ids)
    ensures var l' := Posted(w, l, p, ids);
      && InForceSum(l', account) == InForceSum(l, account) + Signed(NewTx(p, ids.tx), account)
      && OrphanSum(l', account) == OrphanSum(l, account)
  {
    var l' := Posted(w, l, p, ids);
    assert l'.txs.Keys == l.txs.Keys + {ids.tx};
    InForcePosted(w, l, p, ids, account);
    OrphansAdded(w, l, p, ids);
    SumInsert(l.txs.Keys, ids.tx,
      id => if id in l.txs && id in Orphans(l) then Signed(l.txs[id], account) else 0,
      id => if id in l'.txs && id in Orphans(l') then Signed(l'.txs[id], account) else 0);
  }

  lemma OrphansAdded(w: World, l: Ledger, p: Params, ids: Ids)
    requires Sound(w, l) && Applicable(w, l, Add(p), ids)
    ensures Orphans(Posted(w, l, p, ids)) == Orphans(l)
  {
    var l' := Posted(w, l, p, ids);
    forall o | o in l.txs ensures HasReversal(l', o) == HasReversal(l, o) {
      if r :| r in l.txs && l.txs[r].reversalOf == Some(o) { assert l'.txs[r].reversalOf == Some(o); }
    }
  }

  lemma OrphansMarked(w: World, l: Ledger, o: int)
    requires Sound(w, l) && Applicable(w, l, Mark(o), NO_IDS)
    ensures Orphans(MarkReversed(l, o)) == Orphans(l) + {o}
    ensures o !in Orphans(l)
  {
    var l' := MarkReversed(l, o);
    forall x ensures HasReversal(l', x) == HasReversal(l, x) {
      if r :| r in l.txs && l.txs[r].reversalOf == Some(x) { assert l'.txs[r].reversalOf == Some(x); }
      if r :| r in l'.txs && l'.txs[r].reversalOf == Some(x) { assert l.txs[r].reversalOf == Some(x); }
    }
    if r :| r in l.txs && l.txs[r].reversalOf == Some(o) { assert false; }
  }

  lemma OrphansReversed(w: World, l: Ledger, p: Params, o: int, ids: Ids)
    requires Sound(w, l) && Applicable(w, l, AddReversal(p, o), ids)
    ensures Orphans(Changed(w, l, AddReversal(p, o), ids)) == Orphans(l)
  {
    var l' := Changed(w, l, AddReversal(p, o), ids);
    assert l'.txs[ids.tx].reversalOf == Some(o);
    assert HasReversal(l', o);
    forall x | x != o ensures HasReversal(l', x) == HasReversal(l, x) {
      if r :| r in l.txs && l.txs[r].reversalOf == Some(x) { assert l'.txs[r].reversalOf == Some(x); }
      if r :| r in l'.txs && l'.txs[r].reversalOf == Some(x) { assert l.txs[r].reversalOf == Some(x); }
    }
  }

  lemma InForceMarked(w: World, l: Ledger, o: int, account: int)
    requires Sound(w, l) && Applicable(w, l, Mark(o), NO_IDS)
    ensures var l' := MarkReversed(l, o);
      InForceSum(l', account) + OrphanSum(l', account) == InForceSum(l, account) + OrphanSum(l, account)
  {
    var l' := MarkReversed(l, o);
    assert l'.txs.Keys == l.txs.Keys;
    InForceStruck(l, o, account);
    OrphansMarked(w, l, o);
    SumReplace(l.txs.Keys, o,
      id => if id in l.txs && id in Orphans(l) then Signed(l.txs[id], account) else 0,
      id => if id in l'.txs && id in Orphans(l') then Signed(l'.txs[id], account) else 0);
  }

  lemma OrphanSumReversed(w: World, l: Ledger, p: Params, o: int, ids: Ids, account: int)
    requires Sound(w, l) && Applicable(w, l, AddReversal(p, o), ids)
    ensures OrphanSum(Changed(w, l, AddReversal(p, o), ids), account) == OrphanSum(l, account)
  {
    var l' := Changed(w, l, AddReversal(p, o), ids);
    assert l'.txs.Keys == l.txs.Keys + {ids.tx};
    OrphansReversed(w, l, p, o, ids);
    SumInsert(l.txs.Keys, ids.tx,
      id => if id in l.txs && id in Orphans(l) then Signed(l.txs[id], account) else 0,
      id => if id in l'.txs && id in Orphans(l') then Signed(l'.txs[id], account) else 0);
  }

  lemma InForceReversed(w: World, l: Ledger, p: Params, o: int, ids: Ids, account: int)
    requires Sound(w, l) && Applicable(w, l, AddReversal(p, o), ids)
    ensures InForceSum(Changed(w, l, AddReversal(p, o), ids), account)
         == InForceSum(l, account) + Signed(NewTx(p, ids.tx), account)
  {
    InForcePosted(w, l, p, ids, account);
    InForceStruck(Posted(w, l, p, ids), o, account);
  }

  lemma InForcePosted(w: World, l: Ledger, p: Params, ids: Ids, account: int)
    requires FreshIds(l, ids)
    ensures InForceSum(Posted(w, l, p, ids), account)
         == InForceSum(l, account) + if p.kind == TxReversal then 0 else Signed(NewTx(p, ids.tx), account)
  {
    var l' := Posted(w, l, p, ids);
    assert l'.txs.Keys == l.txs.Keys + {ids.tx};
    SumInsert(l.txs.Keys, ids.tx,
      id => if id in l.txs && InForce(l.txs[id]) then Signed(l.txs[id], account) else 0,
      id => if id in l'.txs && InForce(l'.txs[id]) then Signed(l'.txs[id], account) else 0);
  }

  lemma InForceStruck(l: Ledger, o: int, account: int)
    requires o in l.txs && InForce(l.txs[o])
    ensures InForceSum(MarkReversed(l, o), account) == InForceSum(l, account) - Signed(l.txs[o], account)
  {
    var l' := MarkReversed(l, o);
    assert l'.txs.Keys == l.txs.Keys;
    SumReplace(l.txs.Keys, o,
      id => if id in l.txs && InForce(l.txs[id]) then Signed(l.txs[id], account) else 0,
      id => if id in l'.txs && InForce(l'.txs[id]) then Signed(l'.txs[id], account) else 0);
  }

  /** A balance is the sum of what is in force plus what was marked reversed without being
      moved back; the reversals and the transactions they undo cancel out. */
  lemma {:induction false} BalanceIsWhatIsInForce(w: World, trace: Trace, account: int)
    requires Serial(w, trace)
    ensures var l := LedgerOf(w, trace);
      Balance(l.entries, account) == InForceSum(l, account) + OrphanSum(l, account)
  {
    if trace != [] {
      var before, last := trace[..|trace| - 1], trace[|trace| - 1];
      BalanceIsWhatIsInForce(w, before, account);
      SerialRunsAreSound(w, before);
      var l := LedgerOf(w, before);
      var c := ChangeOf(w, l, last.op);
      ChangeIsApplicable(w, l, last.op, last.ids);
      match c {
        case Nothing =>
        case Mark(o) => InForceMarked(w, l, o, account);
        case Add(p) =>
          InForceAdded(w, l, p, last.ids, account);
          BalanceAppendTwo(l.entries, DebitEntry(p, last.ids), CreditEntry(p, last.ids), account);
        case AddReversal(p, o) =>
          InForceReversed(w, l, p, o, last.ids, account);
          OrphanSumReversed(w, l, p, o, last.ids, account);
          BalanceAppendTwo(l.entries, DebitEntry(p, last.ids), CreditEntry(p, last.ids), account);
      }
    }
  }

  // ---------------------------------------------------------------- reversed without a reversal

  /** The originals of the Reverse calls that succeeded by replaying another transaction,
      because the key they were given was already taken. */
  ghost function ReplayedReversals(w: World, trace: Trace): set<int> {
    if trace == [] then {}
    else
      var before, last := trace[..|trace| - 1], trace[|trace| - 1];
      ReplayedReversals(w, before)
      + if last.op.Reverse? && last.outcome.Ok? && last.op.key in LedgerOf(w, before).keys
        then {last.op.txId} else {}
  }

  /** Exactly these are reversed without a reversal. */
  lemma {:induction false} OrphansAreReplayedReversals(w: World, trace: Trace)
    requires Serial(w, trace)
    ensures Orphans(LedgerOf(w, trace)) == ReplayedReversals(w, trace)
  {
    if trace != [] {
      var before, last := trace[..|trace| - 1], trace[|trace| - 1];
      OrphansAreReplayedReversals(w, before);
      SerialRunsAreSound(w, before);
      OrphansOfCall(w, LedgerOf(w, before), last.op, last.ids);
    }
  }

  lemma {:induction false} OrphansOfCall(w: World, l: Ledger, op: Op, ids: Ids)
    requires Sound(w, l)
    requires Posts(Item(0, op, ids, AtomicOp(w, l, op, ids).1)) ==> FreshIds(l, ids)
    ensures Orphans(AtomicOp(w, l, op, ids).0)
         == Orphans(l) + if op.Reverse? && AtomicOp(w, l, op, ids).1.Ok? && op.key in l.keys then {op.txId} else {}
  {
    ChangeIsApplicable(w, l, op, ids);
    match ChangeOf(w, l, op)
    case Nothing =>
    case Mark(o) => OrphansMarked(w, l, o);
    case Add(p) => OrphansAdded(w, l, p, ids);
    case AddReversal(p, o) => OrphansReversed(w, l, p, o, ids);
  }

  /** The Reverse would be answered by a replay: its key is taken by a transfer that matches. */
  predicate ReversalReplays(w: World, l: Ledger, op: Op) {
    && op.Reverse? && ParamsOf(w, l, op).Ok? && CheckAccounts(w, ParamsOf(w, l, op).value) == None
    && op.key in l.keys && l.keys[op.key] in l.txs
    && SameTransfer(ParamsOf(w, l, op).value, l.txs[l.keys[op.key]])
  }

  /** That is when a Reverse succeeds although its key is taken. */
  lemma {:induction false} ReplayIsGuarded(w: World, l: Ledger, op: Op, ids: Ids)
    requires op.Reverse?
    ensures ReversalReplays(w, l, op) <==> AtomicOp(w, l, op, ids).1.Ok? && op.key in l.keys
  {
  }

  predicate ReplaysAt(w: World, trace: Trace, i: nat)
    requires i < |trace|
  {
    ReversalReplays(w, LedgerOf(w, trace[..i]), trace[i].op)
  }

  /** No Reverse met a matching transfer under its key. */
  ghost predicate ReversalKeysFresh(w: World, trace: Trace) { forall i :: 0 <= i < |trace| ==> !ReplaysAt(w, trace, i) }

  lemma {:induction false} NoEarlierReplay(w: World, trace: Trace)
    requires trace != []
    ensures ReversalKeysFresh(w, trace) <==>
      ReversalKeysFresh(w, trace[..|trace| - 1]) && !ReplaysAt(w, trace, |trace| - 1)
  {
    var n := |trace| - 1;
    forall i | 0 <= i < n ensures ReplaysAt(w, trace[..n], i) == ReplaysAt(w, trace, i) {
      assert trace[..n][..i] == trace[..i];
    }
    if ReversalKeysFresh(w, trace[..n]) && !ReplaysAt(w, trace, n) {
      forall i | 0 <= i < |trace| ensures !ReplaysAt(w, trace, i) {
        assert i < n ==> !ReplaysAt(w, trace[..n], i);
      }
    }
    if ReversalKeysFresh(w, trace) {
      forall i | 0 <= i < n ensures !ReplaysAt(w, trace[..n], i) {
        assert !ReplaysAt(w, trace, i);
      }
    }
  }

  lemma {:induction false} FreshKeysMeanNoReplays(w: World, trace: Trace)
    requires Serial(w, trace)
    ensures ReversalKeysFresh(w, trace) <==> ReplayedReversals(w, trace) == {}
  {
    if trace != [] {
      var before, last := trace[..|trace| - 1], trace[|trace| - 1];
      FreshKeysMeanNoReplays(w, before);
      NoEarlierReplay(w, trace);
      if last.op.Reverse? { ReplayIsGuarded(w, LedgerOf(w, before), last.op, last.ids); }
    }
  }

  ghost predicate ReversedHasReversal(l: Ledger) {
    forall o :: o in l.txs && l.txs[o].status == Reversed ==> exists r :: Undoes(l, r, o)
  }

  /** Every transaction marked reversed has its reversal if and only if no Reverse was given
      a key that was already taken. */
  lemma ReversedHasReversalExactly(w: World, trace: Trace)
    requires Serial(w, trace)
    ensures ReversedHasReversal(LedgerOf(w, trace)) <==> ReversalKeysFresh(w, trace)
  {
    var l := LedgerOf(w, trace);
    SerialRunsAreSound(w, trace);
    OrphansAreReplayedReversals(w, trace);
    FreshKeysMeanNoReplays(w, trace);
    if Orphans(l) == {} {
      forall o | o in l.txs && l.txs[o].status == Reversed ensures exists r :: Undoes(l, r, o) {
        assert o !in Orphans(l);
        var r :| r in l.txs && l.txs[r].reversalOf == Some(o);
        assert Undoes(l, r, o);
      }
    } else {
      var o :| o in Orphans(l);
      if r :| Undoes(l, r, o) { assert false; }
    }
  }

  /** Under fresh reversal keys the balance is what is in force, and nothing else. */
  lemma InForceUnderFreshKeys(w: World, trace: Trace, account: int)
    requires Serial(w, trace) && ReversalKeysFresh(w, trace)
    ensures Balance(LedgerOf(w, trace).entries, account) == InForceSum(LedgerOf(w, trace), account)
  {
    var l := LedgerOf(w, trace);
    BalanceIsWhatIsInForce(w, trace, account);
    OrphansAreReplayedReversals(w, trace);
    FreshKeysMeanNoReplays(w, trace);
    AllZero(l.txs.Keys, id => if id in l.txs && id in Orphans(l) then Signed(l.txs[id], account) else 0);
  }

  lemma {:induction false} AllZero(ids: set<int>, f: int -> int)
    requires forall x :: x in ids ==> f(x) == 0
    ensures SumOver(ids, f) == 0
    decreases ids
  {
    if ids != {} {
      var x := Pick(ids);
      AllZero(ids - {x}, f);
      assert SumOver(ids, f) == f(x) + SumOver(ids - {x}, f);
    }
  }

  // ---------------------------------------------------------------- overdrafts

  lemma ReversalDebitsPosted(w: World, l: Ledger, p: Params, ids: Ids, account: int)
    requires FreshIds(l, ids)
    ensures ReversalDebits(Posted(w, l, p, ids), account)
         == ReversalDebits(l, account) + if p.kind == TxReversal && p.from == account then p.amount else 0
  {
    var l' := Posted(w, l, p, ids);
    assert l'.txs.Keys == l.txs.Keys + {ids.tx};
    SumInsert(l.txs.Keys, ids.tx, id => ReversalDebit(l, account, id), id => ReversalDebit(l', account, id));
  }

  lemma ReversalDebitsMarked(l: Ledger, o: int, account: int)
    requires o in l.txs
    ensures ReversalDebits(MarkReversed(l, o), account) == ReversalDebits(l, account)
  {
    var l' := MarkReversed(l, o);
    assert l'.txs.Keys == l.txs.Keys;
    SumCongruent(l.txs.Keys, id => ReversalDebit(l, account, id), id => ReversalDebit(l', account, id));
  }

  lemma ReversalDebitsChange(w: World, l: Ledger, c: Change, ids: Ids, account: int)
    requires Sound(w, l) && Applicable(w, l, c, ids)
    ensures ReversalDebits(Changed(w, l, c, ids), account)
         == ReversalDebits(l, account)
            + if c.AddReversal? && c.p.from == account then c.p.amount else 0
  {
    match c
    case Nothing =>
    case Mark(o) => ReversalDebitsMarked(l, o, account);
    case Add(p) => ReversalDebitsPosted(w, l, p, ids, account);
    case AddReversal(p, o) =>
      ReversalDebitsPosted(w, l, p, ids, account);
      ReversalDebitsMarked(Posted(w, l, p, ids), o, account);
  }

  ghost predicate IsUser(w: World, account: int) {
    account in w.accounts && w.accounts[account].kind == User
  }

  lemma {:induction false} ReversalDebitsAreNatural(w: World, trace: Trace, account: int)
    requires Serial(w, trace)
    ensures ReversalDebits(LedgerOf(w, trace), account) >= 0
  {
    var l := LedgerOf(w, trace);
    SerialRunsAreSound(w, trace);
    forall id | id in l.txs.Keys ensures ReversalDebit(l, account, id) >= 0 {}
    NonNegative(l.txs.Keys, id => ReversalDebit(l, account, id));
  }

  predicate WrapsAt(w: World, trace: Trace, i: nat)
    requires i < |trace|
  {
    CallWraps(w, LedgerOf(w, trace[..i]), trace[i].op)
  }

  /** No subtraction of the run wraps around. */
  ghost predicate NoCallWraps(w: World, trace: Trace) { forall i :: 0 <= i < |trace| ==> !WrapsAt(w, trace, i) }

  lemma {:induction false} WrapsAtPrefix(w: World, trace: Trace, n: nat, i: nat)
    requires i < n <= |trace|
    ensures WrapsAt(w, trace[..n], i) == WrapsAt(w, trace, i)
  {
    assert trace[..n][..i] == trace[..i];
  }

  lemma {:induction false} NoEarlierWrap(w: World, trace: Trace)
    requires trace != []
    ensures NoCallWraps(w, trace) <==>
      NoCallWraps(w, trace[..|trace| - 1]) && !WrapsAt(w, trace, |trace| - 1)
  {
    var n := |trace| - 1;
    forall i | 0 <= i < n ensures WrapsAt(w, trace[..n], i) == WrapsAt(w, trace, i) {
      WrapsAtPrefix(w, trace, n, i);
    }
    if NoCallWraps(w, trace[..n]) && !WrapsAt(w, trace, n) {
      forall i | 0 <= i < |trace| ensures !WrapsAt(w, trace, i) {
        assert i < n ==> !WrapsAt(w, trace[..n], i);
      }
    }
    if NoCallWraps(w, trace) {
      forall i | 0 <= i < n ensures !WrapsAt(w, trace[..n], i) {
        assert !WrapsAt(w, trace, i);
      }
    }
  }

  /** A user account is overdrawn by no more than reversals took from it, as long as no
      subtraction wraps around. */
  lemma {:induction false} NoOverdraft(w: World, trace: Trace, account: int)
    requires Serial(w, trace) && NoCallWraps(w, trace) && IsUser(w, account)
    ensures Balance(LedgerOf(w, trace).entries, account) >= -ReversalDebits(LedgerOf(w, trace), account)
  {
    ReversalDebitsAreNatural(w, trace, account);
    if trace != [] {
      var before, last := trace[..|trace| - 1], trace[|trace| - 1];
      NoEarlierWrap(w, trace);
      assert !WrapsAt(w, trace, |trace| - 1);
      NoOverdraft(w, before, account);
      ReversalDebitsAreNatural(w, before, account);
      SerialRunsAreSound(w, before);
      OverdraftOfCall(w, LedgerOf(w, before), last.op, last.ids, account);
    }
  }

  lemma {:induction false} OverdraftOfCall(w: World, l: Ledger, op: Op, ids: Ids, account: int)
    requires Sound(w, l) && IsUser(w, account) && !CallWraps(w, l, op)
    requires Posts(Item(0, op, ids, AtomicOp(w, l, op, ids).1)) ==> FreshIds(l, ids)
    requires ReversalDebits(l, account) >= 0 && Balance(l.entries, account) >= -ReversalDebits(l, account)
    ensures var l' := AtomicOp(w, l, op, ids).0; Balance(l'.entries, account) >= -ReversalDebits(l', account)
  {
    var c := ChangeOf(w, l, op);
    ChangeIsApplicable(w, l, op, ids);
    ReversalDebitsChange(w, l, c, ids, account);
    if c.Add? || c.AddReversal? {
      BalanceAppendTwo(l.entries, DebitEntry(c.p, ids), CreditEntry(c.p, ids), account);
      if c.Add? && c.p.from == account { Int64TestWithoutBound(Balance(l.entries, account), c.p.amount); }
    }
  }

  /** The call is a transfer, deposit or withdrawal of its own that debits a user account. */
  ghost predicate OrdinaryDebit(w: World, item: Item) {
    Posts(item) && !item.op.Reverse? && IsUser(w, item.outcome.value.source)
  }

  /** An ordinary debit leaves the user account at zero or above if and only if the subtraction did
      not wrap around, that is, if the balance was at least amount - 2^63. */
  lemma {:induction false} OrdinaryDebitExactly(w: World, l: Ledger, item: Item)
    requires item.outcome == AtomicOp(w, l, item.op, item.ids).1 && OrdinaryDebit(w, item)
    ensures var account := item.outcome.value.source;
      && (Balance(AtomicOp(w, l, item.op, item.ids).0.entries, account) >= 0 <==> !CallWraps(w, l, item.op))
      && (CallWraps(w, l, item.op) <==> Balance(l.entries, account) < item.op.amount - TWO_63)
      && Balance(AtomicOp(w, l, item.op, item.ids).0.entries, account)
         == Balance(l.entries, account) - item.op.amount
  {
    var p := Prepare(w, item.op).value;
    BalanceAppendTwo(l.entries, DebitEntry(p, item.ids), CreditEntry(p, item.ids), p.from);
    Int64TestWithoutBound(Balance(l.entries, p.from), p.amount);
  }

  /** A call that wraps around is an accepted ordinary debit. */
  lemma {:induction false} WrappingCallIsDebit(w: World, l: Ledger, op: Op, ids: Ids)
    requires CallWraps(w, l, op)
    ensures OrdinaryDebit(w, Item(0, op, ids, AtomicOp(w, l, op, ids).1))
  {
    var p := ParamsOf(w, l, op).value;
    Int64TestWithoutBound(Balance(l.entries, p.from), p.amount);
  }

  /** The ordinary debit at a position of a run leaves its account at zero or above. */
  ghost predicate LeavesNoDebt(w: World, trace: Trace, i: nat)
    requires i < |trace|
  {
    OrdinaryDebit(w, trace[i]) ==> Balance(LedgerOf(w, trace[..i + 1]).entries, trace[i].outcome.value.source) >= 0
  }

  ghost predicate DebitsLeaveNoDebt(w: World, trace: Trace) {
    forall i :: 0 <= i < |trace| ==> LeavesNoDebt(w, trace, i)
  }

  /** No ordinary debit of a run, even one that empties the account, leaves its user account below
      zero, if and only if no subtraction of the run wraps around. */
  lemma {:induction false} OrdinaryDebitLeavesNoDebt(w: World, trace: Trace)
    requires Serial(w, trace)
    ensures DebitsLeaveNoDebt(w, trace) <==> NoCallWraps(w, trace)
  {
    forall i | 0 <= i < |trace| ensures LeavesNoDebt(w, trace, i) <==> !WrapsAt(w, trace, i) {
      DebtExactly(w, trace, i);
    }
    if NoCallWraps(w, trace) {
      forall i | 0 <= i < |trace| ensures LeavesNoDebt(w, trace, i) {
        assert !WrapsAt(w, trace, i);
      }
    }
    if DebitsLeaveNoDebt(w, trace) {
      forall i | 0 <= i < |trace| ensures !WrapsAt(w, trace, i) {
        assert LeavesNoDebt(w, trace, i);
      }
    }
  }

  lemma {:induction false} DebtExactly(w: World, trace: Trace, i: nat)
    requires Serial(w, trace) && i < |trace|
    ensures LeavesNoDebt(w, trace, i) <==> !WrapsAt(w, trace, i)
  {
    SerialAt(w, trace, i);
    var l, item := LedgerOf(w, trace[..i]), trace[i];
    if CallWraps(w, l, item.op) { WrappingCallIsDebit(w, l, item.op, item.ids); }
    if OrdinaryDebit(w, item) { OrdinaryDebitExactly(w, l, item); }
  }

  /** Where reversals took no more than 2^63 from the account, an ordinary debit of it keeps the law
      of the overdraft if and only if the subtraction does not wrap around. */
  lemma {:induction false} WrapDecidesOverdraft(w: World, trace: Trace, item: Item)
    requires Serial(w, trace) && item.outcome == AtomicOp(w, LedgerOf(w, trace), item.op, item.ids).1
    requires OrdinaryDebit(w, item) && FreshIds(LedgerOf(w, trace), item.ids)
    requires ReversalDebits(LedgerOf(w, trace), item.outcome.value.source) <= TWO_63
    ensures var account, l' := item.outcome.value.source, AtomicOp(w, LedgerOf(w, trace), item.op, item.ids).0;
      Balance(l'.entries, account) >= -ReversalDebits(l', account) <==> !CallWraps(w, LedgerOf(w, trace), item.op)
  {
    var l := LedgerOf(w, trace);
    var account := item.outcome.value.source;
    ReversalDebitsAreNatural(w, trace, account);
    OrdinaryDebitExactly(w, l, item);
    ReversalDebitsPosted(w, l, Prepare(w, item.op).value, item.ids, account);
  }

  // ---------------------------------------------------------------- machine arithmetic

  ghost predicate AmountsAtMost(l: Ledger, m: int) {
    forall id :: id in l.txs ==> l.txs[id].amount <= m
  }

  predicate AddsTx(c: Change) { c.Add? || c.AddReversal? }

  /** The number of committed transactions. */
  ghost function Count(l: Ledger): nat { |l.txs.Keys| }

  lemma ChangeCount(w: World, l: Ledger, c: Change, ids: Ids)
    requires Applicable(w, l, c, ids)
    ensures Count(Changed(w, l, c, ids)) == Count(l) + if AddsTx(c) then 1 else 0
  {
    var keys := l.txs.Keys;
    match c {
      case Nothing =>
      case Mark(o) => assert MarkReversed(l, o).txs.Keys == keys;
      case Add(p) => assert Posted(w, l, p, ids).txs.Keys == keys + {ids.tx};
      case AddReversal(p, o) => assert MarkReversed(Posted(w, l, p, ids), o).txs.Keys == keys + {ids.tx};
    }
  }

  lemma AmountsBefore(w: World, l: Ledger, c: Change, ids: Ids, m: int)
    requires Applicable(w, l, c, ids) && AmountsAtMost(Changed(w, l, c, ids), m)
    ensures AmountsAtMost(l, m)
    ensures AddsTx(c) ==> c.p.amount <= m
  {
    var txs := Changed(w, l, c, ids).txs;
    forall id | id in l.txs ensures l.txs[id].amount <= m {
      assert id in txs && txs[id].amount == l.txs[id].amount;
    }
    if AddsTx(c) {
      assert ids.tx in txs && txs[ids.tx].amount == c.p.amount;
    }
  }

  /** Each of N transactions moves a balance by at most M. */
  lemma {:induction false} BalanceBound(w: World, trace: Trace, account: int, m: int)
    requires Serial(w, trace) && AmountsAtMost(LedgerOf(w, trace), m)
    ensures var l := LedgerOf(w, trace);
      -Times(Count(l), m) <= Balance(l.entries, account) <= Times(Count(l), m)
  {
    if trace != [] {
      var before, last := trace[..|trace| - 1], trace[|trace| - 1];
      SerialRunsAreSound(w, before);
      var l := LedgerOf(w, before);
      var c := ChangeOf(w, l, last.op);
      ChangeIsApplicable(w, l, last.op, last.ids);
      ChangeCount(w, l, c, last.ids);
      AmountsBefore(w, l, c, last.ids, m);
      BalanceBound(w, before, account, m);
      BalanceMoves(w, l, c, last.ids, account);
    }
  }

  lemma BalanceMoves(w: World, l: Ledger, c: Change, ids: Ids, account: int)
    requires Applicable(w, l, c, ids)
    ensures var moved := Balance(Changed(w, l, c, ids).entries, account) - Balance(l.entries, account);
      if AddsTx(c) then -c.p.amount <= moved <= c.p.amount else moved == 0
  {
    if AddsTx(c) {
      BalanceAppendTwo(l.entries, DebitEntry(c.p, ids), CreditEntry(c.p, ids), account);
    }
  }

  function Times(n: nat, m: int): int { if n == 0 then 0 else Times(n - 1, m) + m }

  lemma {:induction false} TimesIsProduct(n: nat, m: int)
    ensures Times(n, m) == n * m
  {
    if n > 0 {
      TimesIsProduct(n - 1, m);
    }
  }

  /** While (N + 1) * M stays within 2^63, every balance fits a 64-bit integer and the
      service's test on machine integers is the comparison it is meant to be. */
  lemma {:induction false} Int64TestIsExact(w: World, trace: Trace, account: int, amount: int, m: int)
    requires Serial(w, trace) && AmountsAtMost(LedgerOf(w, trace), m)
    requires 0 < amount <= m && (Count(LedgerOf(w, trace)) + 1) * m <= TWO_63
    ensures var balance := Balance(LedgerOf(w, trace).entries, account);
      FitsInt64(balance) && (Wrap64(balance - amount) < 0 <==> balance < amount)
  {
    TimesIsProduct(Count(LedgerOf(w, trace)) + 1, m);
    TestIsExact(w, trace, account, amount, m);
  }

  /** (N + 1) * M stays within 2^63. */
  ghost predicate WithinBound(l: Ledger, m: int) { Times(Count(l) + 1, m) <= TWO_63 }

  lemma {:induction false} TestIsExact(w: World, trace: Trace, account: int, amount: int, m: int)
    requires Serial(w, trace) && AmountsAtMost(LedgerOf(w, trace), m)
    requires 0 < amount <= m && WithinBound(LedgerOf(w, trace), m)
    ensures var balance := Balance(LedgerOf(w, trace).entries, account);
      FitsInt64(balance) && (Wrap64(balance - amount) < 0 <==> balance < amount)
  {
    var l := LedgerOf(w, trace);
    BalanceBound(w, trace, account, m);
    NoWrap(Balance(l.entries, account), amount, Times(Count(l), m), m);
  }

  lemma NoWrap(balance: int, amount: int, bound: int, m: int)
    requires -bound <= balance <= bound && bound + m <= TWO_63 && 0 < amount <= m
    ensures FitsInt64(balance) && (Wrap64(balance - amount) < 0 <==> balance < amount)
  {
    WrapIsIdentity(balance - amount);
  }

  /** Without the bound the test is wrong exactly when the subtraction wraps, which takes a
      balance below -2^63 + amount. */
  lemma Int64TestWithoutBound(balance: int, amount: int)
    requires FitsInt64(balance) && 0 < amount < TWO_63
    ensures (Wrap64(balance - amount) < 0 <==> balance < amount) <==> balance >= -TWO_63 + amount
  {
    if balance - amount >= -TWO_63 {
      WrapIsIdentity(balance - amount);
    } else {
      WrapIsIdentity(balance - amount + 2 * TWO_63);
      assert (balance - amount + 2 * TWO_63 + TWO_63) % (2 * TWO_63) == (balance - amount + TWO_63) % (2 * TWO_63);
    }
  }

  lemma WrapIsIdentity(n: int)
    requires FitsInt64(n)
    ensures Wrap64(n) == n
  {
  }
}
