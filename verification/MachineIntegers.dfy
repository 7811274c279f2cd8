/** What the money operations would do on unbounded integers, and exactly when the code, which
    computes on 64-bit integers, does the same. */
module MachineIntegers {
  import opened Records
  import opened Operations
  import opened LedgerLaws
  import opened Balances
  import opened Sums
  import Machine
  import Isolation
  import Serializability

  /** The transfer core with a comparison that neither fails nor wraps around. */
  function PostUnbounded(w: World, l: Ledger, p: Params, ids: Ids): (Ledger, Outcome) {
    if !ReadsBalance(w, l, p) then Post(w, l, p, ids)
    else if Balance(l.entries, p.from) < p.amount && !MayOverdraw(w, p) then (l, Err(NotEnough))
    else (Posted(w, l, p, ids), Ok(ReceiptOf(NewTx(p, ids.tx), false)))
  }

  function AtomicOpUnbounded(w: World, l: Ledger, op: Op, ids: Ids): (Ledger, Outcome) {
    if op.Reverse? then
      match PrepareReversal(l.txs, op.txId, op.key) {
        case Err(e) => (l, Err(e))
        case Ok(p) =>
          var (l', outcome) := PostUnbounded(w, l, p, ids);
          if outcome.Err? then (l, outcome)
          else if op.txId in l'.txs then (MarkReversed(l', op.txId), outcome)
          else (l, Err(StorageFailure))
      }
    else
      match Prepare(w, op) {
        case Err(e) => (l, Err(e))
        case Ok(p) => PostUnbounded(w, l, p, ids)
      }
  }

  // ---------------------------------------------------------------- one call

  predicate CallDeviates(w: World, l: Ledger, op: Op) { CallUnreadable(w, l, op) || CallWraps(w, l, op) }

  /** The code does and returns what unbounded integers would make it do if and only if it can read
      the balance and does not wrap around. */
  lemma {:induction false} CallDeviatesExactly(w: World, l: Ledger, op: Op, ids: Ids)
    ensures AtomicOp(w, l, op, ids) == AtomicOpUnbounded(w, l, op, ids) <==> !CallDeviates(w, l, op)
    ensures AtomicOp(w, l, op, ids).1 == AtomicOpUnbounded(w, l, op, ids).1 <==> !CallDeviates(w, l, op)
  {
    if ParamsOf(w, l, op).Ok? {
      var p := ParamsOf(w, l, op).value;
      if Readable(l, p) && !MayOverdraw(w, p) { Int64TestWithoutBound(Balance(l.entries, p.from), p.amount); }
    }
  }

  // ---------------------------------------------------------------- whole runs

  function LedgerUnbounded(w: World, trace: Trace): Ledger {
    if trace == [] then EMPTY_LEDGER
    else
      var last := trace[|trace| - 1];
      AtomicOpUnbounded(w, LedgerUnbounded(w, trace[..|trace| - 1]), last.op, last.ids).0
  }

  predicate SerialUnbounded(w: World, trace: Trace) {
    trace == [] ||
    var before, last := trace[..|trace| - 1], trace[|trace| - 1];
    && SerialUnbounded(w, before)
    && last.outcome == AtomicOpUnbounded(w, LedgerUnbounded(w, before), last.op, last.ids).1
    && (Posts(last) ==> FreshIds(LedgerUnbounded(w, before), last.ids))
  }

  predicate DeviatesAt(w: World, trace: Trace, i: nat)
    requires i < |trace|
  {
    CallDeviates(w, LedgerOf(w, trace[..i]), trace[i].op)
  }

  ghost predicate NoCallDeviates(w: World, trace: Trace) { forall i :: 0 <= i < |trace| ==> !DeviatesAt(w, trace, i) }

  lemma {:induction false} DeviatesAtPrefix(w: World, trace: Trace, n: nat, i: nat)
    requires i < n <= |trace|
    ensures DeviatesAt(w, trace[..n], i) == DeviatesAt(w, trace, i)
  {
    assert trace[..n][..i] == trace[..i];
  }

  lemma {:induction false} NoEarlierDeviation(w: World, trace: Trace)
    requires trace != []
    ensures NoCallDeviates(w, trace) <==>
      NoCallDeviates(w, trace[..|trace| - 1]) && !DeviatesAt(w, trace, |trace| - 1)
  {
    var n := |trace| - 1;
    forall i | 0 <= i < n ensures DeviatesAt(w, trace[..n], i) == DeviatesAt(w, trace, i) {
      DeviatesAtPrefix(w, trace, n, i);
    }
    if NoCallDeviates(w, trace[..n]) && !DeviatesAt(w, trace, n) {
      forall i | 0 <= i < |trace| ensures !DeviatesAt(w, trace, i) {
        assert i < n ==> !DeviatesAt(w, trace[..n], i);
      }
    }
    if NoCallDeviates(w, trace) {
      forall i | 0 <= i < n ensures !DeviatesAt(w, trace[..n], i) {
        assert !DeviatesAt(w, trace, i);
      }
    }
  }

  /** A run of the code is one of the runs on unbounded integers, with the same tables, if and only if
      no call of it deviates. */
  lemma {:induction false} RunsAgreeExactly(w: World, trace: Trace)
    requires Serial(w, trace)
    ensures SerialUnbounded(w, trace) <==> NoCallDeviates(w, trace)
    ensures SerialUnbounded(w, trace) ==> LedgerOf(w, trace) == LedgerUnbounded(w, trace)
  {
    if trace != [] {
      var before, last := trace[..|trace| - 1], trace[|trace| - 1];
      RunsAgreeExactly(w, before);
      NoEarlierDeviation(w, trace);
      CallDeviatesExactly(w, LedgerOf(w, before), last.op, last.ids);
    }
  }

  ghost predicate CallsAtMost(trace: Trace, m: int) {
    forall i :: 0 <= i < |trace| && !trace[i].op.Reverse? ==> trace[i].op.amount <= m
  }

  lemma {:induction false} AmountsOfCalls(w: World, trace: Trace, m: int)
    requires Serial(w, trace) && CallsAtMost(trace, m)
    ensures AmountsAtMost(LedgerOf(w, trace), m)
  {
    if trace != [] {
      var before, last := trace[..|trace| - 1], trace[|trace| - 1];
      assert forall i :: 0 <= i < |before| ==> before[i] == trace[i];
      AmountsOfCalls(w, before, m);
      AmountOfCall(w, before, last, m);
    }
  }

  lemma {:induction false} AmountOfCall(w: World, before: Trace, last: Item, m: int)
    requires Serial(w, before) && AmountsAtMost(LedgerOf(w, before), m) && (last.op.Reverse? || last.op.amount <= m)
    requires last.outcome == AtomicOp(w, LedgerOf(w, before), last.op, last.ids).1
    requires Posts(last) ==> FreshIds(LedgerOf(w, before), last.ids)
    ensures AmountsAtMost(AtomicOp(w, LedgerOf(w, before), last.op, last.ids).0, m)
  {
    SerialRunsAreSound(w, before);
    ChangeIsApplicable(w, LedgerOf(w, before), last.op, last.ids);
  }

  lemma {:induction false} NoDeviationWithinBound(w: World, trace: Trace, op: Op, m: int)
    requires Serial(w, trace) && CallsAtMost(trace, m) && (op.Reverse? || op.amount <= m)
    requires 0 < m && WithinBound(LedgerOf(w, trace), m)
    ensures !CallDeviates(w, LedgerOf(w, trace), op)
  {
    if ParamsOf(w, LedgerOf(w, trace), op).Ok? {
      var p := ParamsOf(w, LedgerOf(w, trace), op).value;
      AmountsOfCalls(w, trace, m);
      BalanceBound(w, trace, p.from, m);
      assert op.Reverse? || p.amount <= m;
    }
  }

  /** While (N + 1) * M stays within 2^63 no call deviates: for N transactions and calls of at most
      M each, the code runs as on unbounded integers. */
  lemma {:induction false} BoundedRunsAreExact(w: World, trace: Trace, m: int)
    requires Serial(w, trace) && CallsAtMost(trace, m)
    requires 0 < m && (Count(LedgerOf(w, trace)) + 1) * m <= TWO_63
    ensures NoCallDeviates(w, trace) && NoCallWraps(w, trace)
    ensures SerialUnbounded(w, trace) && LedgerOf(w, trace) == LedgerUnbounded(w, trace)
  {
    TimesIsProduct(Count(LedgerOf(w, trace)) + 1, m);
    BoundedRunsAgree(w, trace, m);
    RunsAgreeExactly(w, trace);
    forall i | 0 <= i < |trace| ensures !WrapsAt(w, trace, i) {
      assert !DeviatesAt(w, trace, i);
    }
  }

  lemma {:induction false} BoundedRunsAgree(w: World, trace: Trace, m: int)
    requires Serial(w, trace) && CallsAtMost(trace, m)
    requires 0 < m && WithinBound(LedgerOf(w, trace), m)
    ensures NoCallDeviates(w, trace)
  {
    if trace != [] {
      var before, last := trace[..|trace| - 1], trace[|trace| - 1];
      BoundBefore(w, before, last, m);
      assert forall i :: 0 <= i < |before| ==> before[i] == trace[i];
      BoundedRunsAgree(w, before, m);
      NoDeviationWithinBound(w, before, last.op, m);
      NoEarlierDeviation(w, trace);
    }
  }

  lemma {:induction false} BoundBefore(w: World, before: Trace, last: Item, m: int)
    requires 0 < m && WithinBound(AtomicOp(w, LedgerOf(w, before), last.op, last.ids).0, m)
    ensures WithinBound(LedgerOf(w, before), m)
  {
    var l, l' := LedgerOf(w, before), AtomicOp(w, LedgerOf(w, before), last.op, last.ids).0;
    CountOnlyGrows(w, before, last);
    TimesMonotone(Count(l) + 1, Count(l') + 1, m);
  }

  lemma {:induction false} TimesMonotone(a: nat, b: nat, m: int)
    requires a <= b && 0 < m
    ensures Times(a, m) <= Times(b, m)
    decreases b
  {
    if a < b { TimesMonotone(a, b - 1, m); }
  }

  lemma {:induction false} CountOnlyGrows(w: World, before: Trace, last: Item)
    ensures Count(LedgerOf(w, before)) <= Count(AtomicOp(w, LedgerOf(w, before), last.op, last.ids).0)
  {
    var l := LedgerOf(w, before);
    var l' := AtomicOp(w, l, last.op, last.ids).0;
    assert l.txs.Keys <= l'.txs.Keys;
    SubsetSize(l.txs.Keys, l'.txs.Keys);
  }

  // ---------------------------------------------------------------- a debit that wraps around

  const MAX := TWO_63 - 1

  const BANK := World(
    map[1 := Account("USD", User), 2 := Account("USD", User), 3 := Account("USD", System), 4 := Account("USD", User)],
    map["ATM_IN_USD" := 3], 10)

  function IdsOf(n: int): Ids { Ids(n, 2 * n - 1, 2 * n, 2 * n - 1, 2 * n) }

  function ItemOf(op: Op, p: Params, n: int): Item { Item(n, op, IdsOf(n), Ok(ReceiptOf(NewTx(p, n), false))) }

  function Effect(p: Params, account: int): int {
    if account == p.to then p.amount else if account == p.from then -p.amount else 0
  }

  /** The tables that a successful call leaves behind. */
  ghost predicate Follows(l: Ledger, l': Ledger, op: Op, p: Params, n: int) {
    && l'.keys == l.keys[p.key := n] && l'.txs.Keys == l.txs.Keys + {n} && l'.txs[n] == NewTx(p, n)
    && (forall id :: id in l.txs && !(op.Reverse? && id == op.txId) ==> l'.txs[id] == l.txs[id])
    && (forall a :: Balance(l'.entries, a) == Balance(l.entries, a) + Effect(p, a))
    && (forall a :: ReversalDebits(l', a)
          == ReversalDebits(l, a) + if p.kind == TxReversal && p.from == a then p.amount else 0)
  }

  /** A call that finds its balance readable and, unless it may overdraw, sufficient. */
  ghost predicate WillPost(l: Ledger, op: Op, p: Params, n: int) {
    && ParamsOf(BANK, l, op) == Ok(p) && p.from != p.to
    && ReadsBalance(BANK, l, p) && FitsInt64(Balance(l.entries, p.from))
    && (MayOverdraw(BANK, p) || Wrap64(Balance(l.entries, p.from) - p.amount) >= 0)
    && n !in l.txs && (op.Reverse? ==> op.txId in l.txs)
  }

  lemma {:induction false} PostedFollows(l: Ledger, op: Op, p: Params, n: int) returns (l': Ledger)
    requires WillPost(l, op, p, n)
    ensures Follows(l, l', op, p, n)
    ensures AtomicOp(BANK, l, op, IdsOf(n)) == (l', ItemOf(op, p, n).outcome)
  {
    var posted := Posted(BANK, l, p, IdsOf(n));
    l' := if op.Reverse? then MarkReversed(posted, op.txId) else posted;
    forall a ensures Balance(l'.entries, a) == Balance(l.entries, a) + Effect(p, a) {
      BalanceAppendTwo(l.entries, DebitEntry(p, IdsOf(n)), CreditEntry(p, IdsOf(n)), a);
    }
    forall a
      ensures ReversalDebits(l', a)
           == ReversalDebits(l, a) + if p.kind == TxReversal && p.from == a then p.amount else 0
    {
      ReversalDebitsPosted(BANK, l, p, IdsOf(n), a);
      if op.Reverse? { ReversalDebitsMarked(posted, op.txId, a); }
    }
  }

  lemma {:induction false} OneCall(t: Trace, l: Ledger, op: Op, p: Params, n: int) returns (t': Trace, l': Ledger)
    requires Serial(BANK, t) && LedgerOf(BANK, t) == l && WillPost(l, op, p, n)
    ensures t' == t + [ItemOf(op, p, n)] && Serial(BANK, t') && LedgerOf(BANK, t') == l'
    ensures Follows(l, l', op, p, n)
  {
    l' := PostedFollows(l, op, p, n);
    t' := AppendCall(t, l, ItemOf(op, p, n), l');
  }

  lemma {:induction false} AppendCall(t: Trace, l: Ledger, item: Item, l': Ledger) returns (t': Trace)
    requires Serial(BANK, t) && LedgerOf(BANK, t) == l && FreshIds(l, item.ids)
    requires AtomicOp(BANK, l, item.op, item.ids) == (l', item.outcome)
    ensures t' == t + [item] && Serial(BANK, t') && LedgerOf(BANK, t') == l'
  {
    t' := t + [item];
    assert t'[..|t|] == t;
  }

  lemma EmptyTables() returns (t: Trace, l: Ledger)
    ensures t == [] && Serial(BANK, t) && LedgerOf(BANK, t) == l
    ensures l.keys == map[] && l.txs == map[]
    ensures forall a :: Balance(l.entries, a) == 0 && ReversalDebits(l, a) == 0
  {
    t, l := [], EMPTY_LEDGER;
    forall a ensures ReversalDebits(EMPTY_LEDGER, a) == 0 {
      AllZero({}, id => ReversalDebit(EMPTY_LEDGER, a, id));
    }
  }

  lemma {:induction false} MoneyComesIn() returns (t: Trace, l: Ledger)
    ensures Serial(BANK, t) && LedgerOf(BANK, t) == l && |t| == 1 && t[0].op == Deposit(1, MAX, "ATM", "k0")
    ensures l.keys.Keys == {"k0"} && l.txs.Keys == {1}
    ensures Balance(l.entries, 1) == MAX && Balance(l.entries, 2) == 0 && ReversalDebits(l, 2) == 0
  {
    assert "ATM" + "_IN_" + "USD" == "ATM_IN_USD";
    t, l := EmptyTables();
    t, l := OneCall(t, l, Deposit(1, MAX, "ATM", "k0"), Params(3, 1, MAX, TxDeposit, "k0", None), 1);
  }

  lemma {:induction false} MoneyMoves() returns (t: Trace, l: Ledger)
    ensures Serial(BANK, t) && LedgerOf(BANK, t) == l && |t| == 2
    ensures t[0].op == Deposit(1, MAX, "ATM", "k0") && t[1].op == Transfer(1, 2, MAX, "k1")
    ensures l.keys.Keys == {"k0", "k1"} && l.txs.Keys == {1, 2}
    ensures l.txs[2] == NewTx(Params(1, 2, MAX, TxTransfer, "k1", None), 2)
    ensures Balance(l.entries, 2) == MAX && ReversalDebits(l, 2) == 0
  {
    t, l := MoneyComesIn();
    t, l := OneCall(t, l, Transfer(1, 2, MAX, "k1"), Params(1, 2, MAX, TxTransfer, "k1", None), 2);
  }

  lemma {:induction false} MoneyMovesOn() returns (t: Trace, l: Ledger)
    ensures Serial(BANK, t) && LedgerOf(BANK, t) == l && |t| == 3
    ensures t[0].op == Deposit(1, MAX, "ATM", "k0") && t[1].op == Transfer(1, 2, MAX, "k1")
    ensures t[2].op == Transfer(2, 4, MAX, "k2")
    ensures l.keys.Keys == {"k0", "k1", "k2"} && l.txs.Keys == {1, 2, 3}
    ensures l.txs[2] == NewTx(Params(1, 2, MAX, TxTransfer, "k1", None), 2)
    ensures Balance(l.entries, 2) == 0 && ReversalDebits(l, 2) == 0
  {
    t, l := MoneyMoves();
    t, l := OneCall(t, l, Transfer(2, 4, MAX, "k2"), Params(2, 4, MAX, TxTransfer, "k2", None), 3);
  }

  lemma {:induction false} ReversalOverdraws() returns (t: Trace, l: Ledger)
    ensures Serial(BANK, t) && LedgerOf(BANK, t) == l && |t| == 4
    ensures t[0].op == Deposit(1, MAX, "ATM", "k0") && t[1].op == Transfer(1, 2, MAX, "k1")
    ensures t[2].op == Transfer(2, 4, MAX, "k2") && t[3].op == Reverse(2, "k3")
    ensures l.keys.Keys == {"k0", "k1", "k2", "k3"} && l.txs.Keys == {1, 2, 3, 4}
    ensures Balance(l.entries, 2) == -MAX && ReversalDebits(l, 2) == MAX
  {
    t, l := MoneyMovesOn();
    t, l := OneCall(t, l, Reverse(2, "k3"), Params(2, 1, MAX, TxReversal, "k3", Some(2)), 4);
  }

  /** Five calls with amounts of at most 2^63 - 1 after which a user account is overdrawn by more
      than reversals took from it: a transfer of 2 from a balance of 1 - 2^63 is accepted. */
  lemma {:induction false} WrappedDebitOverdraws() returns (t: Trace)
    ensures Serial(BANK, t) && |t| == 5 && IsUser(BANK, 2)
    ensures t[0].op == Deposit(1, MAX, "ATM", "k0") && t[1].op == Transfer(1, 2, MAX, "k1")
    ensures t[2].op == Transfer(2, 4, MAX, "k2") && t[3].op == Reverse(2, "k3")
    ensures t[4].op == Transfer(2, 4, 2, "k4") && Posts(t[4])
    ensures Balance(LedgerOf(BANK, t[..4]).entries, 2) == 1 - TWO_63
    ensures var l := LedgerOf(BANK, t); Balance(l.entries, 2) == -1 - TWO_63 < -ReversalDebits(l, 2)
  {
    var before, l := ReversalOverdraws();
    t, l := WrappingCall(before, l, "k4", 5);
    assert t[..4] == before;
  }

  lemma {:induction false} WrappingCall(before: Trace, l: Ledger, key: string, n: int) returns (t: Trace, l': Ledger)
    requires Serial(BANK, before) && LedgerOf(BANK, before) == l
    requires key !in l.keys && n !in l.txs && Balance(l.entries, 2) == -MAX
    ensures Serial(BANK, t) && LedgerOf(BANK, t) == l' && |t| == |before| + 1 && t[..|before|] == before
    ensures t[|before|].op == Transfer(2, 4, 2, key) && Posts(t[|before|]) && CallWraps(BANK, l, t[|before|].op)
    ensures Balance(l'.entries, 2) == -1 - TWO_63 && ReversalDebits(l', 2) == ReversalDebits(l, 2)
  {
    assert Wrap64(-MAX - 2) == MAX;
    t, l' := OneCall(before, l, Transfer(2, 4, 2, key), Params(2, 4, 2, TxTransfer, key, None), n);
  }

  // ---------------------------------------------------------------- a wrap that overdraws nothing

  /** A key of length n. */
  function Key(n: nat): (key: string)
    ensures |key| == n
  {
    seq(n, i => 'k')
  }

  /** The run has used transaction ids and key lengths below n only. */
  ghost predicate RunsTo(t: Trace, l: Ledger, n: nat) {
    Serial(BANK, t) && LedgerOf(BANK, t) == l && UsesBelow(l, n)
  }

  ghost predicate UsesBelow(l: Ledger, n: nat) {
    (forall id :: id in l.txs ==> id < n) && (forall k :: k in l.keys ==> |k| < n)
  }

  lemma {:induction false} UsesOneMore(l: Ledger, l': Ledger, key: string, n: nat)
    requires UsesBelow(l, n) && |key| == n && l'.keys == l.keys[key := n] && l'.txs.Keys == l.txs.Keys + {n}
    ensures UsesBelow(l', n + 1)
  {
    forall id | id in l'.txs ensures id < n + 1 { assert id in l.txs.Keys || id == n; }
  }

  lemma {:induction false} NextCall(t: Trace, l: Ledger, op: Op, p: Params, n: nat) returns (t': Trace, l': Ledger)
    requires RunsTo(t, l, n) && p.key == Key(n) && ParamsOf(BANK, l, op) == Ok(p) && p.from != p.to
    requires CheckAccounts(BANK, p) == None && FitsInt64(Balance(l.entries, p.from))
    requires MayOverdraw(BANK, p) || 0 <= p.amount <= Balance(l.entries, p.from)
    requires op.Reverse? ==> op.txId in l.txs
    ensures RunsTo(t', l', n + 1) && Follows(l, l', op, p, n)
  {
    if !MayOverdraw(BANK, p) { WrapIsIdentity(Balance(l.entries, p.from) - p.amount); }
    t', l' := OneCall(t, l, op, p, n);
    UsesOneMore(l, l', p.key, n);
  }

  /** User 2 gets a deposit. */
  lemma {:induction false} NextDeposit(t: Trace, l: Ledger, n: nat) returns (t': Trace, l': Ledger)
    requires RunsTo(t, l, n) && Balance(l.entries, 3) == 0
    ensures RunsTo(t', l', n + 1) && n in l'.txs && l'.txs[n] == NewTx(Params(3, 2, MAX, TxDeposit, Key(n), None), n)
    ensures Balance(l'.entries, 2) == Balance(l.entries, 2) + MAX && Balance(l'.entries, 3) == -MAX
    ensures ReversalDebits(l', 2) == ReversalDebits(l, 2)
  {
    DepositIsPlanned(l, Key(n));
    t', l' := NextCall(t, l, Deposit(2, MAX, "ATM", Key(n)), Params(3, 2, MAX, TxDeposit, Key(n), None), n);
  }

  lemma {:induction false} DepositIsPlanned(l: Ledger, key: string)
    ensures var p := Params(3, 2, MAX, TxDeposit, key, None);
      && ParamsOf(BANK, l, Deposit(2, MAX, "ATM", key)) == Ok(p)
      && CheckAccounts(BANK, p) == None && MayOverdraw(BANK, p)
  {
    assert "ATM" + "_IN_" + "USD" == "ATM_IN_USD";
  }

  /** Deposit `d` of user 2 is reversed. */
  lemma {:induction false} NextReversal(t: Trace, l: Ledger, n: nat, d: nat) returns (t': Trace, l': Ledger)
    requires RunsTo(t, l, n) && Balance(l.entries, 2) == 0 && Balance(l.entries, 3) == -MAX
    requires d in l.txs && l.txs[d] == NewTx(Params(3, 2, MAX, TxDeposit, Key(d), None), d)
    ensures RunsTo(t', l', n + 1)
    ensures Balance(l'.entries, 2) == -MAX && Balance(l'.entries, 3) == 0
    ensures ReversalDebits(l', 2) == ReversalDebits(l, 2) + MAX
  {
    t', l' := NextCall(t, l, Reverse(d, Key(n)), Params(2, 3, MAX, TxReversal, Key(n), Some(d)), n);
  }

  /** The first deposit is spent and then reversed. */
  lemma {:induction false} SpentAndReversed() returns (t: Trace, l: Ledger)
    ensures RunsTo(t, l, 4)
    ensures Balance(l.entries, 2) == -MAX && Balance(l.entries, 3) == 0 && ReversalDebits(l, 2) == MAX
  {
    t, l := EmptyTables();
    t, l := NextDeposit(t, l, 1);
    t, l := Spends(t, l, 2);
    t, l := NextReversal(t, l, 3, 1);
  }

  lemma {:induction false} Spends(t: Trace, l: Ledger, n: nat) returns (t': Trace, l': Ledger)
    requires RunsTo(t, l, n) && Balance(l.entries, 2) == MAX
    ensures RunsTo(t', l', n + 1) && Balance(l'.entries, 2) == 0 && Balance(l'.entries, 3) == Balance(l.entries, 3)
    ensures ReversalDebits(l', 2) == ReversalDebits(l, 2)
    ensures 1 in l.txs ==> 1 in l'.txs && l'.txs[1] == l.txs[1]
  {
    t', l' := NextCall(t, l, Transfer(2, 4, MAX, Key(n)), Params(2, 4, MAX, TxTransfer, Key(n), None), n);
  }

  lemma {:induction false} ThreeReversals() returns (t: Trace, l: Ledger)
    ensures RunsTo(t, l, 8) && Balance(l.entries, 2) == -MAX && ReversalDebits(l, 2) == 3 * MAX
  {
    t, l := SpentAndReversed();
    t, l := NextDeposit(t, l, 4);
    t, l := NextReversal(t, l, 5, 4);
    t, l := NextDeposit(t, l, 6);
    t, l := NextReversal(t, l, 7, 6);
  }

  /** A subtraction that wraps around need not break the law of the overdraft: here reversals have
      taken more from the account than it is overdrawn by. */
  lemma {:induction false} WrapWithoutOverdraft() returns (t: Trace)
    ensures Serial(BANK, t) && t != [] && IsUser(BANK, 2) && WrapsAt(BANK, t, |t| - 1)
    ensures t[|t| - 1].op == Transfer(2, 4, 2, Key(8)) && Posts(t[|t| - 1])
    ensures var l := LedgerOf(BANK, t);
      Balance(l.entries, 2) == -1 - TWO_63 && ReversalDebits(l, 2) == 3 * MAX
      && Balance(l.entries, 2) >= -ReversalDebits(l, 2)
  {
    var before, l := ThreeReversals();
    t, l := WrappingCall(before, l, Key(8), 8);
    assert t[..|t| - 1] == before;
  }

  // ---------------------------------------------------------------- every interleaving

  lemma PlannedAmountIsPositive(w: World, s: Machine.State, pid: int)
    requires Isolation.Core(w, s) && pid in s.procs && s.procs[pid].pc == Machine.ReadBalance
    ensures s.procs[pid].params.amount > 0
  {
    SerialRunsAreSound(w, s.trace);
    PlannedIsPositive(w, s.ledger, s.procs[pid]);
  }

  lemma PlannedIsPositive(w: World, l: Ledger, p: Machine.Proc)
    requires Sound(w, l) && Isolation.Planned(w, l, p)
    ensures p.params.amount > 0
  {
  }

  /** The balance can be read, and the test on machine integers comes out as on unbounded ones. */
  predicate DecidesExactly(w: World, l: Ledger, p: Params) {
    Readable(l, p) && (Affordable(w, l, p) <==> Balance(l.entries, p.from) >= p.amount || MayOverdraw(w, p))
  }

  /** In every interleaving, a call about to decide on the balance decides on 64-bit integers as
      on unbounded ones, as long as (N + 1) * M stays within 2^63. */
  lemma {:induction false} EveryDecisionIsExact(w: World, run: seq<Machine.Action>, pid: int, m: int)
    requires Machine.Legal(w, run)
    requires var s := Machine.Execute(w, run);
      && pid in s.procs && s.procs[pid].pc == Machine.ReadBalance && s.procs[pid].params.amount <= m
      && AmountsAtMost(s.ledger, m) && WithinBound(s.ledger, m)
    ensures var s := Machine.Execute(w, run); DecidesExactly(w, s.ledger, s.procs[pid].params)
  {
    var s := Machine.Execute(w, run);
    Isolation.RunsKeepCore(w, run);
    PlannedAmountIsPositive(w, s, pid);
    Serializability.InterleavingsAreSerializable(w, run);
    DecisionIsExact(w, s.trace, s.procs[pid].params, m);
  }

  lemma {:induction false} DecisionIsExact(w: World, trace: Trace, p: Params, m: int)
    requires Serial(w, trace) && 0 < p.amount <= m
    requires AmountsAtMost(LedgerOf(w, trace), m) && WithinBound(LedgerOf(w, trace), m)
    ensures DecidesExactly(w, LedgerOf(w, trace), p)
  {
    TestIsExact(w, trace, p.from, p.amount, m);
  }
}
