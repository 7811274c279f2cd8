/** Laws of the tables that any serial run of calls leaves behind. */
module LedgerLaws {
  import opened Records
  import opened Operations

  /** How one call changes the tables. */
  datatype Change =
    | Nothing                            // refused, or a replay
    | Mark(original: int)                // Reverse whose key was already taken by a matching transfer
    | Add(p: Params)                     // Transfer, Deposit, Withdraw
    | AddReversal(p: Params, original: int)

  ghost function ChangeOf(w: World, l: Ledger, op: Op): Change {
    var params := ParamsOf(w, l, op);
    if params.Err? || CheckAccounts(w, params.value).Some? then Nothing
    else if params.value.key in l.keys then
      if op.Reverse? && l.keys[params.value.key] in l.txs && SameTransfer(params.value, l.txs[l.keys[params.value.key]])
      then Mark(op.txId)
      else Nothing
    else if !Covered(w, l, params.value) then Nothing
    else if op.Reverse? then AddReversal(params.value, op.txId)
    else Add(params.value)
  }

  /** What the four kinds of change may rely on. */
  ghost predicate Applicable(w: World, l: Ledger, c: Change, ids: Ids) {
    match c
    case Nothing => true
    case Mark(o) => o in l.txs && l.txs[o].status == Completed && l.txs[o].kind != TxReversal
    case Add(p) => Postable(w, l, p, ids) && p.kind != TxReversal && p.reversalOf == None
    case AddReversal(p, o) =>
      && Postable(w, l, p, ids)
      && o in l.txs && l.txs[o].status == Completed && l.txs[o].kind != TxReversal
      && p == Params(l.txs[o].destination, l.txs[o].source, l.txs[o].amount, TxReversal, p.key, Some(o))
  }

  ghost predicate Postable(w: World, l: Ledger, p: Params, ids: Ids) {
    && CheckAccounts(w, p) == None
    && p.key !in l.keys
    && Covered(w, l, p)
    && FreshIds(l, ids)
    && p.amount > 0
    && p.from != p.to
  }

  ghost function Changed(w: World, l: Ledger, c: Change, ids: Ids): Ledger
    requires Applicable(w, l, c, ids)
  {
    match c
    case Nothing => l
    case Mark(o) => MarkReversed(l, o)
    case Add(p) => Posted(w, l, p, ids)
    case AddReversal(p, o) => MarkReversed(Posted(w, l, p, ids), o)
  }

  /** Every id is stored under itself, and the key index lists exactly the transactions' keys. */
  ghost predicate KeysAgree(l: Ledger) {
    && (forall id :: id in l.txs ==>
          && l.txs[id].id == id
          && l.txs[id].key in l.keys && l.keys[l.txs[id].key] == id)
    && (forall k :: k in l.keys ==> l.keys[k] in l.txs && l.txs[l.keys[k]].key == k)
  }

  ghost predicate TxsWellFormed(w: World, l: Ledger) {
    forall id :: id in l.txs ==>
      var t := l.txs[id];
      && t.amount > 0
      && t.source != t.destination
      && t.source in w.accounts && t.destination in w.accounts
      && w.accounts[t.source].currency == w.accounts[t.destination].currency
  }

  /** `r` undoes `o`: swapped endpoints, equal amount, and `o` is marked reversed. */
  ghost predicate Undoes(l: Ledger, r: int, o: int) {
    && r in l.txs && o in l.txs
    && l.txs[r].kind == TxReversal && l.txs[r].reversalOf == Some(o) && l.txs[r].status == Completed
    && l.txs[o].kind != TxReversal && l.txs[o].status == Reversed
    && l.txs[r].source == l.txs[o].destination && l.txs[r].destination == l.txs[o].source
    && l.txs[r].amount == l.txs[o].amount
  }

  ghost predicate ReversalsPaired(l: Ledger) {
    && (forall r :: r in l.txs ==> (l.txs[r].kind == TxReversal <==> l.txs[r].reversalOf.Some?))
    && (forall r :: r in l.txs && l.txs[r].reversalOf.Some? ==> Undoes(l, r, l.txs[r].reversalOf.value))
    && (forall r, r' ::
          (r in l.txs && r' in l.txs && l.txs[r].reversalOf.Some? && l.txs[r].reversalOf == l.txs[r'].reversalOf)
          ==> r == r')
  }

  ghost predicate Sound(w: World, l: Ledger) {
    KeysAgree(l) && TxsWellFormed(w, l) && ReversalsPaired(l)
  }

  lemma ChangeIsApplicable(w: World, l: Ledger, op: Op, ids: Ids)
    requires Sound(w, l)
    requires Posts(Item(0, op, ids, AtomicOp(w, l, op, ids).1)) ==> FreshIds(l, ids)
    ensures Applicable(w, l, ChangeOf(w, l, op), ids)
    ensures AtomicOp(w, l, op, ids).0 == Changed(w, l, ChangeOf(w, l, op), ids)
  {
    var c := ChangeOf(w, l, op);
    if c.Add? || c.AddReversal? {
      assert Posts(Item(0, op, ids, AtomicOp(w, l, op, ids).1));
      assert Postable(w, l, c.p, ids);
    }
  }

  lemma {:induction false} SoundChange(w: World, l: Ledger, c: Change, ids: Ids)
    requires Sound(w, l) && Applicable(w, l, c, ids)
    ensures Sound(w, Changed(w, l, c, ids))
  {
    ChangeKeepsRows(w, l, c, ids);
    ChangeKeepsPairs(w, l, c, ids);
  }

  lemma ChangeKeepsRows(w: World, l: Ledger, c: Change, ids: Ids)
    requires KeysAgree(l) && TxsWellFormed(w, l) && Applicable(w, l, c, ids)
    ensures KeysAgree(Changed(w, l, c, ids)) && TxsWellFormed(w, Changed(w, l, c, ids))
  {
    match c
    case Nothing =>
    case Mark(o) => MarkKeepsRows(w, l, o);
    case Add(p) => PostKeepsRows(w, l, p, ids);
    case AddReversal(p, o) =>
      PostKeepsRows(w, l, p, ids);
      MarkKeepsRows(w, Posted(w, l, p, ids), o);
  }

  lemma PostKeepsRows(w: World, l: Ledger, p: Params, ids: Ids)
    requires KeysAgree(l) && TxsWellFormed(w, l) && Postable(w, l, p, ids)
    ensures KeysAgree(Posted(w, l, p, ids)) && TxsWellFormed(w, Posted(w, l, p, ids))
  {
  }

  lemma MarkKeepsRows(w: World, l: Ledger, o: int)
    requires KeysAgree(l) && TxsWellFormed(w, l) && o in l.txs
    ensures KeysAgree(MarkReversed(l, o)) && TxsWellFormed(w, MarkReversed(l, o))
  {
  }

  lemma ChangeKeepsPairs(w: World, l: Ledger, c: Change, ids: Ids)
    requires ReversalsPaired(l) && Applicable(w, l, c, ids)
    ensures ReversalsPaired(Changed(w, l, c, ids))
  {
    var l' := Changed(w, l, c, ids);
    forall r | r in l'.txs && l'.txs[r].reversalOf.Some?
      ensures Undoes(l', r, l'.txs[r].reversalOf.value)
    {
      if r in l.txs {
        assert Undoes(l, r, l.txs[r].reversalOf.value);
      }
    }
    forall r, r' | r in l'.txs && r' in l'.txs && l'.txs[r].reversalOf.Some?
        && l'.txs[r].reversalOf == l'.txs[r'].reversalOf
      ensures r == r'
    {
      if r in l.txs { assert Undoes(l, r, l.txs[r].reversalOf.value); }
      if r' in l.txs { assert Undoes(l, r', l.txs[r'].reversalOf.value); }
    }
  }

  /** Reversals and originals pair up in every serial run: each reversal undoes a transaction
      that is not a reversal and is marked reversed, no transaction is undone twice, and no
      reversal is itself marked reversed. */
  lemma {:induction false} SerialRunsAreSound(w: World, trace: Trace)
    requires Serial(w, trace)
    ensures Sound(w, LedgerOf(w, trace))
  {
    if trace != [] {
      var before, last := trace[..|trace| - 1], trace[|trace| - 1];
      SerialRunsAreSound(w, before);
      var l := LedgerOf(w, before);
      ChangeIsApplicable(w, l, last.op, last.ids);
      SoundChange(w, l, ChangeOf(w, l, last.op), last.ids);
    }
  }
}
