/** What the row locks guarantee to each call while others run: the facts its statements read
    stay true until its commit. */
module Isolation {
  import opened Records
  import opened Operations
  import opened Machine
  import opened LedgerLaws

  /** The transaction may still commit. */
  predicate Live(p: Proc) { !p.pc.Finished? && !p.pc.Aborting? }

  function BaseLocks(p: Proc): set<Lock> { if p.op.Reverse? then {TxRow(p.op.txId)} else {} }

  function AccountLocks(p: Proc): set<Lock> { {AccountRow(p.params.from), AccountRow(p.params.to)} }

  ghost predicate NothingWritten(p: Proc) {
    p.created == None && p.entries == [] && p.events == [] && !p.marks
  }

  /** The arguments of the transfer core are those that validation yields now. */
  ghost predicate Planned(w: World, l: Ledger, p: Proc) {
    Ok(p.params) == if p.op.Reverse? then PrepareReversal(l.txs, p.op.txId, p.op.key) else Prepare(w, p.op)
  }

  /** Both accounts are locked and usable. */
  ghost predicate Ready(w: World, l: Ledger, p: Proc) {
    Planned(w, l, p) && CheckAccounts(w, p.params) == None
  }

  /** The transaction row is written and its key reserved. */
  ghost predicate Inserted(w: World, l: Ledger, p: Proc) {
    && Ready(w, l, p)
    && p.locks == BaseLocks(p) + AccountLocks(p) + {KeySlot(p.params.key)}
    && p.params.key !in l.keys
    && p.created == Some(NewTx(p.params, p.ids.tx))
    && p.ids.tx !in l.txs
    && p.receipt == Some(ReceiptOf(NewTx(p.params, p.ids.tx), false))
  }

  ghost predicate Paid(w: World, l: Ledger, p: Proc) {
    Inserted(w, l, p) && Covered(w, l, p.params) && !p.marks
  }

  /** Everything a new transaction needs is written. */
  ghost predicate Complete(w: World, l: Ledger, p: Proc) {
    && Inserted(w, l, p) && Covered(w, l, p.params)
    && p.entries == [DebitEntry(p.params, p.ids), CreditEntry(p.params, p.ids)]
    && p.events == [CreditEvent(w, p.params, p.ids), DebitEvent(w, p.params, p.ids)]
  }

  /** The call is a replay of the transaction that took its key. */
  ghost predicate Replaying(w: World, l: Ledger, p: Proc) {
    && Ready(w, l, p)
    && p.locks == BaseLocks(p) + AccountLocks(p)
    && p.created == None && p.entries == [] && p.events == []
    && p.params.key in l.keys && l.keys[p.params.key] in l.txs
    && SameTransfer(p.params, l.txs[l.keys[p.params.key]])
    && p.receipt == Some(ReceiptOf(l.txs[l.keys[p.params.key]], true))
  }

  /** Only rows that exist can be locked. */
  ghost predicate LocksExist(w: World, p: Proc) {
    forall account :: AccountRow(account) in p.locks ==> account in w.accounts
  }

  /** What holds before each statement. */
  ghost predicate ProcOk(w: World, l: Ledger, p: Proc) {
    match p.pc
    case Start => p.locks == {} && NothingWritten(p)
    case LockFirst => Planned(w, l, p) && p.locks == BaseLocks(p) && NothingWritten(p)
    case LockSecond =>
      && Planned(w, l, p) && NothingWritten(p)
      && Min(p.params.from, p.params.to) in w.accounts
      && p.locks == BaseLocks(p) + {AccountRow(Min(p.params.from, p.params.to))}
    case Insert => Ready(w, l, p) && p.locks == BaseLocks(p) + AccountLocks(p) && NothingWritten(p)
    case ReadPrevious =>
      && Ready(w, l, p) && p.locks == BaseLocks(p) + AccountLocks(p) && NothingWritten(p)
      && p.params.key in l.keys
    case ReadBalance => Inserted(w, l, p) && p.entries == [] && p.events == [] && !p.marks
    case WriteDebit => Paid(w, l, p) && p.entries == [] && p.events == []
    case WriteCredit => Paid(w, l, p) && p.entries == [DebitEntry(p.params, p.ids)] && p.events == []
    case EmitCredit =>
      && Paid(w, l, p) && p.events == []
      && p.entries == [DebitEntry(p.params, p.ids), CreditEntry(p.params, p.ids)]
    case EmitDebit =>
      && Paid(w, l, p)
      && p.entries == [DebitEntry(p.params, p.ids), CreditEntry(p.params, p.ids)]
      && p.events == [CreditEvent(w, p.params, p.ids)]
    case MarkOriginal => (Complete(w, l, p) || Replaying(w, l, p)) && p.op.Reverse? && !p.marks
    case Commit => (Complete(w, l, p) || Replaying(w, l, p)) && p.marks == p.op.Reverse?
    case Aborting(why) => LocksExist(w, p) && why != StorageFailure
    case Finished(outcome) => p.locks == {}
  }

  ghost predicate LocksExclusive(s: State) {
    forall p, q {:trigger s.procs[p], s.procs[q]} ::
      p in s.procs && q in s.procs && p != q ==> s.procs[p].locks !! s.procs[q].locks
  }

  ghost predicate ProcsOk(w: World, s: State) {
    forall pid :: pid in s.procs ==> ProcOk(w, s.ledger, s.procs[pid])
  }

  predicate HasTx(p: Proc) { Live(p) && p.created.Some? }

  /** Transaction ids are unique, those of uncommitted transactions included. */
  ghost predicate TxIdsUnique(s: State) {
    && (forall id :: id in s.ledger.txs ==> id < s.nextTx)
    && (forall pid :: pid in s.procs && HasTx(s.procs[pid]) ==> s.procs[pid].created.value.id < s.nextTx)
    && (forall p, q {:trigger s.procs[p], s.procs[q]} ::
          p in s.procs && q in s.procs && p != q && HasTx(s.procs[p]) && HasTx(s.procs[q])
          ==> s.procs[p].created.value.id != s.procs[q].created.value.id)
  }

  ghost predicate Answered(trace: Trace, pid: int, op: Op, outcome: Outcome) {
    exists i :: 0 <= i < |trace| && trace[i].caller == pid && trace[i].op == op && trace[i].outcome == outcome
  }

  /** The tables are what the recorded calls leave behind when run one at a time, and every
      call that was answered is recorded, once, with its answer. */
  ghost predicate Recorded(w: World, s: State) {
    && Serial(w, s.trace) && s.ledger == LedgerOf(w, s.trace)
    && (forall i :: 0 <= i < |s.trace| ==>
          && s.trace[i].caller in s.procs
          && s.procs[s.trace[i].caller].op == s.trace[i].op
          && !Live(s.procs[s.trace[i].caller]))
    && (forall i, j :: 0 <= i < j < |s.trace| ==> s.trace[i].caller != s.trace[j].caller)
    && (forall pid :: pid in s.procs ==> AnswerRecorded(s.trace, pid, s.procs[pid]))
  }

  ghost predicate Core(w: World, s: State) {
    LocksExclusive(s) && ProcsOk(w, s) && TxIdsUnique(s) && Recorded(w, s)
  }

  // ---------------------------------------------------------------- one call's own statements

  ghost predicate Unfinished(s: State, pid: int) { pid in s.procs && Live(s.procs[pid]) && s.procs[pid].pc != Commit }

  /** A refusal is what the call would get if run alone now. */
  ghost predicate RefusalIsRight(w: World, s: State, s': State, pid: int)
    requires pid in s.procs && pid in s'.procs
  {
    var p, p' := s.procs[pid], s'.procs[pid];
    if p'.pc.Aborting? then
      && AtomicOp(w, s.ledger, p.op, NO_IDS) == (s.ledger, Err(p'.pc.why))
      && s'.trace == s.trace + [Item(pid, p.op, NO_IDS, Err(p'.pc.why))]
    else
      && s'.trace == s.trace
      && (p'.pc.Finished? ==>
           p'.pc.outcome == Err(StorageFailure) && (IndexViolated(s.ledger, p) || BalanceUnreadable(s.ledger, p)))
  }

  ghost predicate BalanceUnreadable(l: Ledger, p: Proc) { p.pc == ReadBalance && !Readable(l, p.params) }

  /** The other ways in which a statement could fail by itself. */
  ghost predicate IndexViolated(l: Ledger, p: Proc) {
    || (p.pc == Insert && p.op.Reverse? && p.op.txId in l.txs && ReversalExists(l, Some(l.txs[p.op.txId].id)))
    || (p.pc == ReadPrevious && p.params.key in l.keys && l.keys[p.params.key] !in l.txs)
  }

  predicate WithinLocks(p: Proc, p': Proc) {
    forall lock :: lock in p'.locks ==> lock in p.locks || Wanted(p) == Some(lock)
  }

  /** A statement before the commit touches the call's own record, draws serial numbers, and
      leaves the call where `ProcOk` says it should be. */
  ghost predicate Local(w: World, s: State, s': State, pid: int)
    requires pid in s.procs
  {
    && pid in s'.procs
    && s'.ledger == s.ledger
    && s'.procs == s.procs[pid := s'.procs[pid]]
    && s'.nextTx >= s.nextTx
    && RefusalIsRight(w, s, s', pid)
    && LocalProc(w, s, s.procs[pid], s'.procs[pid], s'.nextTx)
  }

  ghost predicate LocalProc(w: World, s: State, p: Proc, p': Proc, nextTx: int) {
    && p'.op == p.op
    && ProcOk(w, s.ledger, p')
    && WithinLocks(p, p')
    && StepsLeft(p'.pc) < StepsLeft(p.pc)
    && (HasTx(p') ==> (HasTx(p) && p'.created == p.created) || p'.created.value.id == s.nextTx < nextTx)
  }

  lemma StartIsLocal(w: World, s: State, pid: int)
    requires pid in s.procs && s.procs[pid].pc == Start && ProcOk(w, s.ledger, s.procs[pid])
    ensures Local(w, s, StepStart(w, s, pid, s.procs[pid]), pid)
  {
  }

  lemma LockFirstIsLocal(w: World, s: State, pid: int)
    requires pid in s.procs && s.procs[pid].pc == LockFirst && ProcOk(w, s.ledger, s.procs[pid])
    ensures Local(w, s, StepLockFirst(w, s, pid, s.procs[pid]), pid)
  {
  }

  lemma LockSecondIsLocal(w: World, s: State, pid: int)
    requires pid in s.procs && s.procs[pid].pc == LockSecond && ProcOk(w, s.ledger, s.procs[pid])
    ensures Local(w, s, StepLockSecond(w, s, pid, s.procs[pid]), pid)
  {
  }

  lemma InsertIsLocal(w: World, s: State, pid: int)
    requires pid in s.procs && s.procs[pid].pc == Insert && ProcOk(w, s.ledger, s.procs[pid])
    requires s.nextTx !in s.ledger.txs
    ensures Local(w, s, StepInsert(s, pid, s.procs[pid]), pid)
  {
  }

  lemma ReadPreviousIsLocal(w: World, s: State, pid: int)
    requires pid in s.procs && s.procs[pid].pc == ReadPrevious && ProcOk(w, s.ledger, s.procs[pid])
    ensures Local(w, s, StepReadPrevious(s, pid, s.procs[pid]), pid)
  {
  }

  lemma ReadBalanceIsLocal(w: World, s: State, pid: int)
    requires pid in s.procs && s.procs[pid].pc == ReadBalance && ProcOk(w, s.ledger, s.procs[pid])
    ensures Local(w, s, StepReadBalance(w, s, pid, s.procs[pid]), pid)
  {
    if !Readable(s.ledger, s.procs[pid].params) {
      UnreadableIsLocal(w, s, pid);
    } else if Affordable(w, s.ledger, s.procs[pid].params) {
      CoveredIsLocal(w, s, pid);
    } else {
      NotEnoughIsLocal(w, s, pid);
    }
  }

  lemma UnreadableIsLocal(w: World, s: State, pid: int)
    requires pid in s.procs && s.procs[pid].pc == ReadBalance && ProcOk(w, s.ledger, s.procs[pid])
    requires !Readable(s.ledger, s.procs[pid].params)
    ensures Local(w, s, Crash(s, pid, s.procs[pid]), pid)
  {
  }

  lemma CoveredIsLocal(w: World, s: State, pid: int)
    requires pid in s.procs && s.procs[pid].pc == ReadBalance && ProcOk(w, s.ledger, s.procs[pid])
    requires Covered(w, s.ledger, s.procs[pid].params)
    ensures Local(w, s, Put(s, pid, s.procs[pid].(pc := WriteDebit)), pid)
  {
  }

  lemma NotEnoughIsLocal(w: World, s: State, pid: int)
    requires pid in s.procs && s.procs[pid].pc == ReadBalance && ProcOk(w, s.ledger, s.procs[pid])
    requires Readable(s.ledger, s.procs[pid].params) && !Affordable(w, s.ledger, s.procs[pid].params)
    ensures Local(w, s, Refuse(s, pid, s.procs[pid], NotEnough), pid)
  {
  }

  lemma WriteDebitIsLocal(w: World, s: State, pid: int)
    requires pid in s.procs && s.procs[pid].pc == WriteDebit && ProcOk(w, s.ledger, s.procs[pid])
    ensures Local(w, s, StepWriteDebit(s, pid, s.procs[pid]), pid)
  {
  }

  lemma WriteCreditIsLocal(w: World, s: State, pid: int)
    requires pid in s.procs && s.procs[pid].pc == WriteCredit && ProcOk(w, s.ledger, s.procs[pid])
    ensures Local(w, s, StepWriteCredit(s, pid, s.procs[pid]), pid)
  {
  }

  lemma EmitCreditIsLocal(w: World, s: State, pid: int)
    requires pid in s.procs && s.procs[pid].pc == EmitCredit && ProcOk(w, s.ledger, s.procs[pid])
    ensures Local(w, s, StepEmitCredit(w, s, pid, s.procs[pid]), pid)
  {
  }

  lemma EmitDebitIsLocal(w: World, s: State, pid: int)
    requires pid in s.procs && s.procs[pid].pc == EmitDebit && ProcOk(w, s.ledger, s.procs[pid])
    ensures Local(w, s, StepEmitDebit(w, s, pid, s.procs[pid]), pid)
  {
  }

  lemma MarkOriginalIsLocal(w: World, s: State, pid: int)
    requires pid in s.procs && s.procs[pid].pc == MarkOriginal && ProcOk(w, s.ledger, s.procs[pid])
    ensures Local(w, s, StepMarkOriginal(s, pid, s.procs[pid]), pid)
  {
  }

  lemma {:induction false} StatementIsLocal(w: World, s: State, pid: int)
    requires Core(w, s) && Unfinished(s, pid)
    ensures Local(w, s, Step(w, s, pid), pid)
  {
    assert ProcOk(w, s.ledger, s.procs[pid]);
    match s.procs[pid].pc {
      case Start => StartIsLocal(w, s, pid);
      case LockFirst => LockFirstIsLocal(w, s, pid);
      case LockSecond => LockSecondIsLocal(w, s, pid);
      case Insert => InsertIsLocal(w, s, pid);
      case ReadPrevious => ReadPreviousIsLocal(w, s, pid);
      case ReadBalance => ReadBalanceIsLocal(w, s, pid);
      case MarkOriginal => MarkOriginalIsLocal(w, s, pid);
      case WriteDebit => WriteDebitIsLocal(w, s, pid);
      case WriteCredit => WriteCreditIsLocal(w, s, pid);
      case EmitCredit => EmitCreditIsLocal(w, s, pid);
      case EmitDebit => EmitDebitIsLocal(w, s, pid);
    }
  }

  lemma LocalKeepsIds(w: World, s: State, s': State, pid: int)
    requires TxIdsUnique(s) && pid in s.procs && Local(w, s, s', pid)
    ensures TxIdsUnique(s')
  {
    forall q | q in s'.procs && q != pid ensures s'.procs[q] == s.procs[q] {}
  }

  lemma LocalKeepsLocks(w: World, s: State, s': State, pid: int)
    requires LocksExclusive(s) && Enabled(w, s, Advance(pid)) && Local(w, s, s', pid)
    ensures LocksExclusive(s')
  {
    forall p, q | p in s'.procs && q in s'.procs && p != q ensures s'.procs[p].locks !! s'.procs[q].locks {
      assert p in s.procs && q in s.procs && s.procs[p].locks !! s.procs[q].locks;
    }
  }

  lemma AnswersStay(trace: Trace, item: Item, pid: int, op: Op, outcome: Outcome)
    requires Answered(trace, pid, op, outcome)
    ensures Answered(trace + [item], pid, op, outcome)
  {
    var i :| 0 <= i < |trace| && trace[i].caller == pid && trace[i].op == op && trace[i].outcome == outcome;
    assert (trace + [item])[i] == trace[i];
  }

  /** Recording the answer of a call that had none keeps the record right. */
  lemma RecordAnswer(w: World, s: State, s': State, pid: int, item: Item)
    requires Recorded(w, s) && pid in s.procs && Live(s.procs[pid])
    requires s'.procs.Keys == s.procs.Keys && (forall q :: q in s.procs && q != pid ==> s'.procs[q] == s.procs[q])
    requires s'.procs[pid].op == s.procs[pid].op == item.op && item.caller == pid
    requires s'.procs[pid].pc == (if item.outcome.Err? then Aborting(item.outcome.error) else Finished(item.outcome))
          || s'.procs[pid].pc == Finished(Err(StorageFailure))
    requires s'.trace == s.trace + [item]
    requires AtomicOp(w, s.ledger, item.op, item.ids) == (s'.ledger, item.outcome)
    requires Posts(item) ==> FreshIds(s.ledger, item.ids)
    ensures Recorded(w, s')
  {
    SerialAppend(w, s.trace, item);
    assert s'.trace[|s.trace|] == item;
    forall q | q in s.procs && q != pid ensures AnswerRecorded(s'.trace, q, s.procs[q]) {
      AnswerStaysRecorded(s.trace, item, q, s.procs[q]);
    }
    assert AnswerRecorded(s'.trace, pid, s'.procs[pid]);
  }

  /** The answer that the call has given, or is about to give, is on record. */
  ghost predicate AnswerRecorded(trace: Trace, pid: int, p: Proc) {
    && (p.pc.Aborting? ==> Answered(trace, pid, p.op, Err(p.pc.why)))
    && (p.pc.Finished? && p.pc.outcome != Err(StorageFailure) ==> Answered(trace, pid, p.op, p.pc.outcome))
  }

  lemma AnswerStaysRecorded(trace: Trace, item: Item, pid: int, p: Proc)
    requires AnswerRecorded(trace, pid, p)
    ensures AnswerRecorded(trace + [item], pid, p)
  {
    if p.pc.Aborting? { AnswersStay(trace, item, pid, p.op, Err(p.pc.why)); }
    if p.pc.Finished? && p.pc.outcome != Err(StorageFailure) { AnswersStay(trace, item, pid, p.op, p.pc.outcome); }
  }

  lemma LocalIsRecorded(w: World, s: State, s': State, pid: int)
    requires Recorded(w, s) && pid in s.procs && Live(s.procs[pid]) && Local(w, s, s', pid)
    ensures Recorded(w, s')
  {
    if s'.procs[pid].pc.Aborting? {
      RecordAnswer(w, s, s', pid, Item(pid, s.procs[pid].op, NO_IDS, Err(s'.procs[pid].pc.why)));
    } else {
      NothingToRecord(w, s, s', pid, s'.procs[pid]);
    }
  }

  lemma NothingToRecord(w: World, s: State, s': State, pid: int, p': Proc)
    requires Recorded(w, s) && pid in s.procs && Live(s.procs[pid]) && p'.op == s.procs[pid].op
    requires s'.ledger == s.ledger && s'.trace == s.trace && s'.procs == s.procs[pid := p']
    requires !p'.pc.Aborting? && (p'.pc.Finished? ==> p'.pc.outcome == Err(StorageFailure))
    ensures Recorded(w, s')
  {
  }

  lemma StatementKeepsCore(w: World, s: State, pid: int)
    requires Core(w, s) && Unfinished(s, pid) && Enabled(w, s, Advance(pid))
    ensures Core(w, Step(w, s, pid))
  {
    var s' := Step(w, s, pid);
    StatementIsLocal(w, s, pid);
    LocalKeepsLocks(w, s, s', pid);
    LocalKeepsIds(w, s, s', pid);
    LocalIsRecorded(w, s, s', pid);
  }

  // ---------------------------------------------------------------- commits

  /** At its commit a call does exactly what it would do if run alone at that moment. */
  lemma CommitIsAtomic(w: World, l: Ledger, p: Proc)
    requires ProcOk(w, l, p) && p.pc == Commit
    ensures AtomicOp(w, l, p.op, DrawnIds(p)) == (Merge(l, p), Reply(p))
    ensures Reply(p).Ok? && (p.created.Some? <==> !Reply(p).value.replayed)
  {
  }

  /** Two calls hold disjoint locks, so the commit of one does not touch what the other relies on. */
  lemma CommitKeepsPlan(w: World, l: Ledger, q: Proc, p: Proc)
    requires ProcOk(w, l, q) && q.pc == Commit && p.locks !! q.locks
    requires Planned(w, l, p) && BaseLocks(p) <= p.locks
    requires q.created.Some? ==> q.created.value.id !in l.txs
    ensures Planned(w, Merge(l, q), p)
  {
    if p.op.Reverse? {
      assert TxRow(p.op.txId) in p.locks;
    }
  }

  lemma BalanceUntouched(w: World, l: Ledger, q: Proc, account: int)
    requires ProcOk(w, l, q) && q.pc == Commit && AccountRow(account) !in q.locks
    ensures Balance(Merge(l, q).entries, account) == Balance(l.entries, account)
  {
    if q.created.Some? {
      BalanceAppendTwo(l.entries, DebitEntry(q.params, q.ids), CreditEntry(q.params, q.ids), account);
    } else {
      assert Merge(l, q).entries == l.entries;
    }
  }

  lemma CommitKeepsInserted(w: World, l: Ledger, q: Proc, p: Proc)
    requires ProcOk(w, l, q) && q.pc == Commit && p.locks !! q.locks
    requires Inserted(w, l, p)
    requires q.created.Some? ==> q.created.value.id != p.ids.tx
    ensures Inserted(w, Merge(l, q), p)
    ensures Covered(w, Merge(l, q), p.params) == Covered(w, l, p.params)
  {
    CommitKeepsPlan(w, l, q, p);
    assert KeySlot(p.params.key) in p.locks && AccountRow(p.params.from) in p.locks;
    BalanceUntouched(w, l, q, p.params.from);
  }

  lemma CommitKeepsReplay(w: World, l: Ledger, q: Proc, p: Proc)
    requires ProcOk(w, l, q) && q.pc == Commit && p.locks !! q.locks
    requires Replaying(w, l, p) && KeysAgree(l)
    ensures Replaying(w, Merge(l, q), p)
  {
    CommitKeepsPlan(w, l, q, p);
    var id := l.keys[p.params.key];
    assert AccountRow(p.params.from) in p.locks && AccountRow(p.params.from) !in q.locks;
    if q.op.Reverse? && q.op.txId == id {
      // reversing the replayed transaction takes the locks of the same two accounts
      assert false;
    }
    assert Merge(l, q).txs[id] == l.txs[id];
  }

  lemma CommitKeepsOther(w: World, l: Ledger, q: Proc, p: Proc)
    requires ProcOk(w, l, q) && q.pc == Commit && ProcOk(w, l, p) && p.locks !! q.locks && KeysAgree(l)
    requires HasTx(p) && q.created.Some? ==> q.created.value.id != p.created.value.id
    ensures ProcOk(w, Merge(l, q), p)
  {
    if Live(p) && p.pc != Start {
      if HasTx(p) {
        assert Inserted(w, l, p);
        CommitKeepsInserted(w, l, q, p);
      } else if p.pc == MarkOriginal || p.pc == Commit {
        CommitKeepsReplay(w, l, q, p);
      } else {
        CommitKeepsPlan(w, l, q, p);
      }
    }
  }

  lemma CommitKeepsProcs(w: World, s: State, pid: int, reported: Outcome)
    requires Core(w, s) && pid in s.procs && s.procs[pid].pc == Commit
    ensures ProcsOk(w, Committed(s, pid, s.procs[pid], reported))
  {
    SerialRunsAreSound(w, s.trace);
    var q, s' := s.procs[pid], Committed(s, pid, s.procs[pid], reported);
    forall other | other in s'.procs ensures ProcOk(w, s'.ledger, s'.procs[other]) {
      if other != pid {
        assert s'.procs[other] == s.procs[other];
        assert s.procs[other].locks !! q.locks;
        CommitKeepsOther(w, s.ledger, q, s.procs[other]);
      }
    }
  }

  lemma CommitKeepsIds(w: World, s: State, pid: int, reported: Outcome)
    requires Core(w, s) && pid in s.procs && s.procs[pid].pc == Commit
    ensures TxIdsUnique(Committed(s, pid, s.procs[pid], reported))
  {
    var q, s' := s.procs[pid], Committed(s, pid, s.procs[pid], reported);
    assert ProcOk(w, s.ledger, q);
    forall id | id in s'.ledger.txs ensures id < s'.nextTx {
      if id !in s.ledger.txs { assert HasTx(q) && id == q.created.value.id; }
    }
    forall p | p in s'.procs && HasTx(s'.procs[p]) ensures s'.procs[p] == s.procs[p] {}
  }

  lemma CommitKeepsCore(w: World, s: State, pid: int, reported: Outcome)
    requires Core(w, s) && pid in s.procs && s.procs[pid].pc == Commit
    requires reported == Reply(s.procs[pid]) || reported == Err(StorageFailure)
    ensures Core(w, Committed(s, pid, s.procs[pid], reported))
  {
    var p, s' := s.procs[pid], Committed(s, pid, s.procs[pid], reported);
    assert ProcOk(w, s.ledger, p);
    CommitKeepsProcs(w, s, pid, reported);
    CommitKeepsIds(w, s, pid, reported);
    CommitIsAtomic(w, s.ledger, p);
    RecordAnswer(w, s, s', pid, Item(pid, p.op, DrawnIds(p), Reply(p)));
  }

  // ---------------------------------------------------------------- all actions

  lemma ReleaseKeepsCore(w: World, s: State, pid: int, outcome: Outcome)
    requires Core(w, s) && pid in s.procs && !IsDone(s.procs[pid])
    requires outcome.Err? && (outcome.error == StorageFailure || s.procs[pid].pc == Aborting(outcome.error))
    ensures Core(w, Put(s, pid, s.procs[pid].(pc := Finished(outcome), locks := {})))
  {
    ReleaseKeepsProcs(w, s, pid, outcome);
    ReleaseKeepsRecord(w, s, pid, outcome);
  }

  lemma ReleaseKeepsProcs(w: World, s: State, pid: int, outcome: Outcome)
    requires LocksExclusive(s) && ProcsOk(w, s) && TxIdsUnique(s) && pid in s.procs
    ensures var s' := Put(s, pid, s.procs[pid].(pc := Finished(outcome), locks := {}));
      LocksExclusive(s') && ProcsOk(w, s') && TxIdsUnique(s')
  {
  }

  lemma ReleaseKeepsRecord(w: World, s: State, pid: int, outcome: Outcome)
    requires Recorded(w, s) && pid in s.procs && !IsDone(s.procs[pid])
    requires outcome.Err? && (outcome.error == StorageFailure || s.procs[pid].pc == Aborting(outcome.error))
    ensures Recorded(w, Put(s, pid, s.procs[pid].(pc := Finished(outcome), locks := {})))
  {
  }

  /** What the money operations see of a state. */
  ghost predicate SameCore(s: State, s': State) {
    s'.ledger == s.ledger && s'.trace == s.trace && s'.procs == s.procs && s'.nextTx == s.nextTx
  }

  lemma SameCoreKeepsCore(w: World, s: State, s': State)
    requires Core(w, s) && SameCore(s, s')
    ensures Core(w, s')
  {
  }

  lemma BeginKeepsCore(w: World, s: State, pid: int, op: Op)
    requires Core(w, s) && pid !in s.procs
    ensures Core(w, Put(s, pid, NewProc(op)))
  {
  }

  lemma RelaysLeaveCoreAlone(w: World, s: State, a: Action)
    requires IsRelayAction(a)
    ensures SameCore(s, RelayStep(w, s, a))
    ensures RelayStep(w, s, a).nextEvent == s.nextEvent && RelayStep(w, s, a).nextEntry == s.nextEntry
  {
  }

  lemma NextKeepsCore(w: World, s: State, a: Action)
    requires Core(w, s) && Enabled(w, s, a)
    ensures Core(w, Next(w, s, a))
  {
    match a {
      case Begin(pid, op) => BeginKeepsCore(w, s, pid, op);
      case Advance(pid) =>
        var p := s.procs[pid];
        if p.pc == Commit {
          CommitIsAtomic(w, s.ledger, p);
          CommitKeepsCore(w, s, pid, Reply(p));
        } else if p.pc.Aborting? {
          ReleaseKeepsCore(w, s, pid, Err(p.pc.why));
        } else {
          StatementKeepsCore(w, s, pid);
        }
      case CommitUnheard(pid) => CommitKeepsCore(w, s, pid, Err(StorageFailure));
      case Fail(pid) => ReleaseKeepsCore(w, s, pid, Err(StorageFailure));
      case _ =>
        RelaysLeaveCoreAlone(w, s, a);
        SameCoreKeepsCore(w, s, RelayStep(w, s, a));
    }
  }

  lemma {:induction false} RunsKeepCore(w: World, run: seq<Action>)
    requires Legal(w, run)
    ensures Core(w, Execute(w, run))
  {
    if run != [] {
      RunsKeepCore(w, run[..|run| - 1]);
      NextKeepsCore(w, Execute(w, run[..|run| - 1]), run[|run| - 1]);
    }
  }
}
