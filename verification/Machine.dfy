/** Every interleaving of the service's database statements and the relays' steps, under
    Postgres' default isolation: a statement sees the latest committed tables and the writes
    of its own transaction, and row locks are held to the end of the transaction. */
module Machine {
  import opened Records
  import opened Operations
  import opened Ordering
  import opened Messages

  datatype Lock = TxRow(id: int) | AccountRow(id: int) | KeySlot(key: string)

  /** The next statement of a call. */
  datatype Pc =
    | Start         // validation; Reverse also locks the row of its transaction
    | LockFirst
    | LockSecond
    | Insert        // INSERT ... ON CONFLICT (idempotency_key) DO NOTHING
    | ReadPrevious  // only after a conflict
    | ReadBalance
    | WriteDebit
    | WriteCredit
    | EmitCredit
    | EmitDebit
    | MarkOriginal  // only in Reverse
    | Commit
    | Aborting(why: Error)
    | Finished(outcome: Outcome)

  /** A call in progress: its locks and the rows its transaction has written so far. */
  datatype Proc = Proc(op: Op, pc: Pc, params: Params, locks: set<Lock>, ids: Ids,
                       created: Option<Tx>, entries: seq<Entry>, events: seq<Event>,
                       marks: bool, receipt: Option<Receipt>)

  /** A relay copy; every state but Idle holds the advisory lock. */
  datatype Relay =
    | Idle
    | Holding
    | Fetched(batch: seq<Event>)
    | Delivered(batch: seq<Event>)
    | Marked(batch: seq<Event>)

  /** The committed tables, the three id sequences (which no rollback resets), the calls, the
      relay copies, and the Kafka topic, its records listed by their rows. `late` holds what failed
      publishes have left on the way to the topic. Two fields only record history: `trace` lists the
      calls that were committed or refused, in that order, and `failed` the batches of relay
      transactions that were rolled back. */
  datatype State = State(ledger: Ledger, trace: Trace, procs: map<int, Proc>,
                         nextTx: int, nextEntry: int, nextEvent: int,
                         published: set<int>, relays: map<int, Relay>,
                         log: seq<Event>, late: seq<seq<Event>>, failed: seq<seq<Event>>)

  const INITIAL := State(EMPTY_LEDGER, [], map[], 1, 1, 1, {}, map[], [], [], [])

  datatype Action =
    | Begin(pid: int, op: Op)
    | Advance(pid: int)
    | CommitUnheard(pid: int)  // the commit took effect but was reported as an error
    | Fail(pid: int)           // a statement or the commit failed, and all is rolled back
    | RelayStart(rid: int)
    | RelayFetch(rid: int)
    | RelayPublish(rid: int, sent: seq<Event>, accepted: bool, rest: seq<Event>)
    | RelayMark(rid: int)
    | RelayCommit(rid: int)
    | RelayFail(rid: int)
    | Arrive(k: nat, sent: seq<Event>, rest: seq<Event>)  // records of a publish that was given up

  const NO_PARAMS := Params(0, 0, 0, TxTransfer, "", None)

  function NewProc(op: Op): Proc {
    Proc(op, Start, NO_PARAMS, {}, NO_IDS, None, [], [], false, None)
  }

  predicate IsDone(p: Proc) { p.pc.Finished? }

  /** The lock the next statement waits for. */
  function Wanted(p: Proc): Option<Lock> {
    match p.pc
    case Start => if p.op.Reverse? then Some(TxRow(p.op.txId)) else None
    case LockFirst => Some(AccountRow(Min(p.params.from, p.params.to)))
    case LockSecond => Some(AccountRow(Max(p.params.from, p.params.to)))
    case Insert => Some(KeySlot(p.params.key))
    case _ => None
  }

  predicate Free(s: State, pid: int, lock: Lock) {
    forall q :: q in s.procs && q != pid ==> lock !in s.procs[q].locks
  }

  /** `sent` is in the topic, of each message key the first records, and `rest` may follow later. */
  ghost predicate Splits(batch: seq<Event>, sent: seq<Event>, rest: seq<Event>) {
    forall key {:trigger OfKey(sent, key)} :: OfKey(batch, key) == OfKey(sent, key) + OfKey(rest, key)
  }

  function RelayOf(s: State, rid: int): Relay {
    if rid in s.relays then s.relays[rid] else Idle
  }

  ghost predicate Enabled(w: World, s: State, a: Action) {
    match a
    case Begin(pid, op) => pid !in s.procs
    case Advance(pid) =>
      && pid in s.procs && !IsDone(s.procs[pid])
      && (Wanted(s.procs[pid]).Some? ==> Free(s, pid, Wanted(s.procs[pid]).value))
    case CommitUnheard(pid) => pid in s.procs && s.procs[pid].pc == Commit
    case Fail(pid) => pid in s.procs && !IsDone(s.procs[pid]) && !s.procs[pid].pc.Aborting?
    case RelayStart(rid) => RelayOf(s, rid).Idle?
    case RelayFetch(rid) => RelayOf(s, rid).Holding?
    case RelayPublish(rid, sent, accepted, rest) =>
      RelayOf(s, rid).Fetched? && Splits(RelayOf(s, rid).batch, sent, rest) && (accepted ==> rest == [])
    case RelayMark(rid) => RelayOf(s, rid).Delivered?
    case RelayCommit(rid) => RelayOf(s, rid).Marked?
    case RelayFail(rid) => !RelayOf(s, rid).Idle?
    case Arrive(k, sent, rest) => k < |s.late| && Splits(s.late[k], sent, rest)
  }

  function Put(s: State, pid: int, p: Proc): State { s.(procs := s.procs[pid := p]) }

  /** The service decides to return an error; the rollback is still to come. */
  function Refuse(s: State, pid: int, p: Proc, why: Error): State {
    Put(s, pid, p.(pc := Aborting(why))).(trace := s.trace + [Item(pid, p.op, NO_IDS, Err(why))])
  }

  /** The transaction is rolled back because of an error of the database. */
  function Crash(s: State, pid: int, p: Proc): State {
    Put(s, pid, p.(pc := Finished(Err(StorageFailure)), locks := {}))
  }

  function StepStart(w: World, s: State, pid: int, p: Proc): State {
    if p.op.Reverse? then
      var q := if p.op.txId in s.ledger.txs then p.(locks := {TxRow(p.op.txId)}) else p;
      match PrepareReversal(s.ledger.txs, p.op.txId, p.op.key) {
        case Err(e) => Refuse(s, pid, q, e)
        case Ok(params) => Put(s, pid, q.(pc := LockFirst, params := params))
      }
    else
      match Prepare(w, p.op) {
        case Err(e) => Refuse(s, pid, p, e)
        case Ok(params) => Put(s, pid, p.(pc := LockFirst, params := params))
      }
  }

  function StepLockFirst(w: World, s: State, pid: int, p: Proc): State {
    var first := Min(p.params.from, p.params.to);
    if first !in w.accounts then Refuse(s, pid, p, MissingAccount(p.params, first))
    else Put(s, pid, p.(pc := LockSecond, locks := p.locks + {AccountRow(first)}))
  }

  function StepLockSecond(w: World, s: State, pid: int, p: Proc): State {
    var second := Max(p.params.from, p.params.to);
    if second !in w.accounts then Refuse(s, pid, p, MissingAccount(p.params, second))
    else
      var q := p.(locks := p.locks + {AccountRow(second)});
      if Currency(w, p.params.from) != Currency(w, p.params.to) then Refuse(s, pid, q, CurrencyMismatch)
      else Put(s, pid, q.(pc := Insert))
  }

  /** The serial number is drawn even when the key turns out to be taken. */
  function StepInsert(s: State, pid: int, p: Proc): State {
    var s' := s.(nextTx := s.nextTx + 1);
    if p.params.key in s.ledger.keys then Put(s', pid, p.(pc := ReadPrevious))
    else if ReversalExists(s.ledger, p.params.reversalOf) then Crash(s', pid, p)
    else
      var ids := p.ids.(tx := s.nextTx);
      var t := NewTx(p.params, s.nextTx);
      Put(s', pid, p.(pc := ReadBalance, locks := p.locks + {KeySlot(p.params.key)}, ids := ids,
                      created := Some(t), receipt := Some(ReceiptOf(t, false))))
  }

  /** The unique index on reversal_of. */
  predicate ReversalExists(l: Ledger, original: Option<int>) {
    original.Some? && exists r :: r in l.txs && l.txs[r].reversalOf == original
  }

  function StepReadPrevious(s: State, pid: int, p: Proc): State {
    var l := s.ledger;
    if p.params.key !in l.keys || l.keys[p.params.key] !in l.txs then Crash(s, pid, p)
    else
      var previous := l.txs[l.keys[p.params.key]];
      if SameTransfer(p.params, previous)
      then Put(s, pid, p.(pc := AfterWrites(p), receipt := Some(ReceiptOf(previous, true))))
      else Refuse(s, pid, p, TransactionsMismatch)
  }

  function AfterWrites(p: Proc): Pc { if p.op.Reverse? then MarkOriginal else Commit }

  function StepReadBalance(w: World, s: State, pid: int, p: Proc): State {
    if !Readable(s.ledger, p.params) then Crash(s, pid, p)
    else if Affordable(w, s.ledger, p.params) then Put(s, pid, p.(pc := WriteDebit))
    else Refuse(s, pid, p, NotEnough)
  }

  function StepWriteDebit(s: State, pid: int, p: Proc): State {
    var ids := p.ids.(debit := s.nextEntry);
    Put(s, pid, p.(pc := WriteCredit, ids := ids, entries := p.entries + [DebitEntry(p.params, ids)]))
      .(nextEntry := s.nextEntry + 1)
  }

  function StepWriteCredit(s: State, pid: int, p: Proc): State {
    var ids := p.ids.(credit := s.nextEntry);
    Put(s, pid, p.(pc := EmitCredit, ids := ids, entries := p.entries + [CreditEntry(p.params, ids)]))
      .(nextEntry := s.nextEntry + 1)
  }

  function StepEmitCredit(w: World, s: State, pid: int, p: Proc): State {
    var ids := p.ids.(creditEvent := s.nextEvent);
    Put(s, pid, p.(pc := EmitDebit, ids := ids, events := p.events + [CreditEvent(w, p.params, ids)]))
      .(nextEvent := s.nextEvent + 1)
  }

  function StepEmitDebit(w: World, s: State, pid: int, p: Proc): State {
    var ids := p.ids.(debitEvent := s.nextEvent);
    Put(s, pid, p.(pc := AfterWrites(p), ids := ids, events := p.events + [DebitEvent(w, p.params, ids)]))
      .(nextEvent := s.nextEvent + 1)
  }

  /** UPDATE ... WHERE status = 'completed'; no affected row is an error. */
  function StepMarkOriginal(s: State, pid: int, p: Proc): State {
    if p.op.Reverse? && p.op.txId in s.ledger.txs && s.ledger.txs[p.op.txId].status == Completed
    then Put(s, pid, p.(pc := Commit, marks := true))
    else Crash(s, pid, p)
  }

  /** The committed tables with the writes of a transaction added. */
  function Merge(l: Ledger, p: Proc): Ledger {
    var l' := match p.created
              case None => l
              case Some(t) =>
                Ledger(l.txs[t.id := t], l.keys[t.key := t.id], l.entries + p.entries, l.outbox + p.events);
    if p.marks && p.op.Reverse? && p.op.txId in l'.txs then MarkReversed(l', p.op.txId) else l'
  }

  function DrawnIds(p: Proc): Ids { if p.created.Some? then p.ids else NO_IDS }

  function Reply(p: Proc): Outcome {
    match p.receipt case Some(r) => Ok(r) case None => Err(StorageFailure)
  }

  function Committed(s: State, pid: int, p: Proc, reported: Outcome): State {
    Put(s, pid, p.(pc := Finished(reported), locks := {}))
      .(ledger := Merge(s.ledger, p), trace := s.trace + [Item(pid, p.op, DrawnIds(p), Reply(p))])
  }

  function Step(w: World, s: State, pid: int): State
    requires pid in s.procs && !IsDone(s.procs[pid])
  {
    var p := s.procs[pid];
    match p.pc
    case Start => StepStart(w, s, pid, p)
    case LockFirst => StepLockFirst(w, s, pid, p)
    case LockSecond => StepLockSecond(w, s, pid, p)
    case Insert => StepInsert(s, pid, p)
    case ReadPrevious => StepReadPrevious(s, pid, p)
    case ReadBalance => StepReadBalance(w, s, pid, p)
    case WriteDebit => StepWriteDebit(s, pid, p)
    case WriteCredit => StepWriteCredit(s, pid, p)
    case EmitCredit => StepEmitCredit(w, s, pid, p)
    case EmitDebit => StepEmitDebit(w, s, pid, p)
    case MarkOriginal => StepMarkOriginal(s, pid, p)
    case Commit => Committed(s, pid, p, Reply(p))
    case Aborting(why) => Put(s, pid, p.(pc := Finished(Err(why)), locks := {}))
  }

  /** An upper bound on the statements a call still has to run. */
  function StepsLeft(pc: Pc): nat {
    match pc
    case Start => 12
    case LockFirst => 11
    case LockSecond => 10
    case Insert => 9
    case ReadBalance => 8
    case WriteDebit => 7
    case WriteCredit => 6
    case EmitCredit => 5
    case EmitDebit => 4
    case ReadPrevious => 3
    case MarkOriginal => 2
    case Commit => 1
    case Aborting(why) => 1
    case Finished(outcome) => 0
  }

  function IdsOf(events: seq<Event>): set<int> { set e | e in events :: e.id }

  function SetRelay(s: State, rid: int, r: Relay): State { s.(relays := s.relays[rid := r]) }

  predicate IsRelayAction(a: Action) {
    || a.RelayStart? || a.RelayFetch? || a.RelayPublish? || a.RelayMark? || a.RelayCommit? || a.RelayFail?
    || a.Arrive?
  }

  function RelayStep(w: World, s: State, a: Action): State
    requires IsRelayAction(a)
  {
    var r := if a.Arrive? then Idle else RelayOf(s, a.rid);
    match a
    case RelayStart(rid) =>
      // pg_try_advisory_xact_lock: a copy that does not get the lock skips its turn
      if exists other :: other in s.relays && other != rid && !s.relays[other].Idle?
      then s
      else SetRelay(s, rid, Holding)
    case RelayFetch(rid) =>
      var batch := Batch(s.ledger.outbox, s.published, w.batchSize);
      SetRelay(s, rid, if batch == [] then Idle else Fetched(batch))
    case RelayPublish(rid, sent, accepted, rest) =>
      if !r.Fetched? then s
      else if accepted then SetRelay(s, rid, Delivered(r.batch)).(log := s.log + sent)
      else
        SetRelay(s, rid, Idle).(log := s.log + sent, late := s.late + [rest], failed := s.failed + [r.batch])
    case RelayMark(rid) => if r.Delivered? then SetRelay(s, rid, Marked(r.batch)) else s
    case RelayCommit(rid) =>
      if r.Marked? then SetRelay(s, rid, Idle).(published := s.published + IdsOf(r.batch)) else s
    case RelayFail(rid) =>
      SetRelay(s, rid, Idle).(failed := if r.Idle? || r.Holding? then s.failed else s.failed + [r.batch])
    case Arrive(k, sent, rest) =>
      if k < |s.late| then s.(log := s.log + sent, late := s.late[k := rest]) else s
  }

  function Next(w: World, s: State, a: Action): State
    requires Enabled(w, s, a)
  {
    match a
    case Begin(pid, op) => Put(s, pid, NewProc(op))
    case Advance(pid) => Step(w, s, pid)
    case CommitUnheard(pid) => Committed(s, pid, s.procs[pid], Err(StorageFailure))
    case Fail(pid) => Crash(s, pid, s.procs[pid])
    case _ => RelayStep(w, s, a)
  }

  /** A run is a list of actions each of which was possible when it was taken. */
  ghost predicate Legal(w: World, run: seq<Action>)
    decreases |run|, 0
  {
    run == [] ||
    (Legal(w, run[..|run| - 1]) && Enabled(w, Execute(w, run[..|run| - 1]), run[|run| - 1]))
  }

  ghost function Execute(w: World, run: seq<Action>): State
    requires Legal(w, run)
    decreases |run|, 1
  {
    if run == [] then INITIAL else Next(w, Execute(w, run[..|run| - 1]), run[|run| - 1])
  }
}
