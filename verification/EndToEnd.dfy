/** Main results about whole runs: from the commit order of the ledger to the Kafka topic. */
module EndToEnd {
  import opened Records
  import opened Operations
  import opened Ordering
  import opened Machine
  import opened LedgerLaws
  import opened Bookkeeping
  import opened Balances
  import opened Isolation
  import opened Sequencing
  import opened RelayOrder
  import opened Serializability
  import opened Promises

  /** What the relays see of a state. */
  ghost predicate SameRelays(s: State, s': State) {
    && s'.published == s.published && s'.relays == s.relays && s'.log == s.log && s'.late == s.late
    && s'.failed == s.failed
  }

  lemma StatementsLeaveRelaysAlone(w: World, s: State, pid: int)
    requires pid in s.procs && !IsDone(s.procs[pid])
    ensures SameRelays(s, Step(w, s, pid))
  {
  }

  lemma NewRowsAreUnpublished(s: State, pid: int)
    requires InCommitOrder(s) && PublishedOk(s) && pid in s.procs && Live(s.procs[pid])
    ensures forall e :: e in s.procs[pid].events ==> e.id !in s.published
  {
    var t := EventTable(s);
    assert OpenOk(t, pid, EventId, EventAccount);
    forall e | e in s.procs[pid].events ensures e.id !in s.published {
      var i :| 0 <= i < |t.open[pid]| && t.open[pid][i] == e;
      forall old' | old' in s.ledger.outbox ensures old'.id != e.id {
        var j :| 0 <= j < |t.rows| && t.rows[j] == old';
        assert EventId(t.rows[j]) != EventId(t.open[pid][i]);
      }
    }
  }

  lemma CommitKeepsRelayInv(w: World, s: State, pid: int, reported: Outcome)
    requires Core(w, s) && InCommitOrder(s) && RelayInv(s) && pid in s.procs && s.procs[pid].pc == Commit
    ensures RelayInv(Committed(s, pid, s.procs[pid], reported))
  {
    MergedRows(w, s.ledger, s.procs[pid]);
    NewRowsAreUnpublished(s, pid);
    GrowthKeepsRelays(s, Committed(s, pid, s.procs[pid], reported), s.procs[pid].events);
  }

  lemma QuietKeepsRelayInv(s: State, s': State)
    requires RelayInv(s) && s'.ledger == s.ledger && SameRelays(s, s')
    ensures RelayInv(s')
  {
    assert s'.ledger.outbox == s.ledger.outbox + [];
    GrowthKeepsRelays(s, s', []);
  }

  lemma OrderGivesOutboxOk(s: State)
    requires InCommitOrder(s)
    ensures OutboxOk(s)
  {
    var t := EventTable(s);
    forall i, j | 0 <= i < j < |s.ledger.outbox|
      ensures s.ledger.outbox[i].id != s.ledger.outbox[j].id
      ensures s.ledger.outbox[i].account == s.ledger.outbox[j].account ==> s.ledger.outbox[i].id < s.ledger.outbox[j].id
    {
      assert EventId(t.rows[i]) != EventId(t.rows[j]);
      assert EventAccount(t.rows[i]) == EventAccount(t.rows[j]) ==> EventId(t.rows[i]) < EventId(t.rows[j]);
    }
    forall a ensures StrictlyAscending(OfAccount(s.ledger.outbox, a), EventId) {
      AccountRowsAscend(s.ledger.outbox, a);
    }
  }

  lemma AdvanceKeepsRelayInv(w: World, s: State, pid: int)
    requires Core(w, s) && InCommitOrder(s) && RelayInv(s) && Enabled(w, s, Advance(pid))
    ensures RelayInv(Step(w, s, pid))
  {
    if s.procs[pid].pc == Commit {
      CommitKeepsRelayInv(w, s, pid, Reply(s.procs[pid]));
    } else {
      StatementsLeaveRelaysAlone(w, s, pid);
      StatementsLeaveLedgerAlone(w, s, pid);
      QuietKeepsRelayInv(s, Step(w, s, pid));
    }
  }

  lemma StatementsLeaveLedgerAlone(w: World, s: State, pid: int)
    requires Core(w, s) && Enabled(w, s, Advance(pid)) && s.procs[pid].pc != Commit
    ensures Step(w, s, pid).ledger == s.ledger
  {
    if Unfinished(s, pid) { StatementIsLocal(w, s, pid); }
  }

  lemma NextKeepsRelayInv(w: World, s: State, a: Action)
    requires Core(w, s) && InCommitOrder(s) && RelayInv(s) && Enabled(w, s, a)
    ensures RelayInv(Next(w, s, a))
  {
    match a {
      case Begin(pid, op) => QuietKeepsRelayInv(s, Put(s, pid, NewProc(op)));
      case Advance(pid) => AdvanceKeepsRelayInv(w, s, pid);
      case CommitUnheard(pid) => CommitKeepsRelayInv(w, s, pid, Err(StorageFailure));
      case Fail(pid) => QuietKeepsRelayInv(s, Crash(s, pid, s.procs[pid]));
      case _ =>
        OrderGivesOutboxOk(s);
        RelayStepKeepsRelays(w, s, a);
    }
  }

  lemma {:induction false} RunsKeepRelayInv(w: World, run: seq<Action>)
    requires Legal(w, run)
    ensures RelayInv(Execute(w, run))
  {
    if run != [] {
      var before := run[..|run| - 1];
      RunsKeepCore(w, before);
      RunsKeepOrder(w, before);
      RunsKeepRelayInv(w, before);
      NextKeepsRelayInv(w, Execute(w, before), run[|run| - 1]);
    }
  }

  // ---------------------------------------------------------------- order

  /** In every interleaving of money operations, relay copies, failed publishes and failed commits,
      the first occurrences of one account's events in the topic are a prefix of that account's
      rows in the order in which the ledger committed them. */
  lemma LogFollowsCommitOrder(w: World, run: seq<Action>, account: int)
    requires Legal(w, run)
    ensures FirstOccurrences(OfAccount(Execute(w, run).log, account))
         <= OfAccount(Execute(w, run).ledger.outbox, account)
  {
    RunsKeepRelayInv(w, run);
    var s := Execute(w, run);
    assert FirstOccurrences(OfAccount(s.log, account)) <= OfAccount(s.ledger.outbox, account);
  }

  /** What the relays guarantee for the rows of the outbox. */
  ghost predicate NothingLostNorInvented(s: State) {
    && (forall e :: e in s.ledger.outbox && e.id in s.published ==> e in s.log)
    && (forall e :: e in s.log ==> e in s.ledger.outbox)
    && (forall id :: id in s.published ==> exists e :: e in s.ledger.outbox && e.id == id)
    && (forall e :: multiset(s.log)[e] <= 1 + Failures(s.failed, e))
  }

  lemma RelaysKeepTheirPromise(s: State)
    requires RelayInv(s)
    ensures NothingLostNorInvented(s)
  {
    forall e ensures multiset(s.log)[e] <= 1 + Failures(s.failed, e) {
      assert CountedRow(s, e);
    }
  }

  /** The relays lose nothing, invent nothing, and repeat a row only for failed batches, even when
      records of a publish that was given up arrive later. */
  lemma {:induction false} RelaysLoseAndInventNothing(w: World, run: seq<Action>)
    requires Legal(w, run)
    ensures NothingLostNorInvented(Execute(w, run)) && OutboxMirrorsEntries(w, Execute(w, run).ledger)
  {
    RunsKeepRelayInv(w, run);
    RelaysKeepTheirPromise(Execute(w, run));
    InterleavingsAreSerializable(w, run);
    EveryEntryIsAnnouncedOnce(w, Execute(w, run).trace);
  }

  // ---------------------------------------------------------------- materialised balances

  lemma {:induction false} OutboxOnlyGrows(w: World, trace: Trace, i: nat)
    requires Serial(w, trace) && i <= |trace|
    ensures LedgerOf(w, trace[..i]).outbox <= LedgerOf(w, trace).outbox
  {
    if i == |trace| {
      assert trace[..i] == trace;
    } else {
      var before, last := trace[..|trace| - 1], trace[|trace| - 1];
      OutboxOnlyGrows(w, before, i);
      assert before[..i] == trace[..i];
      SerialRunsAreSound(w, before);
      ChangeIsApplicable(w, LedgerOf(w, before), last.op, last.ids);
    }
  }

  lemma AccountRowsOnlyGrow(w: World, trace: Trace, i: nat, account: int)
    requires Serial(w, trace) && i <= |trace|
    ensures OfAccount(LedgerOf(w, trace[..i]).outbox, account) <= OfAccount(LedgerOf(w, trace).outbox, account)
  {
    OutboxOnlyGrows(w, trace, i);
    var a, b := LedgerOf(w, trace[..i]).outbox, LedgerOf(w, trace).outbox;
    assert b == a + b[|a|..];
    OfAccountConcat(a, b[|a|..], account);
  }

  /** Each call adds at most one row to an account, so every number of rows occurs on the way. */
  lemma {:induction false} MomentOfRow(w: World, trace: Trace, account: int, j: nat) returns (i: nat)
    requires Serial(w, trace) && j <= |OfAccount(LedgerOf(w, trace).outbox, account)|
    ensures i <= |trace| && |OfAccount(LedgerOf(w, trace[..i]).outbox, account)| == j
  {
    i := |trace|;
    assert trace[..i] == trace;
    if j < |OfAccount(LedgerOf(w, trace).outbox, account)| {
      var before, last := trace[..|trace| - 1], trace[|trace| - 1];
      SerialRunsAreSound(w, before);
      var l := LedgerOf(w, before);
      ChangeIsApplicable(w, l, last.op, last.ids);
      var c := ChangeOf(w, l, last.op);
      if c.Add? || c.AddReversal? {
        OutboxGrows(l.outbox, CreditEvent(w, c.p, last.ids), DebitEvent(w, c.p, last.ids), account);
      }
      i := MomentOfRow(w, before, account, j);
      assert before[..i] == trace[..i];
    }
  }

  /** A consumer that adds up the amounts of the first j distinct records of an account holds the
      committed balance which the ledger had after the j-th transaction that touched the account. */
  lemma {:induction false} MaterialisedBalance(w: World, run: seq<Action>, account: int, i: nat)
    requires Legal(w, run) && i <= |Execute(w, run).trace|
    ensures var s := Execute(w, run);
      var then' := LedgerOf(w, s.trace[..i]);
      var j, firsts := |OfAccount(then'.outbox, account)|, FirstOccurrences(OfAccount(s.log, account));
      j <= |firsts| ==> Total(firsts[..j]) == Balance(then'.entries, account)
  {
    var s := Execute(w, run);
    InterleavingsAreSerializable(w, run);
    LogFollowsCommitOrder(w, run, account);
    AccountRowsOnlyGrow(w, s.trace, i, account);
    SerialPrefix(w, s.trace, i);
    EventsSumToBalance(w, s.trace[..i], account);
    var rows := OfAccount(LedgerOf(w, s.trace[..i]).outbox, account);
    var firsts := FirstOccurrences(OfAccount(s.log, account));
    if |rows| <= |firsts| {
      assert firsts[..|rows|] == rows;
    }
  }

  /** So after every single record the consumer holds some committed balance of the past. */
  lemma {:induction false} EveryRecordIsABalance(w: World, run: seq<Action>, account: int, j: nat) returns (i: nat)
    requires Legal(w, run) && j <= |FirstOccurrences(OfAccount(Execute(w, run).log, account))|
    ensures var s := Execute(w, run);
      && i <= |s.trace|
      && |OfAccount(LedgerOf(w, s.trace[..i]).outbox, account)| == j
      && Total(FirstOccurrences(OfAccount(s.log, account))[..j]) == Balance(LedgerOf(w, s.trace[..i]).entries, account)
  {
    InterleavingsAreSerializable(w, run);
    LogFollowsCommitOrder(w, run, account);
    i := MomentOfRow(w, Execute(w, run).trace, account, j);
    MaterialisedBalance(w, run, account, i);
  }

  /** Once the account's rows are all published the consumer holds the current balance. */
  lemma {:induction false} DrainedBalance(w: World, run: seq<Action>, account: int)
    requires Legal(w, run)
    requires forall e :: e in Execute(w, run).ledger.outbox && e.account == account ==>
               e.id in Execute(w, run).published
    ensures var s := Execute(w, run);
      && FirstOccurrences(OfAccount(s.log, account)) == OfAccount(s.ledger.outbox, account)
      && Total(FirstOccurrences(OfAccount(s.log, account))) == Balance(s.ledger.entries, account)
  {
    var s := Execute(w, run);
    RunsKeepOrder(w, run);
    OrderGivesOutboxOk(s);
    RelaysLoseAndInventNothing(w, run);
    LogFollowsCommitOrder(w, run, account);
    var rows, firsts := OfAccount(s.ledger.outbox, account), FirstOccurrences(OfAccount(s.log, account));
    OfAccountMembers(s.ledger.outbox, account);
    OfAccountMembers(s.log, account);
    FirstOccurrencesMembers(OfAccount(s.log, account));
    AscendingIsDistinct(rows);
    if rows != [] {
      assert rows[|rows| - 1] in firsts;
      IndexInPrefix(rows, firsts, |rows| - 1);
    }
    InterleavingsAreSerializable(w, run);
    EventsSumToBalance(w, s.trace, account);
  }

  // ---------------------------------------------------------------- laws of every reachable state

  /** The laws of serial runs hold of the committed tables in every state of every interleaving. */
  lemma ReachableLedgersObeyTheLaws(w: World, run: seq<Action>, account: int)
    requires Legal(w, run)
    ensures var l := Execute(w, run).ledger;
      && Sound(w, l)
      && DoubleEntry(l)
      && SumOf(l.entries, (e: Entry) => true) == 0
      && Balance(l.entries, account) == InForceSum(l, account) + OrphanSum(l, account)
      && (ReversedHasReversal(l) <==> ReversalKeysFresh(w, Execute(w, run).trace))
      && (ReversalKeysFresh(w, Execute(w, run).trace) ==> Balance(l.entries, account) == InForceSum(l, account))
      && (IsUser(w, account) && NoCallWraps(w, Execute(w, run).trace) ==>
            Balance(l.entries, account) >= -ReversalDebits(l, account))
      && (DebitsLeaveNoDebt(w, Execute(w, run).trace) <==> NoCallWraps(w, Execute(w, run).trace))
  {
    var trace := Execute(w, run).trace;
    InterleavingsAreSerializable(w, run);
    SerialRunsAreSound(w, trace);
    EveryTransactionHasTwoEntries(w, trace);
    MoneyIsConserved(w, trace, 0, "");
    BalanceIsWhatIsInForce(w, trace, account);
    ReversedHasReversalExactly(w, trace);
    if ReversalKeysFresh(w, trace) { InForceUnderFreshKeys(w, trace, account); }
    OrdinaryDebitLeavesNoDebt(w, trace);
    if IsUser(w, account) && NoCallWraps(w, trace) { NoOverdraft(w, trace, account); }
  }

  /** Whatever else goes on, a call that was answered with anything but a database error was answered as promised, on
      the tables of the moment at which it was committed or refused. */
  lemma {:induction false} EveryAnswerIsAsPromised(w: World, run: seq<Action>, pid: int) returns (i: nat)
    requires Legal(w, run) && pid in Execute(w, run).procs
    requires Execute(w, run).procs[pid].pc.Finished?
    requires Execute(w, run).procs[pid].pc.outcome != Err(StorageFailure)
    ensures var s := Execute(w, run);
      && i < |s.trace| && s.trace[i].caller == pid
      && Promise(w, LedgerOf(w, s.trace[..i]), LedgerOf(w, s.trace[..i + 1]), s.procs[pid].op, s.procs[pid].pc.outcome)
  {
    var s := Execute(w, run);
    InterleavingsAreSerializable(w, run);
    i :| 0 <= i < |s.trace| && s.trace[i].caller == pid && s.trace[i].op == s.procs[pid].op
         && s.trace[i].outcome == s.procs[pid].pc.outcome;
    EveryCallKeepsItsPromise(w, s.trace, i);
  }
}
