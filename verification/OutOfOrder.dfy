/** A run in which outbox ids do not follow the commit order: what is proved per account does
    not hold of the table as a whole. */
module OutOfOrder {
  import opened Records
  import opened Operations
  import opened Machine
  import opened Serializability

  /** A call that has written everything and is about to commit. */
  function ReadyProc(w: World, op: Op, p: Params, ids: Ids): Proc {
    Proc(op, Commit, p, {AccountRow(p.from), AccountRow(p.to), KeySlot(p.key)}, ids, Some(NewTx(p, ids.tx)),
         [DebitEntry(p, ids), CreditEntry(p, ids)], [CreditEvent(w, p, ids), DebitEvent(w, p, ids)],
         false, Some(ReceiptOf(NewTx(p, ids.tx), false)))
  }

  function NextIds(s: State): Ids {
    Ids(s.nextTx, s.nextEntry, s.nextEntry + 1, s.nextEvent, s.nextEvent + 1)
  }

  function ReadyState(w: World, s: State, pid: int, op: Op, p: Params): State {
    Put(s, pid, ReadyProc(w, op, p, NextIds(s)))
      .(nextTx := s.nextTx + 1, nextEntry := s.nextEntry + 2, nextEvent := s.nextEvent + 2)
  }

  /** Nobody holds what the call will lock, and it will succeed. */
  ghost predicate WillSucceed(w: World, s: State, pid: int, op: Op, p: Params) {
    && pid in s.procs && s.procs[pid] == NewProc(op)
    && !op.Reverse? && Prepare(w, op) == Ok(p) && CheckAccounts(w, p) == None && p.reversalOf == None
    && p.key !in s.ledger.keys && Covered(w, s.ledger, p)
    && Free(s, pid, AccountRow(p.from)) && Free(s, pid, AccountRow(p.to)) && Free(s, pid, KeySlot(p.key))
  }

  function Locked(s: State, pid: int, op: Op, p: Params): State {
    Put(s, pid, NewProc(op).(pc := Insert, params := p, locks := {AccountRow(p.from), AccountRow(p.to)}))
  }

  lemma PutTwice(s: State, pid: int, p: Proc, q: Proc)
    ensures Put(Put(s, pid, p), pid, q) == Put(s, pid, q)
  {
    assert s.procs[pid := p][pid := q] == s.procs[pid := q];
  }

  lemma FirstThree(w: World, s: State, pid: int, op: Op, p: Params)
    requires WillSucceed(w, s, pid, op, p)
    ensures CanStep(w, s, [pid, pid, pid])
    ensures AfterSteps(w, s, [pid, pid, pid]) == Locked(s, pid, op, p)
  {
    var first := AccountRow(Min(p.from, p.to));
    var s1 := Put(s, pid, NewProc(op).(pc := LockFirst, params := p));
    var s2 := Put(s, pid, NewProc(op).(pc := LockSecond, params := p, locks := {first}));
    var q1, q2, q3 := s1.procs[pid], s2.procs[pid], Locked(s, pid, op, p).procs[pid];
    assert {first} + {AccountRow(Max(p.from, p.to))} == q3.locks;
    assert {} + {first} == q2.locks;
    PutTwice(s, pid, q1, q2);
    PutTwice(s, pid, q2, q3);
    assert Step(w, s, pid) == s1;
    assert Enabled(w, s1, Advance(pid)) && Step(w, s1, pid) == s2;
    assert Enabled(w, s2, Advance(pid)) && Step(w, s2, pid) == Locked(s, pid, op, p);
    TwoSteps(w, s1, s2, pid);
    StepBefore(w, s, pid, [pid, pid]);
    assert [pid] + [pid, pid] == [pid, pid, pid];
  }

  lemma StepBefore(w: World, s: State, pid: int, rest: seq<int>)
    requires Enabled(w, s, Advance(pid)) && CanStep(w, Step(w, s, pid), rest)
    ensures CanStep(w, s, [pid] + rest) && AfterSteps(w, s, [pid] + rest) == AfterSteps(w, Step(w, s, pid), rest)
  {
    assert ([pid] + rest)[1..] == rest;
  }

  lemma OneStep(w: World, s: State, pid: int)
    requires Enabled(w, s, Advance(pid))
    ensures CanStep(w, s, [pid]) && AfterSteps(w, s, [pid]) == Step(w, s, pid)
  {
    StepBefore(w, s, pid, []);
    assert [pid] + [] == [pid];
  }

  lemma TwoSteps(w: World, s: State, s1: State, pid: int)
    requires Enabled(w, s, Advance(pid)) && Step(w, s, pid) == s1 && Enabled(w, s1, Advance(pid))
    ensures CanStep(w, s, [pid, pid]) && AfterSteps(w, s, [pid, pid]) == Step(w, s1, pid)
  {
    OneStep(w, s1, pid);
    StepBefore(w, s, pid, [pid]);
    assert [pid] + [pid] == [pid, pid];
  }

  lemma {:induction false} StepsInSequence(w: World, s: State, first: seq<int>, second: seq<int>)
    requires CanStep(w, s, first) && CanStep(w, AfterSteps(w, s, first), second)
    ensures CanStep(w, s, first + second)
    ensures AfterSteps(w, s, first + second) == AfterSteps(w, AfterSteps(w, s, first), second)
    decreases |first|
  {
    if first == [] {
      assert first + second == second;
    } else {
      StepsInSequence(w, Step(w, s, first[0]), first[1..], second);
      assert (first + second)[1..] == first[1..] + second;
    }
  }

  function Written(s: State, pid: int, op: Op, p: Params): State {
    var ids := NO_IDS.(tx := s.nextTx);
    Put(s, pid, NewProc(op).(pc := WriteDebit, params := p, ids := ids,
                             locks := {AccountRow(p.from), AccountRow(p.to), KeySlot(p.key)},
                             created := Some(NewTx(p, s.nextTx)),
                             receipt := Some(ReceiptOf(NewTx(p, s.nextTx), false))))
      .(nextTx := s.nextTx + 1)
  }

  lemma NextTwo(w: World, s: State, pid: int, op: Op, p: Params)
    requires WillSucceed(w, s, pid, op, p)
    ensures CanStep(w, Locked(s, pid, op, p), [pid, pid])
    ensures AfterSteps(w, Locked(s, pid, op, p), [pid, pid]) == Written(s, pid, op, p)
  {
    var s3, s5 := Locked(s, pid, op, p), Written(s, pid, op, p);
    var q4, q5 := s5.procs[pid].(pc := ReadBalance), s5.procs[pid];
    var s4 := Put(s5, pid, q4);
    PutTwice(s.(nextTx := s.nextTx + 1), pid, s3.procs[pid], q4);
    PutTwice(s.(nextTx := s.nextTx + 1), pid, q5, q4);
    PutTwice(s.(nextTx := s.nextTx + 1), pid, q4, q5);
    assert s3.procs[pid].locks + {KeySlot(p.key)} == q4.locks;
    assert Enabled(w, s3, Advance(pid)) && Step(w, s3, pid) == s4;
    assert Enabled(w, s4, Advance(pid)) && Step(w, s4, pid) == s5;
    TwoSteps(w, s3, s4, pid);
  }

  lemma TwoEntries(w: World, s: State, pid: int, q: Proc)
    requires pid in s.procs && s.procs[pid] == q && q.pc == WriteDebit && q.entries == []
    ensures CanStep(w, s, [pid, pid])
    ensures var ids := q.ids.(debit := s.nextEntry, credit := s.nextEntry + 1);
      AfterSteps(w, s, [pid, pid])
      == Put(s, pid, q.(pc := EmitCredit, ids := ids,
                        entries := [DebitEntry(q.params, ids), CreditEntry(q.params, ids)]))
           .(nextEntry := s.nextEntry + 2)
  {
    var s1 := StepWriteDebit(s, pid, q);
    var s2 := StepWriteCredit(s1, pid, s1.procs[pid]);
    assert Step(w, s, pid) == s1 && Step(w, s1, pid) == s2;
    PutTwice(s, pid, s1.procs[pid], s2.procs[pid]);
    assert s2.procs == s.procs[pid := s2.procs[pid]];
    var ids := q.ids.(debit := s.nextEntry, credit := s.nextEntry + 1);
    assert s2.procs[pid].entries == [DebitEntry(q.params, ids), CreditEntry(q.params, ids)];
    TwoSteps(w, s, s1, pid);
  }

  lemma TwoEvents(w: World, s: State, pid: int, q: Proc)
    requires pid in s.procs && s.procs[pid] == q && q.pc == EmitCredit && q.events == [] && !q.op.Reverse?
    ensures CanStep(w, s, [pid, pid])
    ensures var ids := q.ids.(creditEvent := s.nextEvent, debitEvent := s.nextEvent + 1);
      AfterSteps(w, s, [pid, pid])
      == Put(s, pid, q.(pc := Commit, ids := ids,
                        events := [CreditEvent(w, q.params, ids), DebitEvent(w, q.params, ids)]))
           .(nextEvent := s.nextEvent + 2)
  {
    var s1 := StepEmitCredit(w, s, pid, q);
    var s2 := StepEmitDebit(w, s1, pid, s1.procs[pid]);
    assert Step(w, s, pid) == s1 && Step(w, s1, pid) == s2;
    PutTwice(s, pid, s1.procs[pid], s2.procs[pid]);
    assert s2.procs == s.procs[pid := s2.procs[pid]];
    var ids := q.ids.(creditEvent := s.nextEvent, debitEvent := s.nextEvent + 1);
    assert s2.procs[pid].events == [CreditEvent(w, q.params, ids), DebitEvent(w, q.params, ids)];
    TwoSteps(w, s, s1, pid);
  }

  function Entered(s: State, pid: int, op: Op, p: Params): State {
    var written := Written(s, pid, op, p);
    var ids := NO_IDS.(tx := s.nextTx, debit := s.nextEntry, credit := s.nextEntry + 1);
    Put(written, pid, written.procs[pid].(pc := EmitCredit, ids := ids,
                                          entries := [DebitEntry(p, ids), CreditEntry(p, ids)]))
      .(nextEntry := s.nextEntry + 2)
  }

  lemma EventsEmitted(w: World, s: State, pid: int, op: Op, p: Params)
    requires WillSucceed(w, s, pid, op, p)
    ensures CanStep(w, Entered(s, pid, op, p), [pid, pid])
    ensures AfterSteps(w, Entered(s, pid, op, p), [pid, pid]) == ReadyState(w, s, pid, op, p)
  {
    var s7 := Entered(s, pid, op, p);
    TwoEvents(w, s7, pid, s7.procs[pid]);
    var s9 := AfterSteps(w, s7, [pid, pid]);
    assert s9.procs[pid] == ReadyProc(w, op, p, NextIds(s));
    assert s9.procs == ReadyState(w, s, pid, op, p).procs;
  }

  lemma LastFour(w: World, s: State, pid: int, op: Op, p: Params)
    requires WillSucceed(w, s, pid, op, p)
    ensures CanStep(w, Written(s, pid, op, p), [pid, pid] + [pid, pid])
    ensures AfterSteps(w, Written(s, pid, op, p), [pid, pid] + [pid, pid]) == ReadyState(w, s, pid, op, p)
  {
    var s5 := Written(s, pid, op, p);
    TwoEntries(w, s5, pid, s5.procs[pid]);
    assert AfterSteps(w, s5, [pid, pid]) == Entered(s, pid, op, p);
    EventsEmitted(w, s, pid, op, p);
    StepsInSequence(w, s5, [pid, pid], [pid, pid]);
  }

  function Nine(pid: int): seq<int> { [pid, pid, pid] + [pid, pid] + ([pid, pid] + [pid, pid]) }

  /** Nine statements of one call bring it to its commit. */
  lemma RunToCommit(w: World, s: State, pid: int, op: Op, p: Params)
    requires WillSucceed(w, s, pid, op, p)
    ensures CanStep(w, s, Nine(pid)) && AfterSteps(w, s, Nine(pid)) == ReadyState(w, s, pid, op, p)
  {
    FirstThree(w, s, pid, op, p);
    NextTwo(w, s, pid, op, p);
    LastFour(w, s, pid, op, p);
    StepsInSequence(w, s, [pid, pid, pid], [pid, pid]);
    StepsInSequence(w, s, [pid, pid, pid] + [pid, pid], [pid, pid] + [pid, pid]);
  }

  const TWO_CHANNELS := World(
    map[1 := Account("USD", User), 2 := Account("USD", User),
        3 := Account("USD", System), 4 := Account("USD", System)],
    map["ATM_IN_USD" := 3, "BANK_IN_USD" := 4], 10)

  const ATM_DEPOSIT := Deposit(1, 100, "ATM", "a")
  const BANK_DEPOSIT := Deposit(2, 50, "BANK", "b")

  function Schedule(): seq<int> { Nine(1) + Nine(2) + [2] + [1] }

  const ATM_PARAMS := Params(3, 1, 100, TxDeposit, "a", None)
  const BANK_PARAMS := Params(4, 2, 50, TxDeposit, "b", None)

  function BothBegun(): State { Put(Put(INITIAL, 1, NewProc(ATM_DEPOSIT)), 2, NewProc(BANK_DEPOSIT)) }

  lemma BothBegin()
    ensures Legal(TWO_CHANNELS, [Begin(1, ATM_DEPOSIT), Begin(2, BANK_DEPOSIT)])
    ensures Execute(TWO_CHANNELS, [Begin(1, ATM_DEPOSIT), Begin(2, BANK_DEPOSIT)]) == BothBegun()
  {
    ExtendRun(TWO_CHANNELS, [], Begin(1, ATM_DEPOSIT));
    assert [] + [Begin(1, ATM_DEPOSIT)] == [Begin(1, ATM_DEPOSIT)];
    ExtendRun(TWO_CHANNELS, [Begin(1, ATM_DEPOSIT)], Begin(2, BANK_DEPOSIT));
    assert [Begin(1, ATM_DEPOSIT)] + [Begin(2, BANK_DEPOSIT)] == [Begin(1, ATM_DEPOSIT), Begin(2, BANK_DEPOSIT)];
  }

  lemma BothArePrepared()
    ensures Prepare(TWO_CHANNELS, ATM_DEPOSIT) == Ok(ATM_PARAMS)
    ensures Prepare(TWO_CHANNELS, BANK_DEPOSIT) == Ok(BANK_PARAMS)
    ensures CheckAccounts(TWO_CHANNELS, ATM_PARAMS) == None && CheckAccounts(TWO_CHANNELS, BANK_PARAMS) == None
  {
    assert "ATM" + "_IN_" + "USD" == "ATM_IN_USD" && "BANK" + "_IN_" + "USD" == "BANK_IN_USD";
  }

  function FirstReady(): State { ReadyState(TWO_CHANNELS, BothBegun(), 1, ATM_DEPOSIT, ATM_PARAMS) }

  function BothReady(): State { ReadyState(TWO_CHANNELS, FirstReady(), 2, BANK_DEPOSIT, BANK_PARAMS) }

  lemma FirstBecomesReady()
    ensures CanStep(TWO_CHANNELS, BothBegun(), Nine(1))
    ensures AfterSteps(TWO_CHANNELS, BothBegun(), Nine(1)) == FirstReady()
  {
    BothArePrepared();
    RunToCommit(TWO_CHANNELS, BothBegun(), 1, ATM_DEPOSIT, ATM_PARAMS);
  }

  lemma SecondBecomesReady()
    ensures CanStep(TWO_CHANNELS, FirstReady(), Nine(2))
    ensures AfterSteps(TWO_CHANNELS, FirstReady(), Nine(2)) == BothReady()
  {
    BothArePrepared();
    RunToCommit(TWO_CHANNELS, FirstReady(), 2, BANK_DEPOSIT, BANK_PARAMS);
  }

  lemma CommitsOf(w: World, s: State)
    requires 1 in s.procs && 2 in s.procs && s.procs[1].pc == Commit && s.procs[2].pc == Commit
    requires !s.procs[1].marks && !s.procs[2].marks && s.procs[1].created.Some? && s.procs[2].created.Some?
    ensures CanStep(w, s, [2]) && CanStep(w, AfterSteps(w, s, [2]), [1])
    ensures AfterSteps(w, AfterSteps(w, s, [2]), [1]).ledger.outbox
         == s.ledger.outbox + s.procs[2].events + s.procs[1].events
  {
    var s' := Committed(s, 2, s.procs[2], Reply(s.procs[2]));
    assert Step(w, s, 2) == s';
    assert AfterSteps(w, s, [2]) == AfterSteps(w, s', []);
    var s'' := Committed(s', 1, s'.procs[1], Reply(s'.procs[1]));
    assert Step(w, s', 1) == s'';
    assert AfterSteps(w, s', [1]) == AfterSteps(w, s'', []);
  }

  lemma WholeSchedule(w: World, s: State, s1: State, s2: State, first: seq<int>, second: seq<int>)
    requires CanStep(w, s, first) && AfterSteps(w, s, first) == s1
    requires CanStep(w, s1, second) && AfterSteps(w, s1, second) == s2
    requires CanStep(w, s2, [2]) && CanStep(w, AfterSteps(w, s2, [2]), [1])
    ensures CanStep(w, s, first + second + [2] + [1])
    ensures AfterSteps(w, s, first + second + [2] + [1]) == AfterSteps(w, AfterSteps(w, s2, [2]), [1])
  {
    StepsInSequence(w, s, first, second);
    StepsInSequence(w, s, first + second, [2]);
    StepsInSequence(w, s, first + second + [2], [1]);
  }

  /** Two deposits on different accounts: the first draws its event ids before the second and
      commits after it. */
  lemma IdsNeedNotFollowCommits()
    ensures var run := [Begin(1, ATM_DEPOSIT), Begin(2, BANK_DEPOSIT)] + Advances(Schedule());
      && Legal(TWO_CHANNELS, run)
      && |Execute(TWO_CHANNELS, run).ledger.outbox| == 4
      && Execute(TWO_CHANNELS, run).ledger.outbox[0].id > Execute(TWO_CHANNELS, run).ledger.outbox[2].id
  {
    var w := TWO_CHANNELS;
    BothBegin();
    FirstBecomesReady();
    SecondBecomesReady();
    CommitsOf(w, BothReady());
    WholeSchedule(w, BothBegun(), FirstReady(), BothReady(), Nine(1), Nine(2));
    var begun := [Begin(1, ATM_DEPOSIT), Begin(2, BANK_DEPOSIT)];
    RunSchedule(w, begun, Execute(w, begun), Schedule());
    EventIdsOfBoth();
  }

  lemma EventIdsOfBoth()
    ensures var outbox := BothReady().ledger.outbox + BothReady().procs[2].events + BothReady().procs[1].events;
      |outbox| == 4 && outbox[0].id > outbox[2].id
  {
  }
}
