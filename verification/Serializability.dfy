/** Main results about interleaved money operations: they are serializable, and never deadlock. */
module Serializability {
  import opened Records
  import opened Operations
  import opened Machine
  import opened LedgerLaws
  import opened Isolation
  import opened Sums

  /** Every interleaved run ends in the tables that the committed and refused calls, run one at
      a time in the order of the trace, leave behind; each of them occurs once and returned what
      it returns in that serial run; and the serial run contains every call that was answered
      with anything but a database error. */
  lemma {:induction false} InterleavingsAreSerializable(w: World, run: seq<Action>)
    requires Legal(w, run)
    ensures var s := Execute(w, run);
      && Serial(w, s.trace)
      && s.ledger == LedgerOf(w, s.trace)
      && (forall i, j :: 0 <= i < j < |s.trace| ==> s.trace[i].caller != s.trace[j].caller)
      && (forall i :: 0 <= i < |s.trace| ==>
            s.trace[i].caller in s.procs && s.procs[s.trace[i].caller].op == s.trace[i].op)
      && (forall pid :: pid in s.procs && s.procs[pid].pc.Finished? && s.procs[pid].pc.outcome != Err(StorageFailure)
            ==> Answered(s.trace, pid, s.procs[pid].op, s.procs[pid].pc.outcome))
  {
    RunsKeepCore(w, run);
  }

  lemma {:induction false} LegalPrefix(w: World, run: seq<Action>, n: nat)
    requires Legal(w, run) && n <= |run|
    ensures Legal(w, run[..n])
  {
    if n < |run| {
      LegalPrefix(w, run[..|run| - 1], n);
      assert run[..|run| - 1][..n] == run[..n];
    } else {
      assert run[..n] == run;
    }
  }

  lemma StepAppendsHistory(w: World, s: State, a: Action)
    requires Core(w, s) && Enabled(w, s, a)
    ensures s.trace <= Next(w, s, a).trace
    ensures s.procs.Keys <= Next(w, s, a).procs.Keys
  {
    if IsRelayAction(a) {
      RelaysLeaveCoreAlone(w, s, a);
    } else if a.Advance? && Unfinished(s, a.pid) {
      StatementIsLocal(w, s, a.pid);
      LocalAppendsHistory(w, s, Step(w, s, a.pid), a.pid);
    } else {
      OutcomesAppendHistory(w, s, a);
    }
  }

  lemma LocalAppendsHistory(w: World, s: State, s': State, pid: int)
    requires pid in s.procs && Local(w, s, s', pid)
    ensures s.trace <= s'.trace && s.procs.Keys <= s'.procs.Keys
  {
  }

  lemma OutcomesAppendHistory(w: World, s: State, a: Action)
    requires Enabled(w, s, a) && !IsRelayAction(a)
    requires a.Advance? ==> !Unfinished(s, a.pid)
    ensures s.trace <= Next(w, s, a).trace && s.procs.Keys <= Next(w, s, a).procs.Keys
  {
  }

  /** The serial order respects real time: what was recorded before some moment precedes all that
      is recorded after it. So a call that was answered before another began comes first. */
  lemma {:induction false} SerialOrderIsRealTimeOrder(w: World, run: seq<Action>, n: nat)
    requires Legal(w, run) && n <= |run|
    ensures Legal(w, run[..n])
    ensures Execute(w, run[..n]).trace <= Execute(w, run).trace
    ensures Execute(w, run[..n]).procs.Keys <= Execute(w, run).procs.Keys
  {
    LegalPrefix(w, run, n);
    if n < |run| {
      var shorter := run[..|run| - 1];
      SerialOrderIsRealTimeOrder(w, shorter, n);
      assert shorter[..n] == run[..n];
      RunsKeepCore(w, shorter);
      StepAppendsHistory(w, Execute(w, shorter), run[|run| - 1]);
    } else {
      assert run[..n] == run;
    }
  }

  // ---------------------------------------------------------------- branches that never run

  ghost predicate FailsByItself(w: World, s: State, pid: int)
    requires pid in s.procs && !IsDone(s.procs[pid])
  {
    var s' := Step(w, s, pid);
    pid in s'.procs && s'.procs[pid].pc == Finished(Err(StorageFailure))
  }

  /** A statement fails by itself only when it reads a balance that is no machine integer: the
      unique index on reversal_of is never violated, the row behind a duplicate key is always
      found, and the guarded status update always hits. */
  lemma {:induction false} StatementsDoNotFail(w: World, run: seq<Action>, pid: int)
    requires Legal(w, run) && Enabled(w, Execute(w, run), Advance(pid))
    ensures FailsByItself(w, Execute(w, run), pid)
       <==> BalanceUnreadable(Execute(w, run).ledger, Execute(w, run).procs[pid])
  {
    RunsKeepCore(w, run);
    StepDoesNotFail(w, Execute(w, run), pid);
  }

  lemma StepDoesNotFail(w: World, s: State, pid: int)
    requires Core(w, s) && Enabled(w, s, Advance(pid))
    ensures pid in Step(w, s, pid).procs
    ensures Step(w, s, pid).procs[pid].pc == Finished(Err(StorageFailure))
       <==> BalanceUnreadable(s.ledger, s.procs[pid])
  {
    var p := s.procs[pid];
    if p.pc.Aborting? {
      AbortsAreNotFailures(w, s, pid);
    } else if p.pc == Commit {
      assert ProcOk(w, s.ledger, p);
      CommitIsAtomic(w, s.ledger, p);
    } else {
      StatementIsLocal(w, s, pid);
      SerialRunsAreSound(w, s.trace);
      IndexesHold(w, s.ledger, p);
    }
  }

  lemma IndexesHold(w: World, l: Ledger, p: Proc)
    requires Sound(w, l) && ProcOk(w, l, p)
    ensures !IndexViolated(l, p)
  {
  }

  lemma AbortsAreNotFailures(w: World, s: State, pid: int)
    requires Core(w, s) && pid in s.procs && s.procs[pid].pc.Aborting?
    ensures s.procs[pid].pc.why != StorageFailure
  {
    assert ProcOk(w, s.ledger, s.procs[pid]);
  }

  // ---------------------------------------------------------------- progress

  ghost function AccountsAbove(w: World, account: int): set<int> { set a | a in w.accounts && a > account }

  /** Transaction rows are locked before accounts, accounts in ascending order, keys last. */
  ghost function WaitRank(w: World, p: Proc): nat {
    match Wanted(p)
    case None => 0
    case Some(KeySlot(key)) => 1
    case Some(AccountRow(a)) => 2 + |AccountsAbove(w, a)|
    case Some(TxRow(id)) => 3 + |w.accounts.Keys|
  }

  lemma FewerAbove(w: World, a: int, b: int)
    requires a < b && b in w.accounts
    ensures |AccountsAbove(w, b)| < |AccountsAbove(w, a)| <= |w.accounts.Keys|
  {
    assert AccountsAbove(w, b) + {b} <= AccountsAbove(w, a);
    SubsetSize(AccountsAbove(w, b) + {b}, AccountsAbove(w, a));
    SubsetSize(AccountsAbove(w, a), w.accounts.Keys);
  }

  /** The order in which a call takes its locks. */
  lemma LockOrder(w: World, l: Ledger, q: Proc, held: Lock)
    requires ProcOk(w, l, q) && held in q.locks && Wanted(q).Some?
    ensures held.TxRow? || held.AccountRow?
    ensures Wanted(q).value.KeySlot? || Wanted(q).value.AccountRow?
    ensures held.AccountRow? && Wanted(q).value.AccountRow? ==> held.id <= Wanted(q).value.id
  {
  }

  /** Whoever holds a wanted lock waits, if at all, for a later one. */
  lemma {:induction false} HolderRanksLower(w: World, s: State, waiter: int, holder: int)
    requires Core(w, s)
    requires waiter in s.procs && Wanted(s.procs[waiter]).Some?
    requires holder in s.procs && Wanted(s.procs[waiter]).value in s.procs[holder].locks
    requires !Enabled(w, s, Advance(holder))
    ensures !IsDone(s.procs[holder]) && WaitRank(w, s.procs[holder]) < WaitRank(w, s.procs[waiter])
  {
    var p, q := s.procs[waiter], s.procs[holder];
    assert ProcOk(w, s.ledger, q);
    LockOrder(w, s.ledger, q, Wanted(p).value);
    if Wanted(q).value.AccountRow? {
      var b := Wanted(q).value.id;
      var r :| r in s.procs && r != holder && AccountRow(b) in s.procs[r].locks;
      assert s.procs[r].locks !! q.locks;
      LockedAccountExists(w, s, r, b);
      SubsetSize(AccountsAbove(w, b), w.accounts.Keys);
      if Wanted(p).value.AccountRow? {
        FewerAbove(w, Wanted(p).value.id, b);
      }
    }
  }

  lemma LockedAccountExists(w: World, s: State, pid: int, account: int)
    requires Core(w, s) && pid in s.procs && AccountRow(account) in s.procs[pid].locks
    ensures account in w.accounts
  {
    assert ProcOk(w, s.ledger, s.procs[pid]);
    OwnLocksExist(w, s.ledger, s.procs[pid]);
  }

  lemma OwnLocksExist(w: World, l: Ledger, p: Proc)
    requires ProcOk(w, l, p)
    ensures LocksExist(w, p)
  {
  }

  /** Following the waiters from any unfinished call ends at one that can run. */
  lemma {:induction false} SomeoneCanStep(w: World, s: State, pid: int) returns (next: int)
    requires Core(w, s) && pid in s.procs && !IsDone(s.procs[pid])
    ensures Enabled(w, s, Advance(next))
    decreases WaitRank(w, s.procs[pid])
  {
    if Enabled(w, s, Advance(pid)) {
      next := pid;
    } else {
      var holder :| holder in s.procs && holder != pid && Wanted(s.procs[pid]).value in s.procs[holder].locks;
      if Enabled(w, s, Advance(holder)) {
        next := holder;
      } else {
        HolderRanksLower(w, s, pid, holder);
        next := SomeoneCanStep(w, s, holder);
      }
    }
  }

  /** In every reachable state with an unfinished call some call can take its next step. */
  lemma DeadlockFreedom(w: World, run: seq<Action>)
    requires Legal(w, run)
    requires exists pid :: pid in Execute(w, run).procs && !IsDone(Execute(w, run).procs[pid])
    ensures exists pid :: Enabled(w, Execute(w, run), Advance(pid))
  {
    RunsKeepCore(w, run);
    var pid :| pid in Execute(w, run).procs && !IsDone(Execute(w, run).procs[pid]);
    var next := SomeoneCanStep(w, Execute(w, run), pid);
  }

  ghost function Left(s: State, pid: int): int {
    if pid in s.procs then StepsLeft(s.procs[pid].pc) else 0
  }

  ghost function Work(s: State): int { SumOver(s.procs.Keys, pid => Left(s, pid)) }

  ghost predicate OneStepNearer(s: State, s': State, pid: int)
    requires pid in s.procs
  {
    && pid in s'.procs && StepsLeft(s'.procs[pid].pc) < StepsLeft(s.procs[pid].pc)
    && s'.procs == s.procs[pid := s'.procs[pid]]
  }

  lemma CommitTakesWork(s: State, pid: int)
    requires pid in s.procs && s.procs[pid].pc == Commit
    ensures OneStepNearer(s, Committed(s, pid, s.procs[pid], Reply(s.procs[pid])), pid)
  {
  }

  lemma StepTakesWork(w: World, s: State, pid: int)
    requires Core(w, s) && Enabled(w, s, Advance(pid))
    ensures OneStepNearer(s, Step(w, s, pid), pid)
  {
    if s.procs[pid].pc == Commit {
      CommitTakesWork(s, pid);
    } else if s.procs[pid].pc.Aborting? {
      AbortTakesWork(w, s, pid);
    } else {
      StatementIsLocal(w, s, pid);
      LocalTakesWork(w, s, Step(w, s, pid), pid);
    }
  }

  lemma AbortTakesWork(w: World, s: State, pid: int)
    requires pid in s.procs && s.procs[pid].pc.Aborting?
    ensures OneStepNearer(s, Step(w, s, pid), pid)
  {
  }

  lemma LocalTakesWork(w: World, s: State, s': State, pid: int)
    requires pid in s.procs && Local(w, s, s', pid)
    ensures OneStepNearer(s, s', pid)
  {
  }

  /** Each statement brings the end nearer, so without new calls no schedule goes on forever. */
  lemma EveryStepCounts(w: World, run: seq<Action>, pid: int)
    requires Legal(w, run) && Enabled(w, Execute(w, run), Advance(pid))
    ensures 0 <= Work(Next(w, Execute(w, run), Advance(pid))) < Work(Execute(w, run))
  {
    RunsKeepCore(w, run);
    WorkDrops(w, Execute(w, run), pid);
  }

  lemma WorkIsNatural(s: State)
    ensures Work(s) >= 0
  {
    NonNegative(s.procs.Keys, q => Left(s, q));
  }

  lemma WorkDrops(w: World, s: State, pid: int)
    requires Core(w, s) && Enabled(w, s, Advance(pid))
    ensures 0 <= Work(Step(w, s, pid)) < Work(s)
  {
    StepTakesWork(w, s, pid);
    var s' := Step(w, s, pid);
    assert s'.procs.Keys == s.procs.Keys;
    SumReplace(s.procs.Keys, pid, q => Left(s, q), q => Left(s', q));
    WorkIsNatural(s');
  }

  /** The call failed at its balance, which was no machine integer. */
  predicate FailedReading(p: Proc) {
    p.pc == Finished(Err(StorageFailure)) && p.created.Some? && p.entries == [] && p.events == []
  }

  /** All calls of `s` have ended, and none by a database error that it had not met before, unless
      its balance could not be read. */
  ghost predicate Settled(s: State, end: State) {
    && end.procs.Keys == s.procs.Keys
    && forall pid :: pid in s.procs ==>
         && IsDone(end.procs[pid])
         && (end.procs[pid].pc == Finished(Err(StorageFailure)) ==>
              end.procs[pid] == s.procs[pid] || FailedReading(end.procs[pid]))
  }

  lemma SettledStep(w: World, s: State, pid: int, end: State)
    requires Core(w, s) && Enabled(w, s, Advance(pid)) && Settled(Step(w, s, pid), end)
    ensures Settled(s, end)
  {
    StepTakesWork(w, s, pid);
    StepDoesNotFail(w, s, pid);
  }

  /** Letting the listed calls each take a step, in that order. */
  ghost predicate CanStep(w: World, s: State, pids: seq<int>)
    decreases |pids|
  {
    pids == [] || (Enabled(w, s, Advance(pids[0])) && CanStep(w, Step(w, s, pids[0]), pids[1..]))
  }

  ghost function AfterSteps(w: World, s: State, pids: seq<int>): State
    requires CanStep(w, s, pids)
    decreases |pids|
  {
    if pids == [] then s else AfterSteps(w, Step(w, s, pids[0]), pids[1..])
  }

  lemma {:induction false} ScheduleThatFinishes(w: World, s: State) returns (pids: seq<int>)
    requires Core(w, s)
    ensures CanStep(w, s, pids) && Settled(s, AfterSteps(w, s, pids)) && |pids| <= Work(s)
    decreases Work(s)
  {
    WorkIsNatural(s);
    if pid :| pid in s.procs && !IsDone(s.procs[pid]) {
      var next := SomeoneCanStep(w, s, pid);
      WorkDrops(w, s, next);
      NextKeepsCore(w, s, Advance(next));
      var rest := ScheduleThatFinishes(w, Step(w, s, next));
      pids := [next] + rest;
      assert pids[1..] == rest;
      SettledStep(w, s, next, AfterSteps(w, s, pids));
    } else {
      pids := [];
    }
  }

  function Advances(pids: seq<int>): seq<Action> {
    if pids == [] then [] else [Advance(pids[0])] + Advances(pids[1..])
  }

  lemma ExtendRun(w: World, run: seq<Action>, a: Action)
    requires Legal(w, run) && Enabled(w, Execute(w, run), a)
    ensures Legal(w, run + [a]) && Execute(w, run + [a]) == Next(w, Execute(w, run), a)
  {
    assert (run + [a])[..|run|] == run;
  }

  lemma FirstOfSchedule(w: World, run: seq<Action>, s: State, pids: seq<int>) returns (s': State)
    requires Legal(w, run) && Execute(w, run) == s && CanStep(w, s, pids) && pids != []
    ensures Legal(w, run + [Advance(pids[0])]) && Execute(w, run + [Advance(pids[0])]) == s'
    ensures CanStep(w, s', pids[1..]) && AfterSteps(w, s, pids) == AfterSteps(w, s', pids[1..])
  {
    s' := Step(w, s, pids[0]);
    ExtendRun(w, run, Advance(pids[0]));
  }

  lemma {:induction false} RunSchedule(w: World, run: seq<Action>, s: State, pids: seq<int>)
    requires Legal(w, run) && Execute(w, run) == s && CanStep(w, s, pids)
    ensures Legal(w, run + Advances(pids)) && Execute(w, run + Advances(pids)) == AfterSteps(w, s, pids)
    decreases |pids|
  {
    if pids == [] {
      assert run + Advances(pids) == run;
    } else {
      var s' := FirstOfSchedule(w, run, s, pids);
      RunSchedule(w, run + [Advance(pids[0])], s', pids[1..]);
      AdvancesFollow(run, pids);
    }
  }

  lemma AdvancesFollow(run: seq<Action>, pids: seq<int>)
    requires pids != []
    ensures run + Advances(pids) == (run + [Advance(pids[0])]) + Advances(pids[1..])
  {
  }

  /** From every reachable state all calls in progress can be run to their end, in a bounded
      number of statements and without a database error. */
  lemma {:induction false} AllCallsCanFinish(w: World, run: seq<Action>) returns (pids: seq<int>)
    requires Legal(w, run)
    ensures |pids| <= Work(Execute(w, run))
    ensures Legal(w, run + Advances(pids)) && Settled(Execute(w, run), Execute(w, run + Advances(pids)))
  {
    RunsKeepCore(w, run);
    pids := ScheduleThatFinishes(w, Execute(w, run));
    RunSchedule(w, run, Execute(w, run), pids);
  }
}
