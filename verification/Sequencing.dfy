/** Serial numbers are drawn when a row is inserted, not when it is committed, so across
    accounts they need not follow the commit order. Within one account the row lock makes
    them do so. */
module Sequencing {
  import opened Records
  import opened Operations
  import opened Ordering
  import opened Machine
  import opened Isolation

  /** Rows in commit order, the rows that open transactions have inserted so far, and the next
      serial number. */
  datatype Table<T> = Table(rows: seq<T>, open: map<int, seq<T>>, next: int)

  ghost predicate RowsOk<T>(t: Table<T>, id: T -> int, account: T -> int) {
    && (forall i :: 0 <= i < |t.rows| ==> id(t.rows[i]) < t.next)
    && (forall i, j :: 0 <= i < j < |t.rows| ==>
          && id(t.rows[i]) != id(t.rows[j])
          && (account(t.rows[i]) == account(t.rows[j]) ==> id(t.rows[i]) < id(t.rows[j])))
  }

  ghost predicate OpenOk<T>(t: Table<T>, p: int, id: T -> int, account: T -> int)
    requires p in t.open
  {
    var mine := t.open[p];
    && (forall i :: 0 <= i < |mine| ==> id(mine[i]) < t.next)
    && (forall i, j :: 0 <= i < j < |mine| ==> id(mine[i]) < id(mine[j]))
    && (forall i, j :: 0 <= i < |mine| && 0 <= j < |t.rows| ==>
          && id(t.rows[j]) != id(mine[i])
          && (account(t.rows[j]) == account(mine[i]) ==> id(t.rows[j]) < id(mine[i])))
  }

  ghost predicate Apart<T>(mine: seq<T>, theirs: seq<T>, id: T -> int) {
    forall i, j :: 0 <= i < |mine| && 0 <= j < |theirs| ==> id(mine[i]) != id(theirs[j])
  }

  ghost predicate Sequenced<T>(t: Table<T>, id: T -> int, account: T -> int) {
    && RowsOk(t, id, account)
    && (forall p :: p in t.open ==> OpenOk(t, p, id, account))
    && (forall p, q {:trigger t.open[p], t.open[q]} ::
          p in t.open && q in t.open && p != q ==> Apart(t.open[p], t.open[q], id))
  }

  /** `t'` is `t` after transaction `p` has inserted `x` under the next serial number. */
  ghost predicate Inserts<T>(t: Table<T>, t': Table<T>, p: int, x: T, id: T -> int) {
    && p in t.open && id(x) == t.next && t'.next == t.next + 1
    && t'.rows == t.rows && t'.open == t.open[p := t.open[p] + [x]]
  }

  lemma DrawnOpen<T>(t: Table<T>, t': Table<T>, p: int, x: T, q: int, id: T -> int, account: T -> int)
    requires RowsOk(t, id, account) && q in t.open && OpenOk(t, q, id, account)
    requires Inserts(t, t', p, x, id)
    ensures OpenOk(t', q, id, account)
  {
  }

  lemma DrawnApart<T>(t: Table<T>, t': Table<T>, p: int, x: T, q: int, id: T -> int, account: T -> int)
    requires p in t.open && q in t.open && p != q && Apart(t.open[p], t.open[q], id) && OpenOk(t, q, id, account)
    requires Inserts(t, t', p, x, id)
    ensures Apart(t'.open[p], t'.open[q], id) && Apart(t'.open[q], t'.open[p], id)
  {
    forall i, j | 0 <= i < |t'.open[p]| && 0 <= j < |t'.open[q]| ensures id(t'.open[p][i]) != id(t'.open[q][j]) {
      if i < |t.open[p]| { assert t'.open[p][i] == t.open[p][i]; }
    }
  }

  lemma Drawn<T>(t: Table<T>, t': Table<T>, p: int, x: T, id: T -> int, account: T -> int)
    requires Sequenced(t, id, account) && Inserts(t, t', p, x, id)
    ensures Sequenced(t', id, account)
  {
    forall q | q in t'.open ensures OpenOk(t', q, id, account) {
      DrawnOpen(t, t', p, x, q, id, account);
    }
    forall q, r | q in t'.open && r in t'.open && q != r ensures Apart(t'.open[q], t'.open[r], id) {
      assert Apart(t.open[q], t.open[r], id) && Apart(t.open[r], t.open[q], id);
      if q == p {
        DrawnApart(t, t', p, x, r, id, account);
      } else if r == p {
        DrawnApart(t, t', p, x, q, id, account);
      }
    }
  }

  /** Transactions begin with no rows, and disappear when they are rolled back. */
  lemma OpenedOrDropped<T>(t: Table<T>, t': Table<T>, id: T -> int, account: T -> int)
    requires Sequenced(t, id, account)
    requires t'.rows == t.rows && t'.next == t.next
    requires forall p :: p in t'.open ==> t'.open[p] == [] || (p in t.open && t'.open[p] == t.open[p])
    ensures Sequenced(t', id, account)
  {
    forall p | p in t'.open ensures OpenOk(t', p, id, account) {
      if t'.open[p] != [] { assert OpenOk(t, p, id, account); }
    }
    forall q, r | q in t'.open && r in t'.open && q != r ensures Apart(t'.open[q], t'.open[r], id) {
      if t'.open[q] != [] && t'.open[r] != [] { assert Apart(t.open[q], t.open[r], id); }
    }
  }

  /** No other open transaction has rows of the accounts that are committed. */
  lemma CommittedRows<T>(t: Table<T>, t': Table<T>, p: int, id: T -> int, account: T -> int)
    requires Sequenced(t, id, account) && p in t.open
    requires forall q, i, j :: q in t.open && q != p && 0 <= i < |t.open[p]| && 0 <= j < |t.open[q]| ==>
               account(t.open[p][i]) != account(t.open[q][j])
    requires t'.rows == t.rows + t.open[p] && t'.next == t.next && t'.open == t.open - {p}
    ensures Sequenced(t', id, account)
  {
    assert OpenOk(t, p, id, account);
    forall q | q in t'.open ensures OpenOk(t', q, id, account) {
      CommittedOpen(t, t', p, q, id, account);
    }
  }

  lemma CommittedOpen<T>(t: Table<T>, t': Table<T>, p: int, q: int, id: T -> int, account: T -> int)
    requires Sequenced(t, id, account) && p in t.open && q in t.open && p != q
    requires forall i, j :: 0 <= i < |t.open[p]| && 0 <= j < |t.open[q]| ==>
               account(t.open[p][i]) != account(t.open[q][j])
    requires t'.rows == t.rows + t.open[p] && t'.next == t.next && t'.open == t.open - {p}
    ensures OpenOk(t', q, id, account)
  {
    assert OpenOk(t, q, id, account) && Apart(t.open[p], t.open[q], id);
  }

  function EntryId(e: Entry): int { e.id }
  function EntryAccount(e: Entry): int { e.account }
  function EventAccount(e: Event): int { e.account }

  ghost function EntryTable(s: State): Table<Entry> {
    Table(s.ledger.entries, map pid | pid in s.procs && Live(s.procs[pid]) :: s.procs[pid].entries, s.nextEntry)
  }

  ghost function EventTable(s: State): Table<Event> {
    Table(s.ledger.outbox, map pid | pid in s.procs && Live(s.procs[pid]) :: s.procs[pid].events, s.nextEvent)
  }

  ghost predicate InCommitOrder(s: State) {
    && Sequenced(EntryTable(s), EntryId, EntryAccount)
    && Sequenced(EventTable(s), EventId, EventAccount)
  }

  /** A call only writes rows of accounts it has locked. */
  lemma RowsAreLocked(w: World, l: Ledger, p: Proc)
    requires ProcOk(w, l, p) && Live(p)
    ensures forall e :: e in p.entries ==> AccountRow(e.account) in p.locks
    ensures forall e :: e in p.events ==> AccountRow(e.account) in p.locks
  {
  }

  lemma OthersOnOtherAccounts(w: World, s: State, pid: int, other: int)
    requires Core(w, s) && pid in s.procs && other in s.procs && pid != other
    requires Live(s.procs[pid]) && Live(s.procs[other])
    ensures forall e, e' :: e in s.procs[pid].entries && e' in s.procs[other].entries ==> e.account != e'.account
    ensures forall e, e' :: e in s.procs[pid].events && e' in s.procs[other].events ==> e.account != e'.account
  {
    RowsAreLocked(w, s.ledger, s.procs[pid]);
    RowsAreLocked(w, s.ledger, s.procs[other]);
    assert s.procs[pid].locks !! s.procs[other].locks;
  }

  lemma MergedRows(w: World, l: Ledger, p: Proc)
    requires ProcOk(w, l, p) && p.pc == Commit
    ensures Merge(l, p).entries == l.entries + p.entries && Merge(l, p).outbox == l.outbox + p.events
  {
  }

  lemma OthersApart(w: World, s: State, pid: int)
    requires Core(w, s) && pid in s.procs && s.procs[pid].pc == Commit
    ensures var open := EntryTable(s).open;
      forall q, i, j :: q in open && q != pid && 0 <= i < |open[pid]| && 0 <= j < |open[q]| ==>
        EntryAccount(open[pid][i]) != EntryAccount(open[q][j])
    ensures var open := EventTable(s).open;
      forall q, i, j :: q in open && q != pid && 0 <= i < |open[pid]| && 0 <= j < |open[q]| ==>
        EventAccount(open[pid][i]) != EventAccount(open[q][j])
  {
    forall q | q in s.procs && Live(s.procs[q]) && q != pid
      ensures forall e, e' :: e in s.procs[pid].entries && e' in s.procs[q].entries ==> e.account != e'.account
      ensures forall e, e' :: e in s.procs[pid].events && e' in s.procs[q].events ==> e.account != e'.account
    {
      OthersOnOtherAccounts(w, s, pid, q);
    }
  }

  /** The committed rows move from the open part of the tables to the end of the committed part. */
  lemma CommitMovesRows(w: World, s: State, pid: int, reported: Outcome)
    requires pid in s.procs && s.procs[pid].pc == Commit && ProcOk(w, s.ledger, s.procs[pid])
    ensures var t, t' := EntryTable(s), EntryTable(Committed(s, pid, s.procs[pid], reported));
      pid in t.open && t'.rows == t.rows + t.open[pid] && t'.next == t.next && t'.open == t.open - {pid}
    ensures var t, t' := EventTable(s), EventTable(Committed(s, pid, s.procs[pid], reported));
      pid in t.open && t'.rows == t.rows + t.open[pid] && t'.next == t.next && t'.open == t.open - {pid}
  {
    MergedRows(w, s.ledger, s.procs[pid]);
    var s' := Committed(s, pid, s.procs[pid], reported);
    assert EntryTable(s').open == EntryTable(s).open - {pid};
    assert EventTable(s').open == EventTable(s).open - {pid};
  }

  lemma CommitKeepsEntryOrder(w: World, s: State, pid: int, reported: Outcome)
    requires Core(w, s) && InCommitOrder(s) && pid in s.procs && s.procs[pid].pc == Commit
    ensures Sequenced(EntryTable(Committed(s, pid, s.procs[pid], reported)), EntryId, EntryAccount)
  {
    CommitMovesRows(w, s, pid, reported);
    OthersApart(w, s, pid);
    CommittedRows(EntryTable(s), EntryTable(Committed(s, pid, s.procs[pid], reported)), pid, EntryId, EntryAccount);
  }

  lemma CommitKeepsEventOrder(w: World, s: State, pid: int, reported: Outcome)
    requires Core(w, s) && InCommitOrder(s) && pid in s.procs && s.procs[pid].pc == Commit
    ensures Sequenced(EventTable(Committed(s, pid, s.procs[pid], reported)), EventId, EventAccount)
  {
    CommitMovesRows(w, s, pid, reported);
    OthersApart(w, s, pid);
    CommittedRows(EventTable(s), EventTable(Committed(s, pid, s.procs[pid], reported)), pid, EventId, EventAccount);
  }

  lemma CommitKeepsOrder(w: World, s: State, pid: int, reported: Outcome)
    requires Core(w, s) && InCommitOrder(s) && pid in s.procs && s.procs[pid].pc == Commit
    ensures InCommitOrder(Committed(s, pid, s.procs[pid], reported))
  {
    CommitKeepsEntryOrder(w, s, pid, reported);
    CommitKeepsEventOrder(w, s, pid, reported);
  }

  /** Statements other than the four inserts add no rows and draw no serial number of these tables. */
  ghost predicate Quiet(s: State, s': State) {
    && s'.ledger == s.ledger && s'.nextEntry == s.nextEntry && s'.nextEvent == s.nextEvent
    && (forall pid :: pid in s'.procs && Live(s'.procs[pid]) ==>
          || (s'.procs[pid].entries == [] && s'.procs[pid].events == [])
          || (&& pid in s.procs && Live(s.procs[pid])
              && s'.procs[pid].entries == s.procs[pid].entries && s'.procs[pid].events == s.procs[pid].events))
  }

  lemma QuietKeepsOrder(s: State, s': State)
    requires InCommitOrder(s) && Quiet(s, s')
    ensures InCommitOrder(s')
  {
    OpenedOrDropped(EntryTable(s), EntryTable(s'), EntryId, EntryAccount);
    OpenedOrDropped(EventTable(s), EventTable(s'), EventId, EventAccount);
  }

  predicate IsInsert(pc: Pc) { pc in {WriteDebit, WriteCredit, EmitCredit, EmitDebit} }

  lemma EntryInsertDraws(w: World, s: State, pid: int) returns (e: Entry)
    requires pid in s.procs && s.procs[pid].pc in {WriteDebit, WriteCredit}
    ensures var s' := Step(w, s, pid); var t, t' := EntryTable(s), EntryTable(s');
      && EntryId(e) == t.next && t'.next == t.next + 1 && t'.rows == t.rows
      && pid in t.open && t'.open == t.open[pid := t.open[pid] + [e]]
      && EventTable(s') == EventTable(s)
  {
    var s' := Step(w, s, pid);
    var p' := s'.procs[pid];
    e := p'.entries[|p'.entries| - 1];
    assert p'.entries == s.procs[pid].entries + [e];
    assert EntryTable(s').open == EntryTable(s).open[pid := s.procs[pid].entries + [e]];
    assert EventTable(s').open == EventTable(s).open;
  }

  lemma EntryInsertKeepsOrder(w: World, s: State, pid: int)
    requires InCommitOrder(s) && pid in s.procs && s.procs[pid].pc in {WriteDebit, WriteCredit}
    ensures InCommitOrder(Step(w, s, pid))
  {
    var e := EntryInsertDraws(w, s, pid);
    Drawn(EntryTable(s), EntryTable(Step(w, s, pid)), pid, e, EntryId, EntryAccount);
  }

  lemma EventInsertDraws(w: World, s: State, pid: int) returns (e: Event)
    requires pid in s.procs && s.procs[pid].pc in {EmitCredit, EmitDebit}
    ensures var s' := Step(w, s, pid); var t, t' := EventTable(s), EventTable(s');
      && EventId(e) == t.next && t'.next == t.next + 1 && t'.rows == t.rows
      && pid in t.open && t'.open == t.open[pid := t.open[pid] + [e]]
      && EntryTable(s') == EntryTable(s)
  {
    var s' := Step(w, s, pid);
    var p' := s'.procs[pid];
    e := p'.events[|p'.events| - 1];
    assert p'.events == s.procs[pid].events + [e];
    assert EventTable(s').open == EventTable(s).open[pid := s.procs[pid].events + [e]];
    assert EntryTable(s').open == EntryTable(s).open;
  }

  lemma EventInsertKeepsOrder(w: World, s: State, pid: int)
    requires InCommitOrder(s) && pid in s.procs && s.procs[pid].pc in {EmitCredit, EmitDebit}
    ensures InCommitOrder(Step(w, s, pid))
  {
    var e := EventInsertDraws(w, s, pid);
    Drawn(EventTable(s), EventTable(Step(w, s, pid)), pid, e, EventId, EventAccount);
  }

  /** The call's own statement leaves the rows it has written alone, or gives them up. */
  ghost predicate OwnRowsStay(s: State, s': State, pid: int)
    requires pid in s.procs
  {
    && s'.ledger == s.ledger && s'.nextEntry == s.nextEntry && s'.nextEvent == s.nextEvent
    && pid in s'.procs && s'.procs == s.procs[pid := s'.procs[pid]]
    && (Live(s'.procs[pid]) ==>
         && Live(s.procs[pid])
         && s'.procs[pid].entries == s.procs[pid].entries && s'.procs[pid].events == s.procs[pid].events)
  }

  lemma OwnRowsStayQuiet(s: State, s': State, pid: int)
    requires pid in s.procs && OwnRowsStay(s, s', pid)
    ensures Quiet(s, s')
  {
  }

  lemma LocksAreQuiet(w: World, s: State, pid: int)
    requires pid in s.procs && s.procs[pid].pc in {Start, LockFirst, LockSecond}
    ensures OwnRowsStay(s, Step(w, s, pid), pid)
  {
  }

  lemma KeysAreQuiet(w: World, s: State, pid: int)
    requires pid in s.procs && s.procs[pid].pc in {Insert, ReadPrevious}
    ensures OwnRowsStay(s, Step(w, s, pid), pid)
  {
  }

  lemma ReadsAreQuiet(w: World, s: State, pid: int)
    requires pid in s.procs && (s.procs[pid].pc in {ReadBalance, MarkOriginal} || s.procs[pid].pc.Aborting?)
    ensures OwnRowsStay(s, Step(w, s, pid), pid)
  {
  }

  lemma OtherStatementsAreQuiet(w: World, s: State, pid: int)
    requires pid in s.procs && !IsDone(s.procs[pid])
    requires s.procs[pid].pc != Commit && !IsInsert(s.procs[pid].pc)
    ensures Quiet(s, Step(w, s, pid))
  {
    var pc := s.procs[pid].pc;
    if pc in {Start, LockFirst, LockSecond} {
      LocksAreQuiet(w, s, pid);
    } else if pc in {Insert, ReadPrevious} {
      KeysAreQuiet(w, s, pid);
    } else {
      ReadsAreQuiet(w, s, pid);
    }
    OwnRowsStayQuiet(s, Step(w, s, pid), pid);
  }

  lemma CommitStepKeepsOrder(w: World, s: State, pid: int)
    requires Core(w, s) && InCommitOrder(s) && pid in s.procs && s.procs[pid].pc == Commit
    ensures InCommitOrder(Step(w, s, pid))
  {
    CommitKeepsOrder(w, s, pid, Reply(s.procs[pid]));
  }

  lemma AdvanceKeepsOrder(w: World, s: State, pid: int)
    requires Core(w, s) && InCommitOrder(s) && Enabled(w, s, Advance(pid))
    ensures InCommitOrder(Step(w, s, pid))
  {
    match s.procs[pid].pc
    case Commit => CommitStepKeepsOrder(w, s, pid);
    case WriteDebit => EntryInsertKeepsOrder(w, s, pid);
    case WriteCredit => EntryInsertKeepsOrder(w, s, pid);
    case EmitCredit => EventInsertKeepsOrder(w, s, pid);
    case EmitDebit => EventInsertKeepsOrder(w, s, pid);
    case _ => OtherAdvanceKeepsOrder(w, s, pid);
  }

  lemma OtherAdvanceKeepsOrder(w: World, s: State, pid: int)
    requires InCommitOrder(s) && pid in s.procs && !IsDone(s.procs[pid])
    requires s.procs[pid].pc != Commit && !IsInsert(s.procs[pid].pc)
    ensures InCommitOrder(Step(w, s, pid))
  {
    OtherStatementsAreQuiet(w, s, pid);
    QuietKeepsOrder(s, Step(w, s, pid));
  }

  lemma BeginKeepsOrder(s: State, pid: int, op: Op)
    requires InCommitOrder(s) && pid !in s.procs
    ensures InCommitOrder(Put(s, pid, NewProc(op)))
  {
    QuietKeepsOrder(s, Put(s, pid, NewProc(op)));
  }

  lemma FailKeepsOrder(s: State, pid: int)
    requires InCommitOrder(s) && pid in s.procs
    ensures InCommitOrder(Crash(s, pid, s.procs[pid]))
  {
    QuietKeepsOrder(s, Crash(s, pid, s.procs[pid]));
  }

  lemma NextKeepsOrder(w: World, s: State, a: Action)
    requires Core(w, s) && InCommitOrder(s) && Enabled(w, s, a)
    ensures InCommitOrder(Next(w, s, a))
  {
    match a {
      case Begin(pid, op) => BeginKeepsOrder(s, pid, op);
      case Advance(pid) => AdvanceKeepsOrder(w, s, pid);
      case CommitUnheard(pid) => CommitKeepsOrder(w, s, pid, Err(StorageFailure));
      case Fail(pid) => FailKeepsOrder(s, pid);
      case _ =>
        RelaysLeaveCoreAlone(w, s, a);
        QuietKeepsOrder(s, RelayStep(w, s, a));
    }
  }

  lemma {:induction false} RunsKeepOrder(w: World, run: seq<Action>)
    requires Legal(w, run)
    ensures InCommitOrder(Execute(w, run))
  {
    if run != [] {
      var before := run[..|run| - 1];
      RunsKeepOrder(w, before);
      RunsKeepCore(w, before);
      NextKeepsOrder(w, Execute(w, before), run[|run| - 1]);
    }
  }

  lemma {:induction false} AccountRowsAscend(events: seq<Event>, account: int)
    requires forall i, j :: 0 <= i < j < |events| && events[i].account == events[j].account ==>
               events[i].id < events[j].id
    ensures StrictlyAscending(OfAccount(events, account), EventId)
  {
    if events != [] {
      var rest, last := events[..|events| - 1], events[|events| - 1];
      AccountRowsAscend(rest, account);
      OfAccountMembers(rest, account);
      if last.account == account {
        var rows := OfAccount(rest, account);
        forall i | 0 <= i < |rows| ensures rows[i].id < last.id {
          assert rows[i] in rows;
          var k :| 0 <= k < |rest| && rest[k] == rows[i];
          assert events[k] == rest[k];
        }
      }
    }
  }

  /** In every run the outbox rows of each account, and its ledger entries, were given ascending
      ids in the order in which they were committed. */
  lemma {:induction false} IdsFollowCommitsPerAccount(w: World, run: seq<Action>, account: int)
    requires Legal(w, run)
    ensures var l := Execute(w, run).ledger;
      && StrictlyAscending(OfAccount(l.outbox, account), EventId)
      && (forall i, j :: 0 <= i < j < |l.outbox| ==> l.outbox[i].id != l.outbox[j].id)
      && (forall i, j :: 0 <= i < j < |l.entries| && l.entries[i].account == l.entries[j].account ==>
            l.entries[i].id < l.entries[j].id)
  {
    RunsKeepOrder(w, run);
    var s := Execute(w, run);
    var t, u := EventTable(s), EntryTable(s);
    forall i, j | 0 <= i < j < |s.ledger.outbox|
      ensures s.ledger.outbox[i].id != s.ledger.outbox[j].id
      ensures s.ledger.outbox[i].account == s.ledger.outbox[j].account ==> s.ledger.outbox[i].id < s.ledger.outbox[j].id
    {
      assert EventId(t.rows[i]) != EventId(t.rows[j]);
      assert EventAccount(t.rows[i]) == EventAccount(t.rows[j]) ==> EventId(t.rows[i]) < EventId(t.rows[j]);
    }
    AccountRowsAscend(s.ledger.outbox, account);
    forall i, j | 0 <= i < j < |s.ledger.entries| && s.ledger.entries[i].account == s.ledger.entries[j].account
      ensures s.ledger.entries[i].id < s.ledger.entries[j].id
    {
      assert EntryAccount(u.rows[i]) == EntryAccount(u.rows[j]) ==> EntryId(u.rows[i]) < EntryId(u.rows[j]);
    }
  }
}
