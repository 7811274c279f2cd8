/** What the relay copies leave in the Kafka topic, in every run and under every failure. */
module RelayOrder {
  import opened Records
  import opened Ordering
  import opened Machine
  import opened Messages
  import opened Sequencing

  /** The records of a log without the repetitions. */
  function FirstOccurrences(log: seq<Event>): seq<Event> {
    if log == [] then []
    else
      var before, last := log[..|log| - 1], log[|log| - 1];
      FirstOccurrences(before) + if last in before then [] else [last]
  }

  lemma {:induction false} FirstOccurrencesMembers(log: seq<Event>)
    ensures forall e :: e in FirstOccurrences(log) <==> e in log
  {
    if log != [] {
      FirstOccurrencesMembers(log[..|log| - 1]);
      assert log == log[..|log| - 1] + [log[|log| - 1]];
    }
  }

  lemma FirstOccurrencesAppend(log: seq<Event>, e: Event)
    ensures FirstOccurrences(log + [e]) == FirstOccurrences(log) + if e in log then [] else [e]
  {
    assert (log + [e])[..|log|] == log;
  }

  // ---------------------------------------------------------------- one account

  ghost predicate Distinct(rows: seq<Event>) {
    forall i, j :: 0 <= i < j < |rows| ==> rows[i] != rows[j]
  }

  /** The published rows come first. */
  ghost predicate PublishedFirst(rows: seq<Event>, published: set<int>) {
    forall i, j :: 0 <= i < j < |rows| && rows[j].id in published ==> rows[i].id in published
  }

  lemma {:induction false} NothingUnpublished(rows: seq<Event>, published: set<int>)
    requires forall i :: 0 <= i < |rows| ==> rows[i].id in published
    ensures Unpublished(rows, published) == []
  {
    if rows != [] {
      NothingUnpublished(rows[..|rows| - 1], published);
    }
  }

  lemma PublishedFirstPrefix(rows: seq<Event>, published: set<int>)
    requires PublishedFirst(rows, published) && rows != []
    ensures PublishedFirst(rows[..|rows| - 1], published)
  {
    var rest := rows[..|rows| - 1];
    forall i, j | 0 <= i < j < |rest| && rest[j].id in published ensures rest[i].id in published {
      assert rows[j].id in published ==> rows[i].id in published;
    }
  }

  lemma {:induction false} UnpublishedIsSuffix(rows: seq<Event>, published: set<int>) returns (m: nat)
    requires PublishedFirst(rows, published)
    ensures m <= |rows| && Unpublished(rows, published) == rows[m..]
    ensures forall i :: 0 <= i < |rows| ==> (rows[i].id in published <==> i < m)
  {
    if rows == [] {
      m := 0;
    } else {
      var rest, last := rows[..|rows| - 1], rows[|rows| - 1];
      if last.id in published {
        forall i | 0 <= i < |rows| ensures rows[i].id in published {
          assert i < |rows| - 1 ==> rows[|rows| - 1].id in published;
        }
        NothingUnpublished(rows, published);
        m := |rows|;
      } else {
        PublishedFirstPrefix(rows, published);
        m := UnpublishedIsSuffix(rest, published);
        assert rows[m..] == rest[m..] + [last];
        forall i | 0 <= i < |rest| ensures rows[i].id in published <==> i < m {
          assert rest[i] == rows[i];
        }
      }
    }
  }

  /** Sending the oldest unpublished rows, or only the first of them, extends the distinct
      records of the log by the next rows, in order. */
  lemma {:induction false} SendingKeepsOrder(rows: seq<Event>, published: set<int>, log: seq<Event>, sent: seq<Event>)
    requires Distinct(rows) && PublishedFirst(rows, published)
    requires FirstOccurrences(log) <= rows
    requires forall e :: e in rows && e.id in published ==> e in log
    requires sent <= Unpublished(rows, published)
    ensures FirstOccurrences(log + sent) <= rows
  {
    if sent == [] {
      assert log + sent == log;
    } else {
      var earlier, x := sent[..|sent| - 1], sent[|sent| - 1];
      SendingKeepsOrder(rows, published, log, earlier);
      assert log + sent == (log + earlier) + [x];
      FirstOccurrencesAppend(log + earlier, x);
      if x !in log + earlier {
        var m := UnpublishedIsSuffix(rows, published);
        NextRowIsSent(rows, m, log, earlier, x);
      }
    }
  }

  lemma NextRowIsSent(rows: seq<Event>, m: nat, log: seq<Event>, earlier: seq<Event>, x: Event)
    requires Distinct(rows) && m + |earlier| < |rows|
    requires earlier == rows[m..m + |earlier|] && x == rows[m + |earlier|]
    requires forall i :: 0 <= i < m ==> rows[i] in log
    requires FirstOccurrences(log + earlier) <= rows && x !in log + earlier
    ensures FirstOccurrences(log + earlier) + [x] <= rows
  {
    var k, firsts := m + |earlier|, FirstOccurrences(log + earlier);
    FirstOccurrencesMembers(log + earlier);
    forall i | 0 <= i < k ensures rows[i] in firsts {
      assert i >= m ==> rows[i] == earlier[i - m];
    }
    PrefixGoesOn(rows, firsts, k);
  }

  lemma PrefixGoesOn(rows: seq<Event>, firsts: seq<Event>, k: nat)
    requires Distinct(rows) && firsts <= rows && k < |rows| && rows[k] !in firsts
    requires forall i :: 0 <= i < k ==> rows[i] in firsts
    ensures firsts + [rows[k]] <= rows
  {
    if k > 0 { IndexInPrefix(rows, firsts, k - 1); }
    IndexAfterPrefix(rows, firsts, k);
  }

  lemma IndexInPrefix(rows: seq<Event>, firsts: seq<Event>, i: nat)
    requires Distinct(rows) && firsts <= rows && i < |rows| && rows[i] in firsts
    ensures i < |firsts|
  {
    var j :| 0 <= j < |firsts| && firsts[j] == rows[i];
    assert firsts[j] == rows[j];
  }

  lemma IndexAfterPrefix(rows: seq<Event>, firsts: seq<Event>, k: nat)
    requires firsts <= rows && k < |rows| && rows[k] !in firsts
    ensures |firsts| <= k
  {
    assert forall i {:trigger rows[i]} :: 0 <= i < |firsts| ==> rows[i] == firsts[i] && rows[i] in firsts;
  }

  // ---------------------------------------------------------------- the invariant

  predicate HasBatch(r: Relay) { r.Fetched? || r.Delivered? || r.Marked? }

  predicate HasDelivered(r: Relay) { r.Delivered? || r.Marked? }

  ghost predicate OneHolder(s: State) {
    forall r, r' {:trigger s.relays[r], s.relays[r']} ::
      r in s.relays && r' in s.relays && !s.relays[r].Idle? && !s.relays[r'].Idle? ==> r == r'
  }

  ghost predicate BatchOk(s: State, batch: seq<Event>) {
    && Distinct(batch)
    && (forall e :: e in batch ==> e in s.ledger.outbox && e.id !in s.published)
    && (forall a :: OfAccount(batch, a) <= Unpublished(OfAccount(s.ledger.outbox, a), s.published))
  }

  ghost predicate RelaysOk(s: State) {
    forall r :: r in s.relays && HasBatch(s.relays[r]) ==>
      && BatchOk(s, s.relays[r].batch)
      && (HasDelivered(s.relays[r]) ==> forall e :: e in s.relays[r].batch ==> e in s.log)
  }

  ghost predicate PublishedOk(s: State) {
    && (forall id :: id in s.published ==> exists e :: e in s.ledger.outbox && e.id == id)
    && (forall e :: e in s.ledger.outbox && e.id in s.published ==> e in s.log)
    && (forall a :: PublishedFirst(OfAccount(s.ledger.outbox, a), s.published))
  }

  ghost predicate LogOk(s: State) {
    && (forall e :: e in s.log ==> e in s.ledger.outbox)
    && (forall a {:trigger OfAccount(s.log, a)} ::
          FirstOccurrences(OfAccount(s.log, a)) <= OfAccount(s.ledger.outbox, a))
  }

  /** The row was delivered and its batch is committed or may still be. */
  ghost predicate Settling(s: State, e: Event) {
    e.id in s.published || exists r :: r in s.relays && HasDelivered(s.relays[r]) && e in s.relays[r].batch
  }

  /** How many rolled back batches contained the row. */
  function Failures(failed: seq<seq<Event>>, e: Event): nat {
    if failed == [] then 0
    else Failures(failed[..|failed| - 1], e) + if e in failed[|failed| - 1] then 1 else 0
  }

  /** How often the row may still arrive. */
  function Expected(late: seq<seq<Event>>, e: Event): nat {
    if late == [] then 0 else Expected(late[..|late| - 1], e) + multiset(late[|late| - 1])[e]
  }

  ghost predicate CountedRow(s: State, e: Event) {
    multiset(s.log)[e] + Expected(s.late, e) <= Failures(s.failed, e) + if Settling(s, e) then 1 else 0
  }

  ghost predicate Counted(s: State) { forall e :: CountedRow(s, e) }

  /** What may still arrive of an account are rows that follow each other, and all rows before them
      have arrived. */
  ghost predicate Overdue(rows: seq<Event>, mine: seq<Event>, log: seq<Event>) {
    exists m :: OverdueFrom(rows, mine, log, m)
  }

  ghost predicate OverdueFrom(rows: seq<Event>, mine: seq<Event>, log: seq<Event>, m: int) {
    && 0 <= m && m + |mine| <= |rows| && mine == rows[m..m + |mine|]
    && forall i :: 0 <= i < m ==> rows[i] in log
  }

  ghost predicate LateOk(s: State) {
    forall k, a :: 0 <= k < |s.late| ==> Overdue(OfAccount(s.ledger.outbox, a), OfAccount(s.late[k], a), s.log)
  }

  ghost predicate RelayInv(s: State) {
    OneHolder(s) && RelaysOk(s) && PublishedOk(s) && LogOk(s) && LateOk(s) && Counted(s)
  }

  /** What is known of the outbox from the money operations. */
  ghost predicate OutboxOk(s: State) {
    && (forall a :: StrictlyAscending(OfAccount(s.ledger.outbox, a), EventId))
    && (forall i, j :: 0 <= i < j < |s.ledger.outbox| ==> s.ledger.outbox[i].id != s.ledger.outbox[j].id)
  }

  lemma AscendingIsDistinct(rows: seq<Event>)
    requires StrictlyAscending(rows, EventId)
    ensures Distinct(rows)
  {
    forall i, j | 0 <= i < j < |rows| ensures rows[i] != rows[j] {
      assert EventId(rows[i]) < EventId(rows[j]);
    }
  }

  // ---------------------------------------------------------------- the outbox grows

  lemma {:induction false} UnpublishedConcat(xs: seq<Event>, ys: seq<Event>, published: set<int>)
    ensures Unpublished(xs + ys, published) == Unpublished(xs, published) + Unpublished(ys, published)
  {
    if ys == [] {
      assert xs + ys == xs;
    } else {
      var rest, last := ys[..|ys| - 1], ys[|ys| - 1];
      assert (xs + ys)[..|xs + ys| - 1] == xs + rest;
      UnpublishedConcat(xs, rest, published);
    }
  }

  ghost predicate OnlyOutboxGrows(s: State, s': State, rows: seq<Event>) {
    && s'.ledger.outbox == s.ledger.outbox + rows
    && s'.published == s.published && s'.relays == s.relays && s'.log == s.log
    && s'.late == s.late && s'.failed == s.failed
    && (forall e :: e in rows ==> e.id !in s.published)
  }

  lemma GrowthKeepsPublished(s: State, s': State, rows: seq<Event>)
    requires RelayInv(s) && OnlyOutboxGrows(s, s', rows)
    ensures PublishedOk(s') && LogOk(s')
  {
    forall a
      ensures PublishedFirst(OfAccount(s'.ledger.outbox, a), s.published)
      ensures FirstOccurrences(OfAccount(s.log, a)) <= OfAccount(s'.ledger.outbox, a)
    {
      OfAccountConcat(s.ledger.outbox, rows, a);
      OfAccountMembers(rows, a);
      assert FirstOccurrences(OfAccount(s.log, a)) <= OfAccount(s.ledger.outbox, a);
      var old', new' := OfAccount(s.ledger.outbox, a), OfAccount(rows, a);
      assert PublishedFirst(old', s.published);
      assert forall j :: 0 <= j < |new'| ==> new'[j] in rows;
    }
  }

  lemma GrowthKeepsBatch(s: State, s': State, rows: seq<Event>, batch: seq<Event>)
    requires OnlyOutboxGrows(s, s', rows) && BatchOk(s, batch)
    ensures BatchOk(s', batch)
  {
    forall a ensures OfAccount(batch, a) <= Unpublished(OfAccount(s'.ledger.outbox, a), s'.published) {
      OfAccountConcat(s.ledger.outbox, rows, a);
      UnpublishedConcat(OfAccount(s.ledger.outbox, a), OfAccount(rows, a), s.published);
      assert OfAccount(batch, a) <= Unpublished(OfAccount(s.ledger.outbox, a), s.published);
    }
  }

  /** More rows and more records leave what is overdue as it is. */
  lemma LateStays(s: State, s': State, k: nat)
    requires LateOk(s) && k < |s.late| && k < |s'.late| && s'.late[k] == s.late[k]
    requires forall a :: OfAccount(s.ledger.outbox, a) <= OfAccount(s'.ledger.outbox, a)
    requires forall e :: e in s.log ==> e in s'.log
    ensures forall a :: Overdue(OfAccount(s'.ledger.outbox, a), OfAccount(s'.late[k], a), s'.log)
  {
    forall a ensures Overdue(OfAccount(s'.ledger.outbox, a), OfAccount(s'.late[k], a), s'.log) {
      var rows, rows', mine := OfAccount(s.ledger.outbox, a), OfAccount(s'.ledger.outbox, a), OfAccount(s.late[k], a);
      assert Overdue(rows, mine, s.log);
      var m :| OverdueFrom(rows, mine, s.log, m);
      assert OverdueFrom(rows', mine, s'.log, m);
    }
  }

  lemma GrowthKeepsLate(s: State, s': State, rows: seq<Event>)
    requires LateOk(s) && OnlyOutboxGrows(s, s', rows)
    ensures LateOk(s')
  {
    forall a ensures OfAccount(s.ledger.outbox, a) <= OfAccount(s'.ledger.outbox, a) {
      OfAccountConcat(s.ledger.outbox, rows, a);
    }
    forall k | 0 <= k < |s'.late|
      ensures forall a :: Overdue(OfAccount(s'.ledger.outbox, a), OfAccount(s'.late[k], a), s'.log)
    {
      LateStays(s, s', k);
    }
  }

  lemma GrowthKeepsRelays(s: State, s': State, rows: seq<Event>)
    requires RelayInv(s) && OnlyOutboxGrows(s, s', rows)
    ensures RelayInv(s')
  {
    GrowthKeepsPublished(s, s', rows);
    GrowthKeepsLate(s, s', rows);
    forall r | r in s'.relays && HasBatch(s'.relays[r]) ensures BatchOk(s', s'.relays[r].batch) {
      assert BatchOk(s, s.relays[r].batch);
      GrowthKeepsBatch(s, s', rows, s.relays[r].batch);
    }
    forall e ensures CountedRow(s', e) {
      assert CountedRow(s, e) && Settling(s', e) == Settling(s, e);
    }
  }

  // ---------------------------------------------------------------- relay steps

  /** What a failed or successful Publish may have put into the log: of each account a prefix
      of its part of the batch, and all of it on success. */
  ghost predicate Deliverable(batch: seq<Event>, sent: seq<Event>, accepted: bool) {
    forall account {:trigger OfAccount(sent, account)} ::
      && OfAccount(sent, account) <= OfAccount(batch, account)
      && (accepted ==> OfAccount(sent, account) == OfAccount(batch, account))
  }

  ghost predicate AccountSplits(batch: seq<Event>, sent: seq<Event>, rest: seq<Event>) {
    forall account {:trigger OfAccount(sent, account)} ::
      OfAccount(batch, account) == OfAccount(sent, account) + OfAccount(rest, account)
  }

  lemma {:induction false} SortedDistinct(rows: seq<Event>)
    requires Distinct(rows)
    ensures Distinct(SortBy(rows, EventId))
  {
    SortIsOrderedPermutation(rows, EventId);
    var sorted := SortBy(rows, EventId);
    DistinctCounts(rows);
    CountsDistinct(sorted);
  }

  lemma {:induction false} DistinctCounts(rows: seq<Event>)
    requires Distinct(rows)
    ensures forall e :: multiset(rows)[e] <= 1
  {
    if rows != [] {
      var rest, last := rows[..|rows| - 1], rows[|rows| - 1];
      assert rows == rest + [last];
      DistinctCounts(rest);
      assert last !in rest;
      assert last !in multiset(rest);
    }
  }

  lemma CountsDistinct(rows: seq<Event>)
    requires forall e :: multiset(rows)[e] <= 1
    ensures Distinct(rows)
  {
    forall i, j | 0 <= i < j < |rows| ensures rows[i] != rows[j] {
      var head, tail := rows[..j], rows[j..];
      assert rows == head + tail;
      assert head[i] in multiset(head) && tail[0] in multiset(tail);
      assert multiset(rows)[rows[i]] == multiset(head)[rows[i]] + multiset(tail)[rows[i]];
    }
  }

  lemma {:induction false} UnpublishedDistinct(rows: seq<Event>, published: set<int>)
    requires forall i, j :: 0 <= i < j < |rows| ==> rows[i].id != rows[j].id
    ensures Distinct(Unpublished(rows, published))
  {
    if rows != [] {
      var rest, last := rows[..|rows| - 1], rows[|rows| - 1];
      UnpublishedDistinct(rest, published);
      UnpublishedMembers(rest, published);
      var kept := Unpublished(rest, published);
      forall i | 0 <= i < |kept| ensures kept[i] != last {
        assert kept[i] in rest;
        var k :| 0 <= k < |rest| && rest[k] == kept[i];
        assert rows[k].id != rows[|rest|].id;
      }
    }
  }

  lemma FetchIsOk(w: World, s: State)
    requires OutboxOk(s)
    ensures BatchOk(s, Batch(s.ledger.outbox, s.published, w.batchSize))
  {
    var outbox, batch := s.ledger.outbox, Batch(s.ledger.outbox, s.published, w.batchSize);
    BatchIsOldest(outbox, s.published, w.batchSize);
    UnpublishedDistinct(outbox, s.published);
    SortedDistinct(Unpublished(outbox, s.published));
    forall a ensures OfAccount(batch, a) <= Unpublished(OfAccount(outbox, a), s.published) {
      BatchOfAccount(outbox, s.published, w.batchSize, a);
    }
  }

  lemma SentAreFromBatch(batch: seq<Event>, sent: seq<Event>, accepted: bool)
    requires Deliverable(batch, sent, accepted)
    ensures forall e :: multiset(sent)[e] <= multiset(batch)[e]
    ensures forall e :: e in sent ==> e in batch
    ensures accepted ==> forall e :: e in batch ==> e in sent
  {
    forall e
      ensures multiset(sent)[e] <= multiset(batch)[e]
      ensures e in sent ==> e in batch
      ensures accepted && e in batch ==> e in sent
    {
      var mine, all := OfAccount(sent, e.account), OfAccount(batch, e.account);
      assert mine <= all;
      OfAccountCounts(sent, e);
      OfAccountCounts(batch, e);
      assert all == mine + all[|mine|..];
      assert multiset(all) == multiset(mine) + multiset(all[|mine|..]);
      OfAccountMembers(sent, e.account);
      OfAccountMembers(batch, e.account);
      assert e in sent <==> e in mine;
    }
  }

  lemma {:induction false} OfAccountCounts(events: seq<Event>, e: Event)
    ensures multiset(OfAccount(events, e.account))[e] == multiset(events)[e]
  {
    if events != [] {
      var rest, last := events[..|events| - 1], events[|events| - 1];
      assert events == rest + [last];
      OfAccountCounts(rest, e);
    }
  }

  lemma PublishKeepsLog(s: State, s': State, batch: seq<Event>, sent: seq<Event>, accepted: bool)
    requires RelayInv(s) && OutboxOk(s) && BatchOk(s, batch) && Deliverable(batch, sent, accepted)
    requires s'.ledger == s.ledger && s'.log == s.log + sent
    ensures LogOk(s')
  {
    SentAreFromBatch(batch, sent, accepted);
    forall a ensures FirstOccurrences(OfAccount(s'.log, a)) <= OfAccount(s.ledger.outbox, a) {
      var rows, log, mine := OfAccount(s.ledger.outbox, a), OfAccount(s.log, a), OfAccount(sent, a);
      OfAccountConcat(s.log, sent, a);
      OfAccountMembers(s.ledger.outbox, a);
      OfAccountMembers(s.log, a);
      AscendingIsDistinct(rows);
      assert mine <= OfAccount(batch, a);
      assert FirstOccurrences(log) <= rows;
      SendingKeepsOrder(rows, s.published, log, mine);
    }
  }

  lemma FailuresGrow(failed: seq<seq<Event>>, batch: seq<Event>, e: Event)
    ensures Failures(failed + [batch], e) == Failures(failed, e) + if e in batch then 1 else 0
  {
    assert (failed + [batch])[..|failed|] == failed;
  }

  /** The topic keeps the order of each key, and so that of each account. */
  lemma SplitsByAccount(batch: seq<Event>, sent: seq<Event>, rest: seq<Event>)
    requires Splits(batch, sent, rest)
    ensures AccountSplits(batch, sent, rest)
  {
    forall account ensures OfAccount(batch, account) == OfAccount(sent, account) + OfAccount(rest, account) {
      KeysAreAccounts(batch, account);
      KeysAreAccounts(sent, account);
      KeysAreAccounts(rest, account);
      assert OfKey(batch, account) == OfKey(sent, account) + OfKey(rest, account);
    }
  }

  lemma SplitDelivers(batch: seq<Event>, sent: seq<Event>, rest: seq<Event>, accepted: bool)
    requires AccountSplits(batch, sent, rest) && (accepted ==> rest == [])
    ensures Deliverable(batch, sent, accepted)
  {
    forall a
      ensures OfAccount(sent, a) <= OfAccount(batch, a)
      ensures accepted ==> OfAccount(sent, a) == OfAccount(batch, a)
    {
      assert OfAccount(batch, a) == OfAccount(sent, a) + OfAccount(rest, a);
    }
  }

  lemma SplitCounts(batch: seq<Event>, sent: seq<Event>, rest: seq<Event>, e: Event)
    requires AccountSplits(batch, sent, rest)
    ensures multiset(batch)[e] == multiset(sent)[e] + multiset(rest)[e]
  {
    var all, mine, others := OfAccount(batch, e.account), OfAccount(sent, e.account), OfAccount(rest, e.account);
    assert all == mine + others;
    assert multiset(all) == multiset(mine) + multiset(others);
    OfAccountCounts(batch, e);
    OfAccountCounts(sent, e);
    OfAccountCounts(rest, e);
  }

  lemma ExpectedMore(late: seq<seq<Event>>, rest: seq<Event>, e: Event)
    ensures Expected(late + [rest], e) == Expected(late, e) + multiset(rest)[e]
  {
    assert (late + [rest])[..|late|] == late;
  }

  lemma {:induction false} ExpectedLess(late: seq<seq<Event>>, k: nat, rest: seq<Event>, e: Event)
    requires k < |late|
    ensures Expected(late[k := rest], e) + multiset(late[k])[e] == Expected(late, e) + multiset(rest)[e]
  {
    var n := |late| - 1;
    if k < n {
      ExpectedLess(late[..n], k, rest, e);
      assert late[k := rest][..n] == late[..n][k := rest];
    } else {
      assert late[k := rest][..n] == late[..n];
    }
  }

  /** What is left of a batch when some of it has been sent follows what has arrived. */
  lemma RestIsOverdue(s: State, batch: seq<Event>, sent: seq<Event>, rest: seq<Event>, log: seq<Event>, a: int)
    requires PublishedOk(s) && BatchOk(s, batch) && AccountSplits(batch, sent, rest)
    requires forall e :: e in s.log || e in sent ==> e in log
    ensures Overdue(OfAccount(s.ledger.outbox, a), OfAccount(rest, a), log)
  {
    var rows, mine, others := OfAccount(s.ledger.outbox, a), OfAccount(sent, a), OfAccount(rest, a);
    assert OfAccount(batch, a) == mine + others;
    OfAccountMembers(s.ledger.outbox, a);
    OfAccountMembers(sent, a);
    assert PublishedFirst(rows, s.published) && OfAccount(batch, a) <= Unpublished(rows, s.published);
    var m := UnpublishedIsSuffix(rows, s.published);
    SectionIsOverdue(rows, m, mine, others, log);
  }

  lemma SectionIsOverdue(rows: seq<Event>, m: nat, mine: seq<Event>, others: seq<Event>, log: seq<Event>)
    requires m <= |rows| && mine + others <= rows[m..]
    requires forall i :: 0 <= i < m ==> rows[i] in log
    requires forall e :: e in mine ==> e in log
    ensures OverdueFrom(rows, others, log, m + |mine|)
  {
    forall i | 0 <= i < m + |mine| ensures rows[i] in log {
      if i >= m { assert rows[i] == rows[m..][i - m] == (mine + others)[i - m] == mine[i - m]; }
    }
    forall i | 0 <= i < |others| ensures others[i] == rows[m + |mine| + i] {
      assert others[i] == (mine + others)[|mine| + i] == rows[m..][|mine| + i];
    }
  }

  lemma PublishKeepsLate(s: State, s': State, batch: seq<Event>, sent: seq<Event>, rest: seq<Event>)
    requires RelayInv(s) && BatchOk(s, batch) && AccountSplits(batch, sent, rest)
    requires s'.ledger == s.ledger && s'.log == s.log + sent && (s'.late == s.late || s'.late == s.late + [rest])
    ensures LateOk(s')
  {
    forall k | 0 <= k < |s'.late|
      ensures forall a :: Overdue(OfAccount(s'.ledger.outbox, a), OfAccount(s'.late[k], a), s'.log)
    {
      if k < |s.late| {
        LateStays(s, s', k);
      } else {
        forall a ensures Overdue(OfAccount(s'.ledger.outbox, a), OfAccount(s'.late[k], a), s'.log) {
          RestIsOverdue(s, batch, sent, rest, s'.log, a);
        }
      }
    }
  }

  lemma PublishKeepsCount(s: State, rid: int, sent: seq<Event>, accepted: bool, rest: seq<Event>, w: World, e: Event)
    requires RelayInv(s) && Enabled(w, s, RelayPublish(rid, sent, accepted, rest))
    ensures CountedRow(RelayStep(w, s, RelayPublish(rid, sent, accepted, rest)), e)
  {
    var s', batch := RelayStep(w, s, RelayPublish(rid, sent, accepted, rest)), s.relays[rid].batch;
    assert BatchOk(s, batch) && CountedRow(s, e);
    SplitsByAccount(batch, sent, rest);
    SplitCounts(batch, sent, rest, e);
    DistinctCounts(batch);
    PublishedOnce(s, rid, e);
    FailuresGrow(s.failed, batch, e);
    ExpectedMore(s.late, rest, e);
    assert multiset(s'.log)[e] == multiset(s.log)[e] + multiset(sent)[e];
    assert e in batch <==> multiset(batch)[e] == 1;
    if accepted && e in batch { assert rid in s'.relays && e in s'.relays[rid].batch; }
    assert e.id in s.published ==> Settling(s', e);
  }

  lemma PublishKeepsRelays(s: State, rid: int, sent: seq<Event>, accepted: bool, rest: seq<Event>, w: World)
    requires RelayInv(s) && OutboxOk(s) && Enabled(w, s, RelayPublish(rid, sent, accepted, rest))
    ensures RelayInv(RelayStep(w, s, RelayPublish(rid, sent, accepted, rest)))
  {
    var s', batch := RelayStep(w, s, RelayPublish(rid, sent, accepted, rest)), s.relays[rid].batch;
    assert s'.relays[rid] == if accepted then Delivered(batch) else Idle;
    assert BatchOk(s, batch);
    SplitsByAccount(batch, sent, rest);
    SplitDelivers(batch, sent, rest, accepted);
    PublishKeepsLog(s, s', batch, sent, accepted);
    PublishKeepsLate(s, s', batch, sent, rest);
    SentAreFromBatch(batch, sent, accepted);
    OthersAreIdle(s, rid);
    forall r | r in s'.relays && HasBatch(s'.relays[r])
      ensures BatchOk(s', s'.relays[r].batch)
      ensures forall e :: e in s'.relays[r].batch ==> e in s'.log
    {
      assert r == rid;
    }
    forall e ensures CountedRow(s', e) {
      PublishKeepsCount(s, rid, sent, accepted, rest, w, e);
    }
  }

  // ---------------------------------------------------------------- late arrivals

  /** Rows that follow each other extend the distinct records in order whenever all rows before
      them have arrived, no matter how many of them have arrived before. */
  lemma {:induction false} LateRowsKeepOrder(rows: seq<Event>, log: seq<Event>, m: nat, sent: seq<Event>)
    requires Distinct(rows) && FirstOccurrences(log) <= rows && OverdueFrom(rows, sent, log, m)
    ensures FirstOccurrences(log + sent) <= rows
  {
    if sent == [] {
      assert log + sent == log;
    } else {
      var earlier, x := sent[..|sent| - 1], sent[|sent| - 1];
      assert earlier == rows[m..m + |earlier|];
      LateRowsKeepOrder(rows, log, m, earlier);
      assert log + sent == (log + earlier) + [x];
      FirstOccurrencesAppend(log + earlier, x);
      if x !in log + earlier { NextRowIsSent(rows, m, log, earlier, x); }
    }
  }

  lemma FirstOfSlice(rows: seq<Event>, m: nat, n: nat, k: nat)
    requires m + n <= |rows| && k <= n
    ensures rows[m..m + k] == rows[m..m + n][..k]
  {
  }

  lemma ArrivalOfAccount(s: State, k: nat, sent: seq<Event>, rest: seq<Event>, a: int) returns (m: nat)
    requires LateOk(s) && k < |s.late| && AccountSplits(s.late[k], sent, rest)
    ensures OverdueFrom(OfAccount(s.ledger.outbox, a), OfAccount(sent, a), OfAccount(s.log, a), m)
    ensures OverdueFrom(OfAccount(s.ledger.outbox, a), OfAccount(rest, a), s.log + sent, m + |OfAccount(sent, a)|)
  {
    var rows, mine, others := OfAccount(s.ledger.outbox, a), OfAccount(sent, a), OfAccount(rest, a);
    var late := OfAccount(s.late[k], a);
    assert late == mine + others && Overdue(rows, late, s.log);
    m :| OverdueFrom(rows, late, s.log, m);
    OfAccountMembers(s.ledger.outbox, a);
    OfAccountMembers(s.log, a);
    OfAccountMembers(sent, a);
    FirstOfSlice(rows, m, |late|, |mine|);
    forall i | 0 <= i < m ensures rows[i] in OfAccount(s.log, a) { assert rows[i] in rows; }
    assert mine + others <= rows[m..];
    SectionIsOverdue(rows, m, mine, others, s.log + sent);
  }

  lemma ArrivalKeepsLog(s: State, s': State, k: nat, sent: seq<Event>, rest: seq<Event>)
    requires RelayInv(s) && OutboxOk(s) && k < |s.late| && AccountSplits(s.late[k], sent, rest)
    requires s' == s.(log := s.log + sent, late := s.late[k := rest])
    ensures LogOk(s') && LateOk(s')
  {
    forall a
      ensures FirstOccurrences(OfAccount(s'.log, a)) <= OfAccount(s.ledger.outbox, a)
      ensures Overdue(OfAccount(s'.ledger.outbox, a), OfAccount(rest, a), s'.log)
    {
      var m := ArrivalOfAccount(s, k, sent, rest, a);
      OfAccountConcat(s.log, sent, a);
      AscendingIsDistinct(OfAccount(s.ledger.outbox, a));
      assert FirstOccurrences(OfAccount(s.log, a)) <= OfAccount(s.ledger.outbox, a);
      LateRowsKeepOrder(OfAccount(s.ledger.outbox, a), OfAccount(s.log, a), m, OfAccount(sent, a));
    }
    forall e | e in sent ensures e in s.ledger.outbox {
      var m := ArrivalOfAccount(s, k, sent, rest, e.account);
      ArrivedRowIsCommitted(s.ledger.outbox, sent, e, m);
    }
    forall j | 0 <= j < |s'.late|
      ensures forall a :: Overdue(OfAccount(s'.ledger.outbox, a), OfAccount(s'.late[j], a), s'.log)
    {
      if j != k { LateStays(s, s', j); }
    }
  }

  lemma ArrivedRowIsCommitted(outbox: seq<Event>, sent: seq<Event>, e: Event, m: nat)
    requires e in sent
    requires var rows, mine := OfAccount(outbox, e.account), OfAccount(sent, e.account);
             m + |mine| <= |rows| && mine == rows[m..m + |mine|]
    ensures e in outbox
  {
    OfAccountMembers(sent, e.account);
    OfAccountMembers(outbox, e.account);
    assert e in OfAccount(outbox, e.account)[m..m + |OfAccount(sent, e.account)|];
  }

  lemma ArrivalKeepsRelays(s: State, k: nat, sent: seq<Event>, rest: seq<Event>, w: World)
    requires RelayInv(s) && OutboxOk(s) && Enabled(w, s, Arrive(k, sent, rest))
    ensures RelayInv(RelayStep(w, s, Arrive(k, sent, rest)))
  {
    var s' := RelayStep(w, s, Arrive(k, sent, rest));
    SplitsByAccount(s.late[k], sent, rest);
    ArrivalKeepsLog(s, s', k, sent, rest);
    forall r | r in s'.relays && HasBatch(s'.relays[r]) ensures BatchOk(s', s'.relays[r].batch) {
      assert BatchOk(s, s.relays[r].batch);
    }
    forall e ensures CountedRow(s', e) {
      assert CountedRow(s, e) && Settling(s', e) == Settling(s, e);
      SplitCounts(s.late[k], sent, rest, e);
      ExpectedLess(s.late, k, rest, e);
      assert multiset(s'.log)[e] == multiset(s.log)[e] + multiset(sent)[e];
    }
  }

  /** While a batch is not yet sent, no row of any account is settling but the published ones. */
  lemma PublishedOnce(s: State, rid: int, e: Event)
    requires RelayInv(s) && rid in s.relays && s.relays[rid].Fetched?
    ensures Settling(s, e) ==> e.id in s.published
    ensures e in s.relays[rid].batch ==> !Settling(s, e)
  {
    assert BatchOk(s, s.relays[rid].batch);
    OthersAreIdle(s, rid);
  }

  lemma OthersAreIdle(s: State, rid: int)
    requires OneHolder(s) && rid in s.relays && !s.relays[rid].Idle?
    ensures forall r :: r in s.relays && r != rid ==> s.relays[r].Idle?
  {
  }

  lemma FailKeepsRelays(s: State, rid: int, w: World)
    requires RelayInv(s) && Enabled(w, s, RelayFail(rid))
    ensures RelayInv(RelayStep(w, s, RelayFail(rid)))
  {
    var s' := RelayStep(w, s, RelayFail(rid));
    forall e ensures CountedRow(s', e) {
      FailKeepsCount(s, rid, w, e);
    }
  }

  /** The rolled back batch is no longer settling, but counts as a failure. */
  lemma FailKeepsCount(s: State, rid: int, w: World, e: Event)
    requires OneHolder(s) && Counted(s) && Enabled(w, s, RelayFail(rid))
    ensures CountedRow(RelayStep(w, s, RelayFail(rid)), e)
  {
    OthersAreIdle(s, rid);
    assert CountedRow(s, e);
    if HasBatch(s.relays[rid]) {
      FailuresGrow(s.failed, s.relays[rid].batch, e);
      assert Settling(s, e) ==> e.id in s.published || e in s.relays[rid].batch;
    } else {
      assert Settling(s, e) ==> e.id in s.published;
    }
  }

  lemma {:induction false} PublishedFirstAfter(rows: seq<Event>, published: set<int>, ids: set<int>, mine: seq<Event>)
    requires StrictlyAscending(rows, EventId) && PublishedFirst(rows, published)
    requires mine <= Unpublished(rows, published)
    requires forall e :: e in rows ==> (e.id in ids <==> e in mine)
    ensures PublishedFirst(rows, published + ids)
  {
    AscendingIsDistinct(rows);
    var m := UnpublishedIsSuffix(rows, published);
    forall i, j | 0 <= i < j < |rows| && rows[j].id in published + ids ensures rows[i].id in published + ids {
      if rows[j].id !in published {
        assert rows[j] in mine;
        var k :| 0 <= k < |mine| && mine[k] == rows[j];
        assert rows[m..][k] == rows[m + k];
        assert m + k == j;
        if i >= m { assert mine[i - m] == rows[i]; assert rows[i] in mine; }
      }
    }
  }

  lemma CommitKeepsPublished(s: State, rid: int, w: World)
    requires RelayInv(s) && OutboxOk(s) && Enabled(w, s, RelayCommit(rid))
    ensures PublishedOk(RelayStep(w, s, RelayCommit(rid)))
  {
    var s', batch := RelayStep(w, s, RelayCommit(rid)), s.relays[rid].batch;
    assert BatchOk(s, batch);
    forall e | e in s.ledger.outbox ensures e.id in IdsOf(batch) <==> e in batch {
      if e.id in IdsOf(batch) {
        var b :| b in batch && b.id == e.id;
        var i :| 0 <= i < |s.ledger.outbox| && s.ledger.outbox[i] == e;
        var j :| 0 <= j < |s.ledger.outbox| && s.ledger.outbox[j] == b;
        assert i == j;
      }
    }
    forall a ensures PublishedFirst(OfAccount(s.ledger.outbox, a), s'.published) {
      OfAccountMembers(s.ledger.outbox, a);
      OfAccountMembers(batch, a);
      assert OfAccount(batch, a) <= Unpublished(OfAccount(s.ledger.outbox, a), s.published);
      PublishedFirstAfter(OfAccount(s.ledger.outbox, a), s.published, IdsOf(batch), OfAccount(batch, a));
    }
  }

  lemma CommitKeepsRelays(s: State, rid: int, w: World)
    requires RelayInv(s) && OutboxOk(s) && Enabled(w, s, RelayCommit(rid))
    ensures RelayInv(RelayStep(w, s, RelayCommit(rid)))
  {
    var s' := RelayStep(w, s, RelayCommit(rid));
    CommitKeepsPublished(s, rid, w);
    forall e ensures CountedRow(s', e) {
      assert CountedRow(s, e);
      if Settling(s, e) && e.id !in s.published {
        var r :| r in s.relays && HasDelivered(s.relays[r]) && e in s.relays[r].batch;
        assert r == rid;
        assert e.id in IdsOf(s.relays[rid].batch);
      }
    }
  }

  lemma QuietRelayStep(s: State, rid: int, r': Relay)
    requires RelayInv(s)
    requires forall r :: r in s.relays && r != rid ==> s.relays[r].Idle?
    requires HasBatch(r') ==> BatchOk(s, r'.batch)
    requires HasDelivered(r') ==> forall e :: e in r'.batch ==> e in s.log
    requires rid in s.relays && HasDelivered(s.relays[rid]) ==> HasDelivered(r') && r'.batch == s.relays[rid].batch
    ensures RelayInv(SetRelay(s, rid, r'))
  {
    var s' := SetRelay(s, rid, r');
    forall e ensures CountedRow(s', e) {
      assert CountedRow(s, e);
      if Settling(s, e) && e.id !in s.published {
        assert rid in s'.relays && HasDelivered(s'.relays[rid]) && e in s'.relays[rid].batch;
        assert Settling(s', e);
      }
    }
  }

  lemma {:induction false} RelayStepKeepsRelays(w: World, s: State, a: Action)
    requires RelayInv(s) && OutboxOk(s) && IsRelayAction(a) && Enabled(w, s, a)
    ensures RelayInv(RelayStep(w, s, a))
  {
    match a {
      case RelayStart(rid) =>
        if !(exists other :: other in s.relays && other != rid && !s.relays[other].Idle?) {
          QuietRelayStep(s, rid, Holding);
        }
      case RelayFetch(rid) =>
        FetchIsOk(w, s);
        var batch := Batch(s.ledger.outbox, s.published, w.batchSize);
        QuietRelayStep(s, rid, if batch == [] then Idle else Fetched(batch));
      case RelayPublish(rid, sent, accepted, rest) => PublishKeepsRelays(s, rid, sent, accepted, rest, w);
      case RelayMark(rid) => QuietRelayStep(s, rid, Marked(s.relays[rid].batch));
      case RelayCommit(rid) => CommitKeepsRelays(s, rid, w);
      case RelayFail(rid) => FailKeepsRelays(s, rid, w);
      case Arrive(k, sent, rest) => ArrivalKeepsRelays(s, k, sent, rest, w);
    }
  }
}
