/** From the ledger to the browser: what the relay's and the consumer's guarantees give together. */
module Notified {
  import opened Records
  import opened RelayOrder
  import Bookkeeping
  import opened Messages
  import EndToEnd
  import Ledgers = Machine
  import Deliveries = Notifications

  /** The topic holds the records of the relay's messages for the rows of the log. */
  ghost predicate Holds(topic: seq<TopicRecord>, log: seq<Event>) {
    |topic| == |log| && forall i :: 0 <= i < |log| ==> Carries(topic[i], MessageOf(log[i]))
  }

  lemma TopicTells(topic: seq<TopicRecord>, log: seq<Event>, i: nat)
    requires Holds(topic, log) && i < |log|
    ensures TellsOf(topic[i], log[i])
  {
    RecordTellsOfRow(topic[i], log[i]);
  }

  /** The record of the event lies below the committed offset of a partition. */
  ghost predicate Consumed(d: Deliveries.State, event: int) {
    exists part, i :: 0 <= i < Deliveries.OffsetOf(d, part) && i < |Deliveries.PartOf(d, part)|
                      && Deliveries.PartOf(d, part)[i] == Some(event)
  }

  lemma ConsumedIsSent(malformed: set<int>, delivery: seq<Deliveries.Action>, event: int)
    requires Deliveries.Legal(malformed, delivery) && event !in malformed
    requires Consumed(Deliveries.Execute(malformed, delivery), event)
    ensures Deliveries.WasSent(Deliveries.Execute(malformed, delivery).history, event)
  {
    var d := Deliveries.Execute(malformed, delivery);
    var part, k :| 0 <= k < Deliveries.OffsetOf(d, part) && k < |Deliveries.PartOf(d, part)|
                   && Deliveries.PartOf(d, part)[k] == Some(event);
    Deliveries.AtLeastOnce(malformed, delivery, part, k);
  }

  /** The event of an entry; once its row is published the topic holds a record that tells of it. */
  lemma {:induction false} EntryReachesTopic(w: World, run: seq<Ledgers.Action>, topic: seq<TopicRecord>, i: nat)
      returns (e: Event)
    requires Ledgers.Legal(w, run) && Holds(topic, Ledgers.Execute(w, run).log)
    requires i < |Ledgers.Execute(w, run).ledger.entries|
    ensures var l := Ledgers.Execute(w, run).ledger;
      e in l.outbox && Bookkeeping.Announces(w, l, e, l.entries[i])
    ensures e.id in Ledgers.Execute(w, run).published ==> Told(topic, e)
  {
    EndToEnd.RelaysLoseAndInventNothing(w, run);
    e := RowReachesTopic(w, Ledgers.Execute(w, run), topic, i);
  }

  lemma {:induction false} RowReachesTopic(w: World, s: Ledgers.State, topic: seq<TopicRecord>, i: nat)
      returns (e: Event)
    requires EndToEnd.NothingLostNorInvented(s) && Bookkeeping.OutboxMirrorsEntries(w, s.ledger)
    requires Holds(topic, s.log) && i < |s.ledger.entries|
    ensures e in s.ledger.outbox && Bookkeeping.Announces(w, s.ledger, e, s.ledger.entries[i])
    ensures e.id in s.published ==> Told(topic, e)
  {
    e := s.ledger.outbox[Bookkeeping.Twin(i)];
    assert Bookkeeping.Announces(w, s.ledger, e, s.ledger.entries[i]);
    if e.id in s.published {
      var x :| 0 <= x < |s.log| && s.log[x] == e;
      TopicTells(topic, s.log, x);
    }
  }

  ghost predicate Told(topic: seq<TopicRecord>, e: Event) { exists x :: 0 <= x < |topic| && TellsOf(topic[x], e) }

  /** Every ledger entry has its event in the outbox; once that row is published it is in the
      topic, and once its record is consumed its notification has been accepted, whatever else is
      still pending and whatever interleavings and failures there were on either side. */
  lemma {:induction false} EveryEntryIsNotified(w: World, run: seq<Ledgers.Action>, topic: seq<TopicRecord>,
                                                malformed: set<int>, delivery: seq<Deliveries.Action>, i: nat)
      returns (e: Event)
    requires Ledgers.Legal(w, run) && Deliveries.Legal(malformed, delivery)
    requires Holds(topic, Ledgers.Execute(w, run).log)
    requires i < |Ledgers.Execute(w, run).ledger.entries|
    ensures var l := Ledgers.Execute(w, run).ledger;
      e in l.outbox && Bookkeeping.Announces(w, l, e, l.entries[i])
    ensures e.id in Ledgers.Execute(w, run).published ==> Told(topic, e)
    ensures e.id !in malformed && Consumed(Deliveries.Execute(malformed, delivery), e.id) ==>
      Deliveries.WasSent(Deliveries.Execute(malformed, delivery).history, e.id)
  {
    e := EntryReachesTopic(w, run, topic, i);
    if e.id !in malformed && Consumed(Deliveries.Execute(malformed, delivery), e.id) {
      ConsumedIsSent(malformed, delivery, e.id);
    }
  }

  // ---------------------------------------------------------------- order

  /** What the consumers find in one partition of the topic, whose keys are spread over the partitions by `spread`: the
      event id of each record. */
  function Partition(topic: seq<TopicRecord>, spread: int -> int, part: int): seq<Option<int>> {
    if topic == [] then []
    else
      var last := topic[|topic| - 1];
      Partition(topic[..|topic| - 1], spread, part)
      + if spread(last.key) == part then [EventIdIn(last.headers)] else []
  }

  /** The consumers have seen some beginning of each partition. */
  ghost predicate Fed(d: Deliveries.State, topic: seq<TopicRecord>, spread: int -> int) {
    forall part :: Deliveries.PartOf(d, part) <= Partition(topic, spread, part)
  }

  /** A record of a partition was written to the topic after all records before it. */
  lemma {:induction false} RecordAt(topic: seq<TopicRecord>, spread: int -> int, part: int, k: nat) returns (x: nat)
    requires k < |Partition(topic, spread, part)|
    ensures x < |topic| && spread(topic[x].key) == part
    ensures Partition(topic, spread, part)[k] == EventIdIn(topic[x].headers)
    ensures |Partition(topic[..x], spread, part)| == k
    ensures Partition(topic[..x], spread, part) <= Partition(topic, spread, part)
  {
    var before := topic[..|topic| - 1];
    if k < |Partition(before, spread, part)| {
      x := RecordAt(before, spread, part, k);
      assert before[..x] == topic[..x];
    } else {
      x := |topic| - 1;
    }
  }

  lemma {:induction false} RecordOf(topic: seq<TopicRecord>, spread: int -> int, part: int, y: nat) returns (k: nat)
    requires y < |topic| && spread(topic[y].key) == part
    ensures k < |Partition(topic, spread, part)| && Partition(topic, spread, part)[k] == EventIdIn(topic[y].headers)
  {
    var before := topic[..|topic| - 1];
    if y < |before| {
      k := RecordOf(before, spread, part, y);
    } else {
      k := |Partition(before, spread, part)|;
    }
  }

  lemma {:induction false} FirstOccurrencesGrow(log: seq<Event>, n: nat)
    requires n <= |log|
    ensures FirstOccurrences(log[..n]) <= FirstOccurrences(log)
  {
    if n < |log| {
      FirstOccurrencesGrow(log[..|log| - 1], n);
      assert log[..|log| - 1][..n] == log[..n];
    } else {
      assert log[..n] == log;
    }
  }

  lemma {:induction false} OfAccountPrefix(log: seq<Event>, n: nat, account: int)
    requires n <= |log|
    ensures OfAccount(log[..n], account) <= OfAccount(log, account)
  {
    assert log == log[..n] + log[n..];
    OfAccountConcat(log[..n], log[n..], account);
  }

  lemma FirstOccurrencesOfPrefix(log: seq<Event>, n: nat, account: int)
    requires n <= |log|
    ensures FirstOccurrences(OfAccount(log[..n], account)) <= FirstOccurrences(OfAccount(log, account))
  {
    OfAccountPrefix(log, n, account);
    var part, all := OfAccount(log[..n], account), OfAccount(log, account);
    assert all[..|part|] == part;
    FirstOccurrencesGrow(all, |part|);
  }

  /** In the topic every row comes after the account's earlier rows. */
  lemma {:induction false} EarlierRowsComeFirst(log: seq<Event>, rows: seq<Event>, account: int, i: nat, j: nat, x: nat)
    requires FirstOccurrences(OfAccount(log, account)) <= rows && Distinct(rows)
    requires i < j < |rows| && x < |log| && log[x] == rows[j] && rows[j].account == account
    ensures rows[i] in log[..x] && rows[i].account == account
  {
    var upto := log[..x + 1];
    FirstOccurrencesOfPrefix(log, x + 1, account);
    assert upto[x] == rows[j];
    EarlierRowsOccur(upto, FirstOccurrences(OfAccount(upto, account)), rows, account, i, j);
    assert upto == log[..x] + [log[x]] && rows[i] != rows[j];
  }

  lemma {:induction false} EarlierRowsOccur(log: seq<Event>, firsts: seq<Event>, rows: seq<Event>, account: int,
                                            i: nat, j: nat)
    requires firsts == FirstOccurrences(OfAccount(log, account)) && firsts <= rows && Distinct(rows)
    requires i < j < |rows| && rows[j] in log && rows[j].account == account
    ensures rows[i] in log && rows[i].account == account
  {
    FirstOccurrencesMembers(OfAccount(log, account));
    OfAccountMembers(log, account);
    IndexInPrefix(rows, firsts, j);
    assert firsts[i] == rows[i];
  }

  /** So its record stands in the partition before the record of the later row. */
  lemma {:induction false} EarlierRecord(topic: seq<TopicRecord>, log: seq<Event>, rows: seq<Event>, spread: int -> int,
                                         account: int, i: nat, j: nat, x: nat) returns (n: nat)
    requires Holds(topic, log)
    requires FirstOccurrences(OfAccount(log, account)) <= rows && Distinct(rows)
    requires i < j < |rows| && x < |log| && log[x] == rows[j] && rows[j].account == account
    ensures n < |Partition(topic[..x], spread, spread(topic[x].key))|
    ensures Partition(topic[..x], spread, spread(topic[x].key))[n] == Some(rows[i].id)
  {
    EarlierRowsComeFirst(log, rows, account, i, j, x);
    var y :| 0 <= y < x && log[y] == rows[i];
    TopicTells(topic, log, x);
    TopicTells(topic, log, y);
    n := RecordOf(topic[..x], spread, spread(topic[x].key), y);
  }

  /** The notifications of an account are first accepted in the order in which the ledger committed
      its entries: when one is accepted, those of all earlier rows have been accepted before,
      apart from malformed ones. */
  lemma {:induction false} NotificationsFollowCommitOrder(w: World, run: seq<Ledgers.Action>, topic: seq<TopicRecord>,
                                                          malformed: set<int>, delivery: seq<Deliveries.Action>,
                                                          spread: int -> int, account: int, i: nat, j: nat, h: nat)
    requires Ledgers.Legal(w, run) && Deliveries.Legal(malformed, delivery)
    requires Holds(topic, Ledgers.Execute(w, run).log)
    requires Fed(Deliveries.Execute(malformed, delivery), topic, spread)
    requires i < j < |OfAccount(Ledgers.Execute(w, run).ledger.outbox, account)|
    requires h < |Deliveries.Execute(malformed, delivery).history|
    requires var m := Deliveries.Execute(malformed, delivery).history[h];
             m.Sent? && m.event == OfAccount(Ledgers.Execute(w, run).ledger.outbox, account)[j].id
    ensures Deliveries.Settled(malformed, Deliveries.Execute(malformed, delivery).history[..h],
                               Some(OfAccount(Ledgers.Execute(w, run).ledger.outbox, account)[i].id))
  {
    var s, d := Ledgers.Execute(w, run), Deliveries.Execute(malformed, delivery);
    var rows := OfAccount(s.ledger.outbox, account);
    var part, k := Deliveries.AcceptedInOrder(malformed, delivery, h);
    var x := RecordAt(topic, spread, part, k);
    TopicTells(topic, s.log, x);
    RowOfRecord(w, run, account, j, x);
    EndToEnd.LogFollowsCommitOrder(w, run, account);
    RowsAreDistinct(w, run, account);
    var n := EarlierRecord(topic, s.log, rows, spread, account, i, j, x);
    assert Deliveries.PartOf(d, part)[n] == Some(rows[i].id);
  }

  /** A record with the id of a row is that row. */
  lemma RowOfRecord(w: World, run: seq<Ledgers.Action>, account: int, j: nat, x: nat)
    requires Ledgers.Legal(w, run)
    requires j < |OfAccount(Ledgers.Execute(w, run).ledger.outbox, account)| && x < |Ledgers.Execute(w, run).log|
    requires Ledgers.Execute(w, run).log[x].id == OfAccount(Ledgers.Execute(w, run).ledger.outbox, account)[j].id
    ensures Ledgers.Execute(w, run).log[x] == OfAccount(Ledgers.Execute(w, run).ledger.outbox, account)[j]
    ensures Ledgers.Execute(w, run).log[x].account == account
  {
    var s := Ledgers.Execute(w, run);
    var row := OfAccount(s.ledger.outbox, account)[j];
    EndToEnd.RelaysLoseAndInventNothing(w, run);
    Sequencing.IdsFollowCommitsPerAccount(w, run, account);
    OfAccountMembers(s.ledger.outbox, account);
    assert row in OfAccount(s.ledger.outbox, account);
    var a :| 0 <= a < |s.ledger.outbox| && s.ledger.outbox[a] == row;
    var b :| 0 <= b < |s.ledger.outbox| && s.ledger.outbox[b] == s.log[x];
    assert a == b;
  }

  lemma RowsAreDistinct(w: World, run: seq<Ledgers.Action>, account: int)
    requires Ledgers.Legal(w, run)
    ensures Distinct(OfAccount(Ledgers.Execute(w, run).ledger.outbox, account))
  {
    Sequencing.IdsFollowCommitsPerAccount(w, run, account);
    AscendingIsDistinct(OfAccount(Ledgers.Execute(w, run).ledger.outbox, account));
  }
}
