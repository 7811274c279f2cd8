/** The relay's loop and its batches as code, against the same tables and topic contract as the
    state machine. */
module RelayLoop {
  import opened Records
  import opened Ordering
  import opened Machine
  import opened Messages
  import opened RelayOrder
  import opened Balances
  import opened Database

  ghost predicate UniqueIds(rows: seq<Event>) {
    forall i, j :: 0 <= i < j < |rows| ==> rows[i].id != rows[j].id
  }

  /** Of each key a prefix has been written, and everything on success. */
  ghost predicate Written(records: seq<TopicRecord>, sent: seq<TopicRecord>, ok: bool) {
    forall key {:trigger RecordsOfKey(sent, key)} ::
      && RecordsOfKey(sent, key) <= RecordsOfKey(records, key)
      && (ok ==> RecordsOfKey(sent, key) == RecordsOfKey(records, key))
  }

  class Topic {
    const reliable: bool
    var log: seq<TopicRecord>

    constructor (reliable: bool)
      ensures this.reliable == reliable && log == []
    {
      this.reliable := reliable;
      log := [];
    }

    /** One record for each message, with its key, headers and payload. A failed publish may leave some of them in the
        log, of each key the first ones. */
    method Publish(messages: seq<Message>)
      returns (ok: bool, ghost records: seq<TopicRecord>, ghost sent: seq<TopicRecord>)
      modifies this
      ensures |records| == |messages| && forall i :: 0 <= i < |messages| ==> Carries(records[i], messages[i])
      ensures log == old(log) + sent && Written(records, sent, ok) && (forall r :: r in sent ==> r in records)
      ensures reliable ==> ok
    {
      var recs := NewRecords(messages);
      ok, sent := ProduceSync(recs);
      records := recs;
    }

    method ProduceSync(records: seq<TopicRecord>) returns (ok: bool, ghost sent: seq<TopicRecord>)
      modifies this
      ensures log == old(log) + sent && Written(records, sent, ok) && (forall r :: r in sent ==> r in records)
      ensures reliable ==> ok
    {
      var n: int := *;
      if n < 0 || n > |records| || reliable { n := |records|; }
      for i := 0 to n
        invariant log == old(log) + records[..i]
      {
        log := log + [records[i]];
        assert records[..i + 1] == records[..i] + [records[i]];
      }
      sent := records[..n];
      ok := *;
      if n < |records| { ok := false; }
      if reliable { ok := true; }
      forall key
        ensures RecordsOfKey(sent, key) <= RecordsOfKey(records, key)
        ensures ok ==> RecordsOfKey(sent, key) == RecordsOfKey(records, key)
      {
        assert records == records[..n] + records[n..];
        RecordsOfKeyConcat(records[..n], records[n..], key);
        if ok { assert records[..n] == records; }
      }
    }
  }

  /** Messages and ids of a batch, in its order: each row under its partition key, with its event id in a header. */
  method DisassembleEvents(events: seq<Event>) returns (messages: seq<Message>, ids: seq<int>)
    ensures |messages| == |events| && |ids| == |events|
    ensures forall i :: 0 <= i < |events| ==> ids[i] == events[i].id && messages[i] == MessageOf(events[i])
    ensures forall i :: 0 <= i < |events| ==>
      && messages[i].key == events[i].account && messages[i].payload == events[i]
      && messages[i].headers == map["event_id" := events[i].id, "event_type" := ENTRY_POSTED]
  {
    messages, ids := [], [];
    for i := 0 to |events|
      invariant |messages| == i && |ids| == i
      invariant forall k :: 0 <= k < i ==> ids[k] == events[k].id && messages[k] == MessageOf(events[k])
    {
      var e := events[i];
      messages := messages + [Message(e.account, map[EVENT_ID := e.id, EVENT_TYPE := ENTRY_POSTED], e)];
      ids := ids + [e.id];
    }
  }

  /** What is written of a batch's records tells of rows of the batch, of each account of the first ones, and of all of
      them on success. */
  lemma {:induction false} WrittenIsDelivered(batch: seq<Event>, records: seq<TopicRecord>, sent: seq<TopicRecord>,
                                             ok: bool)
    requires |records| == |batch| && forall i :: 0 <= i < |batch| ==> Carries(records[i], MessageOf(batch[i]))
    requires Written(records, sent, ok) && forall r :: r in sent ==> r in records
    ensures Deliverable(batch, Payloads(sent), ok) && AllTell(sent)
  {
    forall r | r in records ensures TellsOf(r, r.payload) {
      var i :| 0 <= i < |records| && records[i] == r;
      RecordTellsOfRow(r, batch[i]);
    }
    assert Payloads(records) == batch;
    forall a
      ensures OfAccount(Payloads(sent), a) <= OfAccount(batch, a)
      ensures ok ==> OfAccount(Payloads(sent), a) == OfAccount(batch, a)
    {
      PayloadsOfKey(records, a);
      PayloadsOfKey(sent, a);
      var mine, all := RecordsOfKey(sent, a), RecordsOfKey(records, a);
      assert mine <= all;
      assert Payloads(all)[..|mine|] == Payloads(mine);
    }
  }

  ghost predicate AllTell(log: seq<TopicRecord>) { forall r :: r in log ==> TellsOf(r, r.payload) }

  class RelayCopy {
    const db: Store
    const topic: Topic
    const batchSize: nat

    constructor (db: Store, topic: Topic, batchSize: nat)
      ensures this.db == db && this.topic == topic && this.batchSize == batchSize
    {
      this.db, this.topic, this.batchSize := db, topic, batchSize;
    }

    ghost predicate Reliable() { db.reliable && topic.reliable && !db.outboxLockedElsewhere }

    /** What is left to be published. */
    ghost function Backlog(): seq<Event>
      reads db
    {
      Unpublished(db.committed.outbox, db.published)
    }

    /** One transaction: lock, fetch, publish, mark, commit. Rows are marked only after the
        publisher has accepted all of them. */
    method PublishBatch() returns (sent: nat, failed: bool, ghost delivered: seq<TopicRecord>)
      requires db.Valid()
      modifies db, topic
      ensures db.Valid() && db.committed == old(db.committed) && !db.holdsOutbox
      ensures var batch := Batch(old(db.committed.outbox), old(db.published), batchSize);
        && topic.log == old(topic.log) + delivered && AllTell(delivered)
        && Deliverable(batch, Payloads(delivered), sent > 0)
        && (sent > 0 ==> !failed && sent == |batch| && db.published == old(db.published) + IdsOf(batch))
        && (sent == 0 ==>
              || db.published == old(db.published)
              || (&& failed && Deliverable(batch, Payloads(delivered), true)
                  && db.published == old(db.published) + IdsOf(batch)))
        && (sent == 0 && !failed ==> batch == [] || db.outboxLockedElsewhere)
      ensures Reliable() ==> !failed
    {
      sent, failed, delivered := 0, true, [];
      ghost var batch := Batch(db.committed.outbox, db.published, batchSize);
      NothingDelivered(batch);

      var begun := db.Begin();
      if !begun { return; }

      var isOpen := db.TryLockOutbox();
      if isOpen.Err? {
        db.Rollback();
        return;
      }
      if !isOpen.value {
        db.Rollback();
        failed := false;
        return;
      }

      var events := db.GetUnpublishedOutboxEvents(batchSize);
      if events.Err? {
        db.Rollback();
        return;
      }
      if |events.value| == 0 {
        var ok := db.Commit();
        failed := !ok;
        return;
      }

      var messages, ids := DisassembleEvents(events.value);
      var accepted;
      ghost var records;
      accepted, records, delivered := topic.Publish(messages);
      WrittenIsDelivered(batch, records, delivered, accepted);
      if !accepted {
        DeliveredInPart(batch, Payloads(delivered));
        db.Rollback();
        return;
      }

      var err := db.MarkOutboxEventsPublished(ids);
      if err.Some? {
        DeliveredInPart(batch, Payloads(delivered));
        db.Rollback();
        return;
      }
      assert (set id | id in ids) == IdsOf(batch) by { IdsAreOfBatch(ids, batch); }

      var committed := db.Commit();
      if !committed {
        DeliveredInPart(batch, Payloads(delivered));
        return;
      }
      sent, failed := |messages|, false;
    }

    /** Rows marked as published are in the log, each under its account and with its id. */
    ghost predicate NothingLost()
      reads db, topic
    {
      && UniqueIds(db.committed.outbox) && AllTell(topic.log)
      && forall e :: e in db.committed.outbox && e.id in db.published ==> e in Payloads(topic.log)
    }

    /** What one batch does to the backlog. */
    method Round() returns (n: nat, failed: bool)
      requires db.Valid() && NothingLost()
      modifies db, topic
      ensures db.Valid() && NothingLost() && db.committed == old(db.committed)
      ensures old(db.published) <= db.published && old(topic.log) <= topic.log
      ensures !failed && n == batchSize ==> |Backlog()| == |old(Backlog())| - batchSize
      ensures batchSize == 0 ==> n == 0 && db.published == old(db.published)
      ensures Reliable() ==> !failed
      ensures Reliable() && n != batchSize ==> |old(Backlog())| < batchSize && Backlog() == []
    {
      ghost var batch := Batch(db.committed.outbox, db.published, batchSize);
      ghost var delivered;
      BatchShrinksBacklog(db.committed.outbox, db.published, batchSize);
      n, failed, delivered := PublishBatch();
      PublishedAreDelivered(db.committed.outbox, batch, Payloads(delivered), n > 0);
      assert Payloads(topic.log) == Payloads(old(topic.log)) + Payloads(delivered);
    }

    /** The loop up to the end of the context, which comes after `rounds` rounds at the latest. A full
        batch is followed by the next one at once. Without failures a backlog of U rows is drained
        in U / B + 1 rounds, before the first sleep. With B = 0 every batch counts as full: the loop
        never sleeps and marks nothing. */
    method Run(rounds: nat) returns (busy: nat, sleeps: nat)
      requires db.Valid() && NothingLost()
      modifies db, topic
      ensures db.Valid() && NothingLost() && db.committed == old(db.committed)
      ensures old(db.published) <= db.published && old(topic.log) <= topic.log
      ensures Reliable() && batchSize > 0 && rounds > |old(Backlog())| / batchSize ==>
        sleeps > 0 && Backlog() == [] && busy == |old(Backlog())| / batchSize + 1
      ensures batchSize == 0 ==> db.published == old(db.published) && (Reliable() ==> sleeps == 0 && busy == rounds)
    {
      busy, sleeps := 0, 0;
      for i := 0 to rounds
        invariant db.Valid() && NothingLost() && db.committed == old(db.committed)
        invariant old(db.published) <= db.published && old(topic.log) <= topic.log
        invariant sleeps == 0 ==> busy == i
        invariant sleeps == 0 && Reliable() ==> |Backlog()| + Times(i, batchSize) == |old(Backlog())|
        invariant sleeps > 0 && Reliable() ==>
          batchSize > 0 && Backlog() == [] && busy == |old(Backlog())| / batchSize + 1
        invariant batchSize == 0 ==> db.published == old(db.published)
      {
        ghost var rest := |Backlog()|;
        var n, failed := Round();
        if sleeps == 0 { busy := busy + 1; }
        if !failed && n == batchSize { continue; }
        if Reliable() && sleeps == 0 { Quotient(rest, i, batchSize); }
        sleeps := sleeps + 1;
      }
      if batchSize > 0 { RoundsSuffice(|Backlog()|, rounds, batchSize); }
    }
  }

  /** So many full batches exceed the backlog. */
  lemma {:induction false} RoundsSuffice(rest: nat, full: nat, size: nat)
    requires size > 0
    ensures (rest + Times(full, size)) / size >= full
  {
    if full > 0 {
      RoundsSuffice(rest, full - 1, size);
      AddDivisor(rest + Times(full - 1, size), size);
    }
  }

  lemma NothingDelivered(batch: seq<Event>)
    ensures Deliverable(batch, [], false)
  {
  }

  lemma DeliveredInPart(batch: seq<Event>, delivered: seq<Event>)
    requires Deliverable(batch, delivered, false) || Deliverable(batch, delivered, true)
    ensures Deliverable(batch, delivered, false)
  {
    forall a ensures OfAccount(delivered, a) <= OfAccount(batch, a) {}
  }

  lemma IdsAreOfBatch(ids: seq<int>, batch: seq<Event>)
    requires |ids| == |batch| && forall i :: 0 <= i < |batch| ==> ids[i] == batch[i].id
    ensures (set id | id in ids) == IdsOf(batch)
  {
    forall id ensures id in ids <==> id in IdsOf(batch) {
      if id in ids {
        var i :| 0 <= i < |ids| && ids[i] == id;
        assert batch[i] in batch;
      }
      if id in IdsOf(batch) {
        var e :| e in batch && e.id == id;
        var i :| 0 <= i < |batch| && batch[i] == e;
        assert ids[i] == id;
      }
    }
  }

  lemma {:induction false} Quotient(rest: nat, full: nat, size: nat)
    requires rest < size
    ensures (rest + Times(full, size)) / size == full
  {
    if full > 0 {
      Quotient(rest, full - 1, size);
      AddDivisor(rest + Times(full - 1, size), size);
    }
  }

  lemma MulAtLeast(a: int, b: nat)
    requires a >= 1
    ensures a * b >= b
  {
    assert a * b == b + (a - 1) * b;
  }

  lemma QuotientUnique(p: int, t: int, q: int, r: int, size: nat)
    requires p * size + t == q * size + r && 0 <= t < size && 0 <= r < size
    ensures p == q
  {
    assert (p - q) * size == r - t && (q - p) * size == t - r;
    if p > q { MulAtLeast(p - q, size); }
    if p < q { MulAtLeast(q - p, size); }
  }

  lemma AddDivisor(n: nat, size: nat)
    requires size > 0
    ensures (n + size) / size == n / size + 1
  {
    var q, r := n / size, n % size;
    assert (q + 1) * size + r == n + size;
    QuotientUnique((n + size) / size, (n + size) % size, q + 1, r, size);
  }

  /** The rows that a successful batch marks are in the log. */
  lemma PublishedAreDelivered(outbox: seq<Event>, batch: seq<Event>, delivered: seq<Event>, accepted: bool)
    requires Deliverable(batch, delivered, accepted)
    requires UniqueIds(outbox)
    requires forall e :: e in batch ==> e in outbox
    ensures accepted || Deliverable(batch, delivered, true) ==>
      forall e :: e in outbox && e.id in IdsOf(batch) ==> e in delivered
  {
    if accepted || Deliverable(batch, delivered, true) {
      forall e | e in outbox && e.id in IdsOf(batch) ensures e in delivered {
        var b :| b in batch && b.id == e.id;
        var i :| 0 <= i < |outbox| && outbox[i] == e;
        var j :| 0 <= j < |outbox| && outbox[j] == b;
        assert i == j;
        SentAreFromBatch(batch, delivered, true);
      }
    }
  }

  // ---------------------------------------------------------------- the backlog

  lemma {:induction false} IdsOfDistinct(rows: seq<Event>)
    requires UniqueIds(rows)
    ensures |IdsOf(rows)| == |rows|
  {
    if rows != [] {
      var rest, last := rows[..|rows| - 1], rows[|rows| - 1];
      IdsOfDistinct(rest);
      assert rows == rest + [last];
      assert IdsOf(rows) == IdsOf(rest) + {last.id};
      forall e | e in rest ensures e.id != last.id {
        var i :| 0 <= i < |rest| && rest[i] == e;
        assert rows[i].id != rows[|rest|].id;
      }
    }
  }

  lemma {:induction false} UnpublishedIdsDistinct(outbox: seq<Event>, published: set<int>)
    requires UniqueIds(outbox)
    ensures UniqueIds(Unpublished(outbox, published))
  {
    if outbox != [] {
      var rest, last := outbox[..|outbox| - 1], outbox[|outbox| - 1];
      UnpublishedIdsDistinct(rest, published);
      UnpublishedMembers(rest, published);
      var kept := Unpublished(rest, published);
      forall i | 0 <= i < |kept| ensures kept[i].id != last.id {
        assert kept[i] in rest;
        var k :| 0 <= k < |rest| && rest[k] == kept[i];
        assert outbox[k].id != outbox[|rest|].id;
      }
      assert Unpublished(outbox, published) == kept || Unpublished(outbox, published) == kept + [last];
    }
  }

  /** Marking a batch takes exactly its rows out of the backlog. */
  lemma BatchShrinksBacklog(outbox: seq<Event>, published: set<int>, limit: nat)
    requires UniqueIds(outbox)
    ensures var batch := Batch(outbox, published, limit);
      && |Unpublished(outbox, published + IdsOf(batch))| == |Unpublished(outbox, published)| - |batch|
      && (|batch| < limit ==> |batch| == |Unpublished(outbox, published)|)
      && |batch| <= limit
      && (forall e :: e in batch ==> e in outbox)
  {
    var batch, rows := Batch(outbox, published, limit), Unpublished(outbox, published);
    var left := Unpublished(outbox, published + IdsOf(batch));
    BatchIsOldest(outbox, published, limit);
    UnpublishedIdsDistinct(outbox, published);
    UnpublishedIdsDistinct(outbox, published + IdsOf(batch));
    UnpublishedMembers(outbox, published);
    UnpublishedMembers(outbox, published + IdsOf(batch));
    IdsOfDistinct(rows);
    IdsOfDistinct(left);
    BatchIdsDistinct(outbox, published, limit);
    assert IdsOf(batch) <= IdsOf(rows);
    assert IdsOf(left) == IdsOf(rows) - IdsOf(batch);
  }

  lemma BatchIdsDistinct(outbox: seq<Event>, published: set<int>, limit: nat)
    requires UniqueIds(outbox)
    ensures |IdsOf(Batch(outbox, published, limit))| == |Batch(outbox, published, limit)|
  {
    var batch, rows := Batch(outbox, published, limit), Unpublished(outbox, published);
    UnpublishedDistinct(outbox, published);
    SortedDistinct(rows);
    BatchIsOldest(outbox, published, limit);
    forall i, j | 0 <= i < j < |batch| ensures batch[i].id != batch[j].id {
      assert batch[i] in batch && batch[j] in batch && batch[i] != batch[j];
      var k :| 0 <= k < |outbox| && outbox[k] == batch[i];
      var m :| 0 <= m < |outbox| && outbox[m] == batch[j];
      assert k != m;
    }
    IdsOfDistinct(batch);
  }
}
