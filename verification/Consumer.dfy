/** The consumer: it handles fetched records one by one, retries the one that fails and commits
    the offsets of the finished prefix. */
module Consumer {
  import opened Records
  import opened Messages
  import opened Processor

  datatype Record = Record(part: int, offset: nat, headers: seq<Header>)

  /** The records of one partition, in their order. */
  function OfPart(records: seq<Record>, part: int): seq<Record> {
    if records == [] then []
    else
      var rest := OfPart(records[..|records| - 1], part);
      if records[|records| - 1].part == part then rest + [records[|records| - 1]] else rest
  }

  lemma OfPartAppend(records: seq<Record>, r: Record, part: int)
    ensures OfPart(records + [r], part) == OfPart(records, part) + if r.part == part then [r] else []
  {
    assert (records + [r])[..|records|] == records;
  }

  lemma {:induction false} OfPartPrefix(records: seq<Record>, n: nat, part: int)
    requires n <= |records|
    ensures OfPart(records[..n], part) <= OfPart(records, part)
  {
    if n < |records| {
      OfPartPrefix(records[..|records| - 1], n, part);
      assert records[..|records| - 1][..n] == records[..n];
    } else {
      assert records[..n] == records;
    }
  }

  lemma {:induction false} OfPartMembers(records: seq<Record>, part: int)
    ensures forall r :: r in OfPart(records, part) <==> r in records && r.part == part
  {
    if records != [] {
      OfPartMembers(records[..|records| - 1], part);
      assert records == records[..|records| - 1] + [records[|records| - 1]];
    }
  }

  type Log = map<int, seq<Record>>

  function InLog(log: Log, part: int): seq<Record> { if part in log then log[part] else [] }

  function At(offsets: map<int, nat>, part: int): nat { if part in offsets then offsets[part] else 0 }

  ghost predicate WellFormed(log: Log) {
    forall part, i :: part in log && 0 <= i < |log[part]| ==> log[part][i].part == part && log[part][i].offset == i
  }

  /** Records are only appended. */
  ghost predicate GrowsTo(log: Log, log': Log) { forall part :: InLog(log, part) <= InLog(log', part) }

  lemma GrowsOn(a: Log, b: Log, c: Log)
    requires GrowsTo(a, b) && GrowsTo(b, c)
    ensures GrowsTo(a, c)
  {
    forall part ensures InLog(a, part) <= InLog(c, part) {
      assert InLog(a, part) <= InLog(b, part) <= InLog(c, part);
    }
  }

  lemma GrowthKeepsFinished(malformed: set<int>, accepted: seq<int>, log: Log, log': Log, offsets: map<int, nat>)
    requires FinishedBelow(malformed, accepted, log, offsets) && GrowsTo(log, log')
    ensures FinishedBelow(malformed, accepted, log', offsets)
  {
    forall part
      ensures At(offsets, part) <= |InLog(log', part)|
      ensures forall i :: 0 <= i < At(offsets, part) ==> Finished(malformed, accepted, InLog(log', part)[i])
    {
      assert InLog(log, part) <= InLog(log', part);
    }
  }

  lemma {:induction false} GrowthKeepsContinuing(log: Log, log': Log, offsets: map<int, nat>, batch: seq<Record>)
    requires Continues(log, offsets, batch) && GrowsTo(log, log')
    ensures Continues(log', offsets, batch)
  {
    forall part ensures Section(InLog(log', part), At(offsets, part), OfPart(batch, part)) {
      assert InLog(log, part) <= InLog(log', part);
      assert Section(InLog(log, part), At(offsets, part), OfPart(batch, part));
    }
  }

  /** A record for which nothing more is owed. */
  predicate Finished(malformed: set<int>, accepted: seq<int>, r: Record) {
    EventIdIn(r.headers).None? || Concluded(malformed, accepted, EventIdIn(r.headers).value)
  }

  /** Every record below the given offsets is finished. */
  ghost predicate FinishedBelow(malformed: set<int>, accepted: seq<int>, log: Log, offsets: map<int, nat>) {
    forall part :: At(offsets, part) <= |InLog(log, part)| &&
      forall i :: 0 <= i < At(offsets, part) ==> Finished(malformed, accepted, InLog(log, part)[i])
  }

  /** The offsets after the records: one past the last record of each partition. */
  function OffsetsAfter(offsets: map<int, nat>, records: seq<Record>): map<int, nat> {
    if records == [] then offsets
    else
      var last := records[|records| - 1];
      OffsetsAfter(offsets, records[..|records| - 1])[last.part := last.offset + 1]
  }

  /** The batch continues every partition where the offsets stand. */
  ghost predicate Continues(log: Log, offsets: map<int, nat>, batch: seq<Record>) {
    forall part :: Section(InLog(log, part), At(offsets, part), OfPart(batch, part))
  }

  /** `own` are the records of `all` from position `from` on. */
  ghost predicate Section(all: seq<Record>, from: nat, own: seq<Record>) {
    from + |own| <= |all| && forall k :: 0 <= k < |own| ==> own[k] == all[from + k]
  }

  lemma SectionConcat(all: seq<Record>, from: nat, a: seq<Record>, b: seq<Record>)
    requires Section(all, from, a) && Section(all, from + |a|, b)
    ensures Section(all, from, a + b)
  {
    assert all[from..from + |a + b|] == all[from..from + |a|] + all[from + |a|..from + |a| + |b|];
  }

  lemma SectionGrows(all: seq<Record>, from: nat, own: seq<Record>, own': seq<Record>, r: Record)
    requires Section(all, from, own)
    requires own' == own || (own' == own + [r] && from + |own| < |all| && all[from + |own|] == r)
    ensures Section(all, from, own')
  {
    if own' != own {
      assert all[from + |own|..from + |own| + 1] == [r];
      SectionConcat(all, from, own, [r]);
    }
  }

  lemma SectionPrefix(all: seq<Record>, from: nat, a: seq<Record>, b: seq<Record>)
    requires Section(all, from, b) && a <= b
    ensures Section(all, from, a)
  {
    assert all[from..from + |a|] == all[from..from + |b|][..|a|];
  }

  lemma SectionAt(all: seq<Record>, from: nat, own: seq<Record>, k: nat)
    requires Section(all, from, own) && k < |own|
    ensures all[from + k] == own[k]
  {
    assert all[from..from + |own|][k] == own[k];
  }

  lemma {:induction false} ContinuesPrefix(log: Log, offsets: map<int, nat>, batch: seq<Record>, n: nat)
    requires Continues(log, offsets, batch) && n <= |batch|
    ensures Continues(log, offsets, batch[..n])
  {
    forall part
      ensures Section(InLog(log, part), At(offsets, part), OfPart(batch[..n], part))
    {
      OfPartPrefix(batch, n, part);
      SectionPrefix(InLog(log, part), At(offsets, part), OfPart(batch[..n], part), OfPart(batch, part));
    }
  }

  /** So the offsets after it count on by the number of its records. */
  lemma {:induction false} OffsetsCountOn(log: Log, offsets: map<int, nat>, batch: seq<Record>, part: int)
    requires WellFormed(log) && Continues(log, offsets, batch)
    ensures At(OffsetsAfter(offsets, batch), part) == At(offsets, part) + |OfPart(batch, part)|
  {
    if batch != [] {
      var n, last := |batch| - 1, batch[|batch| - 1];
      ContinuesPrefix(log, offsets, batch, n);
      OffsetsCountOn(log, offsets, batch[..n], part);
      if last.part == part {
        var own := OfPart(batch, part);
        SectionAt(InLog(log, part), At(offsets, part), own, |own| - 1);
      }
    }
  }

  /** Finishing a batch finishes everything below the offsets after it. */
  lemma {:induction false} BatchFinishes(malformed: set<int>, accepted: seq<int>, log: Log, offsets: map<int, nat>,
                                         batch: seq<Record>)
    requires WellFormed(log) && FinishedBelow(malformed, accepted, log, offsets) && Continues(log, offsets, batch)
    requires forall r :: r in batch ==> Finished(malformed, accepted, r)
    ensures FinishedBelow(malformed, accepted, log, OffsetsAfter(offsets, batch))
  {
    var after := OffsetsAfter(offsets, batch);
    forall part
      ensures At(after, part) <= |InLog(log, part)|
      ensures forall i :: 0 <= i < At(after, part) ==> Finished(malformed, accepted, InLog(log, part)[i])
    {
      OffsetsCountOn(log, offsets, batch, part);
      OfPartMembers(batch, part);
      forall i | 0 <= i < At(after, part) ensures Finished(malformed, accepted, InLog(log, part)[i]) {
        if i >= At(offsets, part) {
          SectionAt(InLog(log, part), At(offsets, part), OfPart(batch, part), i - At(offsets, part));
          assert InLog(log, part)[i] in OfPart(batch, part);
        }
      }
    }
  }

  lemma StaysFinished(malformed: set<int>, accepted: seq<int>, accepted': seq<int>, log: Log, offsets: map<int, nat>)
    requires FinishedBelow(malformed, accepted, log, offsets) && accepted <= accepted'
    ensures FinishedBelow(malformed, accepted', log, offsets)
  {
    forall part
      ensures At(offsets, part) <= |InLog(log, part)|
      ensures forall i :: 0 <= i < At(offsets, part) ==> Finished(malformed, accepted', InLog(log, part)[i])
    {
      forall i | 0 <= i < At(offsets, part) ensures Finished(malformed, accepted', InLog(log, part)[i]) {
        assert Finished(malformed, accepted, InLog(log, part)[i]);
      }
    }
  }

  lemma RecordsStayFinished(malformed: set<int>, accepted: seq<int>, accepted': seq<int>, records: seq<Record>)
    requires accepted <= accepted' && forall r :: r in records ==> Finished(malformed, accepted, r)
    ensures forall r :: r in records ==> Finished(malformed, accepted', r)
  {
  }

  /** A commit moves a partition either not at all or past its last record. */
  lemma {:induction false} LastOffsetDecides(a: map<int, nat>, b: map<int, nat>, records: seq<Record>, part: int)
    ensures || At(OffsetsAfter(a, records), part) == At(a, part)
            || At(OffsetsAfter(a, records), part) == At(OffsetsAfter(b, records), part)
  {
    if records != [] && records[|records| - 1].part != part {
      LastOffsetDecides(a, b, records[..|records| - 1], part);
    }
  }

  /** Committed offsets may lag behind after failed commits; the next commit makes up for it. */
  lemma {:induction false} CommitFinishes(malformed: set<int>, accepted: seq<int>, log: Log, start: map<int, nat>,
                       committed: map<int, nat>, done: seq<Record>)
    requires FinishedBelow(malformed, accepted, log, OffsetsAfter(start, done))
    requires FinishedBelow(malformed, accepted, log, committed)
    ensures FinishedBelow(malformed, accepted, log, OffsetsAfter(committed, done))
  {
    var after := OffsetsAfter(committed, done);
    forall part
      ensures At(after, part) <= |InLog(log, part)|
      ensures forall i :: 0 <= i < At(after, part) ==> Finished(malformed, accepted, InLog(log, part)[i])
    {
      LastOffsetDecides(committed, start, done, part);
    }
  }

  lemma {:induction false} OffsetsAfterConcat(offsets: map<int, nat>, a: seq<Record>, b: seq<Record>)
    ensures OffsetsAfter(offsets, a + b) == OffsetsAfter(OffsetsAfter(offsets, a), b)
  {
    if b == [] {
      assert a + b == a;
    } else {
      OffsetsAfterConcat(offsets, a, b[..|b| - 1]);
      assert (a + b)[..|a + b| - 1] == a + b[..|b| - 1];
    }
  }

  lemma {:induction false} OfPartConcat(a: seq<Record>, b: seq<Record>, part: int)
    ensures OfPart(a + b, part) == OfPart(a, part) + OfPart(b, part)
  {
    if b == [] {
      assert a + b == a;
    } else {
      OfPartConcat(a, b[..|b| - 1], part);
      assert (a + b)[..|a + b| - 1] == a + b[..|b| - 1];
    }
  }

  lemma {:induction false} ContinuesConcat(log: Log, offsets: map<int, nat>, a: seq<Record>, b: seq<Record>)
    requires WellFormed(log) && Continues(log, offsets, a) && Continues(log, OffsetsAfter(offsets, a), b)
    ensures Continues(log, offsets, a + b)
  {
    forall part
      ensures Section(InLog(log, part), At(offsets, part), OfPart(a + b, part))
    {
      OfPartConcat(a, b, part);
      OffsetsCountOn(log, offsets, a, part);
      var from, own := At(offsets, part), OfPart(a, part);
      assert At(OffsetsAfter(offsets, a), part) == from + |own|;
      assert Section(InLog(log, part), from, own);
      assert Section(InLog(log, part), from + |own|, OfPart(b, part));
      SectionConcat(InLog(log, part), from, own, OfPart(b, part));
    }
  }

  lemma {:induction false} BatchContinues(log: Log, offsets: map<int, nat>, handled: seq<Record>, batch: seq<Record>,
                                          done: seq<Record>)
    requires WellFormed(log) && Continues(log, offsets, handled)
    requires Continues(log, OffsetsAfter(offsets, handled), batch) && done <= batch
    ensures Continues(log, offsets, handled + done)
    ensures OffsetsAfter(offsets, handled + done) == OffsetsAfter(OffsetsAfter(offsets, handled), done)
  {
    ContinuesPrefix(log, OffsetsAfter(offsets, handled), batch, |done|);
    assert batch[..|done|] == done;
    ContinuesConcat(log, offsets, handled, done);
    OffsetsAfterConcat(offsets, handled, done);
  }

  /** The group member's view of the topic: where it reads and what is committed. */
  class Client {
    const commitsUp: bool
    var log: Log
    var position: map<int, nat>
    var committed: map<int, nat>
    ghost var fetched: seq<Record>  // in all polls so far
    ghost var latest: seq<Record>   // in the last poll
    ghost var polls: nat

    /** A restart: reading begins at the committed offsets. */
    constructor (log: Log, committed: map<int, nat>, commitsUp: bool)
      ensures this.log == log && this.commitsUp == commitsUp && this.committed == committed && position == committed
      ensures fetched == [] && latest == [] && polls == 0
    {
      fetched, latest, polls := [], [], 0;
      this.log, this.commitsUp, this.position, this.committed := log, commitsUp, committed, committed;
    }

    /** Others write to the topic. */
    method Arrivals()
      requires WellFormed(log)
      modifies this`log
      ensures WellFormed(log) && GrowsTo(old(log), log)
    {
      var more: int := *;
      while more > 0
        invariant WellFormed(log) && GrowsTo(old(log), log)
      {
        var part: int, headers: seq<Header> := *, *;
        log := log[part := InLog(log, part) + [Record(part, |InLog(log, part)|, headers)]];
        more := more - 1;
      }
    }

    /** Some next records of some partitions, in the order of each partition. */
    method PollFetches() returns (batch: seq<Record>)
      requires WellFormed(log) && forall part :: At(position, part) <= |InLog(log, part)|
      modifies this`position, this`log, this`fetched, this`latest, this`polls
      ensures WellFormed(log) && GrowsTo(old(log), log)
      ensures Continues(log, old(position), batch) && position == OffsetsAfter(old(position), batch)
      ensures fetched == old(fetched) + batch && latest == batch && polls == old(polls) + 1
    {
      Arrivals();
      assert forall part :: InLog(old(log), part) <= InLog(log, part);
      batch := NextRecords();
      fetched, latest, polls := fetched + batch, batch, polls + 1;
    }

    method NextRecords() returns (batch: seq<Record>)
      requires WellFormed(log) && forall part :: At(position, part) <= |InLog(log, part)|
      modifies this`position
      ensures Continues(log, old(position), batch) && position == OffsetsAfter(old(position), batch)
    {
      batch := [];
      assert Continues(log, position, []);
      var more: int := *;
      while more > 0
        invariant Continues(log, old(position), batch) && position == OffsetsAfter(old(position), batch)
      {
        var part: int := *;
        OffsetsCountOn(log, old(position), batch, part);
        if At(position, part) < |InLog(log, part)| {
          var r := InLog(log, part)[At(position, part)];
          ContinuesOneMore(log, old(position), batch, part, r);
          assert (batch + [r])[..|batch|] == batch;
          batch := batch + [r];
          position := position[part := r.offset + 1];
        }
        more := more - 1;
      }
    }

    /** The outcome of a failed commit is unknown. */
    method CommitRecords(records: seq<Record>) returns (ok: bool)
      modifies this`committed
      ensures committed == old(committed) || committed == OffsetsAfter(old(committed), records)
      ensures ok ==> committed == OffsetsAfter(old(committed), records)
      ensures commitsUp ==> ok
    {
      var effective, answered := *, *;
      if effective || commitsUp {
        var offsets := committed;
        for i := 0 to |records|
          invariant offsets == OffsetsAfter(committed, records[..i])
        {
          assert records[..i + 1][..i] == records[..i];
          offsets := offsets[records[i].part := records[i].offset + 1];
        }
        assert records[..|records|] == records;
        committed := offsets;
      }
      ok := commitsUp || (effective && answered);
    }
  }

  lemma {:induction false} PartGrows(log: Log, offsets: map<int, nat>, batch: seq<Record>, r: Record, part: int)
    requires Section(InLog(log, part), At(offsets, part), OfPart(batch, part))
    requires r.part == part ==>
               At(offsets, part) + |OfPart(batch, part)| < |InLog(log, part)|
               && r == InLog(log, part)[At(offsets, part) + |OfPart(batch, part)|]
    ensures Section(InLog(log, part), At(offsets, part), OfPart(batch + [r], part))
  {
    OfPartAppend(batch, r, part);
    SectionGrows(InLog(log, part), At(offsets, part), OfPart(batch, part), OfPart(batch + [r], part), r);
  }

  lemma {:induction false} ContinuesOneMore(log: Log, offsets: map<int, nat>, batch: seq<Record>, part: int, r: Record)
    requires Continues(log, offsets, batch) && r.part == part
    requires At(offsets, part) + |OfPart(batch, part)| < |InLog(log, part)|
    requires r == InLog(log, part)[At(offsets, part) + |OfPart(batch, part)|]
    ensures Continues(log, offsets, batch + [r])
  {
    forall p ensures Section(InLog(log, p), At(offsets, p), OfPart(batch + [r], p)) {
      PartGrows(log, offsets, batch, r, p);
    }
  }

  /** The waits that undisturbed records cost at most: so many for each. */
  function WaitsOf(records: seq<Record>): nat {
    if records == [] then 0 else WaitsOf(records[..|records| - 1]) + MAX_WAITS
  }

  lemma {:induction false} WaitsOfConcat(a: seq<Record>, b: seq<Record>)
    ensures WaitsOf(a + b) == WaitsOf(a) + WaitsOf(b)
  {
    if b == [] {
      assert a + b == a;
    } else {
      assert (a + b)[..|a + b| - 1] == a + b[..|b| - 1];
      WaitsOfConcat(a, b[..|b| - 1]);
    }
  }

  class GroupConsumer {
    const client: Client
    const processor: EventProcessor

    constructor (client: Client, processor: EventProcessor)
      ensures this.client == client && this.processor == processor
    {
      this.client, this.processor := client, processor;
    }

    /** What the committed offsets promise. */
    ghost predicate Promise()
      reads client, processor.dedup.redis
    {
      var b := processor.dedup.redis;
      b.Valid() && WellFormed(client.log) && FinishedBelow(b.malformed, b.accepted, client.log, client.committed)
    }

    /** Everything works, and no other copy handles the event. */
    predicate Undisturbed(rec: Record) {
      var b, id := processor.dedup.redis, EventIdIn(rec.headers);
      b.redisUp && b.publisherUp && id.Some? && id.value in b.quiet
    }

    predicate AllUndisturbed(records: seq<Record>) { forall r :: r in records ==> Undisturbed(r) }

    /** The record is retried until it is finished; only a cancellation gives it up. */
    method Handle(ctx: Context, rec: Record) returns (err: Option<Failure>)
      requires processor.dedup.redis.Valid()
      modifies processor.dedup.redis, ctx
      ensures var b := processor.dedup.redis;
        && b.Valid() && ctx.budget <= old(ctx.budget) && old(b.accepted) <= b.accepted
        && (err.None? ==> Finished(b.malformed, b.accepted, rec))
        && (err.Some? ==> ctx.budget == 0)
        && b.now >= old(b.now) + (old(ctx.budget) - ctx.budget) * Notifications.RETRY_INTERVAL
        && (Undisturbed(rec) ==>
             old(ctx.budget) - ctx.budget <= MAX_WAITS && (old(ctx.budget) >= MAX_WAITS ==> err.None?))
    {
      var eventId: Option<int> := None;
      for i := 0 to |rec.headers|
        invariant eventId == EventIdIn(rec.headers[..i])
      {
        assert rec.headers[..i + 1][..i] == rec.headers[..i];
        if rec.headers[i].key == "event_id" { eventId := rec.headers[i].value; }
      }
      assert rec.headers[..|rec.headers|] == rec.headers;

      var b := processor.dedup.redis;
      while true
        invariant b.Valid() && ctx.budget <= old(ctx.budget) && old(b.accepted) <= b.accepted
        invariant b.now >= old(b.now) + (old(ctx.budget) - ctx.budget) * Notifications.RETRY_INTERVAL
        invariant Undisturbed(rec) && old(ctx.budget) >= MAX_WAITS ==> ctx.budget == old(ctx.budget)
        decreases ctx.budget
      {
        var claims;
        err, claims := processor.Handle(ctx, eventId);
        if err.None? { return; }
        assert err.value.Cancelled? || err.value.CommandFailed?;
        if ctx.budget == 0 { return; }
        var cancelled := b.Wait(ctx);
        if cancelled { return; }
      }
    }

    /** The records up to the first error. */
    method HandleRecords(ctx: Context, batch: seq<Record>) returns (done: seq<Record>)
      requires processor.dedup.redis.Valid()
      modifies processor.dedup.redis, ctx
      ensures var b := processor.dedup.redis;
        && b.Valid() && ctx.budget <= old(ctx.budget) && old(b.accepted) <= b.accepted
        && done <= batch && (ctx.budget > 0 ==> done == batch)
        && (forall r :: r in done ==> Finished(b.malformed, b.accepted, r))
        && (AllUndisturbed(batch) ==> old(ctx.budget) - ctx.budget <= WaitsOf(batch))
    {
      var b := processor.dedup.redis;
      done := [];
      for i := 0 to |batch|
        invariant b.Valid() && ctx.budget <= old(ctx.budget) && old(b.accepted) <= b.accepted
        invariant done == batch[..i]
        invariant forall r :: r in done ==> Finished(b.malformed, b.accepted, r)
        invariant AllUndisturbed(batch) ==> old(ctx.budget) - ctx.budget <= WaitsOf(batch[..i])
      {
        assert AllUndisturbed(batch) ==> Undisturbed(batch[i]);
        assert batch[..i + 1][..i] == batch[..i] && batch == batch[..i + 1] + batch[i + 1..];
        WaitsOfConcat(batch[..i + 1], batch[i + 1..]);
        ghost var before := b.accepted;
        var err := Handle(ctx, batch[i]);
        RecordsStayFinished(b.malformed, before, b.accepted, done);
        if err.Some? { break; }
        done := done + [batch[i]];
      }
      assert done == batch ==> batch[..|batch|] == batch;
    }

    /** One batch, read from `start` on: the records handled before the first error are committed, and an error can only
        be a cancellation. */
    method HandleBatch(ctx: Context, batch: seq<Record>, ghost start: map<int, nat>) returns (done: seq<Record>)
      requires Promise() && Continues(client.log, start, batch)
      requires FinishedBelow(processor.dedup.redis.malformed, processor.dedup.redis.accepted, client.log, start)
      modifies client`committed, processor.dedup.redis, ctx
      ensures Promise() && ctx.budget <= old(ctx.budget)
      ensures AllUndisturbed(batch) ==> old(ctx.budget) - ctx.budget <= WaitsOf(batch)
      ensures old(processor.dedup.redis.accepted) <= processor.dedup.redis.accepted
      ensures done <= batch && (ctx.budget > 0 ==> done == batch)
      ensures FinishedBelow(processor.dedup.redis.malformed, processor.dedup.redis.accepted, client.log,
                            OffsetsAfter(start, done))
      ensures client.committed == old(client.committed) || client.committed == OffsetsAfter(old(client.committed), done)
      ensures client.commitsUp ==> client.committed == OffsetsAfter(old(client.committed), done)
    {
      var b := processor.dedup.redis;
      done := HandleRecords(ctx, batch);
      StaysFinished(b.malformed, old(b.accepted), b.accepted, client.log, start);
      StaysFinished(b.malformed, old(b.accepted), b.accepted, client.log, client.committed);
      ContinuesPrefix(client.log, start, batch, |done|);
      assert batch[..|done|] == done;
      BatchFinishes(b.malformed, b.accepted, client.log, start, done);
      CommitFinishes(b.malformed, b.accepted, client.log, start, client.committed, done);
      var ok := client.CommitRecords(done);
    }

    /** While the topic grows, what is below the offsets stays finished. */
    method Fetch() returns (batch: seq<Record>)
      requires Promise()
      requires FinishedBelow(processor.dedup.redis.malformed, processor.dedup.redis.accepted, client.log,
                             client.position)
      modifies client`position, client`log, client`fetched, client`latest, client`polls
      ensures Promise() && GrowsTo(old(client.log), client.log)
      ensures FinishedBelow(processor.dedup.redis.malformed, processor.dedup.redis.accepted, client.log,
                            old(client.position))
      ensures Continues(client.log, old(client.position), batch)
      ensures client.position == OffsetsAfter(old(client.position), batch)
      ensures client.fetched == old(client.fetched) + batch && client.latest == batch
      ensures client.polls == old(client.polls) + 1
    {
      var b := processor.dedup.redis;
      ghost var log, start := client.log, client.position;
      batch := client.PollFetches();
      GrowthKeepsFinished(b.malformed, b.accepted, log, client.log, start);
      GrowthKeepsFinished(b.malformed, b.accepted, log, client.log, client.committed);
    }

    /** Reading began at the committed offsets `start`, and `handled` is what has been finished since. */
    ghost predicate Underway(start: map<int, nat>, handled: seq<Record>)
      reads client, processor.dedup.redis
    {
      && Promise()
      && FinishedBelow(processor.dedup.redis.malformed, processor.dedup.redis.accepted, client.log, client.position)
      && client.position == OffsetsAfter(start, handled)
      && Reported(start, handled)
    }

    ghost predicate Reported(start: map<int, nat>, handled: seq<Record>)
      reads client
    {
      && Continues(client.log, start, handled)
      && (client.commitsUp ==> client.committed == OffsetsAfter(start, handled))
    }

    /** One poll. Its records are all handled and committed unless the context ends. */
    method Round(ctx: Context, ghost start: map<int, nat>, ghost handled: seq<Record>)
      returns (ghost done: seq<Record>, ghost waits: nat)
      requires Underway(start, handled)
      modifies client, processor.dedup.redis, ctx
      ensures Promise() && GrowsTo(old(client.log), client.log) && Reported(start, handled + done)
      ensures client.fetched == old(client.fetched) + client.latest && client.polls == old(client.polls) + 1
      ensures done <= client.latest && ctx.budget + waits == Max(0, old(ctx.budget) - 1)
      ensures AllUndisturbed(client.latest) ==> waits <= WaitsOf(client.latest)
      ensures ctx.budget > 0 ==> done == client.latest && Underway(start, handled + done)
    {
      ghost var position, log := client.position, client.log;
      done, waits := [], 0;
      var batch := Fetch();
      GrowthKeepsContinuing(log, client.log, start, handled);
      assert handled + [] == handled;
      if ctx.budget == 0 { return; }
      ctx.budget := ctx.budget - 1;
      ghost var budget := ctx.budget;
      var finished := HandleBatch(ctx, batch, position);
      BatchContinues(client.log, start, handled, batch, finished);
      done, waits := finished, budget - ctx.budget;
    }

    /** Poll, handle, commit the finished prefix, until the context ends. Every commit leaves only
        finished records below the committed offsets, in every partition; `handled` are the
        records finished on the way, in their order. These are all records fetched, but for some of
        the last poll; and the consumer polls on, except for the waits that its records cost it. */
    method Run(ctx: Context) returns (ghost handled: seq<Record>, ghost waits: nat)
      requires Promise() && client.position == client.committed
      modifies client, processor.dedup.redis, ctx
      ensures Promise() && ctx.budget == 0 && GrowsTo(old(client.log), client.log)
      ensures Reported(old(client.committed), handled)
      ensures HandledSince(old(client.fetched), handled)
      ensures client.polls >= old(client.polls) + Max(1, old(ctx.budget) - waits)
      ensures AllUndisturbed(client.fetched) ==> waits <= WaitsOf(client.fetched[|old(client.fetched)|..])
    {
      ghost var start := client.position;
      handled, waits := [], 0;
      while true
        invariant Underway(start, handled) && GrowsTo(old(client.log), client.log)
        invariant client.fetched == old(client.fetched) + handled
        invariant old(client.polls) <= client.polls == old(client.polls) + old(ctx.budget) - ctx.budget - waits
        invariant AllUndisturbed(client.fetched) ==> waits <= WaitsOf(handled)
        decreases ctx.budget
      {
        ghost var done, more, log := [], 0, client.log;
        done, more := Round(ctx, start, handled);
        GrowsOn(old(client.log), log, client.log);
        MoreFetched(old(client.fetched), handled, client.latest, done);
        handled, waits := handled + done, waits + more;
        if ctx.budget == 0 { return; }
      }
    }

    lemma MoreFetched(before: seq<Record>, handled: seq<Record>, latest: seq<Record>, done: seq<Record>)
      requires done <= latest
      ensures before + (handled + done) <= before + handled + latest
      ensures done == latest ==> before + (handled + done) == before + handled + latest
      ensures AllUndisturbed(before + handled + latest) ==> AllUndisturbed(before + handled) && AllUndisturbed(latest)
      ensures WaitsOf((before + handled + latest)[|before|..]) == WaitsOf(handled) + WaitsOf(latest)
    {
      assert (before + handled + latest)[|before|..] == handled + latest;
      WaitsOfConcat(handled, latest);
    }

    /** Of what has been fetched since, all is handled in its order, but for some of the last poll. */
    ghost predicate HandledSince(before: seq<Record>, handled: seq<Record>)
      reads client
    {
      && before + handled <= client.fetched
      && |client.fetched| <= |before| + |handled| + |client.latest|
    }
  }
}
