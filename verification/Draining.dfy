/** The relays are never stuck either: from every reachable state the outbox can be published. */
module Draining {
  import opened Records
  import opened Ordering
  import opened Messages
  import opened Machine
  import opened Sequencing
  import opened RelayOrder
  import opened RelayLoop
  import opened Serializability
  import opened EndToEnd

  ghost predicate AllIdle(s: State) { forall r :: r in s.relays ==> s.relays[r].Idle? }

  /** The run goes on with relay steps only. */
  ghost predicate Relaying(more: seq<Action>) { forall a :: a in more ==> IsRelayAction(a) }

  ghost predicate Reaches(w: World, run: seq<Action>, s: State) { Legal(w, run) && Execute(w, run) == s }

  lemma {:induction false} OneAction(w: World, run: seq<Action>, s: State, a: Action, s': State)
    requires Reaches(w, run, s) && Enabled(w, s, a) && Next(w, s, a) == s'
    ensures Reaches(w, run + [a], s')
  {
    ExtendRun(w, run, a);
  }

  /** The copy that holds the lock may always give up. */
  lemma {:induction false} AllCanBeIdle(w: World, run: seq<Action>) returns (more: seq<Action>, s': State)
    requires Legal(w, run)
    ensures Reaches(w, run + more, s') && Relaying(more) && AllIdle(s') && s'.ledger == Execute(w, run).ledger
  {
    var s := Execute(w, run);
    RunsKeepRelayInv(w, run);
    more, s' := [], s;
    assert run + [] == run;
    if rid :| rid in s.relays && !s.relays[rid].Idle? {
      OthersAreIdle(s, rid);
      more, s' := [RelayFail(rid)], RelayStep(w, s, RelayFail(rid));
      OneAction(w, run, s, RelayFail(rid), s');
    }
  }

  function With(s: State, rid: int, r: Relay, log: seq<Event>): State { SetRelay(s, rid, r).(log := log) }

  /** The statements of one successful batch, */
  lemma FetchSteps(w: World, s: State, rid: int, batch: seq<Event>)
    requires AllIdle(s) && batch == Batch(s.ledger.outbox, s.published, w.batchSize) && batch != []
    ensures Enabled(w, s, RelayStart(rid)) && Next(w, s, RelayStart(rid)) == With(s, rid, Holding, s.log)
    ensures Enabled(w, With(s, rid, Holding, s.log), RelayFetch(rid))
    ensures Next(w, With(s, rid, Holding, s.log), RelayFetch(rid)) == With(s, rid, Fetched(batch), s.log)
  {
    var s1 := With(s, rid, Holding, s.log);
    assert s1.relays[rid := Fetched(batch)] == s.relays[rid := Fetched(batch)];
  }

  lemma SendSteps(w: World, s: State, rid: int, batch: seq<Event>, log: seq<Event>)
    requires log == s.log + batch
    ensures var s2, a := With(s, rid, Fetched(batch), s.log), RelayPublish(rid, batch, true, []);
      Enabled(w, s2, a) && Next(w, s2, a) == With(s, rid, Delivered(batch), log)
  {
    var s2 := With(s, rid, Fetched(batch), s.log);
    assert s2.relays[rid := Delivered(batch)] == s.relays[rid := Delivered(batch)];
    forall key ensures OfKey(batch, key) == OfKey(batch, key) + OfKey([], key) {}
  }

  lemma CloseSteps(w: World, s: State, rid: int, batch: seq<Event>, log: seq<Event>)
    ensures var s3, s4 := With(s, rid, Delivered(batch), log), With(s, rid, Marked(batch), log);
      && Enabled(w, s3, RelayMark(rid)) && Next(w, s3, RelayMark(rid)) == s4
      && Enabled(w, s4, RelayCommit(rid))
      && Next(w, s4, RelayCommit(rid)) == With(s, rid, Idle, log).(published := s.published + IdsOf(batch))
  {
    var s3, s4 := With(s, rid, Delivered(batch), log), With(s, rid, Marked(batch), log);
    assert s3.relays[rid := Marked(batch)] == s4.relays;
    assert s4.relays[rid := Idle] == s.relays[rid := Idle];
  }

  /** which mark it and leave everybody idle. */
  lemma {:induction false} OneBatch(w: World, run: seq<Action>, s: State, rid: int)
      returns (more: seq<Action>, s': State)
    requires Reaches(w, run, s) && AllIdle(s) && Batch(s.ledger.outbox, s.published, w.batchSize) != []
    ensures Reaches(w, run + more, s') && Relaying(more) && AllIdle(s') && s'.ledger == s.ledger
    ensures s'.published == s.published + IdsOf(Batch(s.ledger.outbox, s.published, w.batchSize))
  {
    var batch := Batch(s.ledger.outbox, s.published, w.batchSize);
    var log := s.log + batch;
    var publish := RelayPublish(rid, batch, true, []);
    FetchSteps(w, s, rid, batch);
    var run2 := TwoActions(w, run, s, RelayStart(rid), With(s, rid, Holding, s.log),
                           RelayFetch(rid), With(s, rid, Fetched(batch), s.log));
    SendSteps(w, s, rid, batch, log);
    OneAction(w, run2, With(s, rid, Fetched(batch), s.log), publish, With(s, rid, Delivered(batch), log));
    CloseSteps(w, s, rid, batch, log);
    s' := With(s, rid, Idle, log).(published := s.published + IdsOf(batch));
    var run5 := TwoActions(w, run2 + [publish], With(s, rid, Delivered(batch), log),
                           RelayMark(rid), With(s, rid, Marked(batch), log), RelayCommit(rid), s');
    more := [RelayStart(rid), RelayFetch(rid), publish, RelayMark(rid), RelayCommit(rid)];
    assert run + more == run5;
  }

  lemma {:induction false} TwoActions(w: World, run: seq<Action>, s: State, a: Action, s1: State, b: Action, s2: State)
      returns (run': seq<Action>)
    requires Reaches(w, run, s) && Enabled(w, s, a) && Next(w, s, a) == s1 && Enabled(w, s1, b) && Next(w, s1, b) == s2
    ensures run' == run + [a] + [b] && Reaches(w, run', s2)
  {
    OneAction(w, run, s, a, s1);
    OneAction(w, run + [a], s1, b, s2);
    run' := run + [a] + [b];
  }

  /** A batch makes the backlog smaller, and none is left when there is no batch. */
  lemma {:induction false} BacklogShrinks(outbox: seq<Event>, published: set<int>, limit: nat)
    requires UniqueIds(outbox) && limit > 0
    ensures var batch := Batch(outbox, published, limit);
      if batch == [] then forall e :: e in outbox ==> e.id in published
      else |Unpublished(outbox, published + IdsOf(batch))| < |Unpublished(outbox, published)|
  {
    BatchShrinksBacklog(outbox, published, limit);
    UnpublishedMembers(outbox, published);
  }

  lemma {:induction false} IdleCanDrain(w: World, run: seq<Action>, s: State, rid: int)
      returns (more: seq<Action>, s': State)
    requires Reaches(w, run, s) && AllIdle(s) && w.batchSize > 0 && UniqueIds(s.ledger.outbox)
    ensures Reaches(w, run + more, s') && Relaying(more) && s'.ledger == s.ledger
    ensures forall e :: e in s.ledger.outbox ==> e.id in s'.published
    decreases |Unpublished(s.ledger.outbox, s.published)|
  {
    BacklogShrinks(s.ledger.outbox, s.published, w.batchSize);
    if Batch(s.ledger.outbox, s.published, w.batchSize) == [] {
      more, s' := [], s;
      assert run + [] == run;
    } else {
      more, s' := OneBatch(w, run, s, rid);
      var rest;
      rest, s' := IdleCanDrain(w, run + more, s', rid);
      assert run + (more + rest) == run + more + rest;
      more := more + rest;
    }
  }

  /** From every reachable state, whatever the copies are doing, relay steps alone can publish the whole outbox. */
  lemma {:induction false} EveryBacklogCanBeDrained(w: World, run: seq<Action>, rid: int) returns (more: seq<Action>)
    requires Legal(w, run) && w.batchSize > 0
    ensures Legal(w, run + more) && Relaying(more)
    ensures Execute(w, run + more).ledger == Execute(w, run).ledger
    ensures forall e :: e in Execute(w, run).ledger.outbox ==> e.id in Execute(w, run + more).published
  {
    var s, rest;
    more, s := AllCanBeIdle(w, run);
    IdsFollowCommitsPerAccount(w, run, 0);
    rest, s := IdleCanDrain(w, run + more, s, rid);
    assert run + (more + rest) == run + more + rest;
    more := more + rest;
  }

  /** So at every moment the topic is relay steps away from holding each account's current balance. */
  lemma {:induction false} EveryBalanceCanBeDrained(w: World, run: seq<Action>, rid: int) returns (more: seq<Action>)
    requires Legal(w, run) && w.batchSize > 0
    ensures Legal(w, run + more) && Relaying(more)
    ensures forall account :: Total(FirstOccurrences(OfAccount(Execute(w, run + more).log, account)))
                           == Balance(Execute(w, run).ledger.entries, account)
  {
    more := EveryBacklogCanBeDrained(w, run, rid);
    forall account ensures Total(FirstOccurrences(OfAccount(Execute(w, run + more).log, account)))
                        == Balance(Execute(w, run).ledger.entries, account)
    {
      DrainedBalance(w, run + more, account);
    }
  }
}
