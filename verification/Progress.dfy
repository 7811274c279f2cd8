/** No state of the notification service is stuck: whatever crashes, leases and lost replies there have been, a worker
    whose commands are answered gets past every record, and in time. */
module Progress {
  import opened Records
  import opened Notifications
  import opened Leases

  /** Time, and the statements of one worker, all answered. */
  predicate Own(a: Action, wid: int) {
    match a
    case Tick(_) => true
    case Join(w, _) => w == wid
    case Poll(w, _) => w == wid
    case SkipNoId(w) => w == wid
    case Wake(w) => w == wid
    case TryClaim(w, reply) => w == wid && reply.Answered?
    case ReadKey(w, reply) => w == wid && reply.Answered?
    case Publish(w, reply) => w == wid && reply.Answered?
    case Finish(w, reply) => w == wid && reply.Answered?
    case CommitOffset(w, reply) => w == wid && reply.Answered?
    case _ => false
  }

  /** Taking these actions, one worker gets from one state to another. */
  ghost predicate Leads(malformed: set<int>, wid: int, s: State, more: seq<Action>, s': State)
    decreases |more|
  {
    if more == [] then s' == s
    else Own(more[0], wid) && Enabled(s, more[0]) && Leads(malformed, wid, Next(malformed, s, more[0]), more[1..], s')
  }

  lemma {:induction false} LeadsOn(malformed: set<int>, wid: int, run: seq<Action>, s: State, more: seq<Action>,
                                   s': State)
    requires Legal(malformed, run) && Execute(malformed, run) == s && Leads(malformed, wid, s, more, s')
    ensures Legal(malformed, run + more) && Execute(malformed, run + more) == s'
    decreases |more|
  {
    if more == [] {
      assert run + more == run;
    } else {
      var s1 := FirstLeads(malformed, wid, s, more, s');
      OneStepOn(malformed, run, s, more[0], s1);
      LeadsOn(malformed, wid, run + [more[0]], s1, more[1..], s');
      assert run + [more[0]] + more[1..] == run + more;
    }
  }

  lemma FirstLeads(malformed: set<int>, wid: int, s: State, more: seq<Action>, s': State) returns (s1: State)
    requires more != [] && Leads(malformed, wid, s, more, s')
    ensures Enabled(s, more[0]) && s1 == Next(malformed, s, more[0]) && Leads(malformed, wid, s1, more[1..], s')
  {
    s1 := Next(malformed, s, more[0]);
  }

  lemma OneStepOn(malformed: set<int>, run: seq<Action>, s: State, a: Action, s1: State)
    requires Legal(malformed, run) && Execute(malformed, run) == s && Enabled(s, a) && s1 == Next(malformed, s, a)
    ensures Legal(malformed, run + [a]) && Execute(malformed, run + [a]) == s1
  {
    OneMore(malformed, run, s, a, s1);
  }

  lemma {:induction false} LeadsFirst(malformed: set<int>, wid: int, s: State, a: Action, more: seq<Action>, s': State)
    requires Own(a, wid) && Enabled(s, a) && Leads(malformed, wid, Next(malformed, s, a), more, s')
    ensures Leads(malformed, wid, s, [a] + more, s')
  {
    assert ([a] + more)[1..] == more;
  }

  lemma {:induction false} LeadsThen(malformed: set<int>, wid: int, s: State, a: seq<Action>, s': State, b: seq<Action>,
                                     s'': State)
    requires Leads(malformed, wid, s, a, s') && Leads(malformed, wid, s', b, s'')
    ensures Leads(malformed, wid, s, a + b, s'')
    decreases |a|
  {
    if a == [] {
      assert a + b == b;
    } else {
      LeadsThen(malformed, wid, Next(malformed, s, a[0]), a[1..], s', b, s'');
      assert (a + b)[1..] == a[1..] + b;
    }
  }

  // ---------------------------------------------------------------- one record

  /** The worker is at a record, not between two batches. */
  predicate AtWork(s: State, wid: int) {
    wid in s.workers && !BetweenBatches(s.workers[wid].phase) && Placed(s, s.workers[wid])
  }

  predicate BetweenBatches(phase: Phase) { phase.Polling? || phase.Committing? || phase.Stopped? }

  /** In the middle of a batch there is a record, and one with an event id once it is claimed. */
  predicate Placed(s: State, w: Worker) {
    && (!BetweenBatches(w.phase) ==> HasRecord(s, w))
    && (w.phase.Checking? || w.phase.Owning? || w.phase.Announced? ==> HasEvent(s, w))
  }

  /** The worker has got past its record, and nobody else has moved. */
  ghost predicate Passed(s: State, s': State, wid: int) {
    && wid in s.workers && s'.workers == s.workers[wid := Advanced(s.workers[wid])]
    && s'.parts == s.parts && s'.offsets == s.offsets
  }

  /** Another worker's lease on the event is running. */
  predicate Busy(s: State, event: int) { Present(s.store, event, s.now) && s.store[event].state == Processing }

  /** Leases and waits are no longer than they are meant to be. */
  ghost predicate Timely(s: State) {
    && (forall e :: e in s.store && s.store[e].state == Processing ==> s.store[e].expires <= s.now + LEASE_TTL)
    && (forall wid :: wid in s.workers ==> WaitsBriefly(s, s.workers[wid]))
  }

  predicate WaitsBriefly(s: State, w: Worker) {
    w.phase.Waiting? || w.phase.BackingOff? ==> w.phase.until <= s.now + RETRY_INTERVAL
  }

  /** One statement that changes no more than the worker's phase, the keys and the history. */
  lemma StepOn(malformed: set<int>, wid: int, s: State, a: Action, s1: State, more: seq<Action>, s': State)
    requires Own(a, wid) && Enabled(s, a) && Next(malformed, s, a) == s1 && wid in s.workers && wid in s1.workers
    requires s1.workers == s.workers[wid := s.workers[wid].(phase := s1.workers[wid].phase)]
    requires s1.parts == s.parts && s1.offsets == s.offsets
    requires Leads(malformed, wid, s1, more, s') && Passed(s1, s', wid)
    ensures Leads(malformed, wid, s, [a] + more, s') && Passed(s, s', wid)
  {
    LeadsFirst(malformed, wid, s, a, more, s');
  }

  lemma LastStep(malformed: set<int>, wid: int, s: State, a: Action) returns (more: seq<Action>, s': State)
    requires Own(a, wid) && Enabled(s, a) && Passed(s, Next(malformed, s, a), wid)
    ensures Leads(malformed, wid, s, more, s') && s' == Next(malformed, s, a)
  {
    s' := Next(malformed, s, a);
    more := [a] + [];
    LeadsFirst(malformed, wid, s, a, [], s');
  }

  lemma FromAnnounced(malformed: set<int>, wid: int, s: State) returns (more: seq<Action>, s': State)
    requires wid in s.workers && HasEvent(s, s.workers[wid]) && s.workers[wid].phase.Announced?
    ensures Leads(malformed, wid, s, more, s') && Passed(s, s', wid) && s'.now == s.now
  {
    more, s' := LastStep(malformed, wid, s, Finish(wid, Answered));
  }

  lemma FromOwning(malformed: set<int>, wid: int, s: State) returns (more: seq<Action>, s': State)
    requires wid in s.workers && HasEvent(s, s.workers[wid]) && s.workers[wid].phase.Owning?
    ensures Leads(malformed, wid, s, more, s') && Passed(s, s', wid) && s'.now == s.now
  {
    if EventOf(s, s.workers[wid]) in malformed {
      more, s' := LastStep(malformed, wid, s, Finish(wid, Answered));
    } else {
      var s1 := Next(malformed, s, Publish(wid, Answered));
      more, s' := FromAnnounced(malformed, wid, s1);
      StepOn(malformed, wid, s, Publish(wid, Answered), s1, more, s');
      more := [Publish(wid, Answered)] + more;
    }
  }

  /** Nobody's lease is in the way. */
  lemma FromHandling(malformed: set<int>, wid: int, s: State) returns (more: seq<Action>, s': State)
    requires AtWork(s, wid) && s.workers[wid].phase.Handling?
    requires HasEvent(s, s.workers[wid]) ==> !Busy(s, EventOf(s, s.workers[wid]))
    ensures Leads(malformed, wid, s, more, s') && Passed(s, s', wid) && s'.now == s.now
  {
    var w := s.workers[wid];
    if PartOf(s, w.part)[w.next].None? {
      more, s' := LastStep(malformed, wid, s, SkipNoId(wid));
    } else {
      var s1 := Next(malformed, s, TryClaim(wid, Answered));
      if Present(s.store, EventOf(s, w), s.now) {
        more, s' := LastStep(malformed, wid, s1, ReadKey(wid, Answered));
      } else {
        more, s' := FromOwning(malformed, wid, s1);
      }
      StepOn(malformed, wid, s, TryClaim(wid, Answered), s1, more, s');
      more := [TryClaim(wid, Answered)] + more;
    }
  }

  /** Time that passes until the worker wakes and any lease in its way has run out. */
  function Pause(s: State, w: Worker): nat
    requires w.phase.Waiting? || w.phase.BackingOff?
  {
    var wake := Max(0, w.phase.until - s.now);
    if HasEvent(s, w) && Busy(s, EventOf(s, w)) then Max(wake, s.store[EventOf(s, w)].expires - s.now) else wake
  }

  lemma FromWaiting(malformed: set<int>, wid: int, s: State) returns (more: seq<Action>, s': State)
    requires AtWork(s, wid) && Timely(s) && (s.workers[wid].phase.Waiting? || s.workers[wid].phase.BackingOff?)
    ensures Leads(malformed, wid, s, more, s') && Passed(s, s', wid) && s'.now <= s.now + LEASE_TTL
  {
    var w := s.workers[wid];
    var pause := Tick(Pause(s, w));
    var s1 := Next(malformed, s, pause);
    assert HasRecord(s1, w) && Enabled(s1, Wake(wid));
    var s2 := Next(malformed, s1, Wake(wid));
    more, s' := FromHandling(malformed, wid, s2);
    StepOn(malformed, wid, s1, Wake(wid), s2, more, s');
    assert s1.workers == s.workers[wid := s.workers[wid].(phase := s1.workers[wid].phase)];
    StepOn(malformed, wid, s, pause, s1, [Wake(wid)] + more, s');
    more := [pause] + ([Wake(wid)] + more);
  }

  lemma FromChecking(malformed: set<int>, wid: int, s: State) returns (more: seq<Action>, s': State)
    requires AtWork(s, wid) && Timely(s) && s.workers[wid].phase.Checking?
    ensures Leads(malformed, wid, s, more, s') && Passed(s, s', wid) && s'.now <= s.now + LEASE_TTL
  {
    var event := EventOf(s, s.workers[wid]);
    if Present(s.store, event, s.now) && s.store[event].state == Done {
      more, s' := LastStep(malformed, wid, s, ReadKey(wid, Answered));
    } else {
      var s1 := Next(malformed, s, ReadKey(wid, Answered));
      more, s' := FromWaiting(malformed, wid, s1);
      StepOn(malformed, wid, s, ReadKey(wid, Answered), s1, more, s');
      more := [ReadKey(wid, Answered)] + more;
    }
  }

  /** From any of its phases the worker gets past its record within the length of a lease. */
  lemma RecordIsPassed(malformed: set<int>, wid: int, s: State) returns (more: seq<Action>, s': State)
    requires AtWork(s, wid) && Timely(s)
    ensures Leads(malformed, wid, s, more, s') && Passed(s, s', wid) && s'.now <= s.now + LEASE_TTL
  {
    var w := s.workers[wid];
    match w.phase
    case Handling =>
      if HasEvent(s, w) && Busy(s, EventOf(s, w)) {
        var s1 := Next(malformed, s, TryClaim(wid, Answered));
        more, s' := FromChecking(malformed, wid, s1);
        StepOn(malformed, wid, s, TryClaim(wid, Answered), s1, more, s');
        more := [TryClaim(wid, Answered)] + more;
      } else {
        more, s' := FromHandling(malformed, wid, s);
      }
    case Checking => more, s' := FromChecking(malformed, wid, s);
    case Waiting(_) => more, s' := FromWaiting(malformed, wid, s);
    case BackingOff(_) => more, s' := FromWaiting(malformed, wid, s);
    case Owning(_) => more, s' := FromOwning(malformed, wid, s);
    case Announced(_) => more, s' := FromAnnounced(malformed, wid, s);
    case _ =>
  }

  // ---------------------------------------------------------------- in every reachable state

  ghost predicate Orderly(s: State) {
    forall wid :: wid in s.workers ==> Placed(s, s.workers[wid]) && WaitsBriefly(s, s.workers[wid])
  }

  lemma StandingStays(s: State, s': State, w: Worker)
    requires Continues(s, s') && s.now <= s'.now && Placed(s, w) && WaitsBriefly(s, w)
    ensures Placed(s', w) && WaitsBriefly(s', w)
  {
    assert PartOf(s, w.part) <= PartOf(s', w.part);
  }

  /** The worker that moves stays with its batch; */
  ghost predicate MovedOn(s: State, s': State, wid: int) {
    && wid in s'.workers && s'.now == s.now && s'.parts == s.parts
    && Placed(s', s'.workers[wid]) && WaitsBriefly(s', s'.workers[wid])
  }

  lemma ClaimMovesOn(malformed: set<int>, s: State, wid: int, reply: Reply)
    requires Enabled(s, TryClaim(wid, reply)) && Placed(s, s.workers[wid])
    ensures MovedOn(s, Next(malformed, s, TryClaim(wid, reply)), wid)
  {
  }

  lemma ReadMovesOn(malformed: set<int>, s: State, wid: int, reply: Reply)
    requires Enabled(s, ReadKey(wid, reply)) && Placed(s, s.workers[wid])
    ensures MovedOn(s, Next(malformed, s, ReadKey(wid, reply)), wid)
  {
  }

  lemma PublishMovesOn(malformed: set<int>, s: State, wid: int, reply: Reply)
    requires Enabled(s, Publish(wid, reply)) && Placed(s, s.workers[wid])
    ensures MovedOn(s, Next(malformed, s, Publish(wid, reply)), wid)
  {
  }

  lemma FinishMovesOn(malformed: set<int>, s: State, wid: int, reply: Reply)
    requires Enabled(s, Finish(wid, reply)) && Placed(s, s.workers[wid])
    ensures MovedOn(s, Next(malformed, s, Finish(wid, reply)), wid)
  {
  }

  lemma MoverIsPlaced(malformed: set<int>, s: State, a: Action)
    requires Enabled(s, a) && !a.Tick? && !a.Append? && !a.Join?
    requires Placed(s, s.workers[a.wid]) && WaitsBriefly(s, s.workers[a.wid])
    ensures MovedOn(s, Next(malformed, s, a), a.wid)
  {
    match a
    case TryClaim(wid, reply) => ClaimMovesOn(malformed, s, wid, reply);
    case ReadKey(wid, reply) => ReadMovesOn(malformed, s, wid, reply);
    case Publish(wid, reply) => PublishMovesOn(malformed, s, wid, reply);
    case Finish(wid, reply) => FinishMovesOn(malformed, s, wid, reply);
    case _ =>
  }

  lemma StaysOrderly(malformed: set<int>, s: State, a: Action, wid: int)
    requires Orderly(s) && Enabled(s, a) && wid in Next(malformed, s, a).workers
    ensures var s' := Next(malformed, s, a); Placed(s', s'.workers[wid]) && WaitsBriefly(s', s'.workers[wid])
  {
    if a.Tick? || a.Append? || a.Join? || a.wid != wid {
      OthersStand(malformed, s, a, wid);
    } else {
      MoverIsPlaced(malformed, s, a);
    }
  }

  lemma OthersStand(malformed: set<int>, s: State, a: Action, wid: int)
    requires Orderly(s) && Enabled(s, a) && wid in Next(malformed, s, a).workers
    requires a.Tick? || a.Append? || a.Join? || a.wid != wid
    ensures var s' := Next(malformed, s, a); Placed(s', s'.workers[wid]) && WaitsBriefly(s', s'.workers[wid])
  {
    StepContinues(malformed, s, a);
    UntouchedWorker(malformed, s, a, wid);
    if wid in s.workers { StandingStays(s, Next(malformed, s, a), s.workers[wid]); }
  }

  lemma UntouchedWorker(malformed: set<int>, s: State, a: Action, wid: int)
    requires Enabled(s, a) && wid in Next(malformed, s, a).workers
    requires a.Tick? || a.Append? || a.Join? || a.wid != wid
    ensures s.now <= Next(malformed, s, a).now
    ensures if wid in s.workers then Next(malformed, s, a).workers[wid] == s.workers[wid]
            else Next(malformed, s, a).workers[wid].phase.Polling?
  {
  }

  lemma {:induction false} RunsAreOrderly(malformed: set<int>, run: seq<Action>)
    requires Legal(malformed, run)
    ensures Orderly(Execute(malformed, run))
  {
    if run != [] {
      var before := Execute(malformed, run[..|run| - 1]);
      RunsAreOrderly(malformed, run[..|run| - 1]);
      forall wid | wid in Execute(malformed, run).workers
        ensures Placed(Execute(malformed, run), Execute(malformed, run).workers[wid])
        ensures WaitsBriefly(Execute(malformed, run), Execute(malformed, run).workers[wid])
      {
        StaysOrderly(malformed, before, run[|run| - 1], wid);
      }
    }
  }

  lemma {:induction false} RunsAreTimely(malformed: set<int>, run: seq<Action>)
    requires Legal(malformed, run)
    ensures Timely(Execute(malformed, run))
  {
    var s := Execute(malformed, run);
    RunsAreOrderly(malformed, run);
    RunsKeepLeases(malformed, run);
    forall e | e in s.store && s.store[e].state == Processing ensures s.store[e].expires <= s.now + LEASE_TTL {
      var i :| 0 <= i < |s.history| && Explains(s.history[i], e, s.store[e]);
      assert Covered(s, s.history[i]);
    }
  }

  /** In every reachable state, a worker that is at a record can get past it by its own statements, if they are
      answered, within the length of a lease, whoever holds one: the record is skipped, found done, or published
      and marked. */
  lemma {:induction false} NoRecordIsStuck(malformed: set<int>, run: seq<Action>, wid: int) returns (more: seq<Action>)
    requires Legal(malformed, run) && wid in Execute(malformed, run).workers
    requires !BetweenBatches(Execute(malformed, run).workers[wid].phase)
    ensures Legal(malformed, run + more) && forall a :: a in more ==> Own(a, wid)
    ensures Passed(Execute(malformed, run), Execute(malformed, run + more), wid)
    ensures Execute(malformed, run + more).now <= Execute(malformed, run).now + LEASE_TTL
  {
    var s, s' := Execute(malformed, run), Execute(malformed, run);
    RunsAreOrderly(malformed, run);
    RunsAreTimely(malformed, run);
    assert Placed(s, s.workers[wid]);
    more, s' := RecordIsPassed(malformed, wid, s);
    LeadsOn(malformed, wid, run, s, more, s');
    LeadsOwn(malformed, wid, s, more, s');
  }

  lemma {:induction false} LeadsOwn(malformed: set<int>, wid: int, s: State, more: seq<Action>, s': State)
    requires Leads(malformed, wid, s, more, s')
    ensures forall a :: a in more ==> Own(a, wid)
    decreases |more|
  {
    if more != [] {
      LeadsOwn(malformed, wid, Next(malformed, s, more[0]), more[1..], s');
      assert more == [more[0]] + more[1..];
    }
  }

  // ---------------------------------------------------------------- whole partitions

  /** So the rest of a batch can be worked off, */
  lemma {:induction false} BatchIsPassed(malformed: set<int>, run: seq<Action>, wid: int) returns (more: seq<Action>)
    requires Legal(malformed, run) && wid in Execute(malformed, run).workers
    requires !BetweenBatches(Execute(malformed, run).workers[wid].phase)
    ensures Legal(malformed, run + more) && forall a :: a in more ==> Own(a, wid)
    ensures var s, s' := Execute(malformed, run), Execute(malformed, run + more);
      && wid in s'.workers && s'.parts == s.parts && s'.offsets == s.offsets
      && s'.workers[wid] == s.workers[wid].(next := s.workers[wid].high, phase := Committing)
    decreases Execute(malformed, run).workers[wid].high - Execute(malformed, run).workers[wid].next
  {
    var w := Execute(malformed, run).workers[wid];
    RunsAreOrderly(malformed, run);
    assert Placed(Execute(malformed, run), w);
    more := NoRecordIsStuck(malformed, run, wid);
    if w.next + 1 < w.high {
      var rest := BatchIsPassed(malformed, run + more, wid);
      assert run + (more + rest) == run + more + rest;
      more := more + rest;
    }
  }

  /** and a new worker can consume the whole rest of a partition. */
  lemma {:induction false} EveryPartitionCanBeConsumed(malformed: set<int>, run: seq<Action>, wid: int, part: int)
      returns (more: seq<Action>)
    requires Legal(malformed, run) && wid !in Execute(malformed, run).workers
    ensures Legal(malformed, run + more) && forall a :: a in more ==> Own(a, wid)
    ensures var s, s' := Execute(malformed, run), Execute(malformed, run + more);
      PartOf(s', part) == PartOf(s, part) && OffsetOf(s', part) == |PartOf(s, part)|
  {
    more := [];
    assert run + [] == run;
    CommittedExists(malformed, run, part);
    if OffsetOf(Execute(malformed, run), part) < |PartOf(Execute(malformed, run), part)| {
      more := RestIsConsumed(malformed, run, wid, part);
    }
  }

  lemma {:induction false} CommittedExists(malformed: set<int>, run: seq<Action>, part: int)
    requires Legal(malformed, run)
    ensures OffsetOf(Execute(malformed, run), part) <= |PartOf(Execute(malformed, run), part)|
  {
    var s := Execute(malformed, run);
    RunsKeepDelivery(malformed, run);
    assert part in s.offsets ==> AllSettled(malformed, s, part, s.offsets[part]);
  }

  lemma {:induction false} RestIsConsumed(malformed: set<int>, run: seq<Action>, wid: int, part: int)
      returns (more: seq<Action>)
    requires Legal(malformed, run) && wid !in Execute(malformed, run).workers
    requires OffsetOf(Execute(malformed, run), part) < |PartOf(Execute(malformed, run), part)|
    ensures Legal(malformed, run + more) && forall a :: a in more ==> Own(a, wid)
    ensures var s, s' := Execute(malformed, run), Execute(malformed, run + more);
      PartOf(s', part) == PartOf(s, part) && OffsetOf(s', part) == |PartOf(s, part)|
  {
    var run2, start := FreshWorker(malformed, run, wid, part);
    var batch := BatchIsPassed(malformed, run2, wid);
    var run3 := BatchIsCommitted(malformed, run2 + batch, wid);
    more := start + batch + [CommitOffset(wid, Answered)];
    assert run + more == run3;
  }

  lemma {:induction false} BatchIsCommitted(malformed: set<int>, run: seq<Action>, wid: int) returns (run': seq<Action>)
    requires Legal(malformed, run) && wid in Execute(malformed, run).workers
    requires Execute(malformed, run).workers[wid].phase.Committing?
    requires Execute(malformed, run).workers[wid].low < Execute(malformed, run).workers[wid].next
    ensures run' == run + [CommitOffset(wid, Answered)] && Legal(malformed, run')
    ensures var s, s' := Execute(malformed, run), Execute(malformed, run');
      s'.parts == s.parts && OffsetOf(s', s.workers[wid].part) == s.workers[wid].next
  {
    var s := Execute(malformed, run);
    OneMore(malformed, run, s, CommitOffset(wid, Answered), Next(malformed, s, CommitOffset(wid, Answered)));
    run' := run + [CommitOffset(wid, Answered)];
  }

  lemma {:induction false} FreshWorker(malformed: set<int>, run: seq<Action>, wid: int, part: int)
      returns (run2: seq<Action>, start: seq<Action>)
    requires Legal(malformed, run) && wid !in Execute(malformed, run).workers
    requires OffsetOf(Execute(malformed, run), part) < |PartOf(Execute(malformed, run), part)|
    ensures run2 == run + start && Legal(malformed, run2) && forall a :: a in start ==> Own(a, wid)
    ensures var s, s2 := Execute(malformed, run), Execute(malformed, run2);
      && s2.parts == s.parts && s2.offsets == s.offsets && wid in s2.workers
      && s2.workers[wid] == Worker(part, OffsetOf(s, part), OffsetOf(s, part), |PartOf(s, part)|, Handling, false)
  {
    var s := Execute(malformed, run);
    var high := |PartOf(s, part)|;
    var s1 := Next(malformed, s, Join(wid, part));
    OneMore(malformed, run, s, Join(wid, part), s1);
    var s2 := Next(malformed, s1, Poll(wid, high));
    OneMore(malformed, run + [Join(wid, part)], s1, Poll(wid, high), s2);
    run2 := run + [Join(wid, part)] + [Poll(wid, high)];
    start := [Join(wid, part), Poll(wid, high)];
    assert run2 == run + start;
  }
}
