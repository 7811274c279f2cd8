/** Exactly when a notification of an event can still be accepted. */
module Resending {
  import opened Records
  import opened Notifications
  import opened Leases

  /** Some worker has claimed the event and has not published it yet. */
  ghost predicate Owned(s: State, event: int) {
    exists wid :: wid in s.workers && Owns(s, s.workers[wid], event)
  }

  predicate Owns(s: State, w: Worker, event: int) { w.phase.Owning? && HasEvent(s, w) && EventOf(s, w) == event }

  /** The key of the event keeps everybody out until after time `t`, and nobody has got in. */
  ghost predicate Blocked(s: State, event: int, t: int) {
    !Owned(s, event) && event in s.store && t < s.store[event].expires
  }

  /** A continuation of the run, by any actions of workers and time, in which a notification of the
      event is accepted by time `t`. */
  ghost predicate SendsMore(malformed: set<int>, run: seq<Action>, more: seq<Action>, event: int, t: int)
    requires Legal(malformed, run)
  {
    && Legal(malformed, run + more)
    && Execute(malformed, run + more).now <= t
    && SentFrom(Execute(malformed, run + more).history, |Execute(malformed, run).history|, event)
  }

  ghost predicate SentFrom(history: seq<Mark>, from: nat, event: int) {
    exists i :: from <= i < |history| && IsSent(history[i], event)
  }

  // ---------------------------------------------------------------- while the key blocks

  lemma StillNotOwned(malformed: set<int>, s: State, a: Action, event: int, t: int)
    requires OwnersOk(s) && Enabled(s, a) && Blocked(s, event, t) && s.now <= t
    ensures !Owned(Next(malformed, s, a), event)
  {
    var s' := Next(malformed, s, a);
    forall wid | wid in s'.workers ensures !Owns(s', s'.workers[wid], event) {
      if s'.workers[wid].phase.Owning? { NotTheOwner(malformed, s, a, wid, event, t); }
    }
  }

  lemma NotTheOwner(malformed: set<int>, s: State, a: Action, wid: int, event: int, t: int)
    requires OwnersOk(s) && Enabled(s, a) && Blocked(s, event, t) && s.now <= t
    requires wid in Next(malformed, s, a).workers && Next(malformed, s, a).workers[wid].phase.Owning?
    ensures !Owns(Next(malformed, s, a), Next(malformed, s, a).workers[wid], event)
  {
    var s' := Next(malformed, s, a);
    NewOwner(malformed, s, a, wid);
    StepContinues(malformed, s, a);
    var w, w' := s.workers[wid], s'.workers[wid];
    assert PartOf(s, w.part) <= PartOf(s', w.part);
    if ClaimOf(w) == ClaimOf(w') {
      assert !Owns(s, w, event);
    } else {
      NewMarksAreCovered(malformed, s, a, NewMarks(malformed, s, a)[1]);
    }
  }

  lemma NothingSent(malformed: set<int>, s: State, a: Action, event: int)
    requires Enabled(s, a) && !Owned(s, event)
    ensures forall m :: m in NewMarks(malformed, s, a) ==> !IsSent(m, event)
  {
    forall m | m in NewMarks(malformed, s, a) ensures !IsSent(m, event) {
      if m.Sent? {
        NewSentMark(malformed, s, a, m);
        assert !Owns(s, s.workers[a.wid], event);
      }
    }
  }

  lemma StepStaysBlocked(malformed: set<int>, s: State, a: Action, event: int, t: int)
    requires LeaseInv(s) && OwnersOk(s) && Enabled(s, a) && Blocked(s, event, t) && Next(malformed, s, a).now <= t
    ensures Blocked(Next(malformed, s, a), event, t)
    ensures !SentFrom(Next(malformed, s, a).history, |s.history|, event)
  {
    ExpiryNeverMovesEarlier(malformed, s, a);
    StillNotOwned(malformed, s, a, event, t);
    NothingSent(malformed, s, a, event);
    HistoryGrowsBy(malformed, s, a);
    var h, marks := Next(malformed, s, a).history, NewMarks(malformed, s, a);
    forall i | |s.history| <= i < |h| ensures !IsSent(h[i], event) {
      assert h[i] == marks[i - |s.history|];
    }
  }

  lemma {:induction false} StaysBlocked(malformed: set<int>, run: seq<Action>, more: seq<Action>, event: int, t: int)
    requires Legal(malformed, run) && Legal(malformed, run + more)
    requires Blocked(Execute(malformed, run), event, t) && Execute(malformed, run + more).now <= t
    ensures Blocked(Execute(malformed, run + more), event, t)
    ensures !SentFrom(Execute(malformed, run + more).history, |Execute(malformed, run).history|, event)
    ensures |Execute(malformed, run).history| <= |Execute(malformed, run + more).history|
  {
    if more == [] {
      assert run + more == run;
    } else {
      var less, last := more[..|more| - 1], more[|more| - 1];
      assert run + more == run + less + [last];
      LastAction(malformed, run + less, last);
      var s := Execute(malformed, run + less);
      RunsKeepLeases(malformed, run + less);
      RunsKeepSent(malformed, run + less);
      ExpiryNeverMovesEarlier(malformed, s, last);
      StaysBlocked(malformed, run, less, event, t);
      OneMoreBlocked(malformed, s, last, event, t, |Execute(malformed, run).history|);
    }
  }

  lemma {:induction false} LastAction(malformed: set<int>, run: seq<Action>, a: Action)
    requires Legal(malformed, run + [a])
    ensures Legal(malformed, run) && Enabled(Execute(malformed, run), a)
    ensures Execute(malformed, run + [a]) == Next(malformed, Execute(malformed, run), a)
  {
    assert (run + [a])[..|run + [a]| - 1] == run;
  }

  lemma OneMoreBlocked(malformed: set<int>, s: State, a: Action, event: int, t: int, from: nat)
    requires LeaseInv(s) && OwnersOk(s) && Enabled(s, a) && Blocked(s, event, t) && Next(malformed, s, a).now <= t
    requires from <= |s.history| && !SentFrom(s.history, from, event)
    ensures Blocked(Next(malformed, s, a), event, t)
    ensures !SentFrom(Next(malformed, s, a).history, from, event)
    ensures |s.history| <= |Next(malformed, s, a).history|
  {
    StepStaysBlocked(malformed, s, a, event, t);
    HistoryGrowsBy(malformed, s, a);
    NothingSentFrom(s.history, NewMarks(malformed, s, a), from, event);
  }

  lemma NothingSentFrom(history: seq<Mark>, marks: seq<Mark>, from: nat, event: int)
    requires from <= |history| && !SentFrom(history, from, event) && !SentFrom(history + marks, |history|, event)
    ensures !SentFrom(history + marks, from, event)
  {
    forall i | from <= i < |history + marks| ensures !IsSent((history + marks)[i], event) {
      if i < |history| { assert !IsSent(history[i], event); }
    }
  }

  // ---------------------------------------------------------------- when it does not

  lemma {:induction false} OwnerSends(malformed: set<int>, run: seq<Action>, wid: int, event: int, t: int)
      returns (more: seq<Action>)
    requires Legal(malformed, run) && event !in malformed && Execute(malformed, run).now <= t
    requires wid in Execute(malformed, run).workers
    requires Owns(Execute(malformed, run), Execute(malformed, run).workers[wid], event)
    ensures SendsMore(malformed, run, more, event, t)
  {
    var s := Execute(malformed, run);
    var s' := Next(malformed, s, Publish(wid, Answered));
    more := [Publish(wid, Answered)];
    OneMore(malformed, run, s, Publish(wid, Answered), s');
    assert IsSent(s'.history[|s.history|], event);
  }

  lemma {:induction false} FreshInt(s: set<int>) returns (x: int)
    ensures forall y :: y in s ==> y < x
    decreases s
  {
    if y :| y in s {
      var z := FreshInt(s - {y});
      x := Max(z, y + 1);
      assert forall u :: u in s ==> u == y || u in s - {y};
    } else {
      x := 0;
    }
  }

  /** The event is the only record of a new partition, and a new worker stands before it. */
  ghost predicate Arrived(s: State, s': State, wid: int, event: int, t: int) {
    && s'.now == t && s'.store == s.store && s'.history == s.history
    && wid in s'.workers && s'.workers[wid].phase == Handling
    && HasEvent(s', s'.workers[wid]) && EventOf(s', s'.workers[wid]) == event
  }

  function WithPartition(s: State, part: int, event: int): State { s.(parts := s.parts[part := [Some(event)]]) }

  lemma NewPartition(malformed: set<int>, s: State, part: int, event: int)
    requires part !in s.parts
    ensures Next(malformed, s, Append(part, Some(event))) == WithPartition(s, part, event)
  {
    assert PartOf(s, part) + [Some(event)] == [Some(event)];
  }

  function Joined(s: State, wid: int, part: int, high: nat, phase: Phase): State {
    Put(s, wid, Worker(part, 0, 0, high, phase, false))
  }

  lemma NewWorker(malformed: set<int>, s: State, wid: int, part: int, event: int)
    requires part in s.parts && s.parts[part] == [Some(event)] && part !in s.offsets && wid !in s.workers
    ensures Enabled(s, Join(wid, part)) && Next(malformed, s, Join(wid, part)) == Joined(s, wid, part, 0, Polling)
    ensures var s1 := Joined(s, wid, part, 0, Polling);
      && Enabled(s1, Poll(wid, 1)) && Next(malformed, s1, Poll(wid, 1)) == Joined(s, wid, part, 1, Handling)
  {
    var s1, s2 := Joined(s, wid, part, 0, Polling), Joined(s, wid, part, 1, Handling);
    assert s1.workers[wid := s2.workers[wid]] == s2.workers;
  }

  lemma {:induction false} WorkerArrives(malformed: set<int>, run: seq<Action>, s: State, wid: int, part: int,
                                         event: int)
      returns (run': seq<Action>)
    requires Legal(malformed, run) && Execute(malformed, run) == s
    requires part in s.parts && s.parts[part] == [Some(event)] && part !in s.offsets && wid !in s.workers
    ensures run' == run + [Join(wid, part)] + [Poll(wid, 1)]
    ensures Legal(malformed, run') && Execute(malformed, run') == Joined(s, wid, part, 1, Handling)
  {
    NewWorker(malformed, s, wid, part, event);
    OneMore(malformed, run, s, Join(wid, part), Joined(s, wid, part, 0, Polling));
    run' := run + [Join(wid, part)];
    OneMore(malformed, run', Joined(s, wid, part, 0, Polling), Poll(wid, 1), Joined(s, wid, part, 1, Handling));
    run' := run' + [Poll(wid, 1)];
  }

  lemma {:induction false} ArrivesAgain(malformed: set<int>, run: seq<Action>, s: State, event: int, t: int)
      returns (more: seq<Action>, wid: int)
    requires Legal(malformed, run) && Execute(malformed, run) == s && s.now <= t
    ensures Legal(malformed, run + more) && Arrived(s, Execute(malformed, run + more), wid, event, t)
  {
    var part := FreshInt(s.parts.Keys + s.offsets.Keys);
    wid := FreshInt(s.workers.Keys);
    assert part !in s.parts && part !in s.offsets && wid !in s.workers;
    var s1 := s.(now := t);
    OneMore(malformed, run, s, Tick(t - s.now), s1);
    var run1 := run + [Tick(t - s.now)];
    NewPartition(malformed, s1, part, event);
    OneMore(malformed, run1, s1, Append(part, Some(event)), WithPartition(s1, part, event));
    var run2 := run1 + [Append(part, Some(event))];
    var run3 := WorkerArrives(malformed, run2, WithPartition(s1, part, event), wid, part, event);
    more := [Tick(t - s.now), Append(part, Some(event)), Join(wid, part), Poll(wid, 1)];
    assert run + more == run3;
  }

  lemma {:induction false} RedeliverySends(malformed: set<int>, run: seq<Action>, event: int, t: int)
      returns (more: seq<Action>)
    requires Legal(malformed, run) && event !in malformed && Execute(malformed, run).now <= t
    requires var s := Execute(malformed, run); event in s.store ==> s.store[event].expires <= t
    ensures SendsMore(malformed, run, more, event, t)
  {
    var s, wid := Execute(malformed, run), 0;
    more, wid := ArrivesAgain(malformed, run, s, event, t);
    var s4 := Execute(malformed, run + more);
    var s5 := Next(malformed, s4, TryClaim(wid, Answered));
    OneMore(malformed, run + more, s4, TryClaim(wid, Answered), s5);
    ClaimedNow(malformed, s4, wid, event);
    var run5 := run + more + [TryClaim(wid, Answered)];
    var publish := OwnerSends(malformed, run5, wid, event, t);
    assert run + (more + [TryClaim(wid, Answered)] + publish) == run5 + publish;
    more := more + [TryClaim(wid, Answered)] + publish;
    SentFromEarlier(Execute(malformed, run + more).history, |s.history|, |s5.history|, event);
  }

  lemma ClaimedNow(malformed: set<int>, s: State, wid: int, event: int)
    requires wid in s.workers && s.workers[wid].phase == Handling
    requires HasEvent(s, s.workers[wid]) && EventOf(s, s.workers[wid]) == event && !Present(s.store, event, s.now)
    ensures var s' := Next(malformed, s, TryClaim(wid, Answered));
      && wid in s'.workers && Owns(s', s'.workers[wid], event) && s'.now == s.now && |s.history| <= |s'.history|
  {
  }

  lemma SentFromEarlier(history: seq<Mark>, from: nat, later: nat, event: int)
    requires from <= later && SentFrom(history, later, event)
    ensures SentFrom(history, from, event)
  {
    var i :| later <= i < |history| && IsSent(history[i], event);
  }

  /** By time `t` another notification of a well-formed event can be accepted if and only if some
      worker owns the event already, or its key will have expired by then. So what a worker has to
      make sure of when it publishes is that its lease is still running. */
  lemma {:induction false} SentAgainExactly(malformed: set<int>, run: seq<Action>, event: int, t: int)
    requires Legal(malformed, run) && event !in malformed && Execute(malformed, run).now <= t
    ensures (exists more :: SendsMore(malformed, run, more, event, t)) <==> !Blocked(Execute(malformed, run), event, t)
  {
    var s := Execute(malformed, run);
    if Blocked(s, event, t) {
      forall more ensures !SendsMore(malformed, run, more, event, t) {
        if SendsMore(malformed, run, more, event, t) { StaysBlocked(malformed, run, more, event, t); }
      }
    } else if Owned(s, event) {
      var wid :| wid in s.workers && Owns(s, s.workers[wid], event);
      var more := OwnerSends(malformed, run, wid, event, t);
    } else {
      var more := RedeliverySends(malformed, run, event, t);
    }
  }
}
