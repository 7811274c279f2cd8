/** What the leases in Redis guarantee: claims of one event are far apart, and when owners and
    redeliveries are in time its notification is published at most once. */
module Leases {
  import opened Records
  import opened Notifications

  // ---------------------------------------------------------------- expiry

  /** A key lives at least as long after the step as it was going to live before it. */
  ghost predicate ExpiriesHold(s: State, s': State) {
    forall e :: e in s.store ==> e in s'.store && s.store[e].expires <= s'.store[e].expires
  }

  /** No key outlives a full deduplication window from now. */
  ghost predicate ShortLived(s: State) {
    forall e :: e in s.store ==> s.store[e].expires <= s.now + DONE_TTL
  }

  /** The expiry of a key never moves earlier, neither by a claim nor by a Done. */
  lemma ExpiryNeverMovesEarlier(malformed: set<int>, s: State, a: Action)
    requires ShortLived(s) && Enabled(s, a)
    ensures var s' := Next(malformed, s, a); ShortLived(s') && ExpiriesHold(s, s') && s.now <= s'.now
  {
  }

  // ---------------------------------------------------------------- the order of marks

  /** How long the mark's event stays reserved or remembered. */
  function Reserved(m: Mark): int {
    match m
    case Claimed(_, _) => LEASE_TTL
    case MarkedDone(_, _) => DONE_TTL
    case _ => 0
  }

  ghost predicate Covered(s: State, m: Mark) {
    && m.at <= s.now
    && (m.Claimed? || m.MarkedDone? ==> m.event in s.store && m.at + Reserved(m) <= s.store[m.event].expires)
  }

  /** Marks are in the order of time, and a claim comes only after every earlier mark of its
      event has run out. */
  ghost predicate Separated(history: seq<Mark>) {
    && (forall i, j :: 0 <= i < j < |history| ==> history[i].at <= history[j].at)
    && (forall i, j :: 0 <= i < j < |history| && history[j].Claimed? && history[i].event == history[j].event ==>
          history[i].at + Reserved(history[i]) <= history[j].at)
    && (forall j :: 0 <= j < |history| && history[j].Claimed? ==>
          j > 0 && history[j - 1] == Tried(history[j].event, history[j].at))
  }

  /** A mark which still keeps its event from being claimed. */
  predicate Running(m: Mark, event: int, now: int) { m.event == event && now < m.at + Reserved(m) }

  /** Every key is there because of a claim or a Done, and expires with it. */
  ghost predicate Explained(s: State) {
    forall e :: e in s.store ==> exists i :: 0 <= i < |s.history| && Explains(s.history[i], e, s.store[e])
  }

  predicate Explains(m: Mark, event: int, slot: Slot) {
    && m.event == event
    && m.at + Reserved(m) == slot.expires
    && (if slot.state == Done then m.MarkedDone? else m.Claimed?)
  }

  ghost predicate LeaseInv(s: State) {
    && ShortLived(s)
    && Explained(s)
    && (forall i :: 0 <= i < |s.history| ==> Covered(s, s.history[i]))
    && Separated(s.history)
  }

  /** The marks which one step adds. */
  function NewMarks(malformed: set<int>, s: State, a: Action): seq<Mark>
    requires Enabled(s, a)
  {
    match a
    case TryClaim(wid, reply) =>
      var event := EventOf(s, s.workers[wid]);
      [Tried(event, s.now)] +
      if Present(s.store, event, s.now) || reply.LostBefore? then [] else [Claimed(event, s.now)]
    case Publish(wid, reply) =>
      var w := s.workers[wid];
      if EventOf(s, w) in malformed || reply.LostBefore? then [] else [Sent(EventOf(s, w), s.now, w.phase.claim)]
    case Finish(wid, reply) =>
      var w := s.workers[wid];
      if (w.phase.Owning? && EventOf(s, w) !in malformed) || reply.LostBefore? then []
      else [MarkedDone(EventOf(s, w), s.now)]
    case _ => []
  }

  lemma HistoryGrowsBy(malformed: set<int>, s: State, a: Action)
    requires Enabled(s, a)
    ensures Next(malformed, s, a).history == s.history + NewMarks(malformed, s, a)
  {
  }

  lemma CoverStays(s: State, s': State, m: Mark)
    requires Covered(s, m) && ExpiriesHold(s, s') && s.now <= s'.now
    ensures Covered(s', m)
  {
  }

  lemma NewMarksAreCovered(malformed: set<int>, s: State, a: Action, m: Mark)
    requires Enabled(s, a) && m in NewMarks(malformed, s, a)
    ensures Covered(Next(malformed, s, a), m) && m.at == s.now == Next(malformed, s, a).now
    ensures m.Claimed? ==> !Present(s.store, m.event, s.now) && NewMarks(malformed, s, a) == [Tried(m.event, m.at), m]
  {
  }

  lemma SeparatedAppend(s: State, marks: seq<Mark>)
    requires LeaseInv(s)
    requires forall m :: m in marks ==> m.at == s.now
    requires forall m :: m in marks && m.Claimed? ==>
               !Present(s.store, m.event, s.now) && marks == [Tried(m.event, m.at), m]
    ensures Separated(s.history + marks)
  {
    var h, n := s.history + marks, |s.history|;
    forall i | 0 <= i < |h| ensures i < n ==> h[i] == s.history[i] && Covered(s, s.history[i])
                            ensures i >= n ==> h[i] == marks[i - n] && h[i] in marks {
    }
    forall i, j | 0 <= i < j < |h| && h[j].Claimed? && h[i].event == h[j].event
      ensures h[i].at + Reserved(h[i]) <= h[j].at
    {
      if n <= i { assert marks[i - n] in marks && marks[j - n] in marks; }
    }
    forall j | 0 <= j < |h| && h[j].Claimed?
      ensures j > 0 && h[j - 1] == Tried(h[j].event, h[j].at)
    {
      if j >= n {
        assert marks[j - n] in marks && h[n] == marks[0] && marks[0].Tried?;
      }
    }
  }

  /** A key changes only together with the mark that explains it. */
  lemma KeyChange(malformed: set<int>, s: State, a: Action, e: int)
    requires Enabled(s, a) && e in Next(malformed, s, a).store
    ensures var s', marks := Next(malformed, s, a), NewMarks(malformed, s, a);
      || (e in s.store && s'.store[e] == s.store[e])
      || (marks != [] && Explains(marks[|marks| - 1], e, s'.store[e]))
  {
  }

  lemma NextKeepsExplained(malformed: set<int>, s: State, a: Action)
    requires Explained(s) && Enabled(s, a)
    ensures Explained(Next(malformed, s, a))
  {
    var s', marks := Next(malformed, s, a), NewMarks(malformed, s, a);
    HistoryGrowsBy(malformed, s, a);
    forall e | e in s'.store
      ensures exists i :: 0 <= i < |s'.history| && Explains(s'.history[i], e, s'.store[e])
    {
      KeyChange(malformed, s, a, e);
      if e in s.store && s'.store[e] == s.store[e] {
        var i :| 0 <= i < |s.history| && Explains(s.history[i], e, s.store[e]);
        assert s'.history[i] == s.history[i];
      } else {
        assert s'.history[|s'.history| - 1] == marks[|marks| - 1];
      }
    }
  }

  lemma NextKeepsLeases(malformed: set<int>, s: State, a: Action)
    requires LeaseInv(s) && Enabled(s, a)
    ensures LeaseInv(Next(malformed, s, a))
  {
    var s', marks := Next(malformed, s, a), NewMarks(malformed, s, a);
    ExpiryNeverMovesEarlier(malformed, s, a);
    HistoryGrowsBy(malformed, s, a);
    NextKeepsExplained(malformed, s, a);
    forall m | m in marks
      ensures Covered(s', m) && m.at == s.now
      ensures m.Claimed? ==> !Present(s.store, m.event, s.now) && marks == [Tried(m.event, m.at), m]
    {
      NewMarksAreCovered(malformed, s, a, m);
    }
    SeparatedAppend(s, marks);
    forall i | 0 <= i < |s'.history| ensures Covered(s', s'.history[i]) {
      if i < |s.history| {
        assert Covered(s, s.history[i]);
        CoverStays(s, s', s.history[i]);
      } else {
        assert s'.history[i] in marks;
      }
    }
  }

  lemma {:induction false} RunsKeepLeases(malformed: set<int>, run: seq<Action>)
    requires Legal(malformed, run)
    ensures LeaseInv(Execute(malformed, run))
  {
    if run != [] {
      RunsKeepLeases(malformed, run[..|run| - 1]);
      NextKeepsLeases(malformed, Execute(malformed, run[..|run| - 1]), run[|run| - 1]);
    }
  }

  /** Lease separation: two claims of an event are at least a lease apart, and a claim after a
      Done is at least a deduplication window after it. */
  lemma {:induction false} LeaseSeparation(malformed: set<int>, run: seq<Action>, i: nat, j: nat)
    requires Legal(malformed, run)
    requires var h := Execute(malformed, run).history;
             i < j < |h| && h[j].Claimed? && h[i].event == h[j].event
    ensures var h := Execute(malformed, run).history;
      && (h[i].Claimed? ==> h[j].at >= h[i].at + LEASE_TTL)
      && (h[i].MarkedDone? ==> h[j].at >= h[i].at + DONE_TTL)
  {
    RunsKeepLeases(malformed, run);
    var h := Execute(malformed, run).history;
    assert h[i].at + Reserved(h[i]) <= h[j].at;
  }

  /** An answered SET NX takes the event exactly when no earlier claim of it is within its lease
      and no earlier Done within the deduplication window. */
  lemma {:induction false} ClaimIsExact(malformed: set<int>, run: seq<Action>, wid: int)
    requires Legal(malformed, run) && Enabled(Execute(malformed, run), TryClaim(wid, Answered))
    ensures var s := Execute(malformed, run);
      var s', event := Next(malformed, s, TryClaim(wid, Answered)), EventOf(s, s.workers[wid]);
      s'.workers[wid].phase.Owning? <==>
        forall i :: 0 <= i < |s.history| ==> !Running(s.history[i], event, s.now)
  {
    RunsKeepLeases(malformed, run);
    var s := Execute(malformed, run);
    var event := EventOf(s, s.workers[wid]);
    if Present(s.store, event, s.now) {
      var i :| 0 <= i < |s.history| && Explains(s.history[i], event, s.store[event]);
      assert Running(s.history[i], event, s.now);
    } else {
      forall i | 0 <= i < |s.history| ensures !Running(s.history[i], event, s.now) {
        assert Covered(s, s.history[i]);
      }
    }
  }

  // ---------------------------------------------------------------- who published

  /** The claim on which a worker's right to publish rests. */
  function ClaimOf(w: Worker): Option<int> {
    match w.phase
    case Owning(claim) => Some(claim)
    case Announced(claim) => Some(claim)
    case _ => None
  }

  ghost predicate ClaimIs(history: seq<Mark>, claim: int, event: int) {
    0 <= claim < |history| && history[claim].Claimed? && history[claim].event == event
  }

  /** Owners hold distinct claims, a claim is used for one notification, and an owner that has
      not published has not used its claim. */
  ghost predicate OwnersOk(s: State) {
    && (forall wid :: wid in s.workers && ClaimOf(s.workers[wid]).Some? ==>
          HasEvent(s, s.workers[wid]) && ClaimIs(s.history, ClaimOf(s.workers[wid]).value, EventOf(s, s.workers[wid])))
    && (forall x, y :: x in s.workers && y in s.workers && x != y && ClaimOf(s.workers[x]).Some? ==>
          ClaimOf(s.workers[x]) != ClaimOf(s.workers[y]))
  }

  ghost predicate SentOk(s: State) {
    && (forall i :: 0 <= i < |s.history| && s.history[i].Sent? ==>
          ClaimIs(s.history, s.history[i].claim, s.history[i].event))
    && (forall i, j :: 0 <= i < j < |s.history| && s.history[i].Sent? && s.history[j].Sent? ==>
          s.history[i].claim != s.history[j].claim)
    && (forall wid, i :: wid in s.workers && s.workers[wid].phase.Owning?
                         && 0 <= i < |s.history| && s.history[i].Sent? ==>
          s.history[i].claim != s.workers[wid].phase.claim)
  }

  /** Every claim in use is an index of the history, so the next index is a new claim. */
  lemma {:induction false} NextKeepsOwners(malformed: set<int>, s: State, a: Action)
    requires OwnersOk(s) && Enabled(s, a)
    ensures OwnersOk(Next(malformed, s, a))
  {
    var s' := Next(malformed, s, a);
    HistoryGrowsBy(malformed, s, a);
    forall wid | wid in s'.workers && ClaimOf(s'.workers[wid]).Some?
      ensures HasEvent(s', s'.workers[wid])
      ensures ClaimIs(s'.history, ClaimOf(s'.workers[wid]).value, EventOf(s', s'.workers[wid]))
      ensures OldOrNewClaim(s, s', wid)
    {
      OwnerStays(malformed, s, a, wid);
    }
    forall x, y | x in s'.workers && y in s'.workers && x != y && ClaimOf(s'.workers[x]).Some?
      ensures ClaimOf(s'.workers[x]) != ClaimOf(s'.workers[y])
    {
      if ClaimOf(s'.workers[y]).Some? {
        assert OldOrNewClaim(s, s', x) && OldOrNewClaim(s, s', y);
        OnlyOneMoves(malformed, s, a, x, y);
      }
    }
  }

  ghost predicate OldOrNewClaim(s: State, s': State, wid: int)
    requires wid in s'.workers
  {
    || (wid in s.workers && ClaimOf(s.workers[wid]) == ClaimOf(s'.workers[wid]))
    || (ClaimOf(s'.workers[wid]).Some? && ClaimOf(s'.workers[wid]).value >= |s.history|)
  }

  lemma SameOwner(s: State, s': State, w: Worker, w': Worker)
    requires Continues(s, s') && w' == w.(cancelled := w'.cancelled, phase := w'.phase)
    requires ClaimOf(w) == ClaimOf(w') && ClaimOf(w).Some?
    requires HasEvent(s, w) && ClaimIs(s.history, ClaimOf(w).value, EventOf(s, w))
    ensures HasEvent(s', w') && ClaimIs(s'.history, ClaimOf(w').value, EventOf(s', w'))
  {
    assert PartOf(s, w.part) <= PartOf(s', w.part);
  }

  /** Only a successful claim makes a worker an owner. */
  lemma NewOwner(malformed: set<int>, s: State, a: Action, wid: int)
    requires Enabled(s, a) && wid in Next(malformed, s, a).workers
    requires ClaimOf(Next(malformed, s, a).workers[wid]).Some?
    ensures wid in s.workers
    ensures var w, w' := s.workers[wid], Next(malformed, s, a).workers[wid];
      || (w' == w.(cancelled := w'.cancelled, phase := w'.phase) && ClaimOf(w) == ClaimOf(w')
          && (w'.phase.Owning? ==> w.phase.Owning?))
      || (a.TryClaim? && a.wid == wid && w' == w.(phase := Owning(|s.history| + 1))
          && NewMarks(malformed, s, a) == [Tried(EventOf(s, w), s.now), Claimed(EventOf(s, w), s.now)])
  {
    if a.TryClaim? { ClaimMakesOwner(malformed, s, a.wid, a.reply, wid); } else { NoNewOwner(malformed, s, a, wid); }
  }

  lemma ClaimMakesOwner(malformed: set<int>, s: State, claimer: int, reply: Reply, wid: int)
    requires Enabled(s, TryClaim(claimer, reply)) && wid in Next(malformed, s, TryClaim(claimer, reply)).workers
    requires ClaimOf(Next(malformed, s, TryClaim(claimer, reply)).workers[wid]).Some?
    ensures wid in s.workers
    ensures var w, w' := s.workers[wid], Next(malformed, s, TryClaim(claimer, reply)).workers[wid];
      || w' == w
      || (claimer == wid && w' == w.(phase := Owning(|s.history| + 1))
          && NewMarks(malformed, s, TryClaim(claimer, reply))
             == [Tried(EventOf(s, w), s.now), Claimed(EventOf(s, w), s.now)])
  {
  }

  predicate MovesWorker(a: Action, wid: int) { !a.Tick? && !a.Append? && a.wid == wid }

  lemma OthersStandStill(malformed: set<int>, s: State, a: Action, wid: int)
    requires Enabled(s, a) && !MovesWorker(a, wid) && wid in Next(malformed, s, a).workers
    ensures wid in s.workers && Next(malformed, s, a).workers[wid] == s.workers[wid]
  {
  }

  lemma NoNewOwner(malformed: set<int>, s: State, a: Action, wid: int)
    requires Enabled(s, a) && !a.TryClaim? && wid in Next(malformed, s, a).workers
    requires ClaimOf(Next(malformed, s, a).workers[wid]).Some?
    ensures wid in s.workers
    ensures var w, w' := s.workers[wid], Next(malformed, s, a).workers[wid];
      && w' == w.(cancelled := w'.cancelled, phase := w'.phase) && ClaimOf(w) == ClaimOf(w')
      && (w'.phase.Owning? ==> w.phase.Owning?)
  {
    if !MovesWorker(a, wid) {
      OthersStandStill(malformed, s, a, wid);
    } else if a.Publish? {
      PublisherKeepsClaim(malformed, s, wid, a.reply);
    } else if a.Finish? {
      FinisherKeepsClaim(malformed, s, wid, a.reply);
    } else {
      OnlyCancelKeepsClaim(malformed, s, a, wid);
    }
  }

  lemma PublisherKeepsClaim(malformed: set<int>, s: State, wid: int, reply: Reply)
    requires Enabled(s, Publish(wid, reply))
    ensures var w, w' := s.workers[wid], Next(malformed, s, Publish(wid, reply)).workers[wid];
      ClaimOf(w').Some? ==>
        w' == w.(phase := w'.phase) && ClaimOf(w) == ClaimOf(w') && (w'.phase.Owning? ==> w.phase.Owning?)
  {
  }

  lemma FinisherKeepsClaim(malformed: set<int>, s: State, wid: int, reply: Reply)
    requires Enabled(s, Finish(wid, reply))
    ensures var w, w' := s.workers[wid], Next(malformed, s, Finish(wid, reply)).workers[wid];
      ClaimOf(w').Some? ==> w' == w
  {
  }

  lemma OnlyCancelKeepsClaim(malformed: set<int>, s: State, a: Action, wid: int)
    requires Enabled(s, a) && MovesWorker(a, wid) && !a.TryClaim? && !a.Publish? && !a.Finish?
    requires ClaimOf(Next(malformed, s, a).workers[wid]).Some?
    ensures a.Cancel? && Next(malformed, s, a).workers[wid] == s.workers[wid].(cancelled := true)
  {
  }

  lemma OwnerStays(malformed: set<int>, s: State, a: Action, wid: int)
    requires OwnersOk(s) && Enabled(s, a) && wid in Next(malformed, s, a).workers
    requires ClaimOf(Next(malformed, s, a).workers[wid]).Some?
    ensures var s' := Next(malformed, s, a);
      && HasEvent(s', s'.workers[wid])
      && ClaimIs(s'.history, ClaimOf(s'.workers[wid]).value, EventOf(s', s'.workers[wid]))
      && OldOrNewClaim(s, s', wid)
  {
    var s' := Next(malformed, s, a);
    HistoryGrowsBy(malformed, s, a);
    StepContinues(malformed, s, a);
    NewOwner(malformed, s, a, wid);
    var w, w' := s.workers[wid], s'.workers[wid];
    if ClaimOf(w) == ClaimOf(w') {
      SameOwner(s, s', w, w');
    } else {
      assert s'.parts == s.parts && HasEvent(s, w);
      assert s'.history[|s.history| + 1] == Claimed(EventOf(s, w), s.now);
    }
  }

  lemma OnlyOneMoves(malformed: set<int>, s: State, a: Action, x: int, y: int)
    requires Enabled(s, a) && x != y
    requires x in Next(malformed, s, a).workers && y in Next(malformed, s, a).workers
    ensures var s' := Next(malformed, s, a);
      || (x in s.workers && s'.workers[x] == s.workers[x])
      || (y in s.workers && s'.workers[y] == s.workers[y])
  {
    if MovesWorker(a, x) { OthersStandStill(malformed, s, a, y); } else { OthersStandStill(malformed, s, a, x); }
  }

  lemma NextKeepsSent(malformed: set<int>, s: State, a: Action)
    requires OwnersOk(s) && SentOk(s) && Enabled(s, a)
    ensures SentOk(Next(malformed, s, a))
  {
    var s', marks, n := Next(malformed, s, a), NewMarks(malformed, s, a), |s.history|;
    HistoryGrowsBy(malformed, s, a);
    forall i | 0 <= i < |s'.history| && s'.history[i].Sent?
      ensures (i < n && s'.history[i] == s.history[i]) || (i == n && a.Publish? && s'.history[i] == marks[0])
      ensures ClaimIs(s'.history, s'.history[i].claim, s'.history[i].event)
    {
      if i < n {
        assert ClaimIs(s.history, s.history[i].claim, s.history[i].event);
      } else {
        assert s'.history[i] == marks[i - n];
      }
    }
    forall wid, i | wid in s'.workers && s'.workers[wid].phase.Owning? && 0 <= i < |s'.history| && s'.history[i].Sent?
      ensures s'.history[i].claim != s'.workers[wid].phase.claim
    {
      SentBeforeOwning(malformed, s, a, wid, i);
    }
  }

  lemma SentBeforeOwning(malformed: set<int>, s: State, a: Action, wid: int, i: int)
    requires OwnersOk(s) && SentOk(s) && Enabled(s, a)
    requires wid in Next(malformed, s, a).workers && Next(malformed, s, a).workers[wid].phase.Owning?
    requires 0 <= i < |Next(malformed, s, a).history| && Next(malformed, s, a).history[i].Sent?
    ensures Next(malformed, s, a).history[i].claim != Next(malformed, s, a).workers[wid].phase.claim
  {
    var s', n := Next(malformed, s, a), |s.history|;
    HistoryGrowsBy(malformed, s, a);
    NewOwner(malformed, s, a, wid);
    if i < n {
      assert ClaimIs(s.history, s.history[i].claim, s.history[i].event);
    } else {
      NewSentMark(malformed, s, a, s'.history[i]);
    }
  }

  /** A notification uses up the claim of the worker that publishes it. */
  lemma NewSentMark(malformed: set<int>, s: State, a: Action, m: Mark)
    requires Enabled(s, a) && m in NewMarks(malformed, s, a) && m.Sent?
    ensures a.Publish? && s.workers[a.wid].phase == Owning(m.claim)
    ensures a.wid in Next(malformed, s, a).workers && !Next(malformed, s, a).workers[a.wid].phase.Owning?
    ensures forall wid :: wid in Next(malformed, s, a).workers && wid != a.wid ==>
              wid in s.workers && s.workers[wid] == Next(malformed, s, a).workers[wid]
  {
  }

  lemma {:induction false} RunsKeepSent(malformed: set<int>, run: seq<Action>)
    requires Legal(malformed, run)
    ensures OwnersOk(Execute(malformed, run)) && SentOk(Execute(malformed, run))
  {
    if run != [] {
      RunsKeepSent(malformed, run[..|run| - 1]);
      NextKeepsOwners(malformed, Execute(malformed, run[..|run| - 1]), run[|run| - 1]);
      NextKeepsSent(malformed, Execute(malformed, run[..|run| - 1]), run[|run| - 1]);
    }
  }

  // ---------------------------------------------------------------- at most once

  predicate IsSent(m: Mark, event: int) { m.Sent? && m.event == event }

  /** Every owner that got a notification of the event accepted also marks the event done before
      its lease runs out, unless the lease is still running. Nothing is asked of claims that come
      to nothing: of owners that die, whose publishing fails, or who never hear of their claim. */
  ghost predicate OwnersInTime(s: State, event: int) {
    forall i :: 0 <= i < |s.history| && s.history[i].Sent? && s.history[i].event == event
                && 0 <= s.history[i].claim < |s.history| ==>
      s.now < s.history[s.history[i].claim].at + LEASE_TTL || DoneInTime(s.history, s.history[i].claim)
  }

  ghost predicate DoneInTime(history: seq<Mark>, claim: nat)
    requires claim < |history|
  {
    exists k :: claim < k < |history| && history[k].MarkedDone? && history[k].event == history[claim].event
                && history[k].at < history[claim].at + LEASE_TTL
  }

  /** No attempt to claim the event comes a deduplication window or more after a Done. */
  ghost predicate RedeliveriesInTime(history: seq<Mark>, event: int) {
    forall i, j :: 0 <= i < j < |history| && history[i].MarkedDone? && history[i].event == event
                   && history[j].Tried? && history[j].event == event ==>
      history[j].at < history[i].at + DONE_TTL
  }

  /** After a claim, the event is claimed again only if the owner was not done within its lease,
      or a deduplication window or more after some Done. */
  lemma SecondClaimIsLate(s: State, event: int, c: nat, d: nat)
    requires LeaseInv(s) && c < d && ClaimIs(s.history, c, event) && ClaimIs(s.history, d, event)
    ensures s.history[c].at + LEASE_TTL <= s.now
    ensures DoneInTime(s.history, c) ==> !RedeliveriesInTime(s.history, event)
  {
    var h := s.history;
    assert h[c].at + Reserved(h[c]) <= h[d].at <= s.now by { assert Covered(s, h[d]); }
    if DoneInTime(h, c) {
      var k :| c < k < |h| && h[k].MarkedDone? && h[k].event == event && h[k].at < h[c].at + LEASE_TTL;
      if d < k { assert false; }
      assert h[k].at + Reserved(h[k]) <= h[d].at;
      assert h[d - 1] == Tried(event, h[d].at) && k < d - 1;
    }
  }

  /** At most once: when publishing owners and redeliveries are in time, no two notifications of
      the event are ever accepted, however often it is claimed again after crashes, lost replies
      and failed publishes. */
  lemma {:induction false} AtMostOnce(malformed: set<int>, run: seq<Action>, event: int)
    requires Legal(malformed, run)
    requires OwnersInTime(Execute(malformed, run), event)
    requires RedeliveriesInTime(Execute(malformed, run).history, event)
    ensures var h := Execute(malformed, run).history;
      forall i, j :: 0 <= i < |h| && 0 <= j < |h| && IsSent(h[i], event) && IsSent(h[j], event) ==> i == j
  {
    var s := Execute(malformed, run);
    RunsKeepLeases(malformed, run);
    RunsKeepSent(malformed, run);
    var h := s.history;
    forall i, j | 0 <= i < |h| && 0 <= j < |h| && IsSent(h[i], event) && h[j].Sent? && i != j
      ensures h[j].event != event
    {
      assert ClaimIs(h, h[i].claim, event) && ClaimIs(h, h[j].claim, h[j].event) && h[i].claim != h[j].claim;
      if h[j].event == event {
        SecondClaimIsLate(s, event, Min(h[i].claim, h[j].claim), Max(h[i].claim, h[j].claim));
      }
    }
  }

  // ---------------------------------------------------------------- a slow owner

  lemma OneMore(malformed: set<int>, run: seq<Action>, s: State, a: Action, s': State)
    requires Legal(malformed, run) && Execute(malformed, run) == s
    requires Enabled(s, a) && Next(malformed, s, a) == s'
    ensures Legal(malformed, run + [a]) && Execute(malformed, run + [a]) == s'
  {
    assert (run + [a])[..|run + [a]| - 1] == run;
  }

  /** A worker at the only record of partition 0. */
  function At(s: State, wid: int, high: nat, phase: Phase): State {
    Put(s, wid, Worker(0, 0, 0, high, phase, false))
  }

  predicate OneRecord(s: State, event: int) { s.parts == map[0 := [Some(event)]] && s.offsets == map[] }

  function Owned(s: State, wid: int, event: int): State {
    At(s.(history := s.history + [Tried(event, s.now), Claimed(event, s.now)], store := Leased(s.store, event, s.now)),
       wid, 1, Owning(|s.history| + 1))
  }

  lemma Fetches(s: State, wid: int, event: int)
    requires OneRecord(s, event) && wid !in s.workers
    ensures Enabled(s, Join(wid, 0)) && Next({}, s, Join(wid, 0)) == At(s, wid, 0, Polling)
    ensures Enabled(At(s, wid, 0, Polling), Poll(wid, 1))
    ensures Next({}, At(s, wid, 0, Polling), Poll(wid, 1)) == At(s, wid, 1, Handling)
  {
    var s1, s2 := At(s, wid, 0, Polling), At(s, wid, 1, Handling);
    assert s1.workers[wid := s2.workers[wid]] == s2.workers;
  }

  lemma Claims(s: State, wid: int, event: int)
    requires OneRecord(s, event) && !Present(s.store, event, s.now)
    ensures Enabled(At(s, wid, 1, Handling), TryClaim(wid, Answered))
    ensures Next({}, At(s, wid, 1, Handling), TryClaim(wid, Answered)) == Owned(s, wid, event)
  {
    var s2, s3 := At(s, wid, 1, Handling), Owned(s, wid, event);
    assert s2.workers[wid := s3.workers[wid]] == s3.workers;
    assert s.history + [Tried(event, s.now)] + [Claimed(event, s.now)] == s3.history;
  }

  /** The event is delivered to worker `wid`, which claims it. */
  lemma Delivered(run: seq<Action>, s: State, wid: int, event: int) returns (run': seq<Action>)
    requires Legal({}, run) && Execute({}, run) == s
    requires OneRecord(s, event) && wid !in s.workers && !Present(s.store, event, s.now)
    ensures Legal({}, run') && Execute({}, run') == Owned(s, wid, event)
  {
    Fetches(s, wid, event);
    Claims(s, wid, event);
    var s1, s2 := At(s, wid, 0, Polling), At(s, wid, 1, Handling);
    OneMore({}, run, s, Join(wid, 0), s1);
    run' := run + [Join(wid, 0)];
    OneMore({}, run', s1, Poll(wid, 1), s2);
    run' := run' + [Poll(wid, 1)];
    OneMore({}, run', s2, TryClaim(wid, Answered), Owned(s, wid, event));
    run' := run' + [TryClaim(wid, Answered)];
  }

  function Arrived(event: int): State { INITIAL.(parts := map[0 := [Some(event)]]) }

  function FirstOwns(event: int): State { Owned(Arrived(event), 1, event) }

  function BothOwn(event: int): State { Owned(FirstOwns(event).(now := LEASE_TTL), 2, event) }

  lemma Arrives(event: int) returns (run: seq<Action>)
    ensures Legal({}, run) && Execute({}, run) == Arrived(event)
  {
    run := [Append(0, Some(event))];
    assert run == [] + [Append(0, Some(event))];
    assert Execute({}, []) == INITIAL;
    assert PartOf(INITIAL, 0) + [Some(event)] == [Some(event)];
    assert INITIAL.parts[0 := [Some(event)]] == map[0 := [Some(event)]];
    OneMore({}, [], INITIAL, Append(0, Some(event)), Arrived(event));
  }

  /** Worker 1 claims the event, its lease runs out, and worker 2 claims the event again. */
  lemma LeaseRunsOut(event: int) returns (run: seq<Action>)
    ensures Legal({}, run) && Execute({}, run) == BothOwn(event)
  {
    run := Arrives(event);
    run := Delivered(run, Arrived(event), 1, event);
    OneMore({}, run, FirstOwns(event), Tick(LEASE_TTL), FirstOwns(event).(now := LEASE_TTL));
    run := run + [Tick(LEASE_TTL)];
    run := Delivered(run, FirstOwns(event).(now := LEASE_TTL), 2, event);
  }

  lemma BothClaims(event: int)
    ensures BothOwn(event).history
         == [Tried(event, 0), Claimed(event, 0), Tried(event, LEASE_TTL), Claimed(event, LEASE_TTL)]
    ensures BothOwn(event).workers
         == map[1 := Worker(0, 0, 0, 1, Owning(1), false), 2 := Worker(0, 0, 0, 1, Owning(3), false)]
  {
  }

  function Accepted(s: State, wid: int, event: int, claim: nat): State {
    At(s.(history := s.history + [Sent(event, s.now, claim)]), wid, 1, Announced(claim))
  }

  lemma Publishes(run: seq<Action>, s: State, wid: int, event: int, claim: nat)
    requires Legal({}, run) && Execute({}, run) == s && OneRecord(s, event)
    requires wid in s.workers && s.workers[wid] == Worker(0, 0, 0, 1, Owning(claim), false)
    ensures Legal({}, run + [Publish(wid, Answered)])
    ensures Execute({}, run + [Publish(wid, Answered)]) == Accepted(s, wid, event, claim)
  {
    OneMore({}, run, s, Publish(wid, Answered), Accepted(s, wid, event, claim));
  }

  /** Recovery is covered by the theorem: the first owner dies, a second one claims the event when
      the lease has run out, and publishes; publishing owners and redeliveries are in time. */
  lemma {:induction false} DeadOwnerIsReplaced(event: int) returns (run: seq<Action>)
    ensures Legal({}, run)
    ensures var s := Execute({}, run);
      && s.history == [Tried(event, 0), Claimed(event, 0), Tried(event, LEASE_TTL), Claimed(event, LEASE_TTL),
                       Sent(event, LEASE_TTL, 3)]
      && OwnersInTime(s, event) && RedeliveriesInTime(s.history, event)
  {
    run := LeaseRunsOut(event);
    BothClaims(event);
    Publishes(run, BothOwn(event), 2, event, 3);
    run := run + [Publish(2, Answered)];
  }

  /** When the first owner publishes only after its lease has run out, the event can be published
      twice although no command failed. */
  lemma {:induction false} SlowOwnerPublishesTwice(event: int) returns (run: seq<Action>)
    ensures Legal({}, run)
    ensures var s := Execute({}, run);
      && s.history == [Tried(event, 0), Claimed(event, 0), Tried(event, LEASE_TTL), Claimed(event, LEASE_TTL),
                       Sent(event, LEASE_TTL, 3), Sent(event, LEASE_TTL, 1)]
      && RedeliveriesInTime(s.history, event) && !OwnersInTime(s, event)
  {
    run := LeaseRunsOut(event);
    BothClaims(event);
    var s := Accepted(BothOwn(event), 2, event, 3);
    Publishes(run, BothOwn(event), 2, event, 3);
    run := run + [Publish(2, Answered)];
    Publishes(run, s, 1, event, 1);
    run := run + [Publish(1, Answered)];
    SlowHistory(Accepted(s, 1, event, 1), event);
  }

  lemma SlowHistory(s: State, event: int)
    requires s.now == LEASE_TTL
    requires s.history == [Tried(event, 0), Claimed(event, 0), Tried(event, LEASE_TTL), Claimed(event, LEASE_TTL),
                           Sent(event, LEASE_TTL, 3), Sent(event, LEASE_TTL, 1)]
    ensures RedeliveriesInTime(s.history, event) && !OwnersInTime(s, event)
  {
    assert s.history[5].Sent? && !DoneInTime(s.history, s.history[5].claim);
  }
}
