/** Every interleaving of the notification workers: consuming partitions, claiming events in
    Redis, publishing notifications and committing offsets, with a clock and with commands that
    fail before or after taking effect. */
module Notifications {
  import opened Records

  // Durations in milliseconds.
  const LEASE_TTL := 30_000
  const DONE_TTL := 86_400_000
  const RETRY_INTERVAL := 1_000

  datatype SlotState = Processing | Done

  /** The value under an event's key and the moment at which the key expires. */
  datatype Slot = Slot(state: SlotState, expires: int)

  type KeyStore = map<int, Slot>

  predicate Present(store: KeyStore, event: int, now: int) { event in store && now < store[event].expires }

  /** SET key "processing" NX EX leaseTTL, when the key is absent. */
  function Leased(store: KeyStore, event: int, now: int): KeyStore {
    store[event := Slot(Processing, now + LEASE_TTL)]
  }

  /** SET key "done" EX doneTTL. */
  function Finished(store: KeyStore, event: int, now: int): KeyStore {
    store[event := Slot(Done, now + DONE_TTL)]
  }

  /** The work of one consumer on one partition. `next` is the first record not yet finished,
      `low` and `high` delimit the records of the current fetch. */
  datatype Worker = Worker(part: int, low: nat, next: nat, high: nat, phase: Phase, cancelled: bool)

  datatype Phase =
    | Polling
    | Handling              // about to claim record `next`
    | Checking              // the key existed: about to read it
    | Waiting(until: int)   // the event is reserved by another owner
    | BackingOff(until: int)  // Handle returned an error
    | Owning(claim: nat)    // the claim is the mark with this index
    | Announced(claim: nat) // the notification was accepted
    | Committing
    | Stopped

  /** What happened, for stating properties. */
  datatype Mark =
    | Tried(event: int, at: int)
    | Claimed(event: int, at: int)
    | MarkedDone(event: int, at: int)
    | Sent(event: int, at: int, claim: nat)

  /** `parts` holds the records of each partition as their event ids, None for a record without
      one. `malformed` are the events whose payload does not decode. */
  datatype State = State(now: int, parts: map<int, seq<Option<int>>>, offsets: map<int, nat>,
                         store: KeyStore, workers: map<int, Worker>, history: seq<Mark>)

  const INITIAL := State(0, map[], map[], map[], map[], [])

  /** A command is answered, or it is reported as failed after or before taking effect. */
  datatype Reply = Answered | LostAfter | LostBefore

  datatype Action =
    | Tick(duration: nat)
    | Append(part: int, record: Option<int>)
    | Join(wid: int, part: int)         // also a restart: always from the committed offset
    | Poll(wid: int, high: nat)
    | SkipNoId(wid: int)
    | TryClaim(wid: int, reply: Reply)
    | ReadKey(wid: int, reply: Reply)
    | Wake(wid: int)
    | Publish(wid: int, reply: Reply)
    | Finish(wid: int, reply: Reply)
    | CommitOffset(wid: int, reply: Reply)
    | Cancel(wid: int)
    | Break(wid: int)                   // leave the batch after a cancellation

  function PartOf(s: State, part: int): seq<Option<int>> { if part in s.parts then s.parts[part] else [] }

  function OffsetOf(s: State, part: int): nat { if part in s.offsets then s.offsets[part] else 0 }

  predicate HasRecord(s: State, w: Worker) { w.next < w.high <= |PartOf(s, w.part)| }

  predicate HasEvent(s: State, w: Worker) { HasRecord(s, w) && PartOf(s, w.part)[w.next].Some? }

  function EventOf(s: State, w: Worker): int
    requires HasEvent(s, w)
  {
    PartOf(s, w.part)[w.next].value
  }

  predicate Enabled(s: State, a: Action) {
    match a
    case Tick(d) => true
    case Append(part, record) => true
    case Join(wid, part) => wid !in s.workers && OffsetOf(s, part) <= |PartOf(s, part)|
    case _ => a.wid in s.workers && WorkerCan(s, s.workers[a.wid], a)
  }

  predicate WorkerCan(s: State, w: Worker, a: Action) {
    match a
    case Poll(wid, high) => w.phase == Polling && w.next <= high <= |PartOf(s, w.part)|
    case SkipNoId(wid) => w.phase == Handling && HasRecord(s, w) && PartOf(s, w.part)[w.next].None?
    case TryClaim(wid, reply) => w.phase == Handling && HasEvent(s, w)
    case ReadKey(wid, reply) => w.phase == Checking && HasEvent(s, w)
    case Wake(wid) => (w.phase.Waiting? || w.phase.BackingOff?) && s.now >= w.phase.until && HasRecord(s, w)
    case Publish(wid, reply) => w.phase.Owning? && HasEvent(s, w)
    case Finish(wid, reply) => (w.phase.Owning? || w.phase.Announced?) && HasEvent(s, w)
    case CommitOffset(wid, reply) => w.phase == Committing
    case Cancel(wid) => true
    case Break(wid) => w.cancelled && (w.phase.Waiting? || w.phase.BackingOff? || w.phase.Polling?)
    case _ => false
  }

  function Put(s: State, wid: int, w: Worker): State { s.(workers := s.workers[wid := w]) }

  /** The record is finished: the next one, or the end of the batch. */
  function Advanced(w: Worker): Worker {
    w.(next := w.next + 1, phase := if w.next + 1 < w.high then Handling else Committing)
  }

  function Retried(s: State, w: Worker): Worker { w.(phase := BackingOff(s.now + RETRY_INTERVAL)) }

  function Log(s: State, m: Mark): State { s.(history := s.history + [m]) }

  function StepTryClaim(s: State, wid: int, w: Worker, event: int, reply: Reply): State {
    var s1 := Log(s, Tried(event, s.now));
    if Present(s.store, event, s.now) then
      Put(s1, wid, if reply.Answered? then w.(phase := Checking) else Retried(s, w))
    else if reply.LostBefore? then
      Put(s1, wid, Retried(s, w))
    else
      var s2 := Log(s1, Claimed(event, s.now)).(store := Leased(s.store, event, s.now));
      Put(s2, wid, if reply.Answered? then w.(phase := Owning(|s1.history|)) else Retried(s, w))
  }

  /** The key may have expired since the failed claim; then the event counts as busy. */
  function StepReadKey(s: State, wid: int, w: Worker, event: int, reply: Reply): State {
    if !reply.Answered? then Put(s, wid, Retried(s, w))
    else if Present(s.store, event, s.now) && s.store[event].state == Done then Put(s, wid, Advanced(w))
    else Put(s, wid, w.(phase := Waiting(s.now + RETRY_INTERVAL)))
  }

  function StepPublish(s: State, wid: int, w: Worker, event: int, malformed: set<int>, reply: Reply): State
    requires w.phase.Owning?
  {
    if event in malformed then s  // nothing to publish: see StepFinish
    else if reply.LostBefore? then Put(s, wid, Retried(s, w))
    else
      Put(Log(s, Sent(event, s.now, w.phase.claim)), wid,
          if reply.Answered? then w.(phase := Announced(w.phase.claim)) else Retried(s, w))
  }

  /** Done. After a published notification its failure is only logged; for a malformed payload,
      which is skipped, Handle returns the error. */
  function StepFinish(s: State, wid: int, w: Worker, event: int, malformed: set<int>, reply: Reply): State {
    if w.phase.Owning? && event !in malformed then s  // publish first
    else
      var s1 := if reply.LostBefore? then s
                else Log(s, MarkedDone(event, s.now)).(store := Finished(s.store, event, s.now));
      Put(s1, wid, if reply.Answered? || w.phase.Announced? then Advanced(w) else Retried(s, w))
  }

  /** The offset of the finished prefix of the batch; an empty prefix commits nothing. */
  function StepCommitOffset(s: State, wid: int, w: Worker, reply: Reply): State {
    var s1 := if reply.LostBefore? || w.next == w.low then s else s.(offsets := s.offsets[w.part := w.next]);
    Put(s1, wid, w.(phase := if w.cancelled then Stopped else Polling))
  }

  function Next(malformed: set<int>, s: State, a: Action): State
    requires Enabled(s, a)
  {
    match a
    case Tick(d) => s.(now := s.now + d)
    case Append(part, record) => s.(parts := s.parts[part := PartOf(s, part) + [record]])
    case Join(wid, part) =>
      var offset := OffsetOf(s, part);
      Put(s, wid, Worker(part, offset, offset, offset, Polling, false))
    case _ => WorkerStep(malformed, s, s.workers[a.wid], a)
  }

  function WorkerStep(malformed: set<int>, s: State, w: Worker, a: Action): State
    requires WorkerCan(s, w, a)
  {
    match a
    case Poll(wid, high) =>
      if w.cancelled then Put(s, wid, w.(phase := Stopped))
      else Put(s, wid, w.(low := w.next, high := high, phase := if w.next < high then Handling else Committing))
    case SkipNoId(wid) => Put(s, wid, Advanced(w))
    case TryClaim(wid, reply) => StepTryClaim(s, wid, w, EventOf(s, w), reply)
    case ReadKey(wid, reply) => StepReadKey(s, wid, w, EventOf(s, w), reply)
    case Wake(wid) => Put(s, wid, w.(phase := Handling))
    case Publish(wid, reply) => StepPublish(s, wid, w, EventOf(s, w), malformed, reply)
    case Finish(wid, reply) => StepFinish(s, wid, w, EventOf(s, w), malformed, reply)
    case CommitOffset(wid, reply) => StepCommitOffset(s, wid, w, reply)
    case Cancel(wid) => Put(s, wid, w.(cancelled := true))
    case Break(wid) => Put(s, wid, w.(phase := if w.phase.Polling? then Stopped else Committing))
  }

  predicate Legal(malformed: set<int>, run: seq<Action>)
    decreases |run|, 0
  {
    run == [] ||
    (Legal(malformed, run[..|run| - 1]) && Enabled(Execute(malformed, run[..|run| - 1]), run[|run| - 1]))
  }

  function Execute(malformed: set<int>, run: seq<Action>): State
    requires Legal(malformed, run)
    decreases |run|, 1
  {
    if run == [] then INITIAL else Next(malformed, Execute(malformed, run[..|run| - 1]), run[|run| - 1])
  }

  // ---------------------------------------------------------------- at least once

  predicate WasSent(history: seq<Mark>, event: int) {
    exists i :: 0 <= i < |history| && history[i].Sent? && history[i].event == event
  }

  /** Nothing more is owed for this record. */
  predicate Settled(malformed: set<int>, history: seq<Mark>, record: Option<int>) {
    record.None? || record.value in malformed || WasSent(history, record.value)
  }

  ghost predicate AllSettled(malformed: set<int>, s: State, part: int, n: nat) {
    n <= |PartOf(s, part)| && forall i :: 0 <= i < n ==> Settled(malformed, s.history, PartOf(s, part)[i])
  }

  ghost predicate WorkerOk(malformed: set<int>, s: State, w: Worker) {
    && AllSettled(malformed, s, w.part, w.next)
    && w.low <= w.next <= w.high <= |PartOf(s, w.part)|
    && (w.phase.Announced? ==> HasEvent(s, w) && WasSent(s.history, EventOf(s, w)))
  }

  ghost predicate DeliveryInv(malformed: set<int>, s: State) {
    && (forall wid :: wid in s.workers ==> WorkerOk(malformed, s, s.workers[wid]))
    && (forall part :: part in s.offsets ==> AllSettled(malformed, s, part, s.offsets[part]))
    && (forall e :: e in s.store && s.store[e].state == Done ==> Settled(malformed, s.history, Some(e)))
  }

  /** Records are only appended and history only grows. */
  ghost predicate Continues(s: State, s': State) {
    && s.history <= s'.history
    && forall part :: PartOf(s, part) <= PartOf(s', part)
  }

  lemma SettledStays(malformed: set<int>, s: State, s': State, part: int, n: nat)
    requires Continues(s, s') && AllSettled(malformed, s, part, n)
    ensures AllSettled(malformed, s', part, n)
  {
    forall i | 0 <= i < n ensures Settled(malformed, s'.history, PartOf(s', part)[i]) {
      assert PartOf(s', part)[i] == PartOf(s, part)[i];
      assert Settled(malformed, s.history, PartOf(s, part)[i]);
      RecordStaysSettled(malformed, s.history, s'.history, PartOf(s, part)[i]);
    }
  }

  lemma RecordStaysSettled(malformed: set<int>, history: seq<Mark>, history': seq<Mark>, record: Option<int>)
    requires history <= history' && Settled(malformed, history, record)
    ensures Settled(malformed, history', record)
    ensures record.Some? && WasSent(history, record.value) ==> WasSent(history', record.value)
  {
    if record.Some? && WasSent(history, record.value) {
      var i :| 0 <= i < |history| && history[i].Sent? && history[i].event == record.value;
      assert history'[i] == history[i];
    }
  }

  lemma WorkerStaysOk(malformed: set<int>, s: State, s': State, w: Worker)
    requires Continues(s, s') && WorkerOk(malformed, s, w)
    ensures WorkerOk(malformed, s', w)
  {
    SettledStays(malformed, s, s', w.part, w.next);
    assert PartOf(s, w.part) <= PartOf(s', w.part);
    if w.phase.Announced? {
      RecordStaysSettled(malformed, s.history, s'.history, Some(EventOf(s, w)));
    }
  }

  lemma StepContinues(malformed: set<int>, s: State, a: Action)
    requires Enabled(s, a)
    ensures Continues(s, Next(malformed, s, a))
  {
  }

  /** One worker, or no worker, moves. */
  lemma DeliveryFrame(malformed: set<int>, s: State, s': State, wid: int)
    requires DeliveryInv(malformed, s) && Continues(s, s')
    requires s'.workers.Keys <= s.workers.Keys + {wid}
    requires forall other :: other in s'.workers && other != wid ==>
               other in s.workers && s'.workers[other] == s.workers[other]
    requires wid in s'.workers ==> WorkerOk(malformed, s', s'.workers[wid])
    requires forall part :: part in s'.offsets ==>
               || (part in s.offsets && s'.offsets[part] == s.offsets[part])
               || AllSettled(malformed, s', part, s'.offsets[part])
    requires forall e :: e in s'.store && s'.store[e].state == Done ==>
               (e in s.store && s.store[e] == s'.store[e]) || Settled(malformed, s'.history, Some(e))
    ensures DeliveryInv(malformed, s')
  {
    forall other | other in s'.workers ensures WorkerOk(malformed, s', s'.workers[other]) {
      if other != wid { WorkerStaysOk(malformed, s, s', s.workers[other]); }
    }
    forall part | part in s'.offsets ensures AllSettled(malformed, s', part, s'.offsets[part]) {
      if part in s.offsets && s'.offsets[part] == s.offsets[part] {
        SettledStays(malformed, s, s', part, s.offsets[part]);
      }
    }
    forall e | e in s'.store && s'.store[e].state == Done ensures Settled(malformed, s'.history, Some(e)) {
      if e in s.store && s.store[e] == s'.store[e] {
        RecordStaysSettled(malformed, s.history, s'.history, Some(e));
      }
    }
  }

  lemma AdvancedIsOk(malformed: set<int>, s: State, w: Worker)
    requires WorkerOk(malformed, s, w) && HasRecord(s, w)
    requires Settled(malformed, s.history, PartOf(s, w.part)[w.next])
    ensures WorkerOk(malformed, s, Advanced(w))
  {
  }

  lemma PublishKeepsDelivery(malformed: set<int>, s: State, wid: int, reply: Reply)
    requires DeliveryInv(malformed, s) && Enabled(s, Publish(wid, reply))
    ensures DeliveryInv(malformed, Next(malformed, s, Publish(wid, reply)))
  {
    var w, s' := s.workers[wid], Next(malformed, s, Publish(wid, reply));
    StepContinues(malformed, s, Publish(wid, reply));
    assert WorkerOk(malformed, s, w);
    WorkerStaysOk(malformed, s, s', w);
    if |s'.history| > |s.history| {
      assert s'.history[|s.history|].Sent?;
      assert WasSent(s'.history, EventOf(s, w));
    }
    DeliveryFrame(malformed, s, s', wid);
  }

  lemma FinishKeepsDelivery(malformed: set<int>, s: State, wid: int, reply: Reply)
    requires DeliveryInv(malformed, s) && Enabled(s, Finish(wid, reply))
    ensures DeliveryInv(malformed, Next(malformed, s, Finish(wid, reply)))
  {
    var w, s' := s.workers[wid], Next(malformed, s, Finish(wid, reply));
    StepContinues(malformed, s, Finish(wid, reply));
    assert WorkerOk(malformed, s, w);
    WorkerStaysOk(malformed, s, s', w);
    var event := EventOf(s, w);
    if event in malformed || w.phase.Announced? {
      RecordStaysSettled(malformed, s.history, s'.history, Some(event));
      AdvancedIsOk(malformed, s', w);
    }
    DeliveryFrame(malformed, s, s', wid);
  }

  lemma ReadKeyKeepsDelivery(malformed: set<int>, s: State, wid: int, reply: Reply)
    requires DeliveryInv(malformed, s) && Enabled(s, ReadKey(wid, reply))
    ensures DeliveryInv(malformed, Next(malformed, s, ReadKey(wid, reply)))
  {
    var w, s' := s.workers[wid], Next(malformed, s, ReadKey(wid, reply));
    assert WorkerOk(malformed, s, w);
    var event := EventOf(s, w);
    if event in s.store && s.store[event].state == Done {
      assert Settled(malformed, s.history, Some(event));
      AdvancedIsOk(malformed, s, w);
    }
    WorkerStaysOk(malformed, s, s', s'.workers[wid]);
    DeliveryFrame(malformed, s, s', wid);
  }

  lemma ClaimKeepsDelivery(malformed: set<int>, s: State, wid: int, reply: Reply)
    requires DeliveryInv(malformed, s) && Enabled(s, TryClaim(wid, reply))
    ensures DeliveryInv(malformed, Next(malformed, s, TryClaim(wid, reply)))
  {
    var w, s' := s.workers[wid], Next(malformed, s, TryClaim(wid, reply));
    StepContinues(malformed, s, TryClaim(wid, reply));
    assert WorkerOk(malformed, s, w);
    WorkerStaysOk(malformed, s, s', w);
    DeliveryFrame(malformed, s, s', wid);
  }

  /** Steps that start, cancel, wake or end a worker's batch. */
  lemma PhaseChangeKeepsDelivery(malformed: set<int>, s: State, s': State, wid: int)
    requires DeliveryInv(malformed, s) && wid in s.workers
    requires wid in s'.workers && s' == Put(s, wid, s'.workers[wid])
    requires var w, w' := s.workers[wid], s'.workers[wid];
             && w'.part == w.part && w'.next == w.next && !w'.phase.Announced?
             && w'.low <= w'.next <= w'.high <= |PartOf(s, w.part)|
    ensures DeliveryInv(malformed, s')
  {
    assert WorkerOk(malformed, s, s.workers[wid]);
    SettledStays(malformed, s, s', s.workers[wid].part, s.workers[wid].next);
    DeliveryFrame(malformed, s, s', wid);
  }

  lemma CancelKeepsDelivery(malformed: set<int>, s: State, wid: int)
    requires DeliveryInv(malformed, s) && Enabled(s, Cancel(wid))
    ensures DeliveryInv(malformed, Next(malformed, s, Cancel(wid)))
  {
    var s' := Next(malformed, s, Cancel(wid));
    assert WorkerOk(malformed, s, s.workers[wid]);
    WorkerStaysOk(malformed, s, s', s.workers[wid]);
    assert WorkerOk(malformed, s', s'.workers[wid]);
    DeliveryFrame(malformed, s, s', wid);
  }

  lemma CommitKeepsDelivery(malformed: set<int>, s: State, wid: int, reply: Reply)
    requires DeliveryInv(malformed, s) && Enabled(s, CommitOffset(wid, reply))
    ensures DeliveryInv(malformed, Next(malformed, s, CommitOffset(wid, reply)))
  {
    var s' := Next(malformed, s, CommitOffset(wid, reply));
    assert WorkerOk(malformed, s, s.workers[wid]);
    WorkerStaysOk(malformed, s, s', s'.workers[wid]);
    DeliveryFrame(malformed, s, s', wid);
  }

  lemma SkipKeepsDelivery(malformed: set<int>, s: State, wid: int)
    requires DeliveryInv(malformed, s) && Enabled(s, SkipNoId(wid))
    ensures DeliveryInv(malformed, Next(malformed, s, SkipNoId(wid)))
  {
    var s' := Next(malformed, s, SkipNoId(wid));
    assert WorkerOk(malformed, s, s.workers[wid]);
    AdvancedIsOk(malformed, s, s.workers[wid]);
    WorkerStaysOk(malformed, s, s', s'.workers[wid]);
    DeliveryFrame(malformed, s, s', wid);
  }

  lemma OutsideKeepsDelivery(malformed: set<int>, s: State, a: Action)
    requires DeliveryInv(malformed, s) && Enabled(s, a) && (a.Tick? || a.Append?)
    ensures DeliveryInv(malformed, Next(malformed, s, a))
  {
    var s' := Next(malformed, s, a);
    assert Continues(s, s');
    if 0 in s'.workers {
      assert WorkerOk(malformed, s, s.workers[0]);
      WorkerStaysOk(malformed, s, s', s.workers[0]);
    }
    DeliveryFrame(malformed, s, s', 0);
  }

  lemma JoinKeepsDelivery(malformed: set<int>, s: State, wid: int, part: int)
    requires DeliveryInv(malformed, s) && Enabled(s, Join(wid, part))
    ensures DeliveryInv(malformed, Next(malformed, s, Join(wid, part)))
  {
    var s' := Next(malformed, s, Join(wid, part));
    assert AllSettled(malformed, s, part, OffsetOf(s, part));
    SettledStays(malformed, s, s', part, OffsetOf(s, part));
    assert WorkerOk(malformed, s', s'.workers[wid]);
    DeliveryFrame(malformed, s, s', wid);
  }

  lemma NextKeepsDelivery(malformed: set<int>, s: State, a: Action)
    requires DeliveryInv(malformed, s) && Enabled(s, a)
    ensures DeliveryInv(malformed, Next(malformed, s, a))
  {
    match a
    case Tick(_) => OutsideKeepsDelivery(malformed, s, a);
    case Append(_, _) => OutsideKeepsDelivery(malformed, s, a);
    case Join(wid, part) => JoinKeepsDelivery(malformed, s, wid, part);
    case Publish(wid, reply) => PublishKeepsDelivery(malformed, s, wid, reply);
    case Finish(wid, reply) => FinishKeepsDelivery(malformed, s, wid, reply);
    case ReadKey(wid, reply) => ReadKeyKeepsDelivery(malformed, s, wid, reply);
    case TryClaim(wid, reply) => ClaimKeepsDelivery(malformed, s, wid, reply);
    case SkipNoId(wid) => SkipKeepsDelivery(malformed, s, wid);
    case CommitOffset(wid, reply) => CommitKeepsDelivery(malformed, s, wid, reply);
    case Cancel(wid) => CancelKeepsDelivery(malformed, s, wid);
    case Poll(wid, _) =>
      assert WorkerOk(malformed, s, s.workers[wid]);
      PhaseChangeKeepsDelivery(malformed, s, Next(malformed, s, a), wid);
    case Wake(wid) =>
      assert WorkerOk(malformed, s, s.workers[wid]);
      PhaseChangeKeepsDelivery(malformed, s, Next(malformed, s, a), wid);
    case Break(wid) =>
      assert WorkerOk(malformed, s, s.workers[wid]);
      PhaseChangeKeepsDelivery(malformed, s, Next(malformed, s, a), wid);
  }

  lemma {:induction false} RunsKeepDelivery(malformed: set<int>, run: seq<Action>)
    requires Legal(malformed, run)
    ensures DeliveryInv(malformed, Execute(malformed, run))
  {
    if run != [] {
      RunsKeepDelivery(malformed, run[..|run| - 1]);
      NextKeepsDelivery(malformed, Execute(malformed, run[..|run| - 1]), run[|run| - 1]);
    }
  }

  /** At least once: below a committed offset every record has no event id, has a malformed
      payload, or had its notification accepted by the publisher before. */
  lemma AtLeastOnce(malformed: set<int>, run: seq<Action>, part: int, i: nat)
    requires Legal(malformed, run)
    requires i < OffsetOf(Execute(malformed, run), part)
    ensures i < |PartOf(Execute(malformed, run), part)|
    ensures Settled(malformed, Execute(malformed, run).history, PartOf(Execute(malformed, run), part)[i])
  {
    RunsKeepDelivery(malformed, run);
    var s := Execute(malformed, run);
    assert AllSettled(malformed, s, part, s.offsets[part]);
  }

  // ---------------------------------------------------------------- order of acceptance

  /** When notification `h` was accepted, every earlier record of a partition that holds its event
      was settled already. */
  ghost predicate SentInOrder(malformed: set<int>, s: State, h: nat)
    requires h < |s.history|
  {
    exists part, k :: 0 <= k < |PartOf(s, part)| && PartOf(s, part)[k] == Some(s.history[h].event)
                      && SettledBelow(malformed, s, part, k, h)
  }

  ghost predicate SettledBelow(malformed: set<int>, s: State, part: int, k: nat, h: nat)
    requires k <= |PartOf(s, part)| && h <= |s.history|
  {
    forall j :: 0 <= j < k ==> Settled(malformed, s.history[..h], PartOf(s, part)[j])
  }

  ghost predicate AllSentInOrder(malformed: set<int>, s: State) {
    forall h :: 0 <= h < |s.history| && s.history[h].Sent? ==> SentInOrder(malformed, s, h)
  }

  lemma SentStaysInOrder(malformed: set<int>, s: State, s': State, h: nat)
    requires Continues(s, s') && h < |s.history| && SentInOrder(malformed, s, h)
    ensures SentInOrder(malformed, s', h)
  {
    var part, k :| 0 <= k < |PartOf(s, part)| && PartOf(s, part)[k] == Some(s.history[h].event)
                   && SettledBelow(malformed, s, part, k, h);
    assert PartOf(s, part) <= PartOf(s', part) && s'.history[..h] == s.history[..h];
    assert PartOf(s', part)[k] == Some(s'.history[h].event);
    forall j | 0 <= j < k ensures Settled(malformed, s'.history[..h], PartOf(s', part)[j]) {
      assert PartOf(s', part)[j] == PartOf(s, part)[j];
    }
    assert SettledBelow(malformed, s', part, k, h);
  }

  /** The worker that publishes stands at the first record that is not known to be settled. */
  lemma NewlySent(malformed: set<int>, s: State, a: Action)
    requires DeliveryInv(malformed, s) && Enabled(s, a)
    ensures forall h :: |s.history| <= h < |Next(malformed, s, a).history| && Next(malformed, s, a).history[h].Sent? ==>
      && h == |s.history| && a.Publish? && Next(malformed, s, a).parts == s.parts
      && HasEvent(s, s.workers[a.wid])
      && Next(malformed, s, a).history[h].event == EventOf(s, s.workers[a.wid])
      && AllSettled(malformed, s, s.workers[a.wid].part, s.workers[a.wid].next)
  {
    if a.Publish? { assert WorkerOk(malformed, s, s.workers[a.wid]); }
  }

  lemma NextKeepsSentInOrder(malformed: set<int>, s: State, a: Action)
    requires DeliveryInv(malformed, s) && AllSentInOrder(malformed, s) && Enabled(s, a)
    ensures AllSentInOrder(malformed, Next(malformed, s, a))
  {
    var s' := Next(malformed, s, a);
    StepContinues(malformed, s, a);
    NewlySent(malformed, s, a);
    forall h | 0 <= h < |s'.history| && s'.history[h].Sent? ensures SentInOrder(malformed, s', h) {
      if h < |s.history| {
        assert s'.history[h] == s.history[h];
        SentStaysInOrder(malformed, s, s', h);
      } else {
        var w := s.workers[a.wid];
        assert s'.history[..h] == s.history && PartOf(s', w.part) == PartOf(s, w.part);
        assert SettledBelow(malformed, s', w.part, w.next, h);
      }
    }
  }

  lemma {:induction false} RunsKeepSentInOrder(malformed: set<int>, run: seq<Action>)
    requires Legal(malformed, run)
    ensures AllSentInOrder(malformed, Execute(malformed, run))
  {
    if run != [] {
      RunsKeepDelivery(malformed, run[..|run| - 1]);
      RunsKeepSentInOrder(malformed, run[..|run| - 1]);
      NextKeepsSentInOrder(malformed, Execute(malformed, run[..|run| - 1]), run[|run| - 1]);
    }
  }

  /** Across workers, restarts and failures, first acceptances follow the order of the partition:
      when a notification is accepted, its event stands in some partition behind records that are
      all settled by then. */
  lemma {:induction false} AcceptedInOrder(malformed: set<int>, run: seq<Action>, h: nat) returns (part: int, k: nat)
    requires Legal(malformed, run)
    requires h < |Execute(malformed, run).history| && Execute(malformed, run).history[h].Sent?
    ensures k < |PartOf(Execute(malformed, run), part)|
    ensures PartOf(Execute(malformed, run), part)[k] == Some(Execute(malformed, run).history[h].event)
    ensures forall j :: 0 <= j < k ==>
      Settled(malformed, Execute(malformed, run).history[..h], PartOf(Execute(malformed, run), part)[j])
  {
    RunsKeepSentInOrder(malformed, run);
    var s := Execute(malformed, run);
    assert SentInOrder(malformed, s, h);
    part, k :| 0 <= k < |PartOf(s, part)| && PartOf(s, part)[k] == Some(s.history[h].event)
               && SettledBelow(malformed, s, part, k, h);
  }
}
