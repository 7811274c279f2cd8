/** Claiming, publishing and marking one event as code, over keys in Redis that other copies of
    the notification service use at the same time. */
module Processor {
  import opened Records
  import opened Notifications

  /** What all copies share: the clock, the keys and the notifications accepted so far. */
  datatype View = View(now: int, store: KeyStore, accepted: seq<int>)

  predicate SameKey(a: View, b: View, event: int) {
    && (event in a.store <==> event in b.store)
    && (event in a.store ==> a.store[event] == b.store[event])
    && multiset(a.accepted)[event] == multiset(b.accepted)[event]
  }

  /** What time and the other copies may do; they leave the `quiet` events alone. */
  ghost predicate Evolves(quiet: set<int>, a: View, b: View) {
    && a.now <= b.now && a.accepted <= b.accepted
    && (forall e :: e in a.store ==> e in b.store && a.store[e].expires <= b.store[e].expires)
    && (forall e :: e in quiet ==> SameKey(a, b, e))
  }

  /** Nothing is owed any more for the event. */
  predicate Concluded(malformed: set<int>, accepted: seq<int>, event: int) { event in malformed || event in accepted }

  ghost predicate Consistent(malformed: set<int>, v: View) {
    forall e :: e in v.store ==>
      if v.store[e].state == Done then v.store[e].expires <= v.now + DONE_TTL && Concluded(malformed, v.accepted, e)
      else v.store[e].expires <= v.now + LEASE_TTL
  }

  /** A failure of a command, or the end of the caller's context. */
  datatype Failure = CommandFailed | Cancelled

  /** The deadline of the caller, counted in the waits that it still allows. */
  class Context {
    var budget: nat

    constructor (budget: nat)
      ensures this.budget == budget
    {
      this.budget := budget;
    }
  }

  class Backend {
    const malformed: set<int>  // events whose payload does not decode
    const quiet: set<int>      // events which no other copy handles
    const redisUp: bool
    const publisherUp: bool
    var now: int
    var store: KeyStore
    var accepted: seq<int>

    constructor (malformed: set<int>, quiet: set<int>, redisUp: bool, publisherUp: bool)
      ensures Valid() && Shared() == View(0, map[], [])
      ensures this.malformed == malformed && this.quiet == quiet
      ensures this.redisUp == redisUp && this.publisherUp == publisherUp
    {
      this.malformed, this.quiet, this.redisUp, this.publisherUp := malformed, quiet, redisUp, publisherUp;
      now, store, accepted := 0, map[], [];
    }

    function Shared(): View
      reads this
    {
      View(now, store, accepted)
    }

    ghost predicate Valid()
      reads this
    {
      Consistent(malformed, Shared())
    }

    /** Time passes and other copies claim, publish and finish events, by the same rules. */
    method Elapse(atLeast: nat)
      requires Valid()
      modifies this
      ensures Valid() && Evolves(quiet, old(Shared()), Shared()) && now >= old(now) + atLeast
    {
      now := now + atLeast;
      var steps: int := *;
      while steps > 0
        invariant Valid() && Evolves(quiet, old(Shared()), Shared()) && now >= old(now) + atLeast
      {
        var event: int, what: int := *, *;
        StepOfOther(event, what);
        steps := steps - 1;
      }
    }

    method StepOfOther(event: int, what: int)
      requires Valid()
      modifies this
      ensures Valid() && Evolves(quiet, old(Shared()), Shared())
    {
      if event in quiet {
      } else if what == 0 && !Present(store, event, now) {
        store := Leased(store, event, now);
      } else if what == 1 {
        accepted := accepted + [event];
      } else if what == 2 && (event in malformed || event in accepted) {
        store := Finished(store, event, now);
      } else if what > 2 {
        now := now + what;
      }
    }

    /** SET NX with the lease: true when the key was absent. `at` is the moment at which the
        command takes effect. */
    method SetNX(event: int) returns (r: Result<bool, Failure>, ghost at: View)
      requires Valid()
      modifies this
      ensures Valid() && Evolves(quiet, old(Shared()), at)
      ensures r.Ok? ==> r.value == !Present(at.store, event, at.now)
      ensures || Shared() == at
              || (!Present(at.store, event, at.now) && Shared() == at.(store := Leased(at.store, event, at.now)))
      ensures r.Ok? ==> (r.value <==> Shared() != at)
      ensures r.Err? ==> !redisUp && r.error == CommandFailed
    {
      Elapse(0);
      at := Shared();
      var effective, answered := *, *;
      if !effective && !redisUp { return Err(CommandFailed), at; }
      var free := !Present(store, event, now);
      if free { store := Leased(store, event, now); }
      if !answered && !redisUp { return Err(CommandFailed), at; }
      r := Ok(free);
    }

    /** GET: None when there is no such key. */
    method Get(event: int) returns (r: Result<Option<SlotState>, Failure>)
      requires Valid()
      modifies this
      ensures Valid() && Evolves(quiet, old(Shared()), Shared())
      ensures r.Ok? ==> r.value == if Present(store, event, now) then Some(store[event].state) else None
      ensures r.Err? ==> !redisUp && r.error == CommandFailed
    {
      Elapse(0);
      var answered := *;
      if !answered && !redisUp { return Err(CommandFailed); }
      r := Ok(if Present(store, event, now) then Some(store[event].state) else None);
    }

    /** SET "done" with the deduplication window. */
    method SetDone(event: int) returns (err: Option<Failure>, ghost at: View)
      requires Valid() && Concluded(malformed, accepted, event)
      modifies this
      ensures Valid() && Evolves(quiet, old(Shared()), at)
      ensures Shared() == at || Shared() == at.(store := Finished(at.store, event, at.now))
      ensures err.None? ==> Shared() == at.(store := Finished(at.store, event, at.now))
      ensures Evolves(quiet - {event}, old(Shared()), Shared())
      ensures event in quiet ==> multiset(accepted)[event] == multiset(old(accepted))[event]
      ensures err.Some? ==> !redisUp && err.value == CommandFailed
    {
      Elapse(0);
      at := Shared();
      var effective, answered := *, *;
      if !effective && !redisUp { return Some(CommandFailed), at; }
      store := Finished(store, event, now);
      if !answered && !redisUp { return Some(CommandFailed), at; }
      err := None;
    }

    /** Hand the notification over; a failed attempt may have been accepted all the same. */
    method Publish(event: int) returns (err: Option<Failure>, ghost at: View)
      requires Valid()
      modifies this
      ensures Valid() && Evolves(quiet, old(Shared()), at)
      ensures Shared() == at || Shared() == at.(accepted := at.accepted + [event])
      ensures err.None? ==> Shared() == at.(accepted := at.accepted + [event])
      ensures Evolves(quiet - {event}, old(Shared()), Shared())
      ensures event in quiet ==>
        multiset(accepted)[event] == multiset(old(accepted))[event] + if accepted == at.accepted then 0 else 1
      ensures err.Some? ==> !publisherUp && err.value == CommandFailed
    {
      Elapse(0);
      at := Shared();
      var effective, answered := *, *;
      if !effective && !publisherUp { return Some(CommandFailed), at; }
      accepted := accepted + [event];
      if !answered && !publisherUp { return Some(CommandFailed), at; }
      err := None;
    }

    /** Wait for the retry interval, or until the context ends. */
    method Wait(ctx: Context) returns (cancelled: bool)
      requires Valid()
      modifies this, ctx
      ensures Valid() && Evolves(quiet, old(Shared()), Shared())
      ensures cancelled <==> old(ctx.budget) == 0
      ensures cancelled ==> ctx.budget == 0
      ensures !cancelled ==> ctx.budget == old(ctx.budget) - 1 && now >= old(now) + RETRY_INTERVAL
    {
      cancelled := ctx.budget == 0;
      if cancelled {
        Elapse(0);
      } else {
        ctx.budget := ctx.budget - 1;
        Elapse(RETRY_INTERVAL);
      }
    }
  }

  // ---------------------------------------------------------------- deduplication

  datatype ClaimResult = ClaimAcquired | ClaimDone | ClaimBusy

  class RedisDeduper {
    const redis: Backend

    constructor (redis: Backend)
      ensures this.redis == redis
    {
      this.redis := redis;
    }

    /** Two commands which are not one: the key may expire, be finished or be taken by another
        copy in between. `at` is the moment of the first. */
    method Claim(event: int) returns (r: Result<ClaimResult, Failure>, ghost at: View)
      requires redis.Valid()
      modifies redis
      ensures redis.Valid() && Evolves(redis.quiet, old(redis.Shared()), at)
      ensures r == Ok(ClaimAcquired) ==>
        !Present(at.store, event, at.now) && redis.Shared() == at.(store := Leased(at.store, event, at.now))
      ensures r == Ok(ClaimDone) ==>
        Evolves(redis.quiet, at, redis.Shared()) && FinishedKey(redis.Shared(), event)
      ensures r == Ok(ClaimBusy) ==>
        && Evolves(redis.quiet, at, redis.Shared()) && Present(at.store, event, at.now)
        && !(Present(redis.store, event, redis.now) && redis.store[event].state == SlotState.Done)
      ensures r.Err? ==> !redis.redisUp && r.error == CommandFailed
      ensures Evolves(redis.quiet - {event}, old(redis.Shared()), redis.Shared())
      ensures event in redis.quiet ==>
        && multiset(redis.accepted)[event] == multiset(old(redis.accepted))[event]
        && (r == Ok(ClaimAcquired) ==> !Present(old(redis.store), event, redis.now))
        && (r == Ok(ClaimDone) || r == Ok(ClaimBusy) ==> SameKey(old(redis.Shared()), redis.Shared(), event))
        && (r == Ok(ClaimBusy) ==> Present(old(redis.store), event, old(redis.now)))
    {
      var ok;
      ok, at := redis.SetNX(event);
      if ok.Err? { return Err(ok.error), at; }
      if ok.value { return Ok(ClaimAcquired), at; }

      var val := redis.Get(event);
      if val.Err? { return Err(val.error), at; }
      if val.value == None { return Ok(ClaimBusy), at; }
      if val.value == Some(SlotState.Done) { return Ok(ClaimDone), at; }
      r := Ok(ClaimBusy);
    }

    method Done(event: int) returns (err: Option<Failure>, ghost at: View)
      requires redis.Valid() && Concluded(redis.malformed, redis.accepted, event)
      modifies redis
      ensures redis.Valid() && Evolves(redis.quiet, old(redis.Shared()), at)
      ensures redis.Shared() == at || redis.Shared() == at.(store := Finished(at.store, event, at.now))
      ensures err.None? ==> redis.Shared() == at.(store := Finished(at.store, event, at.now))
      ensures Evolves(redis.quiet - {event}, old(redis.Shared()), redis.Shared())
      ensures event in redis.quiet ==> multiset(redis.accepted)[event] == multiset(old(redis.accepted))[event]
      ensures err.Some? ==> !redis.redisUp && err.value == CommandFailed
    {
      err, at := redis.SetDone(event);
    }
  }

  // ---------------------------------------------------------------- one event

  /** The number of retry intervals that cover a time. */
  function WaitsFor(rest: int): (n: nat)
    ensures n * RETRY_INTERVAL >= rest && (rest > 0 ==> (n - 1) * RETRY_INTERVAL < rest)
  {
    if rest <= 0 then 0 else (rest + RETRY_INTERVAL - 1) / RETRY_INTERVAL
  }

  const MAX_WAITS := LEASE_TTL / RETRY_INTERVAL

  predicate FinishedKey(v: View, event: int) { event in v.store && v.store[event].state == Done }

  /** How often the event has to be waited for if nobody else handles it: until a foreign lease has
      run out, or once if a finished key expires between the two commands of a claim. */
  function WaitLimit(v: View, event: int): nat {
    if FinishedKey(v, event) then 1 else WaitsFor(Remaining(v, event))
  }

  /** The first moment at which the key lets somebody in. */
  function FreeFrom(v: View, event: int): int {
    if event in v.store then Max(v.now, v.store[event].expires) else v.now
  }

  /** The event has been acquired since `start`: its key runs at least a full lease from the moment
      at which the lease found there, if any, ran out. */
  predicate Taken(start: View, v: View, event: int) {
    event in v.store && v.store[event].expires >= FreeFrom(start, event) + LEASE_TTL
  }

  /** How long the key still keeps others out. */
  function Remaining(v: View, event: int): int { if event in v.store then v.store[event].expires - v.now else 0 }

  class EventProcessor {
    const dedup: RedisDeduper

    constructor (dedup: RedisDeduper)
      ensures this.dedup == dedup
    {
      this.dedup := dedup;
    }

    /** Ok means that the record needs nothing more; an error means that it must be retried. When
        no other copy handles the event, it is published at most once more, and unless it is done
        it is acquired within leaseTTL / retryInterval + 1 claims, even if a lease, left by a failed
        attempt, say, is still running. */
    method Handle(ctx: Context, eventId: Option<int>) returns (r: Option<Failure>, claims: nat)
      requires dedup.redis.Valid()
      modifies dedup.redis, ctx
      ensures var b := dedup.redis;
        && b.Valid() && ctx.budget <= old(ctx.budget)
        && Evolves(if eventId.Some? then b.quiet - {eventId.value} else b.quiet, old(b.Shared()), b.Shared())
        && (r.None? ==> eventId.None? || Concluded(b.malformed, b.accepted, eventId.value))
        && (r == Some(Cancelled) ==> ctx.budget == 0)
        && (r == Some(CommandFailed) ==> !b.redisUp || !b.publisherUp)
        && b.now >= old(b.now) + (old(ctx.budget) - ctx.budget) * RETRY_INTERVAL
        && old(ctx.budget) - ctx.budget == Max(0, claims - 1)
      ensures eventId.Some? && eventId.value in dedup.redis.quiet ==>
        var b, event := dedup.redis, eventId.value;
        && multiset(b.accepted)[event] <= multiset(old(b.accepted))[event] + 1
        && (multiset(b.accepted)[event] > multiset(old(b.accepted))[event] ==>
             event !in b.malformed && !Present(old(b.store), event, b.now))
        && (b.redisUp && old(ctx.budget) >= MAX_WAITS ==>
             && r != Some(Cancelled) && claims <= MAX_WAITS + 1
             && (!FinishedKey(old(b.Shared()), event) ==> Taken(old(b.Shared()), b.Shared(), event))
             && (!FinishedKey(old(b.Shared()), event) && event !in b.malformed && r.None? ==>
                  multiset(b.accepted)[event] == multiset(old(b.accepted))[event] + 1))
    {
      claims := 0;
      if eventId.None? { return None, claims; }
      var event := eventId.value;
      var done;
      ReacquiredInTime(dedup.redis.malformed, dedup.redis.Shared(), event);
      r, claims, done := ClaimLoop(ctx, event);
      if r.Some? || done { return; }
      r := Perform(event);
    }

    /** Claim until the event is ours or is known to be finished. */
    method ClaimLoop(ctx: Context, event: int) returns (r: Option<Failure>, claims: nat, done: bool)
      requires dedup.redis.Valid()
      modifies dedup.redis, ctx
      ensures var b := dedup.redis;
        && b.Valid() && ctx.budget <= old(ctx.budget)
        && Evolves(b.quiet - {event}, old(b.Shared()), b.Shared())
        && (r.None? && done ==> FinishedKey(b.Shared(), event))
        && (r.None? && !done ==> event in b.store && b.store[event] == Slot(Processing, b.now + LEASE_TTL))
        && (r == Some(Cancelled) ==> ctx.budget == 0)
        && (r == Some(CommandFailed) ==> !b.redisUp)
        && b.now >= old(b.now) + (old(ctx.budget) - ctx.budget) * RETRY_INTERVAL
        && claims > 0 && old(ctx.budget) - ctx.budget == claims - 1
      ensures event in dedup.redis.quiet ==>
        var b := dedup.redis;
        && multiset(b.accepted)[event] == multiset(old(b.accepted))[event]
        && (r.None? && !done ==> !Present(old(b.store), event, b.now))
        && (r.None? && done ==> FinishedKey(old(b.Shared()), event))
        && (b.redisUp && old(ctx.budget) >= old(WaitLimit(b.Shared(), event)) ==>
             r == None && claims <= old(WaitLimit(b.Shared(), event)) + 1)
    {
      ghost var start := dedup.redis.Shared();
      claims, done := 0, false;
      while true
        invariant Searching(start, event, claims)
        invariant claims + ctx.budget == old(ctx.budget)
        decreases ctx.budget
      {
        var res;
        r, res := ClaimOnce(ctx, event, start, claims);
        claims := claims + 1;
        assert r.Some? ==> r.value.Cancelled? || r.value.CommandFailed?;
        if r.Some? || res != ClaimBusy { return r, claims, res == ClaimDone; }
      }
    }

    /** After so many waits the event is still not ours. When no other copy handles it, its key is
        as it was at the start, and the waits have not used up the time it has left. */
    ghost predicate Searching(start: View, event: int, waits: nat)
      reads dedup.redis
    {
      var b := dedup.redis;
      && b.Valid()
      && Evolves(b.quiet - {event}, start, b.Shared())
      && b.now >= start.now + waits * RETRY_INTERVAL
      && (event in b.quiet ==>
           && SameKey(start, b.Shared(), event) && waits <= WaitLimit(start, event)
           && (waits > 0 && FinishedKey(start, event) ==> b.now >= start.store[event].expires))
    }

    /** One round of the loop: a claim, and a wait if the event is busy. */
    method ClaimOnce(ctx: Context, event: int, ghost start: View, ghost waits: nat)
      returns (r: Option<Failure>, res: ClaimResult)
      requires Searching(start, event, waits)
      modifies dedup.redis, ctx
      ensures var b := dedup.redis;
        && b.Valid() && Evolves(b.quiet - {event}, start, b.Shared())
        && b.now >= start.now + (waits + old(ctx.budget) - ctx.budget) * RETRY_INTERVAL
        && (r == Some(Cancelled) ==> ctx.budget == 0 == old(ctx.budget))
        && (r == Some(CommandFailed) ==> !b.redisUp)
        && (r.Some? || res != ClaimBusy ==> ctx.budget == old(ctx.budget))
        && (r.None? && res == ClaimBusy ==> Searching(start, event, waits + 1) && ctx.budget == old(ctx.budget) - 1)
        && (r.None? && res == ClaimDone ==> FinishedKey(b.Shared(), event))
        && (r.None? && res == ClaimAcquired ==>
             event in b.store && b.store[event] == Slot(Processing, b.now + LEASE_TTL))
      ensures event in dedup.redis.quiet ==>
        var b := dedup.redis;
        && multiset(b.accepted)[event] == multiset(start.accepted)[event]
        && (r == Some(Cancelled) ==> waits < WaitLimit(start, event))
        && (r.None? && res == ClaimAcquired ==> !Present(start.store, event, b.now))
        && (r.None? && res == ClaimDone ==> FinishedKey(start, event))
    {
      var b := dedup.redis;
      ghost var before := b.Shared();
      ghost var at;
      var claimed;
      claimed, at := dedup.Claim(event);
      if claimed.Err? { return Some(claimed.error), ClaimBusy; }
      res := claimed.value;
      if res != ClaimBusy { return None, res; }
      if event in b.quiet && !FinishedKey(start, event) { StillLeased(start, before, event, waits); }
      var cancelled := b.Wait(ctx);
      r := if cancelled then Some(Cancelled) else None;
    }

    /** Publish the claimed event and mark it done; a malformed one is only marked. */
    method Perform(event: int) returns (r: Option<Failure>)
      requires dedup.redis.Valid()
      modifies dedup.redis
      ensures var b := dedup.redis;
        && b.Valid()
        && Evolves(b.quiet - {event}, old(b.Shared()), b.Shared())
        && (r.None? ==> Concluded(b.malformed, b.accepted, event))
        && (r.Some? ==> r.value == CommandFailed && (!b.redisUp || !b.publisherUp))
        && (event in b.malformed && r.None? ==> event in b.store && b.store[event].state == SlotState.Done)
        && (r.None? && b.redisUp ==> event in b.store && b.store[event] == Slot(SlotState.Done, b.now + DONE_TTL))
      ensures event in dedup.redis.quiet ==>
        var b := dedup.redis;
        var before, after := multiset(old(b.accepted))[event], multiset(b.accepted)[event];
        if event in b.malformed then after == before
        else if r.None? then after == before + 1
        else after == before || after == before + 1
    {
      var b := dedup.redis;
      ghost var at;
      var err;
      if event in b.malformed {
        err, at := dedup.Done(event);
        return err;
      }
      err, at := b.Publish(event);
      if err.Some? { return err; }
      err, at := dedup.Done(event);
      r := None;  // a failure of Done is only logged
    }
  }

  /** A key that nobody else writes and that still keeps us out has not expired yet. */
  lemma StillLeased(start: View, at: View, event: int, waits: nat)
    requires SameKey(start, at, event) && Present(at.store, event, at.now)
    requires at.now >= start.now + waits * RETRY_INTERVAL
    ensures waits < WaitsFor(Remaining(start, event))
  {
  }

  /** A foreign lease is never waited for longer than its full length. */
  lemma ReacquiredInTime(malformed: set<int>, v: View, event: int)
    requires Consistent(malformed, v)
    ensures WaitLimit(v, event) <= MAX_WAITS
  {
  }
}
