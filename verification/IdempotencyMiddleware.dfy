/**
 The Redis store as an object and the middleware's claim-and-poll loop over
 it. Between two attempts other clients may leave anything in the store, and
 at least one poll interval passes.
 */
module IdempotencyMiddleware {
  import opened Prelude
  import opened IdempotencyProtocol

  /** Whether a command reaches the store and its reply comes back. */
  datatype Reach = Reached | Unreached | ReplyLost

  /**
   The store as a client finds it when it looks: its contents, the time, how
   far a command gets, and whether the client hangs up before looking again.
   */
  datatype View = View(store: Store, now: Time, reach: Reach, hangsUp: bool)

  class RedisStore {
    var entries: Store
    var clock: Time
    var reach: Reach

    constructor ()
      ensures entries == map[]
    {
      entries, clock, reach := map[], 0, Reached;
    }

    method Await(v: View)
      modifies this
      ensures entries == v.store && clock == v.now && reach == v.reach
    {
      entries, clock, reach := v.store, v.now, v.reach;
    }

    /** An error may come before the script ran or after it. */
    method TryClaim(key: string, hash: string, reservation: Time)
      returns (ok: bool, claimed: bool, existing: Option<Record>)
      modifies this`entries
      ensures ok == reach.Reached?
      ensures ok ==> existing == Lookup(old(entries), key, clock) && claimed == existing.None?
      ensures entries == if reach.Unreached? then old(entries)
                         else AfterClaim(old(entries), key, hash, clock, reservation)
    {
      ok, claimed, existing := reach.Reached?, false, None;
      if !reach.Unreached? {
        if key in entries && clock < entries[key].expiresAt {
          existing := Some(entries[key].record);
        } else {
          entries := entries[key := Entry(Record(0, "", hash), clock + reservation)];
        }
        claimed := existing.None?;
      }
    }

    method Save(key: string, record: Record, ttl: Time)
      modifies this`entries
      ensures entries == if reach.Unreached? then old(entries) else AfterSave(old(entries), key, record, clock, ttl)
    {
      if !reach.Unreached? { entries := entries[key := Entry(record, clock + ttl)]; }
    }

    method Release(key: string)
      modifies this`entries
      ensures entries == if reach.Unreached? then old(entries) else AfterRelease(old(entries), key)
    {
      if !reach.Unreached? { entries := entries - {key}; }
    }
  }

  /** What one attempt makes of what it finds: own the key, run unclaimed, give an answer, or keep polling. */
  function Attempt(v: View, key: string, hash: string, deadline: Time): Pc {
    var existing := Lookup(v.store, key, v.now);
    if !v.reach.Reached? then Unprotected
    else if existing.None? then Running
    else
      var verdict := Verdict(existing.value, hash, deadline < v.now);
      if verdict.Polling? && v.hangsUp then Finished(Disconnected) else verdict
  }

  /** After each sleep at least one interval has gone by; anything else may have happened. */
  ghost predicate Sleeps(world: nat -> View, start: Time, pollInterval: Time) {
    && start <= world(0).now
    && forall i: nat :: world(i).now + pollInterval <= world(i + 1).now
  }

  lemma {:induction false} SleepsAddUp(world: nat -> View, start: Time, pollInterval: nat, i: nat)
    requires Sleeps(world, start, pollInterval)
    ensures start + i * pollInterval <= world(i).now
  {
    if i > 0 { SleepsAddUp(world, start, pollInterval, i - 1); }
  }

  /** A client that is still polling after attempt i is within its deadline, so i is bounded. */
  lemma PollingIsBounded(
      world: nat -> View, start: Time, pollInterval: nat, maxWait: nat, key: string, hash: string, i: nat)
    requires 0 < pollInterval && Sleeps(world, start, pollInterval)
    requires Attempt(world(i), key, hash, start + maxWait).Polling?
    ensures i <= maxWait / pollInterval
  {
    SleepsAddUp(world, start, pollInterval, i);
    if maxWait / pollInterval < i {
      MulMonotone(maxWait / pollInterval + 1, i, pollInterval);
      DivUpper(maxWait, pollInterval);
    }
  }

  lemma MulMonotone(a: nat, b: nat, c: nat)
    requires a <= b
    ensures a * c <= b * c
  {
  }

  lemma DivUpper(a: nat, b: nat)
    requires 0 < b
    ensures a < (a / b + 1) * b
  {
  }

  class Middleware {
    const store: RedisStore
    const cfg: Config

    constructor (store: RedisStore, cfg: Config)
      ensures this.store == store && this.cfg == cfg
    {
      this.store, this.cfg := store, cfg;
    }

    /** The loop of a request with a key: claim, or answer from the record, or wait and try again. */
    method ClaimOrWait(world: nat -> View, key: string, hash: string, start: Time, pollInterval: nat)
      returns (pc: Pc, attempts: nat)
      requires 0 < pollInterval && 0 <= cfg.maxWait && Sleeps(world, start, pollInterval)
      modifies store
      ensures 1 <= attempts <= cfg.maxWait / pollInterval + 2
      ensures pc == Attempt(world(attempts - 1), key, hash, start + cfg.maxWait) && !pc.Polling?
      ensures forall i: nat :: i < attempts - 1 ==> Attempt(world(i), key, hash, start + cfg.maxWait).Polling?
      ensures var v := world(attempts - 1);
              store.clock == v.now
              && store.entries == if v.reach.Unreached? then v.store
                                  else AfterClaim(v.store, key, hash, v.now, cfg.reservation)
    {
      var deadline := start + cfg.maxWait;
      attempts := 0;
      while true
        invariant attempts <= cfg.maxWait / pollInterval + 1
        invariant forall i: nat :: i < attempts ==> Attempt(world(i), key, hash, deadline).Polling?
        decreases cfg.maxWait / pollInterval + 1 - attempts
      {
        store.Await(world(attempts));
        var ok, claimed, existing := store.TryClaim(key, hash, cfg.reservation);
        attempts := attempts + 1;
        if !ok { return Unprotected, attempts; }
        if claimed { return Running, attempts; }
        if existing.value.requestHash != hash { return Finished(KeyConflict), attempts; }
        if !InProgress(existing.value) {
          return Finished(Replayed(existing.value.status, existing.value.body)), attempts;
        }
        if deadline < store.clock { return Finished(StillInProgress), attempts; }
        if world(attempts - 1).hangsUp { return Finished(Disconnected), attempts; }
        PollingIsBounded(world, start, pollInterval, cfg.maxWait, key, hash, attempts - 1);
      }
    }

    /** The owner's tail: answer the client, then keep a usable response or free the key after a server error. */
    method RunAndSave(key: string, hash: string, status: int, body: string, v: View) returns (pc: Pc)
      modifies store
      ensures pc == Finished(Executed(status, body)) && store.clock == v.now
      ensures store.entries == if v.reach.Unreached? then v.store
                               else AfterSettle(cfg, v.store, key, hash, status, body, v.now)
      ensures !v.reach.Unreached? ==>
                Lookup(store.entries, key, v.now)
                == if status < 500 && 0 < cfg.ttl then Some(Record(status, body, hash)) else None
      ensures forall k :: k != key ==> Lookup(store.entries, k, v.now) == Lookup(v.store, k, v.now)
    {
      store.Await(v);
      if status >= SERVER_ERROR {
        store.Release(key);
      } else {
        store.Save(key, Record(status, body, hash), cfg.ttl);
      }
      pc := Finished(Executed(status, body));
    }
  }

  /** The bound is met: a reservation that never resolves costs exactly that many attempts. */
  lemma PollBoundIsAttained(world: nat -> View, start: Time, pollInterval: nat, maxWait: nat, key: string, hash: string)
    requires 0 < pollInterval
    requires forall i: nat :: world(i).now == start + i * pollInterval && world(i).reach.Reached? && !world(i).hangsUp
    requires forall i: nat :: Lookup(world(i).store, key, world(i).now) == Some(Record(0, "", hash))
    ensures var n := maxWait / pollInterval;
            && (forall i: nat :: i <= n ==> Attempt(world(i), key, hash, start + maxWait).Polling?)
            && Attempt(world(n + 1), key, hash, start + maxWait) == Finished(StillInProgress)
  {
    var n := maxWait / pollInterval;
    DivUpper(maxWait, pollInterval);
    forall i: nat | i <= n ensures Attempt(world(i), key, hash, start + maxWait).Polling? {
      MulMonotone(i, n, pollInterval);
      DivLower(maxWait, pollInterval);
    }
  }

  lemma DivLower(a: nat, b: nat)
    requires 0 < b
    ensures a / b * b <= a
  {
  }

  // -------------------------------------------------- why the bound matters

  const SLOW := Config(30, 600, 3)

  /** An owner that outlives its reservation is joined by a second one: the handler then runs twice. */
  lemma SlowOwnerRunsTwice()
    ensures var run := [Arrive(1, "k", "h"), TryClaim(1, true), Tick(30), Arrive(2, "k", "h"), TryClaim(2, true)];
            var s := Exec(SLOW, Init(0), run);
            && 1 in s.clients && s.clients[1].pc.Running? && s.clients[1].key == "k"
            && 2 in s.clients && s.clients[2].pc.Running? && s.clients[2].key == "k"
  {
    var e1, e2, e3, e4, e5 :=
      Arrive(1, "k", "h"), TryClaim(1, true), Tick(30), Arrive(2, "k", "h"), TryClaim(2, true);
    var s1 := Step(SLOW, Init(0), e1);
    var s2 := Step(SLOW, s1, e2);
    var s3 := Step(SLOW, s2, e3);
    var s4 := Step(SLOW, s3, e4);
    var s5 := Step(SLOW, s4, e5);
    assert [e1][..0] == [] && [e1, e2][..1] == [e1] && [e1, e2, e3][..2] == [e1, e2];
    assert [e1, e2, e3, e4][..3] == [e1, e2, e3] && [e1, e2, e3, e4, e5][..4] == [e1, e2, e3, e4];
    assert Exec(SLOW, Init(0), [e1]) == s1;
    assert Exec(SLOW, Init(0), [e1, e2]) == s2;
    assert Exec(SLOW, Init(0), [e1, e2, e3]) == s3;
    assert Exec(SLOW, Init(0), [e1, e2, e3, e4]) == s4;
    assert Exec(SLOW, Init(0), [e1, e2, e3, e4, e5]) == s5;
  }
}
