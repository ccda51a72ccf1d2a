/**
 The fixed-window attempt counter: a read that decides, and later a script
 that increments and starts the window on its first increment. Between the two
 any number of other requests may do the same.
 */
module RateLimiter {
  import opened Prelude

  /** The key's value and the time Redis drops it. */
  datatype Counter = Counter(count: int, expiresAt: Time)

  datatype Policy = Policy(limit: int, window: int)

  predicate Live(counter: Option<Counter>, now: Time) {
    counter.Some? && now < counter.value.expiresAt
  }

  /** A missing key always admits; otherwise the count must be below the limit. */
  predicate Admits(policy: Policy, counter: Option<Counter>, now: Time) {
    Live(counter, now) ==> counter.value.count < policy.limit
  }

  /** INCR, then EXPIRE on the first increment; an expiry that is not positive deletes the key. */
  function Incremented(policy: Policy, counter: Option<Counter>, now: Time): Option<Counter> {
    if Live(counter, now) && counter.value.count + 1 != 1 then Some(counter.value.(count := counter.value.count + 1))
    else if policy.window <= 0 then None
    else Some(Counter(1, now + policy.window))
  }

  /** The gate of one request: the counter it checks, and the counter others have left when it increments. */
  function Admission(
      policy: Policy, before: Option<Counter>, now: Time, theirs: Option<Counter>, later: Time, stored: bool)
    : (bool, Option<Counter>)
  {
    if !Admits(policy, before, now) then (false, before)
    else (true, if stored then Incremented(policy, theirs, later) else theirs)
  }

  class RedisTracker {
    var counters: map<string, Counter>
    var now: Time

    ghost function Value(key: string): Option<Counter>
      reads this
    {
      if key in counters then Some(counters[key]) else None
    }

    /** Every count ever stored is the result of an increment. */
    ghost predicate Valid()
      reads this
    {
      forall key :: key in counters ==> counters[key].count >= 1
    }

    constructor ()
      ensures counters == map[] && Valid()
    {
      counters, now := map[], 0;
    }

    method Check(key: string, policy: Policy) returns (allowed: bool)
      ensures allowed == Admits(policy, Value(key), now)
    {
      if key !in counters || counters[key].expiresAt <= now { return true; }
      return counters[key].count < policy.limit;
    }

    method RecordFailure(key: string, policy: Policy)
      requires Valid()
      modifies this`counters
      ensures Valid() && Value(key) == Incremented(policy, old(Value(key)), now)
      ensures forall other :: other != key ==> Value(other) == old(Value(other))
    {
      if key !in counters || counters[key].expiresAt <= now {
        counters := counters[key := Counter(0, now)];        // INCR of a missing key starts from zero
      }
      var count := counters[key].count + 1;
      counters := counters[key := counters[key].(count := count)];
      if count == 1 {
        if policy.window <= 0 { counters := counters - {key}; }
        else { counters := counters[key := Counter(count, now + policy.window)]; }
      }
    }

    method Reset(key: string)
      requires Valid()
      modifies this`counters
      ensures Valid() && Value(key).None?
      ensures forall other :: other != key ==> Value(other) == old(Value(other))
    {
      counters := counters - {key};
    }

    /** Others use the counters while a request is between its statements. */
    method Await(theirs: map<string, Counter>, later: Time)
      requires forall key :: key in theirs ==> theirs[key].count >= 1
      modifies this
      ensures counters == theirs && now == later && Valid()
    {
      counters, now := theirs, later;
    }

    /** Register's gate: check, then count the attempt. A lost increment is only logged. */
    method Admit(key: string, policy: Policy, theirs: map<string, Counter>, later: Time, stored: bool)
      returns (allowed: bool)
      requires Valid() && forall k :: k in theirs ==> theirs[k].count >= 1
      modifies this
      ensures Valid()
      ensures (allowed, Value(key))
              == Admission(policy, old(Value(key)), old(now),
                           if key in theirs then Some(theirs[key]) else None, later, stored)
    {
      allowed := Check(key, policy);
      if allowed {
        Await(theirs, later);
        if stored { RecordFailure(key, policy); }
      }
    }
  }

  // ------------------------------------------------- many requests, one key

  /** A counted attempt: when it was counted, and the start of the window it was counted in. */
  datatype Stamp = Stamp(at: Time, window: Time)

  /** `pending` requests passed the check and have not incremented yet; `log` and `lost` are history. */
  datatype State = State(now: Time, counter: Option<Counter>, pending: nat, log: seq<Stamp>, accepted: nat, lost: nat)

  datatype Event = Tick(elapsed: nat) | Check | Increment | LoseIncrement

  /** At most k requests at a time are between check and increment; k == 1 is the sequential case. */
  function Step(policy: Policy, k: nat, s: State, e: Event): State {
    match e
    case Tick(elapsed) => s.(now := s.now + elapsed)
    case Check =>
      if s.pending < k && Admits(policy, s.counter, s.now) then s.(pending := s.pending + 1, accepted := s.accepted + 1)
      else s
    case Increment =>
      if s.pending == 0 then s
      else
        var counter := Incremented(policy, s.counter, s.now);
        var window := if counter.Some? then counter.value.expiresAt - policy.window else s.now;
        s.(counter := counter, pending := s.pending - 1, log := s.log + [Stamp(s.now, window)])
    case LoseIncrement =>
      if s.pending == 0 then s else s.(pending := s.pending - 1, lost := s.lost + 1)
  }

  /** The state after the first n events of a run. */
  function After(policy: Policy, k: nat, s: State, run: seq<Event>, n: nat): State
    requires n <= |run|
  {
    if n == 0 then s else Step(policy, k, After(policy, k, s, run, n - 1), run[n - 1])
  }

  function Exec(policy: Policy, k: nat, s: State, run: seq<Event>): State {
    After(policy, k, s, run, |run|)
  }

  function Init(start: Time): State {
    State(start, None, 0, [], 0, 0)
  }

  ghost predicate Reachable(policy: Policy, k: nat, s: State) {
    exists start: Time, run: seq<Event> :: s == Exec(policy, k, Init(start), run)
  }

  // ---------------------------------------------------------------- counting

  /** How many of the first n stamps belong to the window. */
  function InWindow(log: seq<Stamp>, n: nat, window: Time): nat
    requires n <= |log|
  {
    if n == 0 then 0 else InWindow(log, n - 1, window) + (if log[n - 1].window == window then 1 else 0)
  }

  function CountedInWindow(log: seq<Stamp>, window: Time): nat {
    InWindow(log, |log|, window)
  }

  /** How many of the first n stamps lie between the two times, both included. */
  function Between(log: seq<Stamp>, n: nat, from: Time, to: Time): nat
    requires n <= |log|
  {
    if n == 0 then 0 else Between(log, n - 1, from, to) + (if from <= log[n - 1].at <= to then 1 else 0)
  }

  function CountedBetween(log: seq<Stamp>, from: Time, to: Time): nat {
    Between(log, |log|, from, to)
  }

  /** What one window can count: the limit, or one where the limit is below one. */
  function Cap(policy: Policy): int {
    if policy.limit < 1 then 1 else policy.limit
  }

  ghost predicate WindowsApart(policy: Policy, log: seq<Stamp>) {
    && (forall i :: 0 <= i < |log| ==> log[i].window <= log[i].at < log[i].window + policy.window)
    && (forall i, j :: 0 <= i < |log| && 0 <= j < |log| && log[i].window < log[j].window ==>
          log[i].window + policy.window <= log[j].window)
  }

  /** The stamp belongs to the counter's window or to one that ended before it. */
  predicate InOrder(policy: Policy, counter: Option<Counter>, stamp: Stamp) {
    && counter.Some?
    && (stamp.window + policy.window == counter.value.expiresAt
        || stamp.window + 2 * policy.window <= counter.value.expiresAt)
  }

  ghost predicate AllInOrder(policy: Policy, counter: Option<Counter>, log: seq<Stamp>) {
    forall i :: 0 <= i < |log| ==> InOrder(policy, counter, log[i])
  }

  /** The counter is the number of attempts counted in its window. */
  predicate CounterCounts(policy: Policy, counter: Counter, log: seq<Stamp>) {
    CountedInWindow(log, counter.expiresAt - policy.window) == counter.count
  }

  ghost predicate WindowsBounded(log: seq<Stamp>, bound: int) {
    forall w :: CountedInWindow(log, w) <= bound
  }

  /** What is counted and what is in flight stay within the bound while the window lasts. */
  predicate CounterOk(policy: Policy, k: nat, counter: Counter, now: Time, pending: nat) {
    && counter.count >= 1 && counter.expiresAt <= now + policy.window
    && (now < counter.expiresAt ==> counter.count + pending <= Cap(policy) - 1 + k)
  }

  ghost predicate Inv(policy: Policy, k: nat, s: State) {
    && s.pending <= k
    && s.accepted == |s.log| + s.lost + s.pending
    && WindowsApart(policy, s.log)
    && AllInOrder(policy, s.counter, s.log)
    && (k > 0 ==> WindowsBounded(s.log, Cap(policy) + k - 1))
    && (s.counter.Some? ==>
          CounterOk(policy, k, s.counter.value, s.now, s.pending) && CounterCounts(policy, s.counter.value, s.log))
  }

  lemma {:induction false} NothingCounted(log: seq<Stamp>, n: nat, window: Time)
    requires n <= |log| && forall i :: 0 <= i < |log| ==> log[i].window != window
    ensures InWindow(log, n, window) == 0
  {
    if n > 0 { NothingCounted(log, n - 1, window); }
  }

  lemma IncrementKeepsInv(policy: Policy, k: nat, s: State)
    requires policy.window > 0 && Inv(policy, k, s) && s.pending > 0
    ensures Inv(policy, k, Step(policy, k, s, Increment))
  {
    var counter := Incremented(policy, s.counter, s.now);
    var start := counter.value.expiresAt - policy.window;
    var log := s.log + [Stamp(s.now, start)];
    IncrementKeepsOrder(policy, k, s, counter, start);
    IncrementKeepsCounter(policy, k, s);
    IncrementKeepsCounts(policy, k, s, counter.value);
    assert Step(policy, k, s, Increment) == s.(counter := counter, pending := s.pending - 1, log := log);
  }

  lemma IncrementKeepsCounts(policy: Policy, k: nat, s: State, counter: Counter)
    requires policy.window > 0 && Inv(policy, k, s) && s.pending > 0
    requires Some(counter) == Incremented(policy, s.counter, s.now)
    ensures var log := s.log + [Stamp(s.now, counter.expiresAt - policy.window)];
            CounterCounts(policy, counter, log) && WindowsBounded(log, Cap(policy) + k - 1)
  {
    var start := counter.expiresAt - policy.window;
    IncrementKeepsCounter(policy, k, s);
    if !Live(s.counter, s.now) { NothingInNewWindow(policy, k, s); }
    OneMoreInWindow(s.log, Stamp(s.now, start), start);
    OneMoreBounded(s.log, Stamp(s.now, start), Cap(policy) + k - 1);
  }

  lemma IncrementKeepsCounter(policy: Policy, k: nat, s: State)
    requires policy.window > 0 && s.pending > 0 && s.pending <= k
    requires s.counter.Some? ==> CounterOk(policy, k, s.counter.value, s.now, s.pending)
    ensures var counter := Incremented(policy, s.counter, s.now);
            && counter.Some? && CounterOk(policy, k, counter.value, s.now, s.pending - 1)
            && s.now < counter.value.expiresAt
  {
  }

  lemma IncrementKeepsOrder(policy: Policy, k: nat, s: State, counter: Option<Counter>, start: Time)
    requires policy.window > 0 && Inv(policy, k, s)
    requires counter == Incremented(policy, s.counter, s.now) && start == counter.value.expiresAt - policy.window
    ensures var log := s.log + [Stamp(s.now, start)];
            WindowsApart(policy, log) && AllInOrder(policy, counter, log)
  {
    forall i | 0 <= i < |s.log| ensures InOrder(policy, counter, s.log[i]) {
      assert InOrder(policy, s.counter, s.log[i]);
    }
  }

  lemma NothingInNewWindow(policy: Policy, k: nat, s: State)
    requires policy.window > 0 && Inv(policy, k, s) && !Live(s.counter, s.now)
    ensures CountedInWindow(s.log, s.now) == 0
  {
    forall i | 0 <= i < |s.log| ensures s.log[i].window != s.now {
      assert InOrder(policy, s.counter, s.log[i]);
    }
    NothingCounted(s.log, |s.log|, s.now);
  }

  lemma {:induction false} OneMoreInWindow(log: seq<Stamp>, stamp: Stamp, window: Time)
    ensures CountedInWindow(log + [stamp], window)
         == CountedInWindow(log, window) + (if window == stamp.window then 1 else 0)
  {
    SameInWindow(log, stamp, |log|, window);
  }

  lemma {:induction false} SameInWindow(log: seq<Stamp>, stamp: Stamp, n: nat, window: Time)
    requires n <= |log|
    ensures InWindow(log + [stamp], n, window) == InWindow(log, n, window)
  {
    if n > 0 { SameInWindow(log, stamp, n - 1, window); }
  }

  lemma {:induction false} OneMoreBounded(log: seq<Stamp>, stamp: Stamp, bound: int)
    requires WindowsBounded(log, bound) && CountedInWindow(log + [stamp], stamp.window) <= bound
    ensures WindowsBounded(log + [stamp], bound)
  {
    forall w ensures CountedInWindow(log + [stamp], w) <= bound {
      OneMoreInWindow(log, stamp, w);
    }
  }

  lemma StepKeepsInv(policy: Policy, k: nat, s: State, e: Event)
    requires policy.window > 0 && Inv(policy, k, s)
    ensures Inv(policy, k, Step(policy, k, s, e))
  {
    if e.Increment? && s.pending > 0 { IncrementKeepsInv(policy, k, s); }
  }

  lemma {:induction false} RunKeepsInv(policy: Policy, k: nat, start: Time, run: seq<Event>, n: nat)
    requires policy.window > 0 && n <= |run|
    ensures Inv(policy, k, After(policy, k, Init(start), run, n))
  {
    if n > 0 {
      RunKeepsInv(policy, k, start, run, n - 1);
      StepKeepsInv(policy, k, After(policy, k, Init(start), run, n - 1), run[n - 1]);
    }
  }

  // ----------------------------------------------------------- main results

  /**
   No window counts more than limit + k - 1 attempts and the live counter never
   exceeds it. Every accepted attempt is counted, in flight, or its increment failed.
   */
  lemma WindowBound(policy: Policy, k: nat, s: State)
    requires policy.window > 0 && k > 0 && Reachable(policy, k, s)
    ensures WindowsBounded(s.log, Cap(policy) + k - 1)
    ensures Live(s.counter, s.now) ==> s.counter.value.count <= Cap(policy) + k - 1 - s.pending
    ensures s.accepted == |s.log| + s.lost + s.pending
  {
    var start: Time, run: seq<Event> :| s == Exec(policy, k, Init(start), run);
    RunKeepsInv(policy, k, start, run, |run|);
  }

  lemma {:induction false} BetweenWithinTwo(log: seq<Stamp>, n: nat, from: Time, to: Time, w1: Time, w2: Time)
    requires w1 != w2 && n <= |log|
    requires forall i :: 0 <= i < |log| && from <= log[i].at <= to ==> log[i].window == w1 || log[i].window == w2
    ensures Between(log, n, from, to) <= InWindow(log, n, w1) + InWindow(log, n, w2)
  {
    if n > 0 { BetweenWithinTwo(log, n - 1, from, to, w1, w2); }
  }

  /** An interval as long as the window, both ends included, meets at most two windows. */
  lemma TwoWindows(policy: Policy, log: seq<Stamp>, from: Time) returns (w1: Time, w2: Time)
    requires policy.window > 0 && WindowsApart(policy, log)
    ensures w1 != w2
    ensures forall i :: 0 <= i < |log| && from <= log[i].at <= from + policy.window ==>
              log[i].window == w1 || log[i].window == w2
  {
    w1, w2 := 0, 1;
    if i :| 0 <= i < |log| && from <= log[i].at <= from + policy.window {
      w1, w2 := log[i].window, log[i].window + 1;
      if j :| 0 <= j < |log| && from <= log[j].at <= from + policy.window && log[j].window != w1 {
        w2 := log[j].window;
      }
    }
  }

  /** At most twice a window's bound is counted in any interval of one window length: 2 * limit when sequential. */
  lemma IntervalBound(policy: Policy, k: nat, s: State, from: Time)
    requires policy.window > 0 && k > 0 && Reachable(policy, k, s)
    ensures CountedBetween(s.log, from, from + policy.window) <= 2 * (Cap(policy) + k - 1)
  {
    var start: Time, run: seq<Event> :| s == Exec(policy, k, Init(start), run);
    RunKeepsInv(policy, k, start, run, |run|);
    WindowBound(policy, k, s);
    var w1, w2 := TwoWindows(policy, s.log, from);
    BetweenWithinTwo(s.log, |s.log|, from, from + policy.window, w1, w2);
    assert CountedInWindow(s.log, w1) <= Cap(policy) + k - 1 && CountedInWindow(s.log, w2) <= Cap(policy) + k - 1;
  }

  /** The window of the i-th counted attempt is still running. */
  predicate Runs(policy: Policy, s: State, i: nat)
    requires i < |s.log|
  {
    s.log[i].window <= s.now < s.log[i].window + policy.window
  }

  lemma {:induction false} SomethingCounted(log: seq<Stamp>, n: nat, window: Time) returns (i: nat)
    requires n <= |log| && InWindow(log, n, window) > 0
    ensures i < n && log[i].window == window
  {
    if log[n - 1].window == window { i := n - 1; } else { i := SomethingCounted(log, n - 1, window); }
  }

  /** The counter is live exactly while the window of a counted attempt runs, and it is that window's. */
  lemma LiveIffWindowRuns(policy: Policy, k: nat, s: State)
    requires policy.window > 0 && Inv(policy, k, s)
    ensures Live(s.counter, s.now) <==> exists i :: 0 <= i < |s.log| && Runs(policy, s, i)
    ensures forall i :: 0 <= i < |s.log| && Runs(policy, s, i) ==>
              CountedInWindow(s.log, s.log[i].window) == s.counter.value.count
  {
    if Live(s.counter, s.now) {
      var i := SomethingCounted(s.log, |s.log|, s.counter.value.expiresAt - policy.window);
      assert Runs(policy, s, i);
    }
    forall i | 0 <= i < |s.log| && Runs(policy, s, i)
      ensures Live(s.counter, s.now) && CountedInWindow(s.log, s.log[i].window) == s.counter.value.count
    {
      assert InOrder(policy, s.counter, s.log[i]);
    }
  }

  /**
   A request is accepted exactly when the window running at the time, if there
   is one, has counted fewer attempts than the limit.
   */
  lemma AcceptedIffBelowLimit(policy: Policy, k: nat, s: State)
    requires policy.window > 0 && Reachable(policy, k, s) && s.pending < k
    ensures var s' := Step(policy, k, s, Check);
            && (s'.accepted == s.accepted + 1 || s' == s)
            && (s'.accepted == s.accepted + 1 <==>
                  forall i :: 0 <= i < |s.log| && Runs(policy, s, i) ==>
                    CountedInWindow(s.log, s.log[i].window) < policy.limit)
  {
    var start: Time, run: seq<Event> :| s == Exec(policy, k, Init(start), run);
    RunKeepsInv(policy, k, start, run, |run|);
    LiveIffWindowRuns(policy, k, s);
    if Live(s.counter, s.now) {
      var i :| 0 <= i < |s.log| && Runs(policy, s, i);
      assert CountedInWindow(s.log, s.log[i].window) == s.counter.value.count;
    }
  }

  // -------------------------------------------------------------- exactness

  /** Straight to the limit: n sequential requests at one time. */
  function Requests(n: nat): seq<Event> {
    if n == 0 then [] else Requests(n - 1) + [Check, Increment]
  }

  function Repeated(e: Event, n: nat): (r: seq<Event>)
    ensures |r| == n
  {
    if n == 0 then [] else Repeated(e, n - 1) + [e]
  }

  lemma {:induction false} SamePrefix(
      policy: Policy, k: nat, s: State, run: seq<Event>, more: seq<Event>, n: nat)
    requires n <= |run|
    ensures After(policy, k, s, run + more, n) == After(policy, k, s, run, n)
  {
    if n > 0 { SamePrefix(policy, k, s, run, more, n - 1); }
  }

  lemma {:induction false} ExecAppend(policy: Policy, k: nat, s: State, run: seq<Event>, e: Event)
    ensures Exec(policy, k, s, run + [e]) == Step(policy, k, Exec(policy, k, s, run), e)
  {
    SamePrefix(policy, k, s, run, [e], |run|);
  }

  lemma {:induction false} AfterConcat(
      policy: Policy, k: nat, s: State, first: seq<Event>, second: seq<Event>, n: nat)
    requires n <= |second|
    ensures After(policy, k, s, first + second, |first| + n)
         == After(policy, k, Exec(policy, k, s, first), second, n)
  {
    if n == 0 {
      SamePrefix(policy, k, s, first, second, |first|);
    } else {
      AfterConcat(policy, k, s, first, second, n - 1);
    }
  }

  lemma {:induction false} ExecConcat(policy: Policy, k: nat, s: State, first: seq<Event>, second: seq<Event>)
    ensures Exec(policy, k, s, first + second) == Exec(policy, k, Exec(policy, k, s, first), second)
  {
    AfterConcat(policy, k, s, first, second, |second|);
  }

  /** A quiet counter: nothing pending and no live window. */
  predicate Quiet(s: State) {
    s.pending == 0 && !Live(s.counter, s.now)
  }

  /** One request that finds room: checked, counted and done. */
  lemma {:induction false} OneRequest(policy: Policy, k: nat, s: State, earlier: seq<Event>)
    requires var t := Exec(policy, k, s, earlier); k > 0 && t.pending == 0 && Admits(policy, t.counter, t.now)
    ensures var t := Exec(policy, k, s, earlier);
            var counter := Incremented(policy, t.counter, t.now);
            var window := if counter.Some? then counter.value.expiresAt - policy.window else t.now;
            Exec(policy, k, s, earlier + [Check, Increment])
            == t.(counter := counter, accepted := t.accepted + 1, log := t.log + [Stamp(t.now, window)])
  {
    assert earlier + [Check, Increment] == (earlier + [Check]) + [Increment];
    ExecAppend(policy, k, s, earlier, Check);
    ExecAppend(policy, k, s, earlier + [Check], Increment);
  }

  lemma {:induction false} OneMoreBetween(log: seq<Stamp>, stamp: Stamp, from: Time, to: Time)
    requires from <= stamp.at <= to
    ensures CountedBetween(log + [stamp], from, to) == CountedBetween(log, from, to) + 1
  {
    SameBetween(log, stamp, |log|, from, to);
  }

  lemma {:induction false} SameBetween(log: seq<Stamp>, stamp: Stamp, n: nat, from: Time, to: Time)
    requires n <= |log|
    ensures Between(log + [stamp], n, from, to) == Between(log, n, from, to)
  {
    if n > 0 { SameBetween(log, stamp, n - 1, from, to); }
  }

  /** A burst of n requests on a quiet counter starts a window and fills it to n. */
  lemma {:induction false} RequestsCount(policy: Policy, k: nat, s: State, n: nat, from: Time, to: Time)
    requires policy.window > 0 && k > 0 && Quiet(s) && n <= policy.limit && from <= s.now <= to
    ensures var s' := Exec(policy, k, s, Requests(n));
            && s'.now == s.now && s'.pending == 0
            && (n > 0 ==> s'.counter == Some(Counter(n, s.now + policy.window)))
            && (n == 0 ==> s'.counter == s.counter)
            && CountedBetween(s'.log, from, to) == CountedBetween(s.log, from, to) + n
    decreases n
  {
    if n > 0 {
      RequestsCount(policy, k, s, n - 1, from, to);
      OneMoreRequest(policy, k, s, Requests(n - 1), n, from, to);
    }
  }

  lemma {:induction false} OneMoreRequest(
      policy: Policy, k: nat, s: State, earlier: seq<Event>, n: nat, from: Time, to: Time)
    requires policy.window > 0 && k > 0 && 1 <= n <= policy.limit
    requires var t := Exec(policy, k, s, earlier);
             && t.pending == 0 && from <= t.now <= to
             && (if n == 1 then !Live(t.counter, t.now) else t.counter == Some(Counter(n - 1, t.now + policy.window)))
    ensures var t := Exec(policy, k, s, earlier);
            var s' := Exec(policy, k, s, earlier + [Check, Increment]);
            && s'.now == t.now && s'.pending == 0 && s'.counter == Some(Counter(n, t.now + policy.window))
            && CountedBetween(s'.log, from, to) == CountedBetween(t.log, from, to) + 1
  {
    OneRequest(policy, k, s, earlier);
    BurstGrows(policy, Exec(policy, k, s, earlier), n, from, to);
  }

  lemma {:induction false} BurstGrows(policy: Policy, t: State, n: nat, from: Time, to: Time)
    requires policy.window > 0 && 1 <= n && from <= t.now <= to
    requires if n == 1 then !Live(t.counter, t.now) else t.counter == Some(Counter(n - 1, t.now + policy.window))
    ensures Incremented(policy, t.counter, t.now) == Some(Counter(n, t.now + policy.window))
    ensures CountedBetween(t.log + [Stamp(t.now, t.now)], from, to) == CountedBetween(t.log, from, to) + 1
  {
    OneMoreBetween(t.log, Stamp(t.now, t.now), from, to);
  }

  /** The sequential bound is exact: twice the limit passes around the edge of a window, whatever the policy. */
  lemma {:induction false} TwiceTheLimitHappens(policy: Policy, start: Time)
    requires policy.window > 0 && policy.limit >= 1
    ensures var run := Requests(policy.limit) + [Tick(policy.window)] + Requests(policy.limit);
            CountedBetween(Exec(policy, 1, Init(start), run).log, start, start + policy.window) == 2 * policy.limit
  {
    var burst := Requests(policy.limit);
    var to := start + policy.window;
    RequestsCount(policy, 1, Init(start), policy.limit, start, to);
    ExecAppend(policy, 1, Init(start), burst, Tick(policy.window));
    var next := Exec(policy, 1, Init(start), burst + [Tick(policy.window)]);
    ExecConcat(policy, 1, Init(start), burst + [Tick(policy.window)], burst);
    RequestsCount(policy, 1, next, policy.limit, start, to);
  }

  lemma {:induction false} ChecksPass(policy: Policy, k: nat, s: State, n: nat)
    requires s.pending + n <= k && Admits(policy, s.counter, s.now)
    ensures Exec(policy, k, s, Repeated(Check, n)) == s.(pending := s.pending + n, accepted := s.accepted + n)
    decreases n
  {
    if n > 0 {
      ChecksPass(policy, k, s, n - 1);
      ExecAppend(policy, k, s, Repeated(Check, n - 1), Check);
    }
  }

  /** One increment of the current window. */
  lemma IncrementLands(policy: Policy, k: nat, s: State, from: Time, to: Time)
    requires policy.window > 0 && s.pending > 0 && from <= s.now <= to
    requires Live(s.counter, s.now) ==> s.counter.value.count >= 1
    ensures var s' := Step(policy, k, s, Increment);
            && s'.counter == Incremented(policy, s.counter, s.now) && Live(s'.counter, s.now)
            && s'.now == s.now && s'.pending == s.pending - 1
            && CountedBetween(s'.log, from, to) == CountedBetween(s.log, from, to) + 1
  {
    var s' := Step(policy, k, s, Increment);
    OneMoreBetween(s.log, s'.log[|s.log|], from, to);
    assert s'.log == s.log + [s'.log[|s.log|]];
  }

  lemma {:induction false} IncrementsLand(policy: Policy, k: nat, s: State, n: nat, from: Time, to: Time)
    requires policy.window > 0 && from <= s.now <= to
    requires Live(s.counter, s.now) && n <= s.pending && s.counter.value.count >= 1
    ensures var s' := Exec(policy, k, s, Repeated(Increment, n));
            && s'.counter == Some(s.counter.value.(count := s.counter.value.count + n))
            && s'.now == s.now && s'.pending == s.pending - n
            && CountedBetween(s'.log, from, to) == CountedBetween(s.log, from, to) + n
    decreases n
  {
    if n > 0 {
      IncrementsLand(policy, k, s, n - 1, from, to);
      ExecAppend(policy, k, s, Repeated(Increment, n - 1), Increment);
      IncrementLands(policy, k, Exec(policy, k, s, Repeated(Increment, n - 1)), from, to);
    }
  }

  /** k increments on a counter that has run out, or has never been, start a window and fill it to k. */
  lemma {:induction false} IncrementsStart(policy: Policy, k: nat, s: State, n: nat, from: Time, to: Time)
    requires policy.window > 0 && !Live(s.counter, s.now) && 1 <= n <= s.pending && from <= s.now <= to
    ensures var s' := Exec(policy, k, s, Repeated(Increment, n));
            && s'.counter == Some(Counter(n, s.now + policy.window))
            && s'.now == s.now && s'.pending == s.pending - n
            && CountedBetween(s'.log, from, to) == CountedBetween(s.log, from, to) + n
    decreases n
  {
    ExecAppend(policy, k, s, Repeated(Increment, n - 1), Increment);
    if n > 1 {
      IncrementsStart(policy, k, s, n - 1, from, to);
    } else {
      assert Exec(policy, k, s, Repeated(Increment, 0)) == s;
    }
    IncrementLands(policy, k, Exec(policy, k, s, Repeated(Increment, n - 1)), from, to);
  }

  /** To one below the cap, then k checks before the first of k increments. */
  function Overshoot(policy: Policy, k: nat): seq<Event> {
    Requests(Cap(policy) - 1) + Repeated(Check, k) + Repeated(Increment, k)
  }

  /** From a quiet counter an overshoot counts cap + k - 1 attempts in one window. */
  lemma {:induction false} OvershootCounts(policy: Policy, k: nat, s: State, from: Time, to: Time)
    requires policy.window > 0 && k > 0 && Quiet(s) && from <= s.now <= to
    ensures var s' := Exec(policy, k, s, Overshoot(policy, k));
            && s'.now == s.now && s'.pending == 0
            && s'.counter == Some(Counter(Cap(policy) + k - 1, s.now + policy.window))
            && CountedBetween(s'.log, from, to) == CountedBetween(s.log, from, to) + Cap(policy) + k - 1
  {
    var n := Cap(policy) - 1;
    var below := OneBelow(policy, k, s, n, from, to);
    var checked := below.(pending := below.pending + k, accepted := below.accepted + k);
    ChecksPass(policy, k, below, k);
    OvershootLands(policy, k, checked, n, from, to);
    ExecThree(policy, k, s, Requests(n), Repeated(Check, k), Repeated(Increment, k), below, checked);
  }

  lemma {:induction false} OneBelow(policy: Policy, k: nat, s: State, n: nat, from: Time, to: Time)
    returns (below: State)
    requires policy.window > 0 && k > 0 && Quiet(s) && n == Cap(policy) - 1 && from <= s.now <= to
    ensures below == Exec(policy, k, s, Requests(n)) && below.now == s.now && below.pending == 0
    ensures if n == 0 then !Live(below.counter, s.now) else below.counter == Some(Counter(n, s.now + policy.window))
    ensures Admits(policy, below.counter, below.now)
    ensures CountedBetween(below.log, from, to) == CountedBetween(s.log, from, to) + n
  {
    below := Exec(policy, k, s, Requests(n));
    if n > 0 {
      RequestsCount(policy, k, s, n, from, to);
    } else {
      assert below == s;
    }
  }

  /** All k increments land, on a window with n attempts or on none. */
  lemma {:induction false} OvershootLands(policy: Policy, k: nat, s: State, n: nat, from: Time, to: Time)
    requires policy.window > 0 && k > 0 && s.pending == k && from <= s.now <= to
    requires if n == 0 then !Live(s.counter, s.now) else s.counter == Some(Counter(n, s.now + policy.window))
    ensures var s' := Exec(policy, k, s, Repeated(Increment, k));
            && s'.now == s.now && s'.pending == 0
            && s'.counter == Some(Counter(n + k, s.now + policy.window))
            && CountedBetween(s'.log, from, to) == CountedBetween(s.log, from, to) + k
  {
    if n > 0 {
      IncrementsLand(policy, k, s, k, from, to);
    } else {
      IncrementsStart(policy, k, s, k, from, to);
    }
  }

  /** The concurrent bound of a window is exact, for every policy. */
  lemma {:induction false} OvershootHappens(policy: Policy, k: nat, start: Time)
    requires policy.window > 0 && k > 0
    ensures var run := Requests(Cap(policy) - 1) + Repeated(Check, k) + Repeated(Increment, k);
            var s := Exec(policy, k, Init(start), run);
            Live(s.counter, s.now) && s.counter.value.count == Cap(policy) + k - 1
  {
    OvershootCounts(policy, k, Init(start), start, start);
  }

  /** And so is the concurrent bound of an interval: an overshoot on either side of a window's edge. */
  lemma {:induction false} TwiceTheOvershootHappens(policy: Policy, k: nat, start: Time)
    requires policy.window > 0 && k > 0
    ensures var run := Overshoot(policy, k) + [Tick(policy.window)] + Overshoot(policy, k);
            CountedBetween(Exec(policy, k, Init(start), run).log, start, start + policy.window)
            == 2 * (Cap(policy) + k - 1)
  {
    var burst := Overshoot(policy, k);
    var to := start + policy.window;
    OvershootCounts(policy, k, Init(start), start, to);
    var full := Exec(policy, k, Init(start), burst);
    var next := full.(now := full.now + policy.window);
    OvershootCounts(policy, k, next, start, to);
    OneTick(policy, k, full, policy.window);
    ExecThree(policy, k, Init(start), burst, [Tick(policy.window)], burst, full, next);
  }

  lemma {:induction false} OneTick(policy: Policy, k: nat, s: State, elapsed: nat)
    ensures Exec(policy, k, s, [Tick(elapsed)]) == s.(now := s.now + elapsed)
  {
    ExecAppend(policy, k, s, [], Tick(elapsed));
    assert [] + [Tick(elapsed)] == [Tick(elapsed)];
  }

  lemma {:induction false} ExecThree(
      policy: Policy, k: nat, s: State, a: seq<Event>, b: seq<Event>, c: seq<Event>, s1: State, s2: State)
    requires Exec(policy, k, s, a) == s1 && Exec(policy, k, s1, b) == s2
    ensures Exec(policy, k, s, a + b + c) == Exec(policy, k, s2, c)
  {
    ExecConcat(policy, k, s, a, b);
    ExecConcat(policy, k, s, a + b, c);
  }

  /**
   A request through the gate, with any events of others between its check and
   its increment, is a run of the machine: same decision, same counter.
   */
  lemma {:induction false} AdmitIsMachineRun(policy: Policy, k: nat, s: State, others: seq<Event>, stored: bool)
    returns (run: seq<Event>)
    requires s.pending < k
    requires var t := Exec(policy, k, Step(policy, k, s, Check), others);
             Admits(policy, s.counter, s.now) ==> t.pending > 0
    ensures var t := Exec(policy, k, Step(policy, k, s, Check), others);
            var (allowed, counter) := Admission(policy, s.counter, s.now, t.counter, t.now, stored);
            var s' := Exec(policy, k, s, run);
            && s'.counter == counter
            && (!allowed ==> s' == s)
            && (allowed ==> s'.pending == t.pending - 1 && s'.accepted == t.accepted && s'.now == t.now)
            && (allowed ==> |s'.log| == |t.log| + (if stored then 1 else 0))
  {
    var checked := Step(policy, k, s, Check);
    ExecAppend(policy, k, s, [], Check);
    assert [] + [Check] == [Check];
    run := [Check];
    if Admits(policy, s.counter, s.now) {
      var last := if stored then Increment else LoseIncrement;
      ExecConcat(policy, k, s, [Check], others);
      ExecAppend(policy, k, s, [Check] + others, last);
      run := [Check] + others + [last];
    }
  }

  /** A window that truncates to zero seconds disables the limiter: no reachable state refuses, whatever the limit. */
  lemma {:induction false} NoWindowNoLimit(policy: Policy, k: nat, start: Time, run: seq<Event>)
    requires policy.window <= 0
    ensures var s := Exec(policy, k, Init(start), run);
            s.counter.None? && Admits(policy, s.counter, s.now)
  {
    NoWindowNoCounter(policy, k, start, run, |run|);
  }

  lemma {:induction false} NoWindowNoCounter(policy: Policy, k: nat, start: Time, run: seq<Event>, n: nat)
    requires policy.window <= 0 && n <= |run|
    ensures After(policy, k, Init(start), run, n).counter.None?
  {
    if n > 0 { NoWindowNoCounter(policy, k, start, run, n - 1); }
  }
}
