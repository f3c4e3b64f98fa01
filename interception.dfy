/**
  The decisions the fault-injecting interceptors of libchula-qa's memory
  manager take, as pure values: what each policy keeps, what one intercepted
  call does to it, and what a whole series of intercepted calls produces.
  The classes in module MemMgr are proved against `Step`; the lemmas here
  state what the policies promise over any series of calls.
 */
module Interception {

  /** What an interceptor does with a call: hand it to the original
      allocator function, or return NULL without calling it. */
  datatype Outcome = Forwarded | Null

  /** The three allocator entry points an interceptor can stand in for. */
  datatype Call = Malloc | Realloc | Free

  /** One intercepted call, with the manager's `frozen` flag at that moment. */
  datatype Event = Event(call: Call, frozen: bool)

  datatype Counts = Counts(nMalloc: nat, nRealloc: nat, nFree: nat)

  /** The per-kind state of a policy. */
  datatype PolicyState =
    | RandomState(failureRate: real)
    | CounterState(counts: Counts)
    | SchedState(counter: nat, failAfter: nat)

  /** What one intercepted call leaves behind. */
  datatype Reply = Reply(state: PolicyState, outcome: Outcome)

  /** What a series of intercepted calls leaves behind. */
  datatype Trace = Trace(state: PolicyState, outcomes: seq<Outcome>)

  /** The random policy's test: the low byte of the generator's value against
      0xff times the failure rate. `draw` is what chula_random() returned;
      `% 256` is its two's-complement `& 0xff`. */
  predicate RandomDrawFails(draw: int, rate: real)
  {
    (draw % 256) as real <= 255.0 * rate
  }

  /** The counter of `call` raised by one. */
  function Tick(c: Counts, call: Call): Counts
  {
    match call
    case Malloc => c.(nMalloc := c.nMalloc + 1)
    case Realloc => c.(nRealloc := c.nRealloc + 1)
    case Free => c.(nFree := c.nFree + 1)
  }

  /** One intercepted call under policy `p`; `draw` is read only by the
      random policy, and only when it asks the generator. */
  function Step(p: PolicyState, e: Event, draw: int): Reply
  {
    match p
    case RandomState(rate) =>
      Reply(p, if e.call != Free && !e.frozen && RandomDrawFails(draw, rate) then Null else Forwarded)
    case CounterState(c) =>
      Reply(if e.frozen then p else CounterState(Tick(c, e.call)), Forwarded)
    case SchedState(n, f) =>
      if e.call == Free then
        Reply(SchedState(if e.frozen then n else n + 1, f), Forwarded)
      else
        Reply(SchedState(n + 1, f), if !e.frozen && n + 1 > f then Null else Forwarded)
  }

  /** The calls `events` intercepted one after the other under policy `p`,
      the i-th with generator value `draws[i]`. A policy keeps its kind and
      its configuration, the random policy does not change at all, and the
      scheduled-failure counter never goes down. */
  function Run(p: PolicyState, events: seq<Event>, draws: seq<int>): (r: Trace)
    requires |draws| == |events|
    ensures |r.outcomes| == |events|
    ensures p.RandomState? ==> r.state == p
    ensures p.CounterState? ==> r.state.CounterState?
    ensures p.SchedState? ==> r.state.SchedState? && r.state.failAfter == p.failAfter && r.state.counter >= p.counter
    decreases |events|
  {
    if events == [] then Trace(p, [])
    else
      var first := Step(p, events[0], draws[0]);
      var rest := Run(first.state, events[1..], draws[1..]);
      Trace(rest.state, [first.outcome] + rest.outcomes)
  }

  /** Running two series one after the other is running their concatenation. */
  lemma {:induction false} RunAppend(p: PolicyState, a: seq<Event>, b: seq<Event>, da: seq<int>, db: seq<int>)
    requires |da| == |a| && |db| == |b|
    ensures Run(p, a + b, da + db)
         == Trace(Run(Run(p, a, da).state, b, db).state,
                  Run(p, a, da).outcomes + Run(Run(p, a, da).state, b, db).outcomes)
    decreases |a|
  {
    if a == [] {
      assert a + b == b && da + db == db;
    } else {
      var first := Step(p, a[0], da[0]);
      assert (a + b)[1..] == a[1..] + b;
      assert (da + db)[1..] == da[1..] + db;
      RunAppend(first.state, a[1..], b, da[1..], db);
    }
  }

  /** The i-th outcome of a series is the one the i-th call gets in the state
      the first i calls left. */
  lemma OutcomeAt(p: PolicyState, events: seq<Event>, draws: seq<int>, i: nat)
    requires |draws| == |events| && i < |events|
    ensures Run(p, events, draws).outcomes[i]
         == Step(Run(p, events[..i], draws[..i]).state, events[i], draws[i]).outcome
  {
    assert events == events[..i] + events[i..];
    assert draws == draws[..i] + draws[i..];
    RunAppend(p, events[..i], events[i..], draws[..i], draws[i..]);
  }

  /** While the manager is frozen, no policy refuses a call. */
  lemma FrozenCallsForward(p: PolicyState, events: seq<Event>, draws: seq<int>, i: nat)
    requires |draws| == |events| && i < |events|
    requires events[i].frozen
    ensures Run(p, events, draws).outcomes[i] == Forwarded
  {
    OutcomeAt(p, events, draws, i);
  }

  /** No policy ever refuses a release. */
  lemma FreeCallsForward(p: PolicyState, events: seq<Event>, draws: seq<int>, i: nat)
    requires |draws| == |events| && i < |events|
    requires events[i].call == Free
    ensures Run(p, events, draws).outcomes[i] == Forwarded
  {
    OutcomeAt(p, events, draws, i);
  }

  /** The counter policy forwards every call. */
  lemma CounterForwardsAll(c: Counts, events: seq<Event>, draws: seq<int>, i: nat)
    requires |draws| == |events| && i < |events|
    ensures Run(CounterState(c), events, draws).outcomes[i] == Forwarded
  {
    OutcomeAt(CounterState(c), events, draws, i);
  }

  /** The counter policy's tallies grow by exactly the number of calls of
      each kind made while the manager was not frozen. */
  lemma {:induction false} CounterTally(c: Counts, events: seq<Event>, draws: seq<int>)
    requires |draws| == |events|
    ensures Run(CounterState(c), events, draws).state
         == CounterState(Counts(c.nMalloc + multiset(events)[Event(Malloc, false)],
                                c.nRealloc + multiset(events)[Event(Realloc, false)],
                                c.nFree + multiset(events)[Event(Free, false)]))
    decreases |events|
  {
    if events != [] {
      assert events == [events[0]] + events[1..];
      assert multiset(events) == multiset{events[0]} + multiset(events[1..]);
      CounterTally(Step(CounterState(c), events[0], draws[0]).state.counts, events[1..], draws[1..]);
    }
  }

  /** The scheduled-failure counter grows by one for every call except a
      release made while frozen: allocations count even while frozen. */
  lemma {:induction false} SchedTally(n: nat, f: nat, events: seq<Event>, draws: seq<int>)
    requires |draws| == |events|
    ensures multiset(events)[Event(Free, true)] <= |events|
    ensures Run(SchedState(n, f), events, draws).state
         == SchedState(n + |events| - multiset(events)[Event(Free, true)], f)
    decreases |events|
  {
    if events != [] {
      assert events == [events[0]] + events[1..];
      assert multiset(events) == multiset{events[0]} + multiset(events[1..]);
      SchedTally(Step(SchedState(n, f), events[0], draws[0]).state.counter, f, events[1..], draws[1..]);
    }
  }

  /** The threshold rule: the i-th call fails exactly when it is an
      allocation, the manager is not frozen, and the counter, after counting
      this call, exceeds `fail_after`. */
  lemma SchedThreshold(n: nat, f: nat, events: seq<Event>, draws: seq<int>, i: nat)
    requires |draws| == |events| && i < |events|
    ensures multiset(events[..i + 1])[Event(Free, true)] <= i + 1
    ensures Run(SchedState(n, f), events, draws).outcomes[i] == Null
        <==> events[i].call != Free && !events[i].frozen
             && n + (i + 1) - multiset(events[..i + 1])[Event(Free, true)] > f
  {
    OutcomeAt(SchedState(n, f), events, draws, i);
    SchedTally(n, f, events[..i], draws[..i]);
    SchedTally(n, f, events[..i + 1], draws[..i + 1]);
    assert events[..i + 1] == events[..i] + [events[i]];
  }

  /** From a fresh counter, with every call an allocation made while not
      frozen, exactly the first `fail_after` calls are forwarded. */
  lemma SchedFirstCallsSucceed(f: nat, events: seq<Event>, draws: seq<int>, i: nat)
    requires |draws| == |events| && i < |events|
    requires forall k :: 0 <= k < |events| ==> events[k].call != Free && !events[k].frozen
    ensures Run(SchedState(0, f), events, draws).outcomes[i] == Forwarded <==> i < f
  {
    SchedThreshold(0, f, events, draws, i);
    assert Event(Free, true) !in events[..i + 1];
  }

  /** Once an unfrozen allocation has failed, every later unfrozen
      allocation fails too: the counter never goes back. */
  lemma SchedStaysFailed(n: nat, f: nat, events: seq<Event>, draws: seq<int>, i: nat, j: nat)
    requires |draws| == |events| && i < j < |events|
    requires Run(SchedState(n, f), events, draws).outcomes[i] == Null
    requires events[j].call != Free && !events[j].frozen
    ensures Run(SchedState(n, f), events, draws).outcomes[j] == Null
  {
    var p := SchedState(n, f);
    OutcomeAt(p, events, draws, i);
    OutcomeAt(p, events, draws, j);
    var mid := Run(p, events[..i + 1], draws[..i + 1]).state;
    assert events[..i + 1] == events[..i] + [events[i]];
    assert draws[..i + 1] == draws[..i] + [draws[i]];
    RunAppend(p, events[..i], [events[i]], draws[..i], [draws[i]]);
    assert mid.counter > f;
    assert events[..j] == events[..i + 1] + events[i + 1..j];
    assert draws[..j] == draws[..i + 1] + draws[i + 1..j];
    RunAppend(p, events[..i + 1], events[i + 1..j], draws[..i + 1], draws[i + 1..j]);
  }

  /** At a failure rate of 1.0 or more, every unfrozen allocation fails. */
  lemma RandomFullRateFails(rate: real, events: seq<Event>, draws: seq<int>, i: nat)
    requires |draws| == |events| && i < |events|
    requires rate >= 1.0
    requires events[i].call != Free && !events[i].frozen
    ensures Run(RandomState(rate), events, draws).outcomes[i] == Null
  {
    OutcomeAt(RandomState(rate), events, draws, i);
  }

  /** At a failure rate of 0.0, an unfrozen allocation still fails when the
      generator's low byte is 0: the comparison is `<=`. */
  lemma RandomZeroRate(events: seq<Event>, draws: seq<int>, i: nat)
    requires |draws| == |events| && i < |events|
    ensures Run(RandomState(0.0), events, draws).outcomes[i] == Null
        <==> events[i].call != Free && !events[i].frozen && draws[i] % 256 == 0
  {
    OutcomeAt(RandomState(0.0), events, draws, i);
  }

  /** A negative failure rate never fails a call. */
  lemma RandomNegativeRateForwards(rate: real, events: seq<Event>, draws: seq<int>, i: nat)
    requires |draws| == |events| && i < |events|
    requires rate < 0.0
    ensures Run(RandomState(rate), events, draws).outcomes[i] == Forwarded
  {
    OutcomeAt(RandomState(rate), events, draws, i);
  }
}
