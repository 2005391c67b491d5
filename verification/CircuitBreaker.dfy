/** The gateway's per-upstream circuit breaker. */
module CircuitBreakers {
  import opened Common

  /** A recorded outcome of a call to the upstream of this key. */
  datatype Event = Event(key: string, time: real, failed: bool)

  /** How many failures of the key were recorded since its last success. */
  function TrailingFailures(log: seq<Event>, key: string): nat {
    if log == [] then 0 else
    var e := log[|log| - 1];
    var before := TrailingFailures(log[..|log| - 1], key);
    if e.key != key then before else if e.failed then before + 1 else 0
  }

  function LastFailure(log: seq<Event>, key: string): Option<real> {
    if log == [] then None else
    var e := log[|log| - 1];
    if e.key == key && e.failed then Some(e.time) else LastFailure(log[..|log| - 1], key)
  }

  /** The reference: enough failures in a row, the last of them less than the cooldown ago. */
  predicate IsOpenBy(log: seq<Event>, key: string, threshold: int, cooldown: real, now: real) {
    && TrailingFailures(log, key) >= Max(1, threshold)
    && LastFailure(log, key).Some?
    && now - LastFailure(log, key).value < cooldown
  }

  /** What is recorded for other keys does not matter. */
  lemma {:induction false} KeysIndependent(log: seq<Event>, key: string, others: seq<Event>)
    requires forall k :: 0 <= k < |others| ==> others[k].key != key
    ensures TrailingFailures(log + others, key) == TrailingFailures(log, key)
    ensures LastFailure(log + others, key) == LastFailure(log, key)
  {
    if others == [] {
      assert log + others == log;
    } else {
      assert (log + others)[..|log + others| - 1] == log + others[..|others| - 1];
      KeysIndependent(log, key, others[..|others| - 1]);
    }
  }

  datatype State = State(failures: nat, openedAt: Option<real>)

  function StateOf(log: seq<Event>, key: string, threshold: int): State {
    State(TrailingFailures(log, key), if TrailingFailures(log, key) >= Max(1, threshold) then LastFailure(log, key) else None)
  }

  class CircuitBreaker {
    const threshold: int
    const cooldown: real
    var states: map<string, State>
    ghost var log: seq<Event>

    constructor (threshold: int, cooldown: real)
      ensures this.threshold == threshold && this.cooldown == cooldown && log == [] && Valid()
    {
      this.threshold, this.cooldown := threshold, cooldown;
      states, log := map[], [];
    }

    ghost predicate Valid()
      reads this
    {
      forall key :: StateIn(states, key) == StateOf(log, key, threshold)
    }

    /** `setdefault`: a key not seen before starts closed. */
    method EnsureState(key: string) returns (state: State)
      modifies this`states
      ensures state == StateIn(old(states), key) && key in states
      ensures forall k :: StateIn(states, k) == StateIn(old(states), k)
    {
      if key !in states {
        states := states[key := State(0, None)];
      }
      state := states[key];
    }

    method SetState(key: string, state: State)
      modifies this`states
      ensures forall k :: StateIn(states, k) == if k == key then state else StateIn(old(states), k)
    {
      states := states[key := state];
    }

    method IsOpen(key: string, now: real) returns (open: bool)
      requires Valid()
      modifies this`states
      ensures Valid() && open == IsOpenBy(log, key, threshold, cooldown, now)
    {
      var state := EnsureState(key);
      LastFailureKnown(log, key);
      assert StateIn(states, key) == StateOf(log, key, threshold);
      if state.openedAt == None {
        return false;
      }
      if now - state.openedAt.value >= cooldown {
        return false;
      }
      return true;
    }

    method RecordSuccess(key: string, now: real)
      requires Valid()
      modifies this
      ensures Valid() && log == old(log) + [Event(key, now, false)]
    {
      hide StateIn, StateOf, TrailingFailures, LastFailure;
      LogMore(log, Event(key, now, false), threshold);
      var _ := EnsureState(key);
      SetState(key, State(0, None));
      log := log + [Event(key, now, false)];
    }

    method RecordFailure(key: string, now: real)
      requires Valid()
      modifies this
      ensures Valid() && log == old(log) + [Event(key, now, true)]
    {
      hide StateIn, StateOf, TrailingFailures, LastFailure;
      LogMore(log, Event(key, now, true), threshold);
      var state := EnsureState(key);
      state := state.(failures := state.failures + 1);
      if state.failures >= threshold {
        state := state.(openedAt := Some(now));
      }
      SetState(key, state);
      log := log + [Event(key, now, true)];
    }
  }

  function StateIn(states: map<string, State>, key: string): State {
    if key in states then states[key] else State(0, None)
  }

  lemma {:induction false} LastFailureKnown(log: seq<Event>, key: string)
    ensures TrailingFailures(log, key) > 0 ==> LastFailure(log, key).Some?
  {
    if log == [] {
    } else {
      LastFailureKnown(log[..|log| - 1], key);
    }
  }

  lemma LogMore(log: seq<Event>, e: Event, threshold: int)
    ensures forall key :: key != e.key ==> StateOf(log + [e], key, threshold) == StateOf(log, key, threshold)
    ensures var state := StateOf(log, e.key, threshold);
            StateOf(log + [e], e.key, threshold)
            == if !e.failed then State(0, None)
               else State(state.failures + 1, if state.failures + 1 >= threshold then Some(e.time) else state.openedAt)
  {
    assert (log + [e])[..|log|] == log;
  }

  // ---------------------------------------------------------------- a dead upstream

  /** A request to a dead upstream: when it arrives, and when its attempt would have failed. */
  datatype Arrival = Arrival(start: real, finish: real)

  ghost predicate NonOverlapping(arrivals: seq<Arrival>) {
    && (forall k :: 0 <= k < |arrivals| ==> arrivals[k].start <= arrivals[k].finish)
    && (forall j, k :: 0 <= j < k < |arrivals| ==> arrivals[j].finish <= arrivals[k].start)
  }

  /** The failures that the attempts have recorded. */
  function Failures(key: string, attempts: seq<Arrival>): seq<Event> {
    seq(|attempts|, k requires 0 <= k < |attempts| => Event(key, attempts[k].finish, true))
  }

  /** The arrivals that find the circuit closed, and so reach the upstream. */
  function Attempts(key: string, threshold: int, cooldown: real, arrivals: seq<Arrival>): seq<Arrival> {
    if arrivals == [] then [] else
    var before := Attempts(key, threshold, cooldown, arrivals[..|arrivals| - 1]);
    var a := arrivals[|arrivals| - 1];
    if IsOpenBy(Failures(key, before), key, threshold, cooldown, a.start) then before else before + [a]
  }

  lemma {:induction false} FailuresCount(key: string, attempts: seq<Arrival>)
    ensures TrailingFailures(Failures(key, attempts), key) == |attempts|
    ensures attempts != [] ==> LastFailure(Failures(key, attempts), key) == Some(attempts[|attempts| - 1].finish)
  {
    if attempts == [] {
    } else {
      var n := |attempts| - 1;
      assert Failures(key, attempts)[..n] == Failures(key, attempts[..n]);
      FailuresCount(key, attempts[..n]);
    }
  }

  /** Against a dead upstream, the first `threshold` calls go through; after that, an attempt starts no
      sooner than the cooldown after the one before it has failed. */
  lemma {:induction false} AttemptsAreSpaced(key: string, threshold: int, cooldown: real, arrivals: seq<Arrival>, k: nat)
    requires NonOverlapping(arrivals)
    requires 1 <= k < |Attempts(key, threshold, cooldown, arrivals)| && Max(1, threshold) <= k
    ensures var attempts := Attempts(key, threshold, cooldown, arrivals);
            cooldown <= attempts[k].start - attempts[k - 1].finish
  {
    var before := Attempts(key, threshold, cooldown, arrivals[..|arrivals| - 1]);
    if k < |before| {
      AttemptsAreSpaced(key, threshold, cooldown, arrivals[..|arrivals| - 1], k);
    } else {
      FailuresCount(key, before);
    }
  }

  lemma {:induction false} EarlyCallsGoThrough(key: string, threshold: int, cooldown: real, arrivals: seq<Arrival>)
    requires |arrivals| <= Max(1, threshold)
    ensures Attempts(key, threshold, cooldown, arrivals) == arrivals
  {
    if arrivals == [] {
    } else {
      var n := |arrivals| - 1;
      EarlyCallsGoThrough(key, threshold, cooldown, arrivals[..n]);
      FailuresCount(key, arrivals[..n]);
      assert arrivals == arrivals[..n] + [arrivals[n]];
    }
  }

  /** Exactly when a call to a dead upstream goes through: while fewer than `threshold` have failed, and from the moment on
      when the cooldown since the last failure is over. */
  lemma GoesThroughIff(key: string, threshold: int, cooldown: real, arrivals: seq<Arrival>, a: Arrival)
    ensures var before := Attempts(key, threshold, cooldown, arrivals);
            Attempts(key, threshold, cooldown, arrivals + [a])
            == if |before| < Max(1, threshold) || cooldown <= a.start - before[|before| - 1].finish then before + [a] else before
  {
    var before := Attempts(key, threshold, cooldown, arrivals);
    assert (arrivals + [a])[..|arrivals|] == arrivals;
    FailuresCount(key, before);
  }
}
