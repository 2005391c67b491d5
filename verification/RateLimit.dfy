/** The sliding-window limit of the chat endpoint. */
module RateLimit {
  import opened Common

  datatype Request = Request(key: string, now: real)

  /** IndexFault: with a limit of zero the code reads the first element of an empty deque. */
  datatype Verdict = Admitted | Limited(retryAfter: int) | IndexFault

  datatype Limits = Limits(limit: int, window: real)

  /** The times that lie in (lo, hi]. */
  function InWindow(times: seq<real>, lo: real, hi: real): seq<real> {
    if times == [] then [] else
    var earlier := InWindow(times[..|times| - 1], lo, hi);
    var t := times[|times| - 1];
    if lo < t <= hi then earlier + [t] else earlier
  }

  /** The reference: a request is admitted iff fewer than `limit` were admitted in the window ending now. */
  function AdmittedTimes(c: Limits, log: seq<Request>, key: string): seq<real> {
    if log == [] then [] else
    Extended(c, AdmittedTimes(c, log[..|log| - 1], key), log[|log| - 1], key)
  }

  function Extended(c: Limits, times: seq<real>, r: Request, key: string): seq<real> {
    if r.key == key && |InWindow(times, r.now - c.window, r.now)| < c.limit then times + [r.now] else times
  }

  /** Times in order, none after `now`. */
  ghost predicate UpTo(times: seq<real>, now: real) {
    && (forall j, k :: 0 <= j < k < |times| ==> times[j] <= times[k])
    && (forall k :: 0 <= k < |times| ==> times[k] <= now)
  }

  ghost predicate Ordered(log: seq<Request>) {
    forall j, k :: 0 <= j < k < |log| ==> log[j].now <= log[k].now
  }

  lemma {:induction false} AdmittedInOrder(c: Limits, log: seq<Request>, key: string, now: real)
    requires Ordered(log) && (log != [] ==> log[|log| - 1].now <= now)
    ensures UpTo(AdmittedTimes(c, log, key), now)
  {
    if log == [] {
    } else {
      AdmittedInOrder(c, log[..|log| - 1], key, log[|log| - 1].now);
    }
  }

  lemma {:induction false} WindowMonotone(times: seq<real>, lo: real, hi: real, lo': real, hi': real)
    requires forall k :: 0 <= k < |times| && lo < times[k] <= hi ==> lo' < times[k] <= hi'
    ensures |InWindow(times, lo, hi)| <= |InWindow(times, lo', hi')|
  {
    if times == [] {
    } else {
      WindowMonotone(times[..|times| - 1], lo, hi, lo', hi');
    }
  }

  lemma AdmissionKeepsBound(times: seq<real>, now: real, window: real, limit: int, s: real)
    requires UpTo(times, now) && |InWindow(times, now - window, now)| < limit
    requires |InWindow(times, s, s + window)| <= limit
    ensures |InWindow(times + [now], s, s + window)| <= limit
  {
    assert (times + [now])[..|times|] == times;
    if s < now <= s + window {
      WindowMonotone(times, s, s + window, now - window, now);
    }
  }

  /** Over the whole run, every interval (s, s + window] holds at most `limit` admissions of a key. */
  lemma {:induction false} WindowBound(c: Limits, log: seq<Request>, key: string, s: real)
    requires Ordered(log) && 0 <= c.limit
    ensures |InWindow(AdmittedTimes(c, log, key), s, s + c.window)| <= c.limit
  {
    if log == [] {
    } else {
      var earlier, r := log[..|log| - 1], log[|log| - 1];
      WindowBound(c, earlier, key, s);
      hide InWindow, UpTo;
      AdmittedInOrder(c, earlier, key, r.now);
      var times := AdmittedTimes(c, earlier, key);
      if |InWindow(times, r.now - c.window, r.now)| < c.limit {
        AdmissionKeepsBound(times, r.now, c.window, c.limit, s);
      }
    }
  }

  lemma SuffixStep(times: seq<real>, d: nat)
    requires d < |times|
    ensures times[d..] == times[..|times| - 1][d..] + [times[|times| - 1]]
  {
  }

  /** In ordered times, what is left after dropping the outdated front is the window. */
  lemma {:induction false} WindowIsSuffix(times: seq<real>, d: nat, lo: real, hi: real)
    requires d <= |times| && UpTo(times, hi)
    requires forall k :: 0 <= k < d ==> times[k] <= lo
    requires d < |times| ==> lo < times[d]
    ensures InWindow(times, lo, hi) == times[d..]
  {
    if times == [] {
    } else {
      var n := |times| - 1;
      if d == |times| {
        WindowIsSuffix(times[..n], n, lo, hi);
      } else {
        WindowIsSuffix(times[..n], d, lo, hi);
        SuffixStep(times, d);
      }
    }
  }

  /** The deque is the end of its key's admissions; what it has lost is out of every later window. */
  ghost predicate DequeOk(c: Limits, log: seq<Request>, key: string, deque: seq<real>) {
    var times := AdmittedTimes(c, log, key);
    && |deque| <= |times| && deque == times[|times| - |deque|..]
    && forall k :: 0 <= k < |times| - |deque| ==> log != [] && times[k] <= log[|log| - 1].now - c.window
  }

  function DequeIn(hits: map<string, seq<real>>, key: string): seq<real> {
    if key in hits then hits[key] else []
  }

  ghost predicate KeyOk(c: Limits, log: seq<Request>, hits: map<string, seq<real>>, key: string) {
    DequeOk(c, log, key, DequeIn(hits, key))
  }

  ghost predicate DequesOk(c: Limits, log: seq<Request>, hits: map<string, seq<real>>) {
    Ordered(log) && forall key :: KeyOk(c, log, hits, key)
  }

  class RateLimiter {
    const limits: Limits
    var hits: map<string, seq<real>>
    ghost var log: seq<Request>

    constructor (limits: Limits)
      ensures this.limits == limits && hits == map[] && log == [] && Valid()
    {
      this.limits := limits;
      hits, log := map[], [];
    }

    ghost predicate Valid()
      reads this
    {
      DequesOk(limits, log, hits)
    }

    /** Drop what is outdated from the front of a deque. */
    method Prune(deque: seq<real>, cutoff: real) returns (rest: seq<real>, ghost d: nat)
      ensures d <= |deque| && rest == deque[d..]
      ensures forall k :: 0 <= k < d ==> deque[k] <= cutoff
      ensures rest != [] ==> cutoff < rest[0]
    {
      rest, d := deque, 0;
      while rest != [] && rest[0] <= cutoff
        invariant d <= |deque| && rest == deque[d..]
        invariant forall k :: 0 <= k < d ==> deque[k] <= cutoff
        decreases |rest|
      {
        rest := rest[1..];
        d := d + 1;
      }
    }

    /** One request to the chat endpoint. After pruning, the deque of its key is exactly the admissions
        in (now - window, now]; the request is admitted, and appended, iff there are fewer than the limit. */
    method Dispatch(key: string, now: real) returns (verdict: Verdict)
      requires Valid() && (log != [] ==> log[|log| - 1].now <= now)
      modifies this
      ensures Valid() && log == old(log) + [Request(key, now)]
      ensures var recent := InWindow(AdmittedTimes(limits, old(log), key), now - limits.window, now);
              && (verdict.Admitted? <==> |recent| < limits.limit)
              && DequeIn(hits, key) == (if verdict.Admitted? then recent + [now] else recent)
              && (verdict.Limited? ==> recent != [] && verdict.retryAfter == Max(1, (limits.window - (now - recent[0])).Floor))
              && (verdict.IndexFault? <==> recent == [] && limits.limit <= 0)
      ensures forall other :: other != key ==> DequeIn(hits, other) == DequeIn(old(hits), other)
    {
      hide DequesOk, AdmittedTimes, InWindow, Dropped, DequeIn, Max;
      var deque, d := Prune(DequeIn(hits, key), now - limits.window);
      PrunedIsWindow(limits, log, hits, key, now, deque, d);
      var updated := if |deque| >= limits.limit then deque else deque + [now];
      DequesStay(limits, log, hits, Request(key, now), deque, updated);
      DequeSet(hits, key, updated);
      hits := hits[key := updated];
      log := log + [Request(key, now)];
      if |deque| < limits.limit {
        return Admitted;
      }
      if deque == [] {
        return IndexFault;
      }
      return Limited(Max(1, (limits.window - (now - deque[0])).Floor));
    }
  }

  lemma DequeSet(hits: map<string, seq<real>>, key: string, deque: seq<real>)
    ensures forall other :: DequeIn(hits[key := deque], other) == if other == key then deque else DequeIn(hits, other)
  {
    forall other ensures DequeIn(hits[key := deque], other) == if other == key then deque else DequeIn(hits, other) {
      assert other in hits[key := deque] <==> other in hits || other == key;
    }
  }

  /** The deque is the end of the times, and what comes before it is outdated. */
  ghost predicate Dropped(times: seq<real>, deque: seq<real>, lo: real) {
    && |deque| <= |times| && deque == times[|times| - |deque|..]
    && forall k :: 0 <= k < |times| - |deque| ==> times[k] <= lo
  }

  lemma DequeAt(c: Limits, log: seq<Request>, hits: map<string, seq<real>>, key: string, now: real)
    requires DequesOk(c, log, hits) && (log != [] ==> log[|log| - 1].now <= now)
    ensures Dropped(AdmittedTimes(c, log, key), DequeIn(hits, key), now - c.window)
  {
    assert KeyOk(c, log, hits, key);
  }

  /** What pruning leaves of a key's deque is the window of its admissions. */
  lemma PrunedIsWindow(c: Limits, log: seq<Request>, hits: map<string, seq<real>>, key: string, now: real,
                       rest: seq<real>, d: nat)
    requires DequesOk(c, log, hits) && (log != [] ==> log[|log| - 1].now <= now)
    requires d <= |DequeIn(hits, key)| && rest == DequeIn(hits, key)[d..]
    requires forall k :: 0 <= k < d ==> DequeIn(hits, key)[k] <= now - c.window
    requires rest != [] ==> now - c.window < rest[0]
    ensures rest == InWindow(AdmittedTimes(c, log, key), now - c.window, now)
    ensures Dropped(AdmittedTimes(c, log, key), rest, now - c.window)
  {
    var times, deque := AdmittedTimes(c, log, key), DequeIn(hits, key);
    AdmittedInOrder(c, log, key, now);
    DequeAt(c, log, hits, key, now);
    hide AdmittedTimes, DequesOk, DequeIn, InWindow;
    var lost := |times| - |deque|;
    forall k | 0 <= k < lost + d ensures times[k] <= now - c.window {
      if lost <= k { assert times[k] == deque[k - lost]; }
    }
    WindowIsSuffix(times, lost + d, now - c.window, now);
  }

  lemma AdmittedMore(c: Limits, log: seq<Request>, r: Request, key: string)
    ensures AdmittedTimes(c, log + [r], key) == Extended(c, AdmittedTimes(c, log, key), r, key)
  {
    assert (log + [r])[..|log|] == log;
  }

  lemma OwnDequeStays(c: Limits, log: seq<Request>, r: Request, deque: seq<real>, updated: seq<real>)
    requires deque == InWindow(AdmittedTimes(c, log, r.key), r.now - c.window, r.now)
    requires Dropped(AdmittedTimes(c, log, r.key), deque, r.now - c.window)
    requires updated == if |deque| >= c.limit then deque else deque + [r.now]
    ensures DequeOk(c, log + [r], r.key, updated)
  {
    hide *;
    AdmittedMore(c, log, r, r.key);
    var times := AdmittedTimes(c, log, r.key);
    OwnExtended(c, times, r);
    DroppedMore(times, deque, r.now - c.window, r.now);
    DroppedIsOk(c, log + [r], r.key, updated, r.now - c.window);
  }

  lemma OwnExtended(c: Limits, times: seq<real>, r: Request)
    ensures Extended(c, times, r, r.key)
            == if |InWindow(times, r.now - c.window, r.now)| < c.limit then times + [r.now] else times
  {
  }

  lemma DroppedMore(times: seq<real>, deque: seq<real>, lo: real, now: real)
    requires Dropped(times, deque, lo)
    ensures Dropped(times + [now], deque + [now], lo)
  {
  }

  lemma DroppedIsOk(c: Limits, log: seq<Request>, key: string, deque: seq<real>, lo: real)
    requires Dropped(AdmittedTimes(c, log, key), deque, lo) && log != [] && lo == log[|log| - 1].now - c.window
    ensures DequeOk(c, log, key, deque)
  {
    hide AdmittedTimes;
  }

  lemma OtherDequeStays(c: Limits, log: seq<Request>, r: Request, key: string, deque: seq<real>)
    requires DequeOk(c, log, key, deque) && key != r.key && (log != [] ==> log[|log| - 1].now <= r.now)
    ensures DequeOk(c, log + [r], key, deque)
  {
    AdmittedMore(c, log, r, key);
    hide AdmittedTimes, InWindow;
  }

  lemma DequesStay(c: Limits, log: seq<Request>, hits: map<string, seq<real>>, r: Request,
                   deque: seq<real>, updated: seq<real>)
    requires DequesOk(c, log, hits) && (log != [] ==> log[|log| - 1].now <= r.now)
    requires deque == InWindow(AdmittedTimes(c, log, r.key), r.now - c.window, r.now)
    requires Dropped(AdmittedTimes(c, log, r.key), deque, r.now - c.window)
    requires updated == if |deque| >= c.limit then deque else deque + [r.now]
    ensures DequesOk(c, log + [r], hits[r.key := updated])
  {
    hide DequeOk;
    var log', hits' := log + [r], hits[r.key := updated];
    OwnDequeStays(c, log, r, deque, updated);
    forall key ensures KeyOk(c, log', hits', key) {
      if key != r.key {
        assert KeyOk(c, log, hits, key);
        OtherDequeStays(c, log, r, key, DequeIn(hits, key));
      }
    }
  }
}
