/** Delivery of one notification: sending, retrying, cancelling, and workers that die in between. */
module Notifications {
  import opened Common

  datatype Status = Pending | Processing | Sent | Failed | Retrying | Cancelled

  datatype Attempt = Attempt(number: nat, status: Status)

  /** The row of a notification and its attempt rows. */
  datatype Notification = Notification(
    isEmail: bool,
    status: Status,
    retryCount: nat,
    maxRetryCount: nat,
    scheduledAt: Option<int>,
    attempts: seq<Attempt>)

  datatype Error = NotEmail | AlreadySent | IsCancelled | InProgress | NotSendable | RetriesExhausted | NotDue | NotRetryable

  /** How the provider answers; an unexpected exception counts as a permanent failure. */
  datatype Outcome = Delivered | Rejected(retryable: bool)

  // ---------------------------------------------------------------- the operations on the row

  /** `_validate_delivery_state`. */
  function DeliveryError(n: Notification): Option<Error> {
    if !n.isEmail then Some(NotEmail)
    else if n.status == Sent then Some(AlreadySent)
    else if n.status == Cancelled then Some(IsCancelled)
    else if n.status == Processing then Some(InProgress)
    else if n.status == Failed && n.retryCount >= n.maxRetryCount then Some(RetriesExhausted)
    else None
  }

  /** The first half of `send_notification`: PROCESSING is committed before the provider is called. */
  function BeginSend(n: Notification, now: int): Result<Notification, Error> {
    if DeliveryError(n).Some? then Err(DeliveryError(n).value)
    else if n.scheduledAt.Some? && n.scheduledAt.value > now then Err(NotDue)
    else Ok(n.(status := Processing))
  }

  /** The second half: record the attempt that was numbered before the call. */
  function FinishSend(n: Notification, number: nat, outcome: Outcome): Notification {
    match outcome
    case Delivered => n.(status := Sent, attempts := n.attempts + [Attempt(number, Sent)])
    case Rejected(retryable) =>
      var count := n.retryCount + 1;
      var status := if retryable && count < n.maxRetryCount then Retrying else Failed;
      n.(status := status, retryCount := count, attempts := n.attempts + [Attempt(number, status)])
  }

  function Retry(n: Notification, reset: bool): Result<Notification, Error> {
    if n.status != Failed && n.status != Retrying then Err(NotRetryable)
    else if !reset && n.retryCount >= n.maxRetryCount then Err(RetriesExhausted)
    else Ok(n.(status := Retrying, retryCount := if reset then 0 else n.retryCount))
  }

  function Cancel(n: Notification): Result<Notification, Error> {
    if n.status == Sent then Err(AlreadySent)
    else if n.status == Cancelled then Ok(n)
    else if n.status == Processing then Err(InProgress)
    else Ok(n.(status := Cancelled))
  }

  // ---------------------------------------------------------------- runs

  /** The row, the attempt numbers workers hold between their two commits, and two counts of what happened. */
  datatype State = State(row: Notification, workers: multiset<nat>, sends: nat, resets: nat)

  datatype Event =
    | Begin(now: int)
    | Finish(number: nat, outcome: Outcome)
    | Crash(number: nat)
    | RetryRequest(reset: bool)
    | CancelRequest

  /** Any interleaving: a worker that began may finish, or die and leave the row in PROCESSING. */
  function Step(s: State, e: Event): State {
    match e
    case Begin(now) =>
      (match BeginSend(s.row, now)
       case Err(_) => s
       case Ok(row) => s.(row := row, workers := s.workers + multiset{|s.row.attempts| + 1}, sends := s.sends + 1))
    case Finish(number, outcome) =>
      if number !in s.workers then s
      else s.(row := FinishSend(s.row, number, outcome), workers := s.workers - multiset{number})
    case Crash(number) => s.(workers := s.workers - multiset{number})
    case RetryRequest(reset) =>
      (match Retry(s.row, reset)
       case Err(_) => s
       case Ok(row) => s.(row := row, resets := s.resets + if reset then 1 else 0))
    case CancelRequest =>
      (match Cancel(s.row)
       case Err(_) => s
       case Ok(row) => s.(row := row))
  }

  function Run(s: State, events: seq<Event>): State {
    if events == [] then s else Step(Run(s, events[..|events| - 1]), events[|events| - 1])
  }

  function Created(isEmail: bool, maxRetryCount: nat, scheduledAt: Option<int>): State {
    State(Notification(isEmail, Pending, 0, maxRetryCount, scheduledAt, []), multiset{}, 0, 0)
  }

  /** At least one attempt is always allowed. */
  function Budget(row: Notification): nat {
    if row.maxRetryCount == 0 then 1 else row.maxRetryCount
  }

  /** n times b, by repeated addition. */
  function Times(n: nat, b: nat): nat {
    if n == 0 then 0 else Times(n - 1, b) + b
  }

  lemma {:induction false} TimesIsProduct(n: nat, b: nat)
    ensures Times(n, b) == n * b
  {
    if n == 0 {
    } else {
      TimesIsProduct(n - 1, b);
      assert n * b == (n - 1) * b + b;
    }
  }

  /** Attempts are numbered 1, 2, ...; only the last one can have been delivered. */
  ghost predicate AttemptsOk(attempts: seq<Attempt>) {
    && (forall k :: 0 <= k < |attempts| ==> attempts[k].number == k + 1)
    && (forall k :: 0 <= k < |attempts| - 1 ==> attempts[k].status != Sent)
  }

  ghost predicate Invariant(s: State) {
    var row := s.row;
    && AttemptsOk(row.attempts)
    && (row.status == Sent <==> row.attempts != [] && row.attempts[|row.attempts| - 1].status == Sent)
    && (s.workers == multiset{} || (row.status == Processing && s.workers == multiset{|row.attempts| + 1}))
    && s.sends <= Times(s.resets, Budget(row)) + row.retryCount + (if row.status == Processing || row.status == Sent then 1 else 0)
    && row.retryCount <= Budget(row)
    && (row.status in {Pending, Retrying, Processing, Sent} ==> row.retryCount < Budget(row))
    && s.sends == |row.attempts| + (if row.status == Processing then 1 else 0)
  }

  lemma FinishKeeps(s: State, number: nat, outcome: Outcome)
    requires Invariant(s)
    ensures Invariant(Step(s, Finish(number, outcome)))
  {
    var s' := Step(s, Finish(number, outcome));
    if number in s.workers {
      assert number == |s.row.attempts| + 1;
      assert s'.workers == multiset{};
      var last := s'.row.attempts[|s.row.attempts|];
      assert s'.row.attempts == s.row.attempts + [last];
    }
  }

  lemma OtherStepKeeps(s: State, e: Event)
    requires Invariant(s) && !e.Finish?
    ensures Invariant(Step(s, e))
  {
    hide Invariant, Step;
    match e
    case Begin(now) => BeginKeeps(s, now);
    case Crash(number) => CrashKeeps(s, number);
    case RetryRequest(reset) => RetryKeeps(s, reset);
    case CancelRequest => CancelKeeps(s);
  }

  lemma CrashKeeps(s: State, number: nat)
    requires Invariant(s)
    ensures Invariant(Step(s, Crash(number)))
  {
    hide AttemptsOk;
    if number in s.workers {
      assert Step(s, Crash(number)).workers == multiset{};
    }
  }

  lemma RetryKeeps(s: State, reset: bool)
    requires Invariant(s)
    ensures Invariant(Step(s, RetryRequest(reset)))
  {
    hide AttemptsOk;
  }

  lemma CancelKeeps(s: State)
    requires Invariant(s)
    ensures Invariant(Step(s, CancelRequest))
  {
    hide AttemptsOk;
  }

  lemma BeginKeeps(s: State, now: int)
    requires Invariant(s)
    ensures Invariant(Step(s, Begin(now)))
  {
    hide AttemptsOk;
    if BeginSend(s.row, now).Ok? {
      assert Step(s, Begin(now)).workers == multiset{|s.row.attempts| + 1};
    }
  }

  lemma StepKeeps(s: State, e: Event)
    requires Invariant(s)
    ensures Invariant(Step(s, e))
    ensures s.row.status == Sent || s.row.status == Cancelled ==> Step(s, e).row == s.row
    ensures Step(s, e).row.maxRetryCount == s.row.maxRetryCount
  {
    if e.Finish? {
      FinishKeeps(s, e.number, e.outcome);
    } else {
      OtherStepKeeps(s, e);
    }
  }

  lemma {:induction false} RunKeeps(s: State, events: seq<Event>)
    requires Invariant(s)
    ensures Invariant(Run(s, events)) && Run(s, events).row.maxRetryCount == s.row.maxRetryCount
    ensures s.row.status == Sent || s.row.status == Cancelled ==> Run(s, events).row == s.row
  {
    if events == [] {
    } else {
      RunKeeps(s, events[..|events| - 1]);
      StepKeeps(Run(s, events[..|events| - 1]), events[|events| - 1]);
    }
  }

  /**
   Delivery budget: whatever the interleaving of sends, retries, cancels and crashes, the provider is
   called at most (resets + 1) * max(1, max_retry_count) times.
   */
  lemma DeliveryBudget(isEmail: bool, maxRetryCount: nat, scheduledAt: Option<int>, events: seq<Event>)
    ensures var s := Run(Created(isEmail, maxRetryCount, scheduledAt), events);
            && s.sends <= (s.resets + 1) * Max(1, maxRetryCount)
            && s.row.retryCount <= Max(1, maxRetryCount)
            && |s.row.attempts| <= s.sends
            && AttemptsOk(s.row.attempts)
  {
    hide Run, Invariant, AttemptsOk, Times;
    var s0 := Created(isEmail, maxRetryCount, scheduledAt);
    CreatedOk(isEmail, maxRetryCount, scheduledAt);
    RunKeeps(s0, events);
    var s := Run(s0, events);
    WithinBudget(s);
    TimesIsProduct(s.resets + 1, Budget(s.row));
    assert Budget(s.row) == Max(1, maxRetryCount);
  }

  lemma WithinBudget(s: State)
    requires Invariant(s)
    ensures s.sends <= Times(s.resets + 1, Budget(s.row)) && s.row.retryCount <= Budget(s.row)
    ensures |s.row.attempts| <= s.sends && AttemptsOk(s.row.attempts)
  {
    hide AttemptsOk, Budget;
  }

  lemma {:induction false} RunAppend(s: State, a: seq<Event>, b: seq<Event>)
    ensures Run(s, a + b) == Run(Run(s, a), b)
  {
    if b == [] {
      assert a + b == a;
    } else {
      assert (a + b)[..|a + b| - 1] == a + b[..|b| - 1];
      RunAppend(s, a, b[..|b| - 1]);
    }
  }

  /** SENT and CANCELLED are final: nothing that happens afterwards changes the row. */
  lemma FinalStatuses(isEmail: bool, maxRetryCount: nat, scheduledAt: Option<int>, before: seq<Event>, after: seq<Event>)
    requires var row := Run(Created(isEmail, maxRetryCount, scheduledAt), before).row;
             row.status == Sent || row.status == Cancelled
    ensures var s0 := Created(isEmail, maxRetryCount, scheduledAt);
            Run(s0, before + after).row == Run(s0, before).row
  {
    var s0 := Created(isEmail, maxRetryCount, scheduledAt);
    RunKeeps(s0, before);
    RunAppend(s0, before, after);
    RunKeeps(Run(s0, before), after);
  }

  /** A worker that dies between its commits leaves the row in PROCESSING for good: it is never sent again. */
  lemma {:induction false} CrashIsStuck(s: State, events: seq<Event>)
    requires Invariant(s) && s.row.status == Processing && s.workers == multiset{}
    ensures Run(s, events).row == s.row && Run(s, events).sends == s.sends && Run(s, events).workers == multiset{}
  {
    if events == [] {
    } else {
      CrashIsStuck(s, events[..|events| - 1]);
      StuckStep(Run(s, events[..|events| - 1]), events[|events| - 1]);
      hide Step, Invariant;
    }
  }

  lemma StuckStep(s: State, e: Event)
    requires s.row.status == Processing && s.workers == multiset{}
    ensures Step(s, e).row == s.row && Step(s, e).sends == s.sends && Step(s, e).workers == multiset{}
  {
    hide FinishSend;
  }

  /** What happens leaves the row as it is. */
  predicate Unmoved(s: State, events: seq<Event>) {
    Run(s, events).row == s.row
  }

  /** PROCESSING is for good exactly when no worker is left that could still finish. */
  lemma StuckIff(s: State)
    requires Invariant(s) && s.row.status == Processing
    ensures (forall events :: Unmoved(s, events)) <==> s.workers == multiset{}
  {
    if s.workers == multiset{} {
      forall events ensures Unmoved(s, events) {
        CrashIsStuck(s, events);
      }
    } else {
      var finish := Finish(|s.row.attempts| + 1, Delivered);
      RunOne(s, finish);
      assert !Unmoved(s, [finish]);
    }
  }

  /** Such a state is reached: a worker dies after its first commit. */
  lemma CrashLeavesProcessing()
    ensures var s := Run(Created(true, 3, None), [Begin(0), Crash(1)]);
            Invariant(s) && s.row.status == Processing && s.workers == multiset{}
  {
    hide *;
    var s0 := Created(true, 3, None);
    CreatedOk(true, 3, None);
    RunKeeps(s0, [Begin(0), Crash(1)]);
    RunTwo(s0, Begin(0), Crash(1));
    BeginThenCrash();
  }

  lemma CreatedOk(isEmail: bool, maxRetryCount: nat, scheduledAt: Option<int>)
    ensures Invariant(Created(isEmail, maxRetryCount, scheduledAt))
  {
  }

  lemma BeginThenCrash()
    ensures var s := Step(Step(Created(true, 3, None), Begin(0)), Crash(1));
            s.row.status == Processing && s.workers == multiset{}
  {
    var begun := Step(Created(true, 3, None), Begin(0));
    assert begun.workers == multiset{1};
  }

  lemma RunTwo(s: State, a: Event, b: Event)
    ensures Run(s, [a, b]) == Step(Step(s, a), b)
  {
    assert [a, b][..1] == [a];
    RunOne(s, a);
  }

  lemma RunOne(s: State, e: Event)
    ensures Run(s, [e]) == Step(s, e)
  {
    assert [e][..0] == [];
  }

  // ---------------------------------------------------------------- what each event does, after any run

  predicate SameTermsOf(n: Notification, n': Notification) {
    n'.isEmail == n.isEmail && n'.scheduledAt == n.scheduledAt && n'.maxRetryCount == n.maxRetryCount
  }

  ghost predicate SameTerms(s: State, s': State) {
    SameTermsOf(s.row, s'.row)
  }

  lemma StepFixed(s: State, e: Event)
    ensures SameTerms(s, Step(s, e))
  {
    hide DeliveryError;
    RowFixed(s.row);
    hide FinishSend, Retry, Cancel, BeginSend;
  }

  lemma RowFixed(n: Notification)
    ensures forall now :: BeginSend(n, now).Ok? ==> SameTermsOf(n, BeginSend(n, now).value)
    ensures forall number, outcome :: SameTermsOf(n, FinishSend(n, number, outcome))
    ensures forall reset :: Retry(n, reset).Ok? ==> SameTermsOf(n, Retry(n, reset).value)
    ensures Cancel(n).Ok? ==> SameTermsOf(n, Cancel(n).value)
  {
  }

  lemma {:induction false} RunFixed(s: State, events: seq<Event>)
    ensures SameTerms(s, Run(s, events))
  {
    hide Step;
    if events == [] {
    } else {
      RunFixed(s, events[..|events| - 1]);
      StepFixed(Run(s, events[..|events| - 1]), events[|events| - 1]);
    }
  }

  /** The state a notification is in after some events. */
  ghost predicate Reaches(isEmail: bool, maxRetryCount: nat, scheduledAt: Option<int>, events: seq<Event>, s: State) {
    s == Run(Created(isEmail, maxRetryCount, scheduledAt), events)
  }

  lemma ReachedOk(isEmail: bool, maxRetryCount: nat, scheduledAt: Option<int>, events: seq<Event>, s: State)
    requires Reaches(isEmail, maxRetryCount, scheduledAt, events, s)
    ensures Invariant(s) && s.row.isEmail == isEmail && s.row.scheduledAt == scheduledAt && s.row.maxRetryCount == maxRetryCount
  {
    hide Invariant, Run;
    CreatedOk(isEmail, maxRetryCount, scheduledAt);
    RunKeeps(Created(isEmail, maxRetryCount, scheduledAt), events);
    RunFixed(Created(isEmail, maxRetryCount, scheduledAt), events);
  }

  /** A sending begins exactly for an e-mail that is due, and is PENDING, RETRYING, or FAILED with retries left. The one
      worker then holds the next attempt's number. Otherwise nothing changes. */
  lemma SendBeginsIff(isEmail: bool, maxRetryCount: nat, scheduledAt: Option<int>, events: seq<Event>, s: State, now: int)
    requires Reaches(isEmail, maxRetryCount, scheduledAt, events, s)
    ensures var s' := Step(s, Begin(now));
            if isEmail && (scheduledAt.Some? ==> scheduledAt.value <= now)
               && (s.row.status in {Pending, Retrying} || (s.row.status == Failed && s.row.retryCount < maxRetryCount))
            then && s'.row == s.row.(status := Processing) && s'.workers == multiset{|s.row.attempts| + 1}
                 && s'.sends == s.sends + 1 && s'.resets == s.resets
            else s' == s
  {
    ReachedOk(isEmail, maxRetryCount, scheduledAt, events, s);
    if s.row.status != Processing {
      IdleHasNoWorker(s);
    }
    hide Run, Invariant;
    assert multiset{} + multiset{|s.row.attempts| + 1} == multiset{|s.row.attempts| + 1};
  }

  lemma IdleHasNoWorker(s: State)
    requires Invariant(s) && s.row.status != Processing
    ensures s.workers == multiset{}
  {
  }

  /** Over every run, the provider is called for e-mails only, and never before the schedule. */
  lemma NothingSentEarly(isEmail: bool, maxRetryCount: nat, scheduledAt: Option<int>, events: seq<Event>, k: nat)
    requires k < |events|
    requires var s0 := Created(isEmail, maxRetryCount, scheduledAt);
             Run(s0, events[..k]).sends != Run(s0, events[..k + 1]).sends
    ensures isEmail && events[k].Begin? && (scheduledAt.Some? ==> scheduledAt.value <= events[k].now)
  {
    var s0 := Created(isEmail, maxRetryCount, scheduledAt);
    var s := Run(s0, events[..k]);
    assert events[..k + 1][..k] == events[..k];
    assert Reaches(isEmail, maxRetryCount, scheduledAt, events[..k], s);
    if events[k].Begin? {
      SendBeginsIff(isEmail, maxRetryCount, scheduledAt, events[..k], s, events[k].now);
    }
    hide FinishSend, BeginSend, Retry, Cancel;
  }

  /** A worker finishes the attempt that is open: it is recorded with its result, a rejection is counted, and the row takes
      the result's status: RETRYING exactly if the failure may be retried and the count stays below the maximum. */
  lemma SendFinishesAs(isEmail: bool, maxRetryCount: nat, scheduledAt: Option<int>, events: seq<Event>, s: State,
                       number: nat, outcome: Outcome)
    requires Reaches(isEmail, maxRetryCount, scheduledAt, events, s)
    ensures var row, row' := s.row, Step(s, Finish(number, outcome)).row;
            if s.row.status == Processing && number in s.workers then
              && number == |row.attempts| + 1 && Step(s, Finish(number, outcome)).workers == multiset{}
              && row'.attempts == row.attempts + [Attempt(number, row'.status)]
              && row'.retryCount == row.retryCount + (if outcome.Delivered? then 0 else 1)
              && (row'.status == Sent <==> outcome.Delivered?)
              && (row'.status == Retrying <==> outcome.Rejected? && outcome.retryable && row.retryCount + 1 < maxRetryCount)
              && (row'.status == Failed <==> outcome.Rejected? && !(outcome.retryable && row.retryCount + 1 < maxRetryCount))
            else Step(s, Finish(number, outcome)) == s
  {
    ReachedOk(isEmail, maxRetryCount, scheduledAt, events, s);
    hide Run, AttemptsOk, Times;
    assert number in s.workers ==> s.workers == multiset{number};
    assert multiset{number} - multiset{number} == multiset{};
  }

  /** A retry is granted exactly to a FAILED or RETRYING row with retries left, or with its count reset; the row waits
      for its next sending. Otherwise nothing changes. */
  lemma RetryGrantedIff(isEmail: bool, maxRetryCount: nat, scheduledAt: Option<int>, events: seq<Event>, s: State, reset: bool)
    requires Reaches(isEmail, maxRetryCount, scheduledAt, events, s)
    ensures var s' := Step(s, RetryRequest(reset));
            if s.row.status in {Failed, Retrying} && (reset || s.row.retryCount < maxRetryCount)
            then && s'.row == s.row.(status := Retrying, retryCount := if reset then 0 else s.row.retryCount)
                 && s'.resets == (if reset then s.resets + 1 else s.resets) && s'.workers == s.workers == multiset{}
            else s' == s
  {
    ReachedOk(isEmail, maxRetryCount, scheduledAt, events, s);
    hide Run, AttemptsOk, Times;
  }

  /** A notification is cancelled exactly if no attempt is open and none was delivered. */
  lemma CancelledIff(isEmail: bool, maxRetryCount: nat, scheduledAt: Option<int>, events: seq<Event>, s: State)
    requires Reaches(isEmail, maxRetryCount, scheduledAt, events, s)
    ensures var s' := Step(s, CancelRequest);
            var delivered := exists k :: 0 <= k < |s.row.attempts| && s.row.attempts[k].status == Sent;
            && (s'.row.status == Cancelled <==> s.row.status != Processing && !delivered)
            && s' == s.(row := s.row.(status := s'.row.status))
            && (s'.row.status != Cancelled ==> s' == s)
  {
    ReachedOk(isEmail, maxRetryCount, scheduledAt, events, s);
    DeliveredMeans(s);
    hide Run, Invariant;
  }

  /** A row is SENT exactly if one of its attempts was delivered. */
  lemma DeliveredMeans(s: State)
    requires Invariant(s)
    ensures s.row.status == Sent <==> exists k :: 0 <= k < |s.row.attempts| && s.row.attempts[k].status == Sent
  {
    hide Times;
  }

  /** How many attempts were rejected since the counter was last reset, told from what the rows show. */
  function RejectedSinceReset(s0: State, events: seq<Event>): nat {
    if events == [] then 0 else
    var earlier := events[..|events| - 1];
    var s, s' := Run(s0, earlier), Run(s0, events);
    if s'.resets != s.resets then 0
    else if |s'.row.attempts| > |s.row.attempts| && s'.row.status != Sent then RejectedSinceReset(s0, earlier) + 1
    else RejectedSinceReset(s0, earlier)
  }

  /** `retry_count` is the number of rejected attempts since it was last reset. */
  lemma {:induction false} RetryCountMeans(isEmail: bool, maxRetryCount: nat, scheduledAt: Option<int>, events: seq<Event>)
    ensures var s0 := Created(isEmail, maxRetryCount, scheduledAt);
            Run(s0, events).row.retryCount == RejectedSinceReset(s0, events)
  {
    var s0 := Created(isEmail, maxRetryCount, scheduledAt);
    if events == [] {
    } else {
      var earlier, e := events[..|events| - 1], events[|events| - 1];
      RetryCountMeans(isEmail, maxRetryCount, scheduledAt, earlier);
      RetryCountStep(Run(s0, earlier), e);
      hide Step;
    }
  }

  /** What a step makes of the count, told from what the rows show. */
  predicate CountFollows(s: State, s': State) {
    s'.row.retryCount == if s'.resets != s.resets then 0
                         else if |s'.row.attempts| > |s.row.attempts| && s'.row.status != Sent then s.row.retryCount + 1
                         else s.row.retryCount
  }

  lemma RetryCountStep(s: State, e: Event)
    ensures CountFollows(s, Step(s, e))
  {
    match e
    case Begin(now) => BeginWrites(s.row, now); hide BeginSend;
    case Finish(number, outcome) => FinishWrites(s.row, number, outcome); hide FinishSend;
    case Crash(_) =>
    case RetryRequest(reset) => RetryWrites(s.row, reset); hide Retry;
    case CancelRequest => CancelWrites(s.row); hide Cancel;
  }

  lemma BeginWrites(n: Notification, now: int)
    ensures var r := BeginSend(n, now); r.Ok? ==> r.value == n.(status := Processing)
  {
  }

  lemma FinishWrites(n: Notification, number: nat, outcome: Outcome)
    ensures var n' := FinishSend(n, number, outcome);
            && |n'.attempts| == |n.attempts| + 1 && (n'.status == Sent <==> outcome.Delivered?)
            && n'.retryCount == n.retryCount + if outcome.Delivered? then 0 else 1
  {
  }

  lemma RetryWrites(n: Notification, reset: bool)
    ensures var r := Retry(n, reset);
            r.Ok? ==> r.value == n.(status := Retrying, retryCount := if reset then 0 else n.retryCount)
  {
  }

  lemma CancelWrites(n: Notification)
    ensures var r := Cancel(n); r.Ok? ==> r.value == n.(status := Cancelled)
  {
  }

  // ---------------------------------------------------------------- the service

  /** One notification row, changed in place. */
  class EmailService {
    var row: Notification

    constructor (row: Notification)
      ensures this.row == row
    {
      this.row := row;
    }

    /** Up to the commit of PROCESSING. The attempt number is fixed here. */
    method BeginSending(now: int) returns (r: Result<nat, Error>)
      modifies this
      ensures match BeginSend(old(row), now)
              case Err(e) => r == Err(e) && row == old(row)
              case Ok(row') => r == Ok(|old(row).attempts| + 1) && row == row'
    {
      var invalid := ValidateDeliveryState();
      if invalid.Some? {
        return Err(invalid.value);
      }
      if row.scheduledAt.Some? && row.scheduledAt.value > now {
        return Err(NotDue);
      }
      var number := |row.attempts| + 1;
      row := row.(status := Processing);
      return Ok(number);
    }

    method ValidateDeliveryState() returns (e: Option<Error>)
      ensures e == DeliveryError(row)
    {
      if !row.isEmail {
        return Some(NotEmail);
      }
      if row.status == Sent {
        return Some(AlreadySent);
      }
      if row.status == Cancelled {
        return Some(IsCancelled);
      }
      if row.status == Processing {
        return Some(InProgress);
      }
      if row.status == Failed && row.retryCount >= row.maxRetryCount {
        return Some(RetriesExhausted);
      }
      return None;
    }

    method RecordSuccess(number: nat)
      modifies this
      ensures row == FinishSend(old(row), number, Delivered)
    {
      row := row.(attempts := row.attempts + [Attempt(number, Sent)]);
      row := row.(status := Sent);
    }

    method RecordProviderFailure(number: nat, retryable: bool)
      modifies this
      ensures row == FinishSend(old(row), number, Rejected(retryable))
    {
      row := row.(retryCount := row.retryCount + 1);
      var canRetry := retryable && row.retryCount < row.maxRetryCount;
      var resulting := if canRetry then Retrying else Failed;
      row := row.(attempts := row.attempts + [Attempt(number, resulting)]);
      row := row.(status := resulting);
    }

    method RetryNotification(reset: bool) returns (r: Result<(), Error>)
      modifies this
      ensures match Retry(old(row), reset)
              case Err(e) => r == Err(e) && row == old(row)
              case Ok(row') => r.Ok? && row == row'
    {
      if row.status != Failed && row.status != Retrying {
        return Err(NotRetryable);
      }
      if reset {
        row := row.(retryCount := 0);
      } else if row.retryCount >= row.maxRetryCount {
        return Err(RetriesExhausted);
      }
      row := row.(status := Retrying);
      return Ok(());
    }

    method CancelNotification() returns (r: Result<(), Error>)
      modifies this
      ensures match Cancel(old(row))
              case Err(e) => r == Err(e) && row == old(row)
              case Ok(row') => r.Ok? && row == row'
    {
      if row.status == Sent {
        return Err(AlreadySent);
      }
      if row.status == Cancelled {
        return Ok(());
      }
      if row.status == Processing {
        return Err(InProgress);
      }
      row := row.(status := Cancelled);
      return Ok(());
    }
  }
}
