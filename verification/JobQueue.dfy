/**
 The durable job queue: leases, retries and reclaiming. Times are instants in nanoseconds; an event log is
 what happened to one store, in order, and Run gives the store it leaves behind.
 */
module JobQueue {
  import opened Wrappers

  datatype Status = Pending | Running | Retrying | Succeeded | Failed | Canceled

  predicate IsTerminal(s: Status) {
    s.Succeeded? || s.Failed? || s.Canceled?
  }

  /** A worker name of "" means no worker holds the job. */
  datatype Job = Job(
    kind: string,
    status: Status,
    retryCount: int,
    maxRetries: int,
    nextRetryAt: Option<int>,
    worker: string,
    lockedUntil: Option<int>)

  type Jobs = map<string, Job>

  datatype Action =
    | Submit(id: string, kind: string, maxRetries: int)
    | Claim(id: string, worker: string, lease: int)
    | Renew(id: string, worker: string, lease: int)
    | MarkSucceeded(id: string)
    | MarkFailed(id: string, retryIn: Option<int>)
    | MarkCanceled(id: string)
    | Reclaim(cutoff: int)
    | Retry(id: string)

  datatype Event = Event(now: int, action: Action)

  predicate Eligible(j: Job, now: int) {
    || j.status.Pending?
    || (j.status.Retrying? && (j.nextRetryAt.None? || now >= j.nextRetryAt.value))
    || (j.status.Running? && j.lockedUntil.Some? && now > j.lockedUntil.value)
  }

  predicate Abandoned(j: Job, cutoff: int) {
    j.status.Running? && j.lockedUntil.Some? && j.lockedUntil.value < cutoff
  }

  function Released(j: Job, s: Status): Job {
    j.(status := s, worker := "", lockedUntil := None)
  }

  function New(kind: string, maxRetries: int): Job {
    Job(kind, Pending, 0, if maxRetries == 0 then 3 else maxRetries, None, "", None)
  }

  function Claimed(j: Job, now: int, worker: string, lease: int): Job {
    j.(status := Running, worker := worker, lockedUntil := Some(now + lease))
  }

  function AfterFailure(j: Job, now: int, retryIn: Option<int>): Job {
    var counted := j.(retryCount := j.retryCount + 1);
    if retryIn.Some? && counted.retryCount <= j.maxRetries
    then Released(counted, Retrying).(nextRetryAt := Some(now + retryIn.value))
    else Released(counted, Failed)
  }

  /** An operator's retry writes the job back with a clean state; the store's default for retries applies again. */
  function Restarted(j: Job): Job {
    Released(j, Pending).(nextRetryAt := None, maxRetries := if j.maxRetries == 0 then 3 else j.maxRetries)
  }

  function Reclaimed(jobs: Jobs, cutoff: int): Jobs {
    map id | id in jobs :: if Abandoned(jobs[id], cutoff) then Released(jobs[id], Pending) else jobs[id]
  }

  /** Whether the store carries the action out; a refused action changes nothing. */
  predicate Accepted(jobs: Jobs, e: Event) {
    match e.action
    case Submit(id, _, _) => id !in jobs
    case Claim(id, _, _) => id in jobs && Eligible(jobs[id], e.now)
    case Renew(id, worker, _) => id in jobs && jobs[id].worker == worker
    case MarkSucceeded(id) => id in jobs
    case MarkFailed(id, _) => id in jobs
    case MarkCanceled(id) => id in jobs && !IsTerminal(jobs[id].status)
    case Reclaim(_) => true
    case Retry(id) => id in jobs && (jobs[id].status.Failed? || jobs[id].status.Canceled?)
  }

  function Next(jobs: Jobs, e: Event): Jobs {
    if !Accepted(jobs, e) then jobs else
    match e.action
    case Submit(id, kind, maxRetries) => jobs[id := New(kind, maxRetries)]
    case Claim(id, worker, lease) => jobs[id := Claimed(jobs[id], e.now, worker, lease)]
    case Renew(id, _, lease) => jobs[id := jobs[id].(lockedUntil := Some(e.now + lease))]
    case MarkSucceeded(id) => jobs[id := Released(jobs[id], Succeeded)]
    case MarkFailed(id, retryIn) => jobs[id := AfterFailure(jobs[id], e.now, retryIn)]
    case MarkCanceled(id) => jobs[id := Released(jobs[id], Canceled)]
    case Reclaim(cutoff) => Reclaimed(jobs, cutoff)
    case Retry(id) => jobs[id := Restarted(jobs[id])]
  }

  function Run(log: seq<Event>): Jobs {
    if log == [] then map[] else Next(Run(log[..|log| - 1]), log[|log| - 1])
  }

  /** What the engine guarantees of its calls: a clock that does not go back, named workers, cutoffs not ahead of it. */
  ghost predicate Proper(log: seq<Event>) {
    && (forall i, j | 0 <= i < j < |log| :: log[i].now <= log[j].now)
    && (forall i | 0 <= i < |log| :: log[i].action.Claim? || log[i].action.Renew? ==> log[i].action.worker != "")
    && (forall i | 0 <= i < |log| :: log[i].action.Reclaim? ==> log[i].action.cutoff <= log[i].now)
  }

  lemma ProperPrefix(log: seq<Event>, n: nat)
    requires Proper(log) && n <= |log|
    ensures Proper(log[..n])
  {
  }

  // ---- Leases ----

  predicate LeaseOk(j: Job) {
    && (j.status.Running? <==> j.worker != "" && j.lockedUntil.Some?)
    && (!j.status.Running? ==> j.worker == "" && j.lockedUntil.None?)
  }

  /**
   In every run a job is running exactly when it carries both a worker and a deadline, and otherwise it carries
   neither.
   */
  lemma {:induction false} RunningIffLeased(log: seq<Event>, id: string)
    requires Proper(log) && id in Run(log)
    ensures LeaseOk(Run(log)[id])
  {
    if log != [] {
      var before := log[..|log| - 1];
      ProperPrefix(log, |before|);
      if id in Run(before) {
        RunningIffLeased(before, id);
      }
    }
  }

  predicate Marks(a: Action, id: string) {
    (a.MarkSucceeded? || a.MarkFailed? || a.MarkCanceled?) && a.id == id
  }

  predicate Leases(a: Action, id: string) {
    (a.Claim? || a.Renew?) && a.id == id
  }

  /** The deadline most lately granted for a job, by a claim or a renewal, that no Mark has ended since. */
  function Deadline(log: seq<Event>, id: string): Option<int> {
    if log == [] then None else
    var before, e := log[..|log| - 1], log[|log| - 1];
    if !Accepted(Run(before), e) then Deadline(before, id)
    else if Leases(e.action, id) then Some(e.now + e.action.lease)
    else if Marks(e.action, id) then None
    else Deadline(before, id)
  }

  /** A granted deadline is either still carried by the job, or it had passed when the job was reclaimed. */
  lemma {:induction false} DeadlineHeldOrPassed(log: seq<Event>, id: string)
    requires Proper(log) && Deadline(log, id).Some?
    ensures id in Run(log)
    ensures var j := Run(log)[id];
            || (j.status.Running? && j.lockedUntil == Deadline(log, id))
            || (j.status.Pending? && Deadline(log, id).value < log[|log| - 1].now)
  {
    var before, e := log[..|log| - 1], log[|log| - 1];
    ProperPrefix(log, |before|);
    if Accepted(Run(before), e) && Leases(e.action, id) {
      RunningIffLeased(before, id);
    } else {
      DeadlineHeldOrPassed(before, id);
      assert before[|before| - 1] == log[|log| - 2];
    }
  }

  lemma {:induction false} UnmarkedDeadline(log: seq<Event>, id: string, i: nat)
    requires i < |log| && log[i].action.Claim? && log[i].action.id == id && Accepted(Run(log[..i]), log[i])
    requires forall k | i < k < |log| && Accepted(Run(log[..k]), log[k]) :: !Marks(log[k].action, id)
    ensures Deadline(log, id).Some?
  {
    var before := log[..|log| - 1];
    assert log[..|before|] == before;
    if i < |before| {
      assert forall k | 0 <= k <= |before| :: before[..k] == log[..k];
      UnmarkedDeadline(before, id, i);
    }
  }

  /**
   Leases are exclusive: between two claims of a job with no Mark in between, the clock has passed the
   deadline in force, the last one granted by the first claim or by a renewal after it.
   */
  lemma ClaimsAreExclusive(log: seq<Event>, id: string, i: nat, j: nat)
    requires Proper(log) && i < j < |log|
    requires forall k | k in {i, j} :: log[k].action.Claim? && log[k].action.id == id && Accepted(Run(log[..k]), log[k])
    requires forall k | i < k < j && Accepted(Run(log[..k]), log[k]) :: !Marks(log[k].action, id)
    ensures Deadline(log[..j], id).Some?
    ensures Deadline(log[..j], id).value < log[j].now
  {
    var before := log[..j];
    assert forall k | 0 <= k <= j :: before[..k] == log[..k];
    assert i in {i, j} && j in {i, j};
    UnmarkedDeadline(before, id, i);
    ProperPrefix(log, j);
    DeadlineHeldOrPassed(before, id);
  }

  // ---- Retries ----

  function Failures(log: seq<Event>, id: string): nat {
    if log == [] then 0 else
    var before, e := log[..|log| - 1], log[|log| - 1];
    Failures(before, id) + if Accepted(Run(before), e) && e.action.MarkFailed? && e.action.id == id then 1 else 0
  }

  /** How often a failure has sent the job back to retrying. */
  function Retries(log: seq<Event>, id: string): nat {
    if log == [] then 0 else
    var before, e := log[..|log| - 1], log[|log| - 1];
    var sentBack := Accepted(Run(before), e) && e.action.MarkFailed? && e.action.id == id
                    && id in Run(log) && Run(log)[id].status.Retrying?;
    Retries(before, id) + if sentBack then 1 else 0
  }

  lemma {:induction false} UnknownJobHasNoHistory(log: seq<Event>, id: string)
    requires id !in Run(log)
    ensures Failures(log, id) == 0 && Retries(log, id) == 0
  {
    if log != [] {
      UnknownJobHasNoHistory(log[..|log| - 1], id);
    }
  }

  /** The retry budget is kept over a job's whole life, operator retries included. */
  lemma {:induction false} RetryBudget(log: seq<Event>, id: string)
    requires id in Run(log)
    ensures var j := Run(log)[id];
            && j.retryCount == Failures(log, id)
            && j.maxRetries != 0
            && (j.status.Retrying? ==> j.retryCount <= j.maxRetries)
            && Retries(log, id) <= Failures(log, id)
            && (Retries(log, id) > 0 ==> Retries(log, id) <= j.maxRetries)
  {
    var before := log[..|log| - 1];
    if id in Run(before) {
      RetryBudget(before, id);
    } else {
      UnknownJobHasNoHistory(before, id);
    }
  }

  // ---- What each event brings about ----

  /** The store after a log and one more event. */
  lemma RunOneMore(log: seq<Event>, e: Event)
    ensures Run(log + [e]) == Next(Run(log), e)
  {
    assert (log + [e])[..|log|] == log;
  }

  /** A submitted job waits with three retries unless it asks otherwise; a known identifier is left alone. */
  lemma SubmitStores(log: seq<Event>, now: int, id: string, kind: string, maxRetries: int)
    ensures var before, after := Run(log), Run(log + [Event(now, Submit(id, kind, maxRetries))]);
            if id in before then after == before
            else after == before[id := Job(kind, Pending, 0, if maxRetries == 0 then 3 else maxRetries, None, "", None)]
  {
    RunOneMore(log, Event(now, Submit(id, kind, maxRetries)));
  }

  /** A renewal moves the deadline of a running job, for the worker that runs it and for no other. */
  lemma RenewExtends(log: seq<Event>, now: int, id: string, worker: string, lease: int)
    requires Proper(log) && worker != "" && id in Run(log)
    ensures var j, after := Run(log)[id], Run(log + [Event(now, Renew(id, worker, lease))]);
            id in after
            && if j.status.Running? && j.worker == worker then after[id] == j.(lockedUntil := Some(now + lease))
               else after[id] == j
  {
    RunOneMore(log, Event(now, Renew(id, worker, lease)));
    RunningIffLeased(log, id);
  }

  /** Success, cancellation and failure end the lease; cancellation is refused exactly of a finished job. */
  lemma MarksSettle(log: seq<Event>, now: int, id: string)
    requires id in Run(log)
    ensures var j := Run(log + [Event(now, MarkSucceeded(id))])[id];
            j.status.Succeeded? && j.worker == "" && j.lockedUntil.None?
    ensures var before, j := Run(log)[id], Run(log + [Event(now, MarkCanceled(id))])[id];
            if before.status.Succeeded? || before.status.Failed? || before.status.Canceled? then j == before
            else j.status.Canceled? && j.worker == "" && j.lockedUntil.None?
  {
    RunOneMore(log, Event(now, MarkSucceeded(id)));
    RunOneMore(log, Event(now, MarkCanceled(id)));
  }

  /** A failure is retried, after its delay, exactly while the job's failures so far do not exceed its maximum. */
  lemma FailureRetriesIff(log: seq<Event>, now: int, id: string, retryIn: Option<int>)
    requires id in Run(log)
    ensures var e := Event(now, MarkFailed(id, retryIn));
            var j := Run(log + [e])[id];
            && j.worker == "" && j.lockedUntil.None? && j.maxRetries == Run(log)[id].maxRetries
            && (j.status.Retrying? <==> retryIn.Some? && Failures(log, id) + 1 <= j.maxRetries)
            && (j.status.Retrying? ==> j.nextRetryAt == Some(now + retryIn.value))
            && (!j.status.Retrying? ==> j.status.Failed?)
  {
    RunOneMore(log, Event(now, MarkFailed(id, retryIn)));
    RetryBudget(log, id);
  }

  /** When a job can be claimed: pending, retrying with its time come, or running past its deadline. */
  lemma ClaimedIff(log: seq<Event>, now: int, id: string, worker: string, lease: int)
    requires Proper(log) && id in Run(log)
    ensures var e, j := Event(now, Claim(id, worker, lease)), Run(log)[id];
            var after := Run(log + [e])[id];
            var claimable := match j.status
              case Pending => true
              case Retrying => j.nextRetryAt.None? || j.nextRetryAt.value <= now
              case Running => j.lockedUntil.Some? && j.lockedUntil.value < now
              case _ => false;
            && (claimable ==> after == j.(status := Running, worker := worker, lockedUntil := Some(now + lease)))
            && (!claimable ==> after == j)
  {
    RunOneMore(log, Event(now, Claim(id, worker, lease)));
  }

  /** A reclaim puts exactly the running jobs with a deadline before its cutoff back to pending, without lease. */
  lemma ReclaimReturns(log: seq<Event>, now: int, cutoff: int, id: string)
    requires id in Run(log)
    ensures var j, after := Run(log)[id], Run(log + [Event(now, Reclaim(cutoff))]);
            id in after
            && if j.status.Running? && j.lockedUntil.Some? && j.lockedUntil.value < cutoff
               then after[id] == j.(status := Pending, worker := "", lockedUntil := None)
               else after[id] == j
  {
    RunOneMore(log, Event(now, Reclaim(cutoff)));
  }

  /** An operator's retry makes exactly a failed or canceled job claimable at once. */
  lemma RetryMakesClaimable(log: seq<Event>, now: int, id: string, later: int, worker: string, lease: int)
    requires Proper(log) && id in Run(log)
    ensures var j, after := Run(log)[id], Run(log + [Event(now, Retry(id))]);
            id in after
            && (if j.status.Failed? || j.status.Canceled?
                then after[id].status.Pending? && Accepted(after, Event(later, Claim(id, worker, lease)))
                else after[id] == j)
  {
    RunOneMore(log, Event(now, Retry(id)));
  }

  /** An event that may end a finished job's rest: another Mark of it that is carried out, or an operator's retry. */
  predicate Reopens(jobs: Jobs, e: Event, id: string) {
    Accepted(jobs, e) && (Marks(e.action, id) || e.action == Retry(id))
  }

  lemma StepKeepsFinished(jobs: Jobs, e: Event, id: string)
    requires id in jobs && IsTerminal(jobs[id].status) && !Reopens(jobs, e, id)
    ensures id in Next(jobs, e) && Next(jobs, e)[id].status == jobs[id].status
  {
  }

  lemma FinishedIsNotClaimed(jobs: Jobs, id: string)
    requires id in jobs && IsTerminal(jobs[id].status)
    ensures forall now, worker, lease :: !Accepted(jobs, Event(now, Claim(id, worker, lease)))
  {
  }

  /**
   A finished job stays as it finished, and is never handed out again, until it is marked again or retried by an
   operator.
   */
  lemma {:induction false} FinishedStays(log: seq<Event>, n: nat, id: string)
    requires Proper(log) && n <= |log| && id in Run(log[..n]) && IsTerminal(Run(log[..n])[id].status)
    requires forall k | n <= k < |log| :: !Reopens(Run(log[..k]), log[k], id)
    ensures id in Run(log) && Run(log)[id].status == Run(log[..n])[id].status
    ensures forall now, worker, lease :: !Accepted(Run(log), Event(now, Claim(id, worker, lease)))
    decreases |log|
  {
    hide Next, Accepted, Reopens;
    if n == |log| {
      assert log[..n] == log;
    } else {
      var before := log[..|log| - 1];
      ProperPrefix(log, |before|);
      assert forall k | 0 <= k <= |before| :: before[..k] == log[..k];
      FinishedStays(before, n, id);
      StepKeepsFinished(Run(before), log[|before|], id);
    }
    FinishedIsNotClaimed(Run(log), id);
  }

  /**
   So a job that has succeeded is never claimed, retried or canceled, unless a failure of it is reported after
   all.
   */
  lemma {:induction false} SucceededIsFinal(log: seq<Event>, n: nat, id: string)
    requires Proper(log) && n < |log| && log[n].action == MarkSucceeded(id) && id in Run(log[..n])
    requires forall k | n < k < |log| :: !log[k].action.MarkFailed? || log[k].action.id != id
    ensures id in Run(log) && Run(log)[id].status.Succeeded?
    ensures forall now, worker, lease :: !Accepted(Run(log), Event(now, Claim(id, worker, lease)))
    ensures forall now ::
              !Accepted(Run(log), Event(now, Retry(id))) && !Accepted(Run(log), Event(now, MarkCanceled(id)))
    decreases |log|
  {
    hide Run;
    var before, e := log[..|log| - 1], log[|log| - 1];
    ProperPrefix(log, |before|);
    assert forall k | 0 <= k <= |before| :: before[..k] == log[..k];
    RunOneMore(before, e);
    assert before + [e] == log;
    if n < |before| {
      SucceededIsFinal(before, n, id);
    }
  }

  /** Held back until an instant, or handed on at or after it. */
  predicate HeldUntil(j: Job, due: int, now: int) {
    || (j.status.Retrying? && j.nextRetryAt == Some(due))
    || ((j.status.Running? || j.status.Pending?) && due <= now)
  }

  lemma StepKeepsHeld(jobs: Jobs, e: Event, id: string, due: int, now: int)
    requires id in jobs && HeldUntil(jobs[id], due, now) && now <= e.now && !Reopens(jobs, e, id)
    ensures id in Next(jobs, e) && HeldUntil(Next(jobs, e)[id], due, e.now)
  {
  }

  lemma FailureHolds(jobs: Jobs, e: Event, id: string)
    requires id in jobs && e.action.MarkFailed? && e.action.id == id
    requires id in Next(jobs, e) && Next(jobs, e)[id].status.Retrying?
    ensures e.action.retryIn.Some? && HeldUntil(Next(jobs, e)[id], e.now + e.action.retryIn.value, e.now)
  {
  }

  lemma {:induction false} HoldPersists(log: seq<Event>, n: nat, id: string, due: int)
    requires Proper(log) && 0 < n <= |log|
    requires id in Run(log[..n]) && HeldUntil(Run(log[..n])[id], due, log[n - 1].now)
    requires forall k | n <= k < |log| :: !Reopens(Run(log[..k]), log[k], id)
    ensures id in Run(log) && HeldUntil(Run(log)[id], due, log[|log| - 1].now)
    decreases |log|
  {
    hide Next, Accepted, Reopens, HeldUntil;
    if n == |log| {
      assert log[..n] == log;
    } else {
      var before := log[..|log| - 1];
      ProperPrefix(log, |before|);
      assert forall k | 0 <= k <= |before| :: before[..k] == log[..k];
      HoldPersists(before, n, id, due);
      StepKeepsHeld(Run(before), log[|before|], id, due, before[|before| - 1].now);
    }
  }

  /**
   A failure that sent a job to retrying holds it back: until it is marked again or retried by an operator, it
   stays so before the failure's time plus its delay.
   */
  lemma RetryWaits(log: seq<Event>, n: nat, id: string)
    requires Proper(log) && n < |log| && log[n].action.MarkFailed? && log[n].action.id == id && id in Run(log[..n])
    requires id in Run(log[..n + 1]) && Run(log[..n + 1])[id].status.Retrying?
    requires forall k | n < k < |log| :: !Reopens(Run(log[..k]), log[k], id)
    ensures log[n].action.retryIn.Some? && id in Run(log)
    ensures HeldUntil(Run(log)[id], log[n].now + log[n].action.retryIn.value, log[|log| - 1].now)
  {
    hide Next, Accepted, Reopens, HeldUntil;
    assert log[..n + 1][..n] == log[..n];
    FailureHolds(Run(log[..n]), log[n], id);
    HoldPersists(log, n + 1, id, log[n].now + log[n].action.retryIn.value);
  }

  /** The claim itself: not before the delay is over. */
  lemma RetryIsNotEarly(log: seq<Event>, n: nat, id: string)
    requires Proper(log) && 0 <= n < |log| - 1
    requires log[n].action.MarkFailed? && log[n].action.id == id && id in Run(log[..n])
    requires id in Run(log[..n + 1]) && Run(log[..n + 1])[id].status.Retrying?
    requires forall k | n < k < |log| - 1 :: !Reopens(Run(log[..k]), log[k], id)
    requires var e := log[|log| - 1];
             e.action.Claim? && e.action.id == id && Accepted(Run(log[..|log| - 1]), e)
    ensures log[n].action.retryIn.Some? && log[n].now + log[n].action.retryIn.value <= log[|log| - 1].now
  {
    var before := log[..|log| - 1];
    ProperPrefix(log, |before|);
    assert forall k | 0 <= k <= |before| :: before[..k] == log[..k];
    RetryWaits(before, n, id);
    hide Run, Next;
    assert before[|before| - 1].now <= log[|log| - 1].now;
  }

  // ---- Back-off ----

  const SECOND := 1_000_000_000

  function BaseDelay(attempt: int): int {
    if attempt <= 1 then 5 * SECOND
    else if attempt == 2 then 30 * SECOND
    else if attempt == 3 then 120 * SECOND
    else if attempt == 4 then 600 * SECOND
    else 1800 * SECOND
  }

  /** The delay before a retry; draw is the random number in [0, 1). */
  function Backoff(attempt: int, draw: real): int {
    (BaseDelay(attempt) as real * (0.8 + 0.4 * draw) + 0.5).Floor
  }

  /** Jitter never reorders attempts: up to the fifth, a later attempt always waits longer. */
  lemma BackoffGrows(a: int, b: int, x: real, y: real)
    requires 1 <= a < b <= 5 && 0.0 <= x < 1.0 && 0.0 <= y < 1.0
    ensures 4 * SECOND <= Backoff(a, x) < Backoff(b, y) <= 2160 * SECOND
  {
    JitterBounds(BaseDelay(a), x);
    JitterBounds(BaseDelay(b), y);
  }

  /** The five delays, of which the last serves all later attempts: each within a fifth of its nominal length. */
  lemma BackoffIsNominal(attempt: int, draw: real)
    requires 0.0 <= draw < 1.0
    ensures var nominal := if attempt <= 1 then 5 else if attempt == 2 then 30 else if attempt == 3 then 2 * 60
                           else if attempt == 4 then 10 * 60 else 30 * 60;
            4 * nominal * SECOND <= 5 * Backoff(attempt, draw) <= 6 * nominal * SECOND
  {
    JitterBounds(BaseDelay(attempt), draw);
  }

  lemma JitterBounds(base: int, draw: real)
    requires 0 < base && 0.0 <= draw < 1.0
    ensures base as real * 0.8 <= base as real * (0.8 + 0.4 * draw) < base as real * 1.2
  {
    assert 0.0 <= base as real * draw < base as real;
  }

  // ---- The store ----

  class MemoryJobRepo {
    var jobs: Jobs

    constructor ()
      ensures jobs == map[]
    {
      jobs := map[];
    }

    /** Stores a copy of a job, over any job already under its identifier; no retries asked for means three. */
    method Create(id: string, job: Job)
      modifies this
      ensures jobs == old(jobs)[id := job.(maxRetries := if job.maxRetries == 0 then 3 else job.maxRetries)]
    {
      var j := job;
      if j.maxRetries == 0 {
        j := j.(maxRetries := 3);
      }
      jobs := jobs[id := j];
    }

    /** The engine's submission, under the identifier drawn for it. */
    method Submit(now: int, id: string, kind: string, maxRetries: int)
      requires id !in jobs
      modifies this
      ensures jobs == Next(old(jobs), Event(now, Action.Submit(id, kind, maxRetries)))
    {
      Create(id, Job(kind, Pending, 0, maxRetries, None, "", None));
    }

    /** Claims the first eligible job of a wanted type that the range over the map comes to. */
    method ClaimNextPending(now: int, worker: string, lease: int, kinds: seq<string>) returns (claimed: Option<string>)
      modifies this
      ensures claimed.None? ==> jobs == old(jobs)
      ensures claimed.None? <==> !exists id | id in old(jobs) ::
                                    (kinds == [] || old(jobs)[id].kind in kinds) && Eligible(old(jobs)[id], now)
      ensures claimed.Some? ==>
                var e := Event(now, Claim(claimed.value, worker, lease));
                && Accepted(old(jobs), e)
                && (kinds == [] || old(jobs)[claimed.value].kind in kinds)
                && jobs == Next(old(jobs), e)
    {
      var rest := jobs.Keys;
      while rest != {}
        invariant rest <= jobs.Keys && jobs == old(jobs)
        invariant forall id | id in jobs && id !in rest ::
            !((kinds == [] || jobs[id].kind in kinds) && Eligible(jobs[id], now))
        decreases |rest|
      {
        var id :| id in rest;
        rest := rest - {id};
        var j := jobs[id];
        if kinds != [] && j.kind !in kinds {
          continue;
        }
        var eligible := false;
        if j.status == Pending {
          eligible := true;
        } else if j.status == Retrying {
          if j.nextRetryAt.None? || now >= j.nextRetryAt.value {
            eligible := true;
          }
        } else if j.status == Running {
          if j.lockedUntil.Some? && now > j.lockedUntil.value {
            eligible := true;
          }
        }
        if eligible {
          jobs := jobs[id := j.(status := Running, worker := worker, lockedUntil := Some(now + lease))];
          return Some(id);
        }
      }
      claimed := None;
    }

    method RenewLease(now: int, id: string, worker: string, lease: int) returns (ok: bool)
      modifies this
      ensures var e := Event(now, Renew(id, worker, lease));
              ok == Accepted(old(jobs), e) && jobs == Next(old(jobs), e)
    {
      if id !in jobs || jobs[id].worker != worker {
        return false;
      }
      jobs := jobs[id := jobs[id].(lockedUntil := Some(now + lease))];
      ok := true;
    }

    method MarkSucceeded(now: int, id: string) returns (ok: bool)
      modifies this
      ensures var e := Event(now, Action.MarkSucceeded(id));
              ok == Accepted(old(jobs), e) && jobs == Next(old(jobs), e)
    {
      if id !in jobs {
        return false;
      }
      jobs := jobs[id := jobs[id].(status := Succeeded, worker := "", lockedUntil := None)];
      ok := true;
    }

    method MarkFailed(now: int, id: string, retryIn: Option<int>) returns (ok: bool)
      modifies this
      ensures var e := Event(now, Action.MarkFailed(id, retryIn));
              ok == Accepted(old(jobs), e) && jobs == Next(old(jobs), e)
    {
      if id !in jobs {
        return false;
      }
      var j := jobs[id];
      j := j.(retryCount := j.retryCount + 1);
      if retryIn.Some? && j.retryCount <= j.maxRetries {
        j := j.(status := Retrying, nextRetryAt := Some(now + retryIn.value), worker := "", lockedUntil := None);
      } else {
        j := j.(status := Failed, worker := "", lockedUntil := None);
      }
      jobs := jobs[id := j];
      ok := true;
    }

    method MarkCanceled(now: int, id: string) returns (ok: bool)
      modifies this
      ensures var e := Event(now, Action.MarkCanceled(id));
              ok == Accepted(old(jobs), e) && jobs == Next(old(jobs), e)
    {
      if id !in jobs || IsTerminal(jobs[id].status) {
        return false;
      }
      jobs := jobs[id := jobs[id].(status := Canceled, worker := "", lockedUntil := None)];
      ok := true;
    }

    method ReclaimAbandonedJobs(now: int, cutoff: int) returns (reclaimed: nat)
      modifies this
      ensures jobs == Next(old(jobs), Event(now, Reclaim(cutoff)))
      ensures reclaimed == |set id | id in old(jobs) && Abandoned(old(jobs)[id], cutoff)|
    {
      reclaimed := 0;
      var rest := jobs.Keys;
      ghost var done: set<string> := {};
      while rest != {}
        invariant rest <= jobs.Keys == old(jobs).Keys
        invariant forall id | id in rest :: jobs[id] == old(jobs)[id]
        invariant forall id | id in jobs && id !in rest :: jobs[id] == Reclaimed(old(jobs), cutoff)[id]
        invariant done == set id | id in old(jobs) && id !in rest && Abandoned(old(jobs)[id], cutoff)
        invariant reclaimed == |done|
        decreases |rest|
      {
        var id :| id in rest;
        var j := jobs[id];
        if j.status == Running && j.lockedUntil.Some? && j.lockedUntil.value < cutoff {
          jobs := jobs[id := j.(status := Pending, worker := "", lockedUntil := None)];
          reclaimed := reclaimed + 1;
          done := done + {id};
        }
        rest := rest - {id};
      }
      assert done == set id | id in old(jobs) && Abandoned(old(jobs)[id], cutoff);
    }

    /** The engine's retry: the stored copy is reset and written back through Create. */
    method RetryJob(now: int, id: string) returns (ok: bool)
      modifies this
      ensures var e := Event(now, Retry(id));
              ok == Accepted(old(jobs), e) && jobs == Next(old(jobs), e)
    {
      if id !in jobs {
        return false;
      }
      var j := jobs[id];
      if j.status != Failed && j.status != Canceled {
        return false;
      }
      Create(id, j.(status := Pending, nextRetryAt := None, worker := "", lockedUntil := None));
      ok := true;
    }
  }
}
