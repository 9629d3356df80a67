/** The delivery queue of DiscordBot.js: `queueKill`, the worker loop
    `processQueue`, the per-job state machine `postKillWithTimeoutAndRetry`
    and the posted ledger `_rememberPosted`. Time (`Date.now()`), the retry
    jitter (`Math.random()`) and what `postKill` did are parameters. */
module Delivery {
  import opened Text
  import opened Events
  import opened Ledger
  import opened WatchFilter

  const MaxPostedKeep: nat := 1500
  const MaxPostRetries: nat := 5
  const BaseRetryDelayMs: nat := 5000
  const MinIdleSleepMs: int := 250
  /** `Math.floor(Math.random() * 1000)` lies in [0, JitterBoundMs). */
  const JitterBoundMs: nat := 1000

  /** A queue entry `{ kill, tries, nextAt }`. */
  datatype Job = Job(kill: Kill, tries: nat, nextAt: int)

  /** What `postKill` did under `_withTimeout`: it finished, the overall
      timeout fired first, or it threw an error with the given message. */
  datatype PostOutcome = Delivered | TimedOut | Threw(message: string)

  /** How `postKillWithTimeoutAndRetry` ended for one job. */
  datatype PostResult =
    | SkippedKnockdown      // returned at once: zero-fame knockdown
    | Posted                // delivered and remembered as posted
    | Requeued(job: Job)    // retryable error: the job went back on the queue
    | Failed(message: string) // rethrown: not retryable, or out of retries

  /** The worker's choice in one pass of its loop. */
  datatype Pick = Ready(job: Job) | Idle(sleepMs: int)

  /** One pass of `processQueue`'s loop body. */
  datatype WorkStep =
    | Slept(ms: int)
    | DroppedDuplicate(job: Job)
    | Handled(job: Job, result: PostResult)

  /** The inputs of one pass of the worker: the clock when it picks a job, what
      `postKill` does, the clock when the post ends, and the random jitter. */
  datatype Tick = Tick(now: int, outcome: PostOutcome, postNow: int, jitter: nat)

  /** `kill.TotalVictimKillFame === 0`: a knockdown, never posted. A missing
      fame is not `=== 0`. */
  predicate IsKnockdown(kill: Kill) {
    kill.totalVictimKillFame == Some(0)
  }

  /** The error message the worker classifies (`e?.message || ""`); a timeout
      is the error `_withTimeout` raises. */
  function ErrorMessage(outcome: PostOutcome, eventId: int): string
    requires !outcome.Delivered?
  {
    match outcome
    case TimedOut => "Timeout exceeded for posting kill " + DecimalString(eventId)
    case Threw(m) => m
  }

  /** The retry classification: the lower-cased message mentions a timeout, a
      rate limit, the network, a reset or timed-out connection, or HTTP 503/502. */
  predicate IsRetryable(message: string) {
    var msg := Lower(message);
    Contains(msg, "timeout") || Contains(msg, "rate") || Contains(msg, "network") ||
    Contains(msg, "econnreset") || Contains(msg, "etimedout") ||
    Contains(msg, "503") || Contains(msg, "502")
  }

  /** The wait before retry number `tries` (1-based): exponential backoff plus jitter. */
  function RetryDelay(tries: nat, jitter: nat): int
    requires tries >= 1
  {
    BaseRetryDelayMs * Pow2(tries - 1) + jitter
  }

  /** How `postKillWithTimeoutAndRetry(job)` ends when `postKill` had the given
      outcome, the clock read `now` afterwards and the jitter was `jitter`. */
  function PostEnd(job: Job, outcome: PostOutcome, now: int, jitter: nat): (r: PostResult)
    ensures r == SkippedKnockdown <==> IsKnockdown(job.kill)
    ensures r == Posted <==> !IsKnockdown(job.kill) && outcome.Delivered?
    // a retry carries the same kill, one more try, and waits at least the base delay
    ensures r.Requeued? ==>
      && !outcome.Delivered? && IsRetryable(ErrorMessage(outcome, job.kill.eventId))
      && r.job.kill == job.kill && r.job.tries == job.tries + 1 <= MaxPostRetries
      && r.job.nextAt == now + RetryDelay(job.tries + 1, jitter) >= now + BaseRetryDelayMs
    // an error is rethrown when it is not retryable or the tries are used up
    ensures r.Failed? ==>
      && !outcome.Delivered? && r.message == ErrorMessage(outcome, job.kill.eventId)
      && (!IsRetryable(r.message) || job.tries >= MaxPostRetries)
  {
    if IsKnockdown(job.kill) then SkippedKnockdown
    else if outcome.Delivered? then Posted
    else
      var msg := ErrorMessage(outcome, job.kill.eventId);
      if IsRetryable(msg) && job.tries < MaxPostRetries then
        Requeued(Job(job.kill, job.tries + 1, now + RetryDelay(job.tries + 1, jitter)))
      else Failed(msg)
  }

  /** The job a result puts back on the queue, if any. */
  function Requeue(r: PostResult): seq<Job> {
    if r.Requeued? then [r.job] else []
  }

  /** `sendQueue.findIndex((x) => x.nextAt <= now)`: the first job in queue
      order that is due, or -1. */
  function FirstReady(queue: seq<Job>, now: int): (idx: int)
    ensures -1 <= idx < |queue|
    ensures idx == -1 <==> forall k :: 0 <= k < |queue| ==> queue[k].nextAt > now
    ensures idx >= 0 ==> queue[idx].nextAt <= now && forall k :: 0 <= k < idx ==> queue[k].nextAt > now
    decreases |queue|
  {
    if queue == [] then -1
    else if queue[0].nextAt <= now then 0
    else
      var i := FirstReady(queue[1..], now);
      if i == -1 then -1 else i + 1
  }

  /** `Math.min(...sendQueue.map((x) => x.nextAt))`. */
  function Soonest(queue: seq<Job>): (t: int)
    requires |queue| > 0
    ensures forall k :: 0 <= k < |queue| ==> t <= queue[k].nextAt
    ensures exists k :: 0 <= k < |queue| && queue[k].nextAt == t
    decreases |queue|
  {
    if |queue| == 1 then queue[0].nextAt
    else
      var rest := Soonest(queue[1..]);
      assert forall k :: 1 <= k < |queue| ==> queue[k] == queue[1..][k - 1];
      if queue[0].nextAt <= rest then queue[0].nextAt else rest
  }

  /** How long the worker sleeps when nothing is due: until the soonest job,
      but never less than 250 ms. */
  function IdleSleep(queue: seq<Job>, now: int): (ms: int)
    requires |queue| > 0
    ensures ms >= MinIdleSleepMs
    // on waking, some job is due
    ensures exists k :: 0 <= k < |queue| && queue[k].nextAt <= now + ms
    // a sleep beyond the minimum ends exactly when the soonest job becomes due
    ensures ms > MinIdleSleepMs ==> forall k :: 0 <= k < |queue| ==> now + ms <= queue[k].nextAt
  {
    var soonest := Soonest(queue);
    if soonest - now > MinIdleSleepMs then soonest - now else MinIdleSleepMs
  }

  /** The worker never holds back a due job: a job that is due comes no later
      than the one picked, so only jobs that are not yet due are passed over. */
  lemma PickSkipsOnlyWaitingJobs(queue: seq<Job>, now: int, k: nat)
    requires k < |queue| && queue[k].nextAt <= now
    ensures 0 <= FirstReady(queue, now) <= k
  {
  }

  /** A retry waits 5000·2^(tries-1) ms plus less than one second of jitter. */
  lemma RetryDelayBounds(tries: nat, jitter: nat)
    requires 1 <= tries <= MaxPostRetries && jitter < JitterBoundMs
    ensures BaseRetryDelayMs * Pow2(tries - 1) <= RetryDelay(tries, jitter) < BaseRetryDelayMs * Pow2(tries - 1) + JitterBoundMs
    ensures 5000 <= RetryDelay(tries, jitter) < 81000
  {
    assert Pow2(0) == 1 && Pow2(1) == 2 && Pow2(2) == 4 && Pow2(3) == 8 && Pow2(4) == 16;
  }

  /** The timeout `_withTimeout` raises is always retried while tries remain. */
  lemma TimeoutIsRetryable(eventId: int)
    ensures IsRetryable(ErrorMessage(TimedOut, eventId))
  {
    var p := "Timeout exceeded for posting kill ";
    var d := DecimalString(eventId);
    LowerConcat(p, d);
    var low := Lower(p) + Lower(d);
    assert Lower(p)[..7] == "timeout" by {
      assert Lower(p)[0] == LowerChar('T') == 't';
      forall i | 1 <= i < 7 ensures Lower(p)[i] == "timeout"[i] {
        assert p[i] == "timeout"[i];
      }
    }
    assert low[..7] == Lower(p)[..7];
    assert OccursAt(Lower(p + d), "timeout", 0);
  }

  /** A connection reset is retryable. */
  lemma ConnectionResetIsRetryable()
    ensures IsRetryable("read ECONNRESET")
  {
    var low := Lower("read ECONNRESET");
    assert low[5..15] == "econnreset";
    assert OccursAt(low, "econnreset", 5);
  }

  lemma LowerInvalidPayload()
    ensures Lower("invalid payload") == "invalid payload"
  {
  }

  /** A message whose lower-cased form has none of the letters 't', 'r', 'e'
      and no '5' mentions none of the indicators. */
  lemma LacksIndicators(message: string)
    requires var msg := Lower(message); 't' !in msg && 'r' !in msg && 'e' !in msg && '5' !in msg
    ensures !IsRetryable(message)
  {
    var msg := Lower(message);
    MissingChar(msg, "timeout", 0);
    MissingChar(msg, "rate", 0);
    MissingChar(msg, "network", 1);
    MissingChar(msg, "econnreset", 0);
    MissingChar(msg, "etimedout", 0);
    MissingChar(msg, "503", 0);
    MissingChar(msg, "502", 0);
  }

  /** An error that mentions none of the indicators is terminal at once. */
  lemma InvalidPayloadIsTerminal()
    ensures !IsRetryable("invalid payload")
  {
    LowerInvalidPayload();
    LacksIndicators("invalid payload");
  }

  /** A connection reset on the first attempt: the job goes back on the queue
      with one try, due between 5 and 6 seconds after the post ended. */
  lemma ConnectionResetRequeues(kill: Kill, nextAt: int, now: int, jitter: nat)
    requires !IsKnockdown(kill) && jitter < JitterBoundMs
    ensures var r := PostEnd(Job(kill, 0, nextAt), Threw("read ECONNRESET"), now, jitter);
      r.Requeued? && r.job.kill == kill && r.job.tries == 1 && now + 5000 <= r.job.nextAt < now + 6000
  {
    ConnectionResetIsRetryable();
    RetryDelayBounds(1, jitter);
  }

  /** An error that is not retryable fails the job at once, however many
      retries remain. */
  lemma TerminalErrorFails(job: Job, message: string, now: int, jitter: nat)
    requires !IsKnockdown(job.kill) && !IsRetryable(message)
    ensures PostEnd(job, Threw(message), now, jitter) == Failed(message)
  {
  }

  /** "invalid payload" on the first attempt fails the job at once. */
  lemma InvalidPayloadFails(kill: Kill, nextAt: int, now: int, jitter: nat)
    requires !IsKnockdown(kill)
    ensures PostEnd(Job(kill, 0, nextAt), Threw("invalid payload"), now, jitter) == Failed("invalid payload")
  {
    InvalidPayloadIsTerminal();
    TerminalErrorFails(Job(kill, 0, nextAt), "invalid payload", now, jitter);
  }

  /** The guard of `queueKill`: the kill has an id that is neither posted nor
      in flight. The queue itself is not consulted. */
  predicate Admissible(kill: Kill, posted: seq<int>, inFlight: set<int>) {
    kill.eventId != 0 && kill.eventId !in posted && kill.eventId !in inFlight
  }

  /** The queue after `queueKill` is called on each of `kills` in turn at time
      `now`, while the posted and in-flight sets stay as given. */
  function Enqueued(queue: seq<Job>, kills: seq<Kill>, posted: seq<int>, inFlight: set<int>, now: int): (r: seq<Job>)
    ensures |queue| <= |r| <= |queue| + |kills| && r[..|queue|] == queue
    ensures forall k :: |queue| <= k < |r| ==>
      r[k].tries == 0 && r[k].nextAt == now && r[k].kill in kills && Admissible(r[k].kill, posted, inFlight)
    decreases |kills|
  {
    if kills == [] then queue
    else
      var prev := Enqueued(queue, kills[..|kills| - 1], posted, inFlight, now);
      var kill := kills[|kills| - 1];
      assert forall k :: k in kills[..|kills| - 1] ==> k in kills;
      if Admissible(kill, posted, inFlight) then prev + [Job(kill, 0, now)] else prev
  }

  /** Every admissible kill handed over gets a job: nothing is lost between
      the fetcher and the queue. */
  lemma {:induction false} EnqueuedKeepsAdmissible(queue: seq<Job>, kills: seq<Kill>, posted: seq<int>, inFlight: set<int>, now: int, kill: Kill)
    requires kill in kills && Admissible(kill, posted, inFlight)
    ensures Job(kill, 0, now) in Enqueued(queue, kills, posted, inFlight, now)[|queue|..]
    decreases |kills|
  {
    var n := |kills| - 1;
    var prev := Enqueued(queue, kills[..n], posted, inFlight, now);
    if kills[n] == kill {
      assert Enqueued(queue, kills, posted, inFlight, now)[|queue|..] == prev[|queue|..] + [Job(kill, 0, now)];
    } else {
      assert kill in kills[..n];
      EnqueuedKeepsAdmissible(queue, kills[..n], posted, inFlight, now, kill);
      var r := Enqueued(queue, kills, posted, inFlight, now);
      assert prev[|queue|..] <= r[|queue|..];
    }
  }

  /** Handing over one more kill appends its job when it is admissible. */
  lemma EnqueuedNext(queue: seq<Job>, kills: seq<Kill>, kill: Kill, posted: seq<int>, inFlight: set<int>, now: int)
    ensures Enqueued(queue, kills + [kill], posted, inFlight, now) ==
      if Admissible(kill, posted, inFlight) then Enqueued(queue, kills, posted, inFlight, now) + [Job(kill, 0, now)]
      else Enqueued(queue, kills, posted, inFlight, now)
  {
    assert (kills + [kill])[..|kills|] == kills;
  }

  /** No job in the queue has used more than the allowed retries. */
  predicate TriesBounded(queue: seq<Job>) {
    forall k :: 0 <= k < |queue| ==> queue[k].tries <= MaxPostRetries
  }

  lemma TriesBoundedWithout(queue: seq<Job>, idx: nat)
    requires TriesBounded(queue) && idx < |queue|
    ensures TriesBounded(queue[..idx] + queue[idx + 1..])
  {
    var rest := queue[..idx] + queue[idx + 1..];
    forall k | 0 <= k < |rest| ensures rest[k].tries <= MaxPostRetries {
      assert rest[k] == if k < idx then queue[k] else queue[k + 1];
    }
  }

  /** The state one pass of the worker leaves: what it did, the queue and
      the posted ledger. */
  datatype Turn = Turn(step: WorkStep, queue: seq<Job>, posted: seq<int>)

  /** One pass of `processQueue`'s loop on the queue and posted ledger it
      finds: sleep when no job is due; otherwise take the first due job out,
      drop it when its id is posted or in flight, and post it otherwise. */
  function Pass(queue: seq<Job>, posted: seq<int>, inFlight: set<int>, tick: Tick): (t: Turn)
    requires |queue| > 0
    // it sleeps exactly when no job is due, and then changes nothing
    ensures t.step.Slept? <==> forall k :: 0 <= k < |queue| ==> queue[k].nextAt > tick.now
    ensures t.step.Slept? ==> t.queue == queue && t.posted == posted
    // any other pass takes one job out; only a retry puts one back
    ensures !t.step.Slept? ==>
      |t.queue| == |queue| - 1 + (if t.step.Handled? && t.step.result.Requeued? then 1 else 0)
    // the job taken out is the first due one, and the others keep their order
    ensures !t.step.Slept? ==>
      var idx := FirstReady(queue, tick.now);
      0 <= idx && t.step.job == queue[idx] && t.queue[..|queue| - 1] == queue[..idx] + queue[idx + 1..]
    // it is dropped unposted exactly when its id is posted or in flight
    ensures t.step.DroppedDuplicate? <==>
      !t.step.Slept? && (t.step.job.kill.eventId in posted || t.step.job.kill.eventId in inFlight)
    // otherwise the post ends as `PostEnd` says, and a retry goes to the back
    ensures t.step.Handled? ==>
      t.step.result == PostEnd(t.step.job, tick.outcome, tick.postNow, tick.jitter) &&
      t.queue == t.queue[..|queue| - 1] + Requeue(t.step.result)
    // only a delivered post changes the posted ledger, by remembering its id
    ensures t.posted != posted ==> t.step.Handled? && t.step.result == Posted
    ensures t.step.Handled? && t.step.result == Posted ==>
      t.posted == Remembered(posted, t.step.job.kill.eventId, MaxPostedKeep)
  {
    var idx := FirstReady(queue, tick.now);
    if idx == -1 then Turn(Slept(IdleSleep(queue, tick.now)), queue, posted)
    else Serve(queue, idx, posted, inFlight, tick)
  }

  /** The part of a pass that handles the due job at `idx`: take it out,
      drop it when its id is posted or in flight, and post it otherwise. */
  function Serve(queue: seq<Job>, idx: nat, posted: seq<int>, inFlight: set<int>, tick: Tick): (t: Turn)
    requires idx < |queue|
    ensures !t.step.Slept? && t.step.job == queue[idx]
    ensures |t.queue| == |queue| - 1 + (if t.step.Handled? && t.step.result.Requeued? then 1 else 0)
    ensures t.queue[..|queue| - 1] == queue[..idx] + queue[idx + 1..]
    ensures t.step.DroppedDuplicate? <==> queue[idx].kill.eventId in posted || queue[idx].kill.eventId in inFlight
    ensures t.step.Handled? ==>
      t.step.result == PostEnd(queue[idx], tick.outcome, tick.postNow, tick.jitter) &&
      t.queue == t.queue[..|queue| - 1] + Requeue(t.step.result)
    ensures t.posted != posted ==> t.step.Handled? && t.step.result == Posted
    ensures t.step.Handled? && t.step.result == Posted ==>
      t.posted == Remembered(posted, queue[idx].kill.eventId, MaxPostedKeep)
  {
    var job := queue[idx];
    var rest := queue[..idx] + queue[idx + 1..];
    var id := job.kill.eventId;
    if id in posted || id in inFlight then
      assert rest[..|queue| - 1] == rest;
      Turn(DroppedDuplicate(job), rest, posted)
    else
      var result := PostEnd(job, tick.outcome, tick.postNow, tick.jitter);
      assert (rest + Requeue(result))[..|queue| - 1] == rest;
      Turn(Handled(job, result), rest + Requeue(result),
           if result == Posted then Remembered(posted, id, MaxPostedKeep) else posted)
  }

  /** What the worker did over a run, and the queue and posted ledger after it. */
  datatype Trace = Trace(steps: seq<WorkStep>, queue: seq<Job>, posted: seq<int>)

  /** `processQueue`'s loop: one pass per tick while jobs remain. */
  function Run(queue: seq<Job>, posted: seq<int>, inFlight: set<int>, ticks: seq<Tick>): (r: Trace)
    ensures |r.steps| <= |ticks|
    // the worker stops early only when the queue has run dry
    ensures |r.steps| < |ticks| ==> r.queue == []
    ensures queue != [] && ticks != [] ==> |r.steps| > 0 && r.steps[0] == Pass(queue, posted, inFlight, ticks[0]).step
    decreases |ticks|
  {
    if queue == [] || ticks == [] then Trace([], queue, posted)
    else
      var t := Pass(queue, posted, inFlight, ticks[0]);
      var rest := Run(t.queue, t.posted, inFlight, ticks[1..]);
      Trace([t.step] + rest.steps, rest.queue, rest.posted)
  }

  /** A run so far: the steps taken, followed by what the rest of the run
      does, make up the whole run. */
  predicate Resumes(whole: Trace, done: seq<WorkStep>, rest: Trace) {
    whole == Trace(done + rest.steps, rest.queue, rest.posted)
  }

  lemma ResumesNext(whole: Trace, done: seq<WorkStep>, step: WorkStep, rest: Trace)
    requires Resumes(whole, done, Trace([step] + rest.steps, rest.queue, rest.posted))
    ensures Resumes(whole, done + [step], rest)
  {
    assert done + ([step] + rest.steps) == (done + [step]) + rest.steps;
  }

  lemma ResumesStart(whole: Trace)
    ensures Resumes(whole, [], whole)
  {
    assert [] + whole.steps == whole.steps;
  }

  lemma ResumesDone(whole: Trace, done: seq<WorkStep>, rest: Trace)
    requires Resumes(whole, done, rest) && rest.steps == []
    ensures whole == Trace(done, rest.queue, rest.posted)
  {
    assert done + rest.steps == done;
  }

  /** The run from tick `i` is the pass at tick `i` followed by the run from
      tick `i + 1`. */
  lemma RunUnfolds(queue: seq<Job>, posted: seq<int>, inFlight: set<int>, ticks: seq<Tick>, i: nat)
    requires queue != [] && i < |ticks|
    ensures var t := Pass(queue, posted, inFlight, ticks[i]);
      var rest := Run(t.queue, t.posted, inFlight, ticks[i + 1..]);
      Run(queue, posted, inFlight, ticks[i..]) == Trace([t.step] + rest.steps, rest.queue, rest.posted)
  {
    assert ticks[i..][0] == ticks[i] && ticks[i..][1..] == ticks[i + 1..];
  }

  /** The posted ledger stays a set within its bound through a whole run. */
  lemma {:induction false} RunKeepsPostedLedger(queue: seq<Job>, posted: seq<int>, inFlight: set<int>, ticks: seq<Tick>)
    requires Distinct(posted) && |posted| <= MaxPostedKeep
    ensures var r := Run(queue, posted, inFlight, ticks);
      Distinct(r.posted) && |r.posted| <= MaxPostedKeep
    decreases |ticks|
  {
    if queue != [] && ticks != [] {
      var t := Pass(queue, posted, inFlight, ticks[0]);
      if t.posted != posted {
        var job := t.step.job;
        RememberedDistinct(posted, job.kill.eventId, MaxPostedKeep);
      }
      RunKeepsPostedLedger(t.queue, t.posted, inFlight, ticks[1..]);
    }
  }

  class DiscordBot {
    /** `config.players`, normalised once in the constructor. */
    const playerNames: seq<string>
    var sendQueue: seq<Job>
    /** Insertion-ordered, bounded by MaxPostedKeep. */
    var postedEventIds: seq<int>
    var inFlightEventIds: set<int>

    ghost predicate Valid()
      reads this
    {
      && Distinct(postedEventIds)
      && |postedEventIds| <= MaxPostedKeep
      && TriesBounded(sendQueue)
    }

    constructor (players: seq<string>)
      ensures Valid()
      ensures playerNames == NormalizePlayers(players)
      ensures sendQueue == [] && postedEventIds == [] && inFlightEventIds == {}
    {
      playerNames := NormalizePlayers(players);
      sendQueue := [];
      postedEventIds := [];
      inFlightEventIds := {};
    }

    /** The guard of `queueKill`: the kill has an id that is neither posted nor
      in flight. */
    predicate Admits(kill: Kill)
      reads this
    {
      Admissible(kill, postedEventIds, inFlightEventIds)
    }

    /** `queueKill(kill)`: append a fresh job due now, unless the guard refuses it. */
    method QueueKill(kill: Kill, now: int)
      requires Valid()
      modifies this
      ensures Valid()
      ensures sendQueue == if old(Admits(kill)) then old(sendQueue) + [Job(kill, 0, now)] else old(sendQueue)
      ensures postedEventIds == old(postedEventIds) && inFlightEventIds == old(inFlightEventIds)
    {
      if kill.eventId == 0 {
        return;
      }
      if kill.eventId in postedEventIds || kill.eventId in inFlightEventIds {
        return;
      }
      sendQueue := sendQueue + [Job(kill, 0, now)];
    }

    /** The selection at the top of `processQueue`'s loop: take out the first
      due job, or report how long to sleep when none is due. */
    method TakeReady(now: int) returns (pick: Pick)
      requires Valid() && |sendQueue| > 0
      modifies this
      ensures Valid()
      ensures postedEventIds == old(postedEventIds) && inFlightEventIds == old(inFlightEventIds)
      ensures var idx := FirstReady(old(sendQueue), now);
        if idx == -1 then
          pick == Idle(IdleSleep(old(sendQueue), now)) && sendQueue == old(sendQueue)
        else
          pick == Ready(old(sendQueue)[idx]) && sendQueue == old(sendQueue)[..idx] + old(sendQueue)[idx + 1..]
    {
      var idx := FirstReady(sendQueue, now);
      if idx == -1 {
        pick := Idle(IdleSleep(sendQueue, now));
        return;
      }
      pick := Ready(sendQueue[idx]);
      TriesBoundedWithout(sendQueue, idx);
      sendQueue := sendQueue[..idx] + sendQueue[idx + 1..];
    }

    /** `postKillWithTimeoutAndRetry` up to its `await`: drop knockdowns, else
      mark the id in flight. */
    method BeginPost(job: Job) returns (proceed: bool)
      modifies this`inFlightEventIds
      ensures proceed == !IsKnockdown(job.kill)
      ensures inFlightEventIds == if proceed then old(inFlightEventIds) + {job.kill.eventId} else old(inFlightEventIds)
    {
      if IsKnockdown(job.kill) {
        return false;
      }
      inFlightEventIds := inFlightEventIds + {job.kill.eventId};
      return true;
    }

    /** `postKillWithTimeoutAndRetry` after its `await`: remember a delivered
      kill; requeue a retryable failure with backoff while tries remain;
      otherwise report the error. The in-flight marker goes in every case. */
    method FinishPost(job: Job, outcome: PostOutcome, now: int, jitter: nat) returns (result: PostResult)
      requires Valid() && job.tries <= MaxPostRetries && !IsKnockdown(job.kill)
      modifies this
      ensures Valid()
      ensures result == PostEnd(job, outcome, now, jitter)
      ensures inFlightEventIds == old(inFlightEventIds) - {job.kill.eventId}
      ensures postedEventIds ==
        if result == Posted then Remembered(old(postedEventIds), job.kill.eventId, MaxPostedKeep)
        else old(postedEventIds)
      ensures sendQueue == old(sendQueue) + Requeue(result)
    {
      var id := job.kill.eventId;
      if outcome.Delivered? {
        RememberedDistinct(postedEventIds, id, MaxPostedKeep);
        postedEventIds := Remember(postedEventIds, id, MaxPostedKeep);
        result := Posted;
      } else {
        var msg := ErrorMessage(outcome, id);
        if IsRetryable(msg) && job.tries < MaxPostRetries {
          var tries := job.tries + 1;
          var again := Job(job.kill, tries, now + RetryDelay(tries, jitter));
          sendQueue := sendQueue + [again];
          result := Requeued(again);
        } else {
          result := Failed(msg);
        }
      }
      inFlightEventIds := inFlightEventIds - {id};
    }

    /** `postKillWithTimeoutAndRetry(job)` run to completion. */
    method PostKillWithTimeoutAndRetry(job: Job, outcome: PostOutcome, now: int, jitter: nat) returns (result: PostResult)
      requires Valid() && job.tries <= MaxPostRetries
      modifies this
      ensures Valid()
      ensures result == PostEnd(job, outcome, now, jitter)
      ensures inFlightEventIds == old(inFlightEventIds) - (if IsKnockdown(job.kill) then {} else {job.kill.eventId})
      ensures postedEventIds ==
        if result == Posted then Remembered(old(postedEventIds), job.kill.eventId, MaxPostedKeep)
        else old(postedEventIds)
      ensures sendQueue == old(sendQueue) + Requeue(result)
    {
      var proceed := BeginPost(job);
      if !proceed {
        return SkippedKnockdown;
      }
      result := FinishPost(job, outcome, now, jitter);
    }

    /** One pass of `processQueue`'s loop: pick, skip an id already posted or in
      flight, else post. */
    method ProcessOne(tick: Tick) returns (step: WorkStep)
      requires Valid() && |sendQueue| > 0
      modifies this
      ensures Valid()
      ensures inFlightEventIds == old(inFlightEventIds)
      ensures Turn(step, sendQueue, postedEventIds) == Pass(old(sendQueue), old(postedEventIds), old(inFlightEventIds), tick)
    {
      var pick := TakeReady(tick.now);
      if pick.Idle? {
        return Slept(pick.sleepMs);
      }
      var job := pick.job;
      if job.kill.eventId in postedEventIds || job.kill.eventId in inFlightEventIds {
        return DroppedDuplicate(job);
      }
      var result := PostKillWithTimeoutAndRetry(job, tick.outcome, tick.postNow, tick.jitter);
      step := Handled(job, result);
    }

    /** `processQueue`: run passes while jobs remain, one pass per tick. */
    method ProcessQueue(ticks: seq<Tick>) returns (steps: seq<WorkStep>)
      requires Valid()
      modifies this
      ensures Valid()
      ensures inFlightEventIds == old(inFlightEventIds)
      ensures Trace(steps, sendQueue, postedEventIds) == Run(old(sendQueue), old(postedEventIds), old(inFlightEventIds), ticks)
    {
      ghost var whole := Run(sendQueue, postedEventIds, inFlightEventIds, ticks);
      ghost var rest := whole;
      assert ticks[0..] == ticks;
      ResumesStart(whole);
      steps := [];
      var i := 0;
      while |sendQueue| > 0 && i < |ticks|
        invariant 0 <= i <= |ticks|
        invariant Valid()
        invariant inFlightEventIds == old(inFlightEventIds)
        invariant rest == Run(sendQueue, postedEventIds, inFlightEventIds, ticks[i..])
        invariant Resumes(whole, steps, rest)
        decreases |ticks| - i
      {
        RunUnfolds(sendQueue, postedEventIds, inFlightEventIds, ticks, i);
        var step := ProcessOne(ticks[i]);
        ghost var next := Run(sendQueue, postedEventIds, inFlightEventIds, ticks[i + 1..]);
        ResumesNext(whole, steps, step, next);
        steps := steps + [step];
        rest := next;
        i := i + 1;
      }
      ResumesDone(whole, steps, rest);
    }
  }

  /** Two enqueues of the same event while the worker is busy with another
      post leave two jobs: its loop is parked at an `await`, so the kick in
      `queueKill` returns at once, and `queueKill` checks the posted and
      in-flight sets, not the queue. The bot here stands for such a busy
      worker: the model's `QueueKill` never starts the worker itself. */
  method DuplicateEnqueueClient(kill: Kill, now: int) returns (bot: DiscordBot)
    requires kill.eventId != 0
    ensures fresh(bot) && bot.Valid()
    ensures bot.sendQueue == [Job(kill, 0, now), Job(kill, 0, now)]
    ensures bot.postedEventIds == [] && bot.inFlightEventIds == {}
  {
    bot := new DiscordBot([]);
    bot.QueueKill(kill, now);
    bot.QueueKill(kill, now);
  }

  /** The same duplicate at the level of the queue: handing over an admissible
      kill twice queues two identical jobs. */
  lemma DuplicateEnqueue(queue: seq<Job>, kill: Kill, posted: seq<int>, inFlight: set<int>, now: int)
    requires Admissible(kill, posted, inFlight)
    ensures Enqueued(queue, [kill, kill], posted, inFlight, now) == queue + [Job(kill, 0, now), Job(kill, 0, now)]
  {
    var job := Job(kill, 0, now);
    assert Enqueued(queue, [], posted, inFlight, now) == queue;
    EnqueuedNext(queue, [], kill, posted, inFlight, now);
    assert [] + [kill] == [kill];
    var once := Enqueued(queue, [kill], posted, inFlight, now);
    assert once == queue + [job];
    EnqueuedNext(queue, [kill], kill, posted, inFlight, now);
    assert [kill] + [kill] == [kill, kill];
    assert once + [job] == queue + [job, job];
  }

  /** A job whose id is already posted is dropped without being posted again. */
  method DropSecondCopyClient(bot: DiscordBot, kill: Kill, now: int) returns (step: WorkStep)
    requires bot.Valid() && bot.sendQueue == [Job(kill, 0, now)] && kill.eventId in bot.postedEventIds
    modifies bot
    ensures step == DroppedDuplicate(Job(kill, 0, now)) && bot.sendQueue == []
  {
    assert FirstReady(bot.sendQueue, now) == 0;
    step := bot.ProcessOne(Tick(now, Delivered, now, 0));
  }
}
