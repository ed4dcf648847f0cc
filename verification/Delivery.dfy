// The delivery worker of the federation queue.

module Delivery {

  // Due jobs are attempted, put back with a delay, or settled; an administrator may retry a failure.

  import opened Common

  type JobId = nat
  type ActivityId = nat
  type Time = int

  const BATCH_SIZE := 10

  datatype JobStatus = Queued | Processing | Delivered | Failed
  datatype ActivityStatus = Pending | Processed | GivenUp

  datatype Job = Job(activity: ActivityId, domain: string, attempts: nat, maxAttempts: nat, status: JobStatus,
                     due: Time)

  /** `posts` counts delivery attempts since a job was queued or last retried by an administrator. */
  datatype Desk = Desk(jobs: map<JobId, Job>, activities: map<ActivityId, ActivityStatus>, posts: map<JobId, nat>)

  /** What one pass meets: the rows the query returned, the blocked domains, and which remotes accept. */
  datatype Round = Round(batch: seq<JobId>, blocked: set<string>, accepts: set<JobId>, now: Time, jitter: nat)

  datatype Event = Pass(round: Round) | Retry(id: JobId, at: Time) | Enqueue(id: JobId, job: Job)

  // ---- backoff ----

  function Pow2(n: nat): nat {
    if n == 0 then 1 else 2 * Pow2(n - 1)
  }

  /** compute_retry_delay_seconds: 2^attempt in saturating 64-bit arithmetic, at most an hour. */
  function RetryDelay(attempt: nat): nat {
    var power := if Pow2(attempt) > 0xFFFF_FFFF_FFFF_FFFF then 0xFFFF_FFFF_FFFF_FFFF else Pow2(attempt);
    if power < 3600 then power else 3600
  }

  lemma {:induction false} Pow2Grows(m: nat, n: nat)
    requires m <= n
    ensures Pow2(m) <= Pow2(n)
    decreases n
  {
    if m < n { Pow2Grows(m, n - 1); }
  }

  /** The delay never shrinks with the number of attempts, doubles until it hits the cap, and caps from the twelfth
      on. */
  lemma BackoffGrows(m: nat, n: nat)
    requires m <= n
    ensures RetryDelay(m) <= RetryDelay(n)
    ensures RetryDelay(0) == 1 && (RetryDelay(m) == 3600 <==> m >= 12)
    ensures m < 11 ==> RetryDelay(m + 1) == 2 * RetryDelay(m)
  {
    Pow2Grows(m, n);
    assert Pow2(4) == 16;
    assert Pow2(8) == 256;
    assert Pow2(11) == 2048;
    assert Pow2(12) == 4096;
    if m >= 12 { Pow2Grows(12, m); } else { Pow2Grows(m, 11); if m < 11 { Pow2Grows(m + 1, 11); } }
  }

  // ---- one job ----

  predicate IsBlocked(j: Job, r: Round) {
    j.domain != "" && j.domain in r.blocked
  }

  function Attempt(id: JobId, j: Job, r: Round): Job {
    if IsBlocked(j, r) then j.(status := Failed)
    else if id in r.accepts then j.(status := Delivered)
    else if j.attempts + 1 >= j.maxAttempts then j.(status := Failed, attempts := j.attempts + 1, due := r.now)
    else j.(status := Queued, attempts := j.attempts + 1, due := r.now + RetryDelay(j.attempts + 1) + r.jitter)
  }

  function Outcome(id: JobId, j: Job, r: Round, was: ActivityStatus): ActivityStatus {
    if IsBlocked(j, r) then was
    else if id in r.accepts then Processed
    else if j.attempts + 1 >= j.maxAttempts then GivenUp
    else was
  }

  function AttemptAt(d: Desk, id: JobId, r: Round): Desk {
    if id !in d.jobs || d.jobs[id].activity !in d.activities || id !in d.posts then d else
    var j := d.jobs[id];
    Desk(d.jobs[id := Attempt(id, j, r)],
         d.activities[j.activity := Outcome(id, j, r, d.activities[j.activity])],
         d.posts[id := d.posts[id] + if IsBlocked(j, r) then 0 else 1])
  }

  // ---- invariant ----

  predicate JobOk(j: Job, posts: nat, status: ActivityStatus) {
    && 0 < j.maxAttempts && j.attempts <= j.maxAttempts
    && j.status != Processing
    && (j.status == Queued || j.status == Delivered ==> j.attempts < j.maxAttempts)
    && (status == Processed <==> j.status == Delivered)
    && posts == j.attempts + (if j.status == Delivered then 1 else 0)
  }

  predicate JobAt(d: Desk, id: JobId)
    requires id in d.jobs
  {
    var j := d.jobs[id];
    id in d.posts && j.activity in d.activities && JobOk(j, d.posts[id], d.activities[j.activity])
  }

  ghost predicate Sound(d: Desk) {
    && (forall id :: id in d.jobs ==> JobAt(d, id))
    && (forall i, j :: i in d.jobs && j in d.jobs && i != j ==> d.jobs[i].activity != d.jobs[j].activity)
  }

  /** What the query promises about the rows it returns. */
  ghost predicate DueBatch(d: Desk, r: Round) {
    && |r.batch| <= BATCH_SIZE
    && (forall k :: 0 <= k < |r.batch| ==>
          r.batch[k] in d.jobs && d.jobs[r.batch[k]].status == Queued && d.jobs[r.batch[k]].due <= r.now)
    && (forall i, k :: 0 <= i < k < |r.batch| ==> r.batch[i] != r.batch[k])
  }

  function Rank(j: Job): nat {
    if j.status == Queued && j.attempts < j.maxAttempts then j.maxAttempts - j.attempts else 0
  }

  lemma AttemptKeepsOk(id: JobId, j: Job, r: Round, posts: nat, was: ActivityStatus)
    requires JobOk(j, posts, was) && j.status == Queued
    ensures JobOk(Attempt(id, j, r), posts + (if IsBlocked(j, r) then 0 else 1), Outcome(id, j, r, was))
    ensures Attempt(id, j, r).activity == j.activity
    ensures Rank(Attempt(id, j, r)) < Rank(j)
  {
    hide RetryDelay;
  }

  lemma AttemptKeepsSound(d: Desk, id: JobId, r: Round)
    requires Sound(d) && id in d.jobs && d.jobs[id].status == Queued
    ensures Sound(AttemptAt(d, id, r))
  {
    var j, e := d.jobs[id], AttemptAt(d, id, r);
    AttemptKeepsOk(id, j, r, d.posts[id], d.activities[j.activity]);
    hide Attempt, Outcome, JobOk;
    forall i | i in e.jobs ensures JobAt(e, i) { assert JobAt(d, i); }
  }

  /** One row of the worker's loop: skipped when its domain is blocked, else posted, and settled or put back. */
  predicate Attempted(d: Desk, e: Desk, id: JobId, r: Round)
    requires id in d.jobs
  {
    id in d.posts && d.jobs[id].activity in d.activities &&
    var j := d.jobs[id];
    if j.domain != "" && j.domain in r.blocked then e == d.(jobs := d.jobs[id := j.(status := Failed)])
    else
      && e.posts == d.posts[id := d.posts[id] + 1]
      && if id in r.accepts then
           && e.jobs == d.jobs[id := j.(status := Delivered)]
           && e.activities == d.activities[j.activity := Processed]
         else if j.attempts + 1 >= j.maxAttempts then
           && e.jobs == d.jobs[id := j.(status := Failed, attempts := j.attempts + 1, due := r.now)]
           && e.activities == d.activities[j.activity := GivenUp]
         else
           && e.jobs == d.jobs[id := j.(status := Queued, attempts := j.attempts + 1,
                                        due := r.now + RetryDelay(j.attempts + 1) + r.jitter)]
           && e.activities == d.activities
  }

  lemma AttemptedIsAttempt(d: Desk, e: Desk, id: JobId, r: Round)
    requires id in d.jobs && Attempted(d, e, id, r)
    ensures e == AttemptAt(d, id, r)
  {
    var j := d.jobs[id];
    Rewritten(d.activities, j.activity);
    Rewritten(d.posts, id);
    hide RetryDelay;
  }

  lemma Rewritten<K, V>(m: map<K, V>, k: K)
    requires k in m
    ensures m[k := m[k]] == m
  {
  }

  // ---- passes and runs ----

  function AttemptFirst(d: Desk, r: Round, n: nat): Desk
    requires n <= |r.batch|
  {
    if n == 0 then d else AttemptAt(AttemptFirst(d, r, n - 1), r.batch[n - 1], r)
  }

  /** One row of a pass: its job is attempted once, and posted unless its domain is blocked. */
  predicate AttemptedOnce(d: Desk, r: Round, e: Desk, id: JobId)
    requires id in d.jobs
  {
    && id in e.jobs && e.jobs[id] == Attempt(id, d.jobs[id], r)
    && (id in d.posts ==> Lookup(e.posts, id) == Some(d.posts[id] + if IsBlocked(d.jobs[id], r) then 0 else 1))
  }

  /** Jobs outside the batch so far stay as they were. */
  predicate Untouched(d: Desk, e: Desk, id: JobId)
    requires id in d.jobs
  {
    id in e.jobs && e.jobs[id] == d.jobs[id] && Lookup(e.posts, id) == Lookup(d.posts, id)
  }

  ghost predicate OthersUntouched(d: Desk, r: Round, n: nat, e: Desk)
    requires n <= |r.batch|
  {
    forall id :: id in d.jobs && id !in r.batch[..n] ==> Untouched(d, e, id)
  }

  ghost predicate AllAttempted(d: Desk, r: Round, n: nat, e: Desk)
    requires n <= |r.batch|
  {
    forall k :: 0 <= k < n && r.batch[k] in d.jobs ==> AttemptedOnce(d, r, e, r.batch[k])
  }

  /** The first n rows of a pass: each is attempted once from its state before the pass, all other jobs
      are untouched. */
  ghost predicate Passed(d: Desk, r: Round, n: nat, e: Desk)
    requires n <= |r.batch|
  {
    e.jobs.Keys == d.jobs.Keys && OthersUntouched(d, r, n, e) && AllAttempted(d, r, n, e)
  }

  /** What one attempt does to its own job. */
  lemma AttemptIsOnce(d: Desk, r: Round, e: Desk, id: JobId)
    requires id in d.jobs && Untouched(d, e, id) && Sound(e)
    ensures AttemptedOnce(d, r, AttemptAt(e, id, r), id)
  {
    assert JobAt(e, id);
    hide Attempt, Outcome, JobOk, RetryDelay;
  }

  /** And to all others: nothing. */
  lemma AttemptKeepsOthers(e: Desk, id: JobId, r: Round, other: JobId)
    requires other != id
    ensures Lookup(AttemptAt(e, id, r).jobs, other) == Lookup(e.jobs, other)
    ensures Lookup(AttemptAt(e, id, r).posts, other) == Lookup(e.posts, other)
    ensures AttemptAt(e, id, r).jobs.Keys == e.jobs.Keys
  {
    hide Attempt, Outcome;
  }

  lemma OthersStay(d: Desk, r: Round, e: Desk, id: JobId, other: JobId)
    requires other != id && other in d.jobs
    ensures Untouched(d, e, other) ==> Untouched(d, AttemptAt(e, id, r), other)
    ensures AttemptedOnce(d, r, e, other) ==> AttemptedOnce(d, r, AttemptAt(e, id, r), other)
  {
    AttemptKeepsOthers(e, id, r, other);
    hide AttemptAt, Attempt;
  }

  /** The frame of one more attempt. */
  lemma OneMoreLeavesOthers(d: Desk, r: Round, n: nat, e: Desk)
    requires n < |r.batch| && OthersUntouched(d, r, n, e)
    ensures OthersUntouched(d, r, n + 1, AttemptAt(e, r.batch[n], r))
  {
    hide AttemptAt, Untouched, AttemptedOnce;
    assert r.batch[..n + 1] == r.batch[..n] + [r.batch[n]];
    forall other | other in d.jobs && other !in r.batch[..n + 1]
      ensures Untouched(d, AttemptAt(e, r.batch[n], r), other)
    {
      OthersStay(d, r, e, r.batch[n], other);
    }
  }

  /** What one more attempt attempts. */
  lemma OneMoreIsAttempted(d: Desk, r: Round, n: nat, e: Desk)
    requires n < |r.batch| && AllAttempted(d, r, n, e) && Sound(e)
    requires r.batch[n] in d.jobs && Untouched(d, e, r.batch[n])
    requires forall k :: 0 <= k < n ==> r.batch[k] != r.batch[n]
    ensures AllAttempted(d, r, n + 1, AttemptAt(e, r.batch[n], r))
  {
    AttemptIsOnce(d, r, e, r.batch[n]);
    hide AttemptAt, Untouched, AttemptedOnce, Sound;
    forall k | 0 <= k < n && r.batch[k] in d.jobs ensures AttemptedOnce(d, r, AttemptAt(e, r.batch[n], r), r.batch[k]) {
      OthersStay(d, r, e, r.batch[n], r.batch[k]);
    }
  }

  lemma NextIsUntouched(d: Desk, r: Round, n: nat, e: Desk)
    requires DueBatch(d, r) && n < |r.batch| && OthersUntouched(d, r, n, e)
    ensures r.batch[n] in d.jobs && Untouched(d, e, r.batch[n]) && d.jobs[r.batch[n]].status == Queued
    ensures forall k :: 0 <= k < n ==> r.batch[k] != r.batch[n]
  {
    assert r.batch[n] !in r.batch[..n];
  }

  lemma PassOneMore(d: Desk, r: Round, n: nat, e: Desk)
    requires DueBatch(d, r) && n < |r.batch| && Passed(d, r, n, e) && Sound(e)
    ensures r.batch[n] in e.jobs && e.jobs[r.batch[n]].status == Queued
    ensures Passed(d, r, n + 1, AttemptAt(e, r.batch[n], r))
  {
    NextIsUntouched(d, r, n, e);
    hide DueBatch, OthersUntouched, AllAttempted, AttemptAt, Sound;
    OneMoreLeavesOthers(d, r, n, e);
    OneMoreIsAttempted(d, r, n, e);
    AttemptKeepsOthers(e, r.batch[n], r, r.batch[n] + 1);
  }

  lemma NothingPassed(d: Desk, r: Round)
    ensures Passed(d, r, 0, d)
  {
  }

  lemma PassStep(d: Desk, r: Round, n: nat, e: Desk)
    requires Sound(e) && DueBatch(d, r) && n < |r.batch| && Passed(d, r, n, e)
    ensures Sound(AttemptAt(e, r.batch[n], r)) && Passed(d, r, n + 1, AttemptAt(e, r.batch[n], r))
  {
    hide *;
    PassOneMore(d, r, n, e);
    AttemptKeepsSound(e, r.batch[n], r);
  }

  lemma {:induction false} PassKeepsSound(d: Desk, r: Round, n: nat)
    requires Sound(d) && DueBatch(d, r) && n <= |r.batch|
    ensures Sound(AttemptFirst(d, r, n))
    ensures Passed(d, r, n, AttemptFirst(d, r, n))
  {
    hide Sound, DueBatch, Passed, AttemptAt;
    if n == 0 {
      NothingPassed(d, r);
    } else {
      PassKeepsSound(d, r, n - 1);
      PassStep(d, r, n - 1, AttemptFirst(d, r, n - 1));
    }
  }

  ghost predicate Enabled(d: Desk, e: Event) {
    match e
    case Pass(r) => DueBatch(d, r)
    case Retry(id, _) => id in d.jobs && d.jobs[id].status == Failed
    case Enqueue(id, job) =>
      id !in d.jobs && job.activity !in d.activities && job.maxAttempts > 0
  }

  ghost function Apply(d: Desk, e: Event): Desk {
    if !Enabled(d, e) then d else
    match e
    case Pass(r) => AttemptFirst(d, r, |r.batch|)
    case Retry(id, at) =>
      d.(jobs := d.jobs[id := d.jobs[id].(status := Queued, attempts := 0, due := at)], posts := d.posts[id := 0])
    case Enqueue(id, job) =>
      Desk(d.jobs[id := job.(status := Queued, attempts := 0)], d.activities[job.activity := Pending], d.posts[id := 0])
  }

  ghost function Run(d: Desk, es: seq<Event>): Desk
    decreases |es|
  {
    if es == [] then d else Apply(Run(d, es[..|es| - 1]), es[|es| - 1])
  }

  lemma ApplyKeepsSound(d: Desk, e: Event)
    requires Sound(d)
    ensures Sound(Apply(d, e))
    ensures forall id :: id in d.jobs ==> id in Apply(d, e).jobs
    ensures forall id :: id in d.jobs && d.jobs[id].status == Delivered ==> Apply(d, e).jobs[id] == d.jobs[id]
  {
    if e.Pass? && DueBatch(d, e.round) {
      var batch := e.round.batch;
      PassKeepsSound(d, e.round, |batch|);
      assert batch[..|batch|] == batch;
      hide Attempt, AttemptFirst, JobAt;
      forall id | id in d.jobs && d.jobs[id].status == Delivered ensures id !in batch {
        assert forall k :: 0 <= k < |batch| ==> d.jobs[batch[k]].status == Queued;
      }
    } else if Enabled(d, e) {
      var q := Apply(d, e);
      forall id | id in q.jobs ensures JobAt(q, id) { if id in d.jobs { assert JobAt(d, id); } }
    }
  }

  lemma {:induction false} RunKeepsSound(d: Desk, es: seq<Event>)
    requires Sound(d)
    ensures Sound(Run(d, es))
    ensures forall id :: id in d.jobs ==> id in Run(d, es).jobs
    ensures forall id :: id in d.jobs && d.jobs[id].status == Delivered ==> Run(d, es).jobs[id] == d.jobs[id]
    decreases |es|
  {
    if es != [] {
      RunKeepsSound(d, es[..|es| - 1]);
      ApplyKeepsSound(Run(d, es[..|es| - 1]), es[|es| - 1]);
    }
  }

  /**
   * In every reachable state: no job is stuck in `processing`, a queued job has attempts left, an activity is
   * processed exactly when its job is delivered, and no job was posted more than its maximum since its last retry.
   */
  lemma DeliveryIsSound(es: seq<Event>, id: JobId)
    requires id in Run(Desk(map[], map[], map[]), es).jobs
    ensures var d := Run(Desk(map[], map[], map[]), es);
      var j := d.jobs[id];
      && j.status != Processing
      && (j.status == Queued ==> j.attempts < j.maxAttempts)
      && j.activity in d.activities && (d.activities[j.activity] == Processed <==> j.status == Delivered)
      && id in d.posts && d.posts[id] <= j.maxAttempts
  {
    RunKeepsSound(Desk(map[], map[], map[]), es);
    assert JobAt(Run(Desk(map[], map[], map[]), es), id);
  }

  /** `delivered` is final. */
  lemma DeliveredStays(d: Desk, es: seq<Event>, id: JobId)
    requires Sound(d) && id in d.jobs && d.jobs[id].status == Delivered
    ensures id in Run(d, es).jobs && Run(d, es).jobs[id] == d.jobs[id]
  {
    RunKeepsSound(d, es);
  }

  /** A domain block settles a job without spending an attempt, so an administrator's retry finds the budget whole. */
  lemma BlockedSpendsNothing(d: Desk, r: Round, id: JobId)
    requires Sound(d) && DueBatch(d, r) && id in r.batch && IsBlocked(d.jobs[id], r)
    ensures Lookup(Apply(d, Pass(r)).jobs, id) == Some(d.jobs[id].(status := Failed))
    ensures Lookup(Apply(d, Pass(r)).posts, id) == Lookup(d.posts, id)
  {
    var n := |r.batch|;
    PassKeepsSound(d, r, n);
    var k :| 0 <= k < n && r.batch[k] == id;
    assert AttemptedOnce(d, r, AttemptFirst(d, r, n), r.batch[k]);
    assert JobAt(d, id);
  }

  lemma PassAttempts(d: Desk, r: Round, id: JobId)
    requires Sound(d) && DueBatch(d, r) && id in r.batch
    ensures id in d.jobs && id in Apply(d, Pass(r)).jobs && Apply(d, Pass(r)).jobs[id] == Attempt(id, d.jobs[id], r)
    ensures JobAt(Apply(d, Pass(r)), id)
  {
    var n := |r.batch|;
    PassKeepsSound(d, r, n);
    var k :| 0 <= k < n && r.batch[k] == id;
    assert AttemptedOnce(d, r, AttemptFirst(d, r, n), r.batch[k]);
    hide Attempt, AttemptFirst, JobAt;
  }

  /** What a pass makes of each of its jobs, and of the job's activity. */
  lemma PassSettles(d: Desk, r: Round, id: JobId)
    requires Sound(d) && DueBatch(d, r) && id in r.batch
    ensures var (j, e) := (d.jobs[id], Apply(d, Pass(r)));
      && id in e.jobs && j.activity in e.activities
      && if j.domain != "" && j.domain in r.blocked then e.jobs[id] == j.(status := Failed)
         else if id in r.accepts then
           e.jobs[id] == j.(status := Delivered) && e.activities[j.activity] == Processed
         else
           var tries := j.attempts + 1;
           e.jobs[id] == if tries >= j.maxAttempts then j.(status := Failed, attempts := tries, due := r.now)
                         else j.(status := Queued, attempts := tries, due := r.now + RetryDelay(tries) + r.jitter)
  {
    PassAttempts(d, r, id);
    hide RetryDelay, Apply, Sound, DueBatch;
  }

  /** A new job is queued, due when it says, with its whole budget, and its activity is pending. */
  lemma EnqueueQueues(d: Desk, id: JobId, job: Job)
    requires id !in d.jobs && job.activity !in d.activities && job.maxAttempts > 0
    ensures var e := Apply(d, Enqueue(id, job));
      && id in e.jobs && e.jobs[id] == Job(job.activity, job.domain, 0, job.maxAttempts, Queued, job.due)
      && e.jobs - {id} == d.jobs && Lookup(e.activities, job.activity) == Some(Pending)
  {
  }

  // ---- every job settles ----

  /** How many passes of a run attempt job `id`. */
  ghost function Tries(d: Desk, es: seq<Event>, id: JobId): nat
    decreases |es|
  {
    if es == [] then 0 else
    var (prior, e) := (es[..|es| - 1], es[|es| - 1]);
    Tries(d, prior, id) + if Enabled(Run(d, prior), e) && e.Pass? && id in e.round.batch then 1 else 0
  }

  /**
   * Each attempt brings a job strictly closer to being settled: without an administrator's retry, a run can attempt it
   * no more often than attempts were left, and once it has used them it is delivered or failed.
   */
  lemma {:induction false} AttemptsRunOut(d: Desk, es: seq<Event>, id: JobId)
    requires Sound(d) && id in d.jobs
    requires forall e :: e in es && e.Retry? ==> e.id != id
    ensures id in Run(d, es).jobs
    ensures Tries(d, es, id) + Rank(Run(d, es).jobs[id]) <= Rank(d.jobs[id])
    ensures Rank(Run(d, es).jobs[id]) == 0 ==> Run(d, es).jobs[id].status in {Delivered, Failed}
    decreases |es|
  {
    RunKeepsSound(d, es);
    assert JobAt(Run(d, es), id);
    if es != [] {
      var prior, e := es[..|es| - 1], es[|es| - 1];
      AttemptsRunOut(d, prior, id);
      RunKeepsSound(d, prior);
      hide Sound, Rank;
      EventLowersRank(Run(d, prior), e, id);
    }
  }

  lemma EventLowersRank(q: Desk, e: Event, id: JobId)
    requires Sound(q) && id in q.jobs && (e.Retry? ==> e.id != id)
    ensures id in Apply(q, e).jobs
    ensures var tried := Enabled(q, e) && e.Pass? && id in e.round.batch;
      Rank(Apply(q, e).jobs[id]) + (if tried then 1 else 0) <= Rank(q.jobs[id])
  {
    if e.Pass? && Enabled(q, e) {
      hide Attempt, AttemptFirst, JobOk;
      var batch := e.round.batch;
      PassKeepsSound(q, e.round, |batch|);
      assert batch[..|batch|] == batch;
      assert JobAt(q, id);
      if id in batch {
        assert q.jobs[id].status == Queued;
        AttemptKeepsOk(id, q.jobs[id], e.round, q.posts[id], q.activities[q.jobs[id].activity]);
      }
    }
  }

  // ---- the worker itself ----

  class Worker {
    var jobs: map<JobId, Job>
    var activities: map<ActivityId, ActivityStatus>
    ghost var posts: map<JobId, nat>

    ghost function State(): Desk
      reads this
    {
      Desk(jobs, activities, posts)
    }

    constructor ()
      ensures State() == Desk(map[], map[], map[])
    {
      jobs, activities, posts := map[], map[], map[];
    }

    /** process_due_jobs over the rows its query returned. */
    method ProcessDueJobs(r: Round)
      requires Sound(State()) && DueBatch(State(), r)
      modifies this
      ensures State() == AttemptFirst(old(State()), r, |r.batch|)
      ensures Sound(State())
    {
      hide Sound, Passed, AttemptAt, DueBatch;
      ghost var d := State();
      for k := 0 to |r.batch|
        invariant State() == AttemptFirst(d, r, k)
      {
        PassKeepsSound(d, r, k);
        PassOneMore(d, r, k, State());
        ghost var e := State();
        AttemptOne(r.batch[k], r);
        AttemptedIsAttempt(e, State(), r.batch[k], r);
      }
      PassKeepsSound(d, r, |r.batch|);
    }

    /** One row: skipped when its domain is blocked, otherwise claimed, posted and settled or put back. */
    method AttemptOne(id: JobId, r: Round)
      requires Sound(State()) && id in jobs
      modifies this
      ensures Attempted(old(State()), State(), id, r)
    {
      assert JobAt(State(), id);
      var job := jobs[id];
      assert id in posts && job.activity in activities;
      hide Sound, RetryDelay, JobAt, JobOk;
      if job.domain != "" && job.domain in r.blocked {
        jobs := jobs[id := job.(status := Failed)];
        return;
      }
      jobs := jobs[id := job.(status := Processing)];
      posts := posts[id := posts[id] + 1];
      if id in r.accepts {
        jobs := jobs[id := job.(status := Delivered)];
        activities := activities[job.activity := Processed];
      } else {
        var next := job.attempts + 1;
        var exhausted := next >= job.maxAttempts;
        jobs := jobs[id := job.(status := if exhausted then Failed else Queued, attempts := next,
                                due := if exhausted then r.now else r.now + RetryDelay(next) + r.jitter)];
        if exhausted { activities := activities[job.activity := GivenUp]; }
      }
    }

    /** retry_delivery_job. */
    method RetryJob(id: JobId, now: Time) returns (ok: bool)
      requires Sound(State())
      modifies this
      ensures State() == Apply(old(State()), Retry(id, now))
      ensures ok <==> id in old(jobs) && old(jobs)[id].status == Failed
      ensures Sound(State())
      ensures !ok ==> State() == old(State())
      ensures ok ==> State() == Desk(old(jobs)[id := old(jobs)[id].(status := Queued, attempts := 0, due := now)],
                                     old(activities), old(posts)[id := 0])
    {
      ApplyKeepsSound(State(), Retry(id, now));
      if id !in jobs || jobs[id].status != Failed { return false; }
      jobs := jobs[id := jobs[id].(status := Queued, attempts := 0, due := now)];
      posts := posts[id := 0];
      ok := true;
    }
  }
}
