// Storage migration over whole runs: start requests, jobs and cancel requests interleave, step by step.

module MigrationRuns {

  import opened Common
  import opened Migration

  type JobId = nat  // fresh for every start request

  /** The settings a job copies to. */
  datatype Target = Target(backend: string, bucket: string, endpoint: string)

  /** A job row, its item rows, the files it collected and the keys it may skip. */
  datatype Record = Record(
    target: Target, source: Option<JobId>, status: Status, items: seq<Item>, resumable: set<Key>, rows: seq<Row>)

  /** How far a start request, and the job it spawns, has come. */
  datatype Phase =
    | Starting(target: Target, found: seq<Item>)  // holds the flag, has not inserted the job row
    | Launched(found: seq<Item>)                  // the job row is inserted, the job is spawned
    | Ready(todo: seq<Item>)                      // about to check for cancellation
    | Uploading(item: Item, rest: seq<Item>)      // past its check, uploading
    | Ending                                      // the closing UPDATE is done or has failed
    | Gone                                        // the flag is released

  datatype Sys = Sys(
    running: bool,                   // STORAGE_MIGRATION_RUNNING
    cancelled: set<JobId>,           // STORAGE_MIGRATION_CANCELLED
    threads: map<JobId, Phase>,
    jobs: map<JobId, Record>,
    held: set<(Target, Key)>,        // the objects in every target
    seen: multiset<JobId>,           // cancel requests that have read a status they accept
    marked: multiset<JobId>)         // cancel requests that have recorded the cancellation

  datatype Event =
    | Request(id: JobId, target: Target, found: seq<Item>)
    | GiveUp(id: JobId)
    | Launch(id: JobId, source: Option<JobId>)
    | Begin(id: JobId)
    | Check(id: JobId)
    | Upload(id: JobId, retries: Option<nat>)
    | Finish(id: JobId)
    | Break(id: JobId, recorded: bool)  // the job failed; so may the UPDATE that says so
    | Release(id: JobId)
    | CancelRead(id: JobId)
    | CancelMark(id: JobId)
    | CancelWrite(id: JobId)

  function CopiedKeys(rows: seq<Row>): set<Key> {
    set i | 0 <= i < |rows| && rows[i].result.Copied? :: KeyOf(rows[i].item)
  }

  /** The checks on resume_from_job_id: the source has stopped short and had the same backend. */
  predicate MayResume(s: Sys, source: Option<JobId>, target: Target) {
    source.Some? ==>
      && source.value in s.jobs
      && s.jobs[source.value].status in {FailedJob, Cancelled, CompletedWithErrors}
      && s.jobs[source.value].target.backend == target.backend
  }

  /** The thread of a job whose row is inserted; PhaseHolds shows that no such thread lacks its row. */
  predicate Working(s: Sys, id: JobId) {
    id in s.threads && id in s.jobs
  }

  predicate Enabled(s: Sys, e: Event) {
    match e
    case Request(id, _, _) => id !in s.threads
    case GiveUp(id) => id in s.threads && s.threads[id].Starting?
    case Launch(id, source) => id in s.threads && s.threads[id].Starting? && MayResume(s, source, s.threads[id].target)
    case Begin(id) => Working(s, id) && s.threads[id].Launched?
    case Check(id) => Working(s, id) && s.threads[id].Ready? && s.threads[id].todo != []
    case Upload(id, retries) =>
      Working(s, id) && s.threads[id].Uploading? && (retries.Some? ==> retries.value <= MAX_RETRIES)
    case Finish(id) => Working(s, id) && s.threads[id] == Ready([])
    case Break(id, _) => Working(s, id) && (s.threads[id].Launched? || s.threads[id].Ready?)
    case Release(id) => id in s.threads && s.threads[id].Ending?
    case CancelRead(id) => id in s.jobs && s.jobs[id].status in {Pending, Running, CancelRequested}
    case CancelMark(id) => id in s.seen
    case CancelWrite(id) => id in s.marked && id in s.jobs
  }

  function Move(s: Sys, id: JobId, phase: Phase, record: Record): Sys {
    s.(threads := s.threads[id := phase], jobs := s.jobs[id := record])
  }

  function Recorded(j: Record, row: Row): Record {
    j.(rows := j.rows + [row])
  }

  function ClosingStatus(rows: seq<Row>): Status {
    if Count(rows, Failed) > 0 then CompletedWithErrors else Completed
  }

  predicate IsCancelling(e: Event) {
    e.CancelRead? || e.CancelMark? || e.CancelWrite?
  }

  /** One of the three steps of a cancel request. */
  function Cancelling(s: Sys, e: Event): (t: Sys)
    requires IsCancelling(e) && Enabled(s, e)
    ensures t.threads == s.threads && t.running == s.running && t.held == s.held && s.cancelled <= t.cancelled
    ensures t.jobs == if e.CancelWrite? then s.jobs[e.id := s.jobs[e.id].(status := CancelRequested)] else s.jobs
  {
    match e
    case CancelRead(id) => s.(seen := s.seen + multiset{id})
    case CancelMark(id) =>
      s.(cancelled := s.cancelled + {id}, seen := s.seen - multiset{id}, marked := s.marked + multiset{id})
    case CancelWrite(id) =>
      s.(jobs := s.jobs[id := s.jobs[id].(status := CancelRequested)], marked := s.marked - multiset{id})
  }

  function Apply(s: Sys, e: Event): Sys
    requires Enabled(s, e)
  {
    match e
    case Request(id, target, found) =>
      if s.running then s.(threads := s.threads[id := Gone])
      else s.(running := true, threads := s.threads[id := Starting(target, found)])
    case GiveUp(id) => s.(running := false, threads := s.threads[id := Gone])
    case Launch(id, source) =>
      var t := s.threads[id];
      Move(s, id, Launched(t.found), Record(t.target, source, Pending, [], {}, []))
    case Begin(id) =>
      var j := s.jobs[id];
      var found := s.threads[id].found;
      var resumable :=
        if j.source.Some? && j.source.value in s.jobs then CopiedKeys(s.jobs[j.source.value].rows) else {};
      Move(s, id, Ready(found), j.(status := Running, items := found, resumable := resumable))
    case Check(id) =>
      var j := s.jobs[id];
      var item, rest := s.threads[id].todo[0], s.threads[id].todo[1..];
      if id in s.cancelled then
        Move(s, id, Ending, j.(status := Cancelled)).(cancelled := s.cancelled - {id})
      else if KeyOf(item) in j.resumable then
        Move(s, id, Ready(rest), Recorded(j, Row(item, Skipped, 0)))
      else
        s.(threads := s.threads[id := Uploading(item, rest)])
    case Upload(id, retries) =>
      var j := s.jobs[id];
      var item, rest := s.threads[id].item, s.threads[id].rest;
      (match retries
       case Some(n) =>
         var t := Move(s, id, Ready(rest), Recorded(j, Row(item, Copied, n)));
         t.(held := s.held + {(j.target, KeyOf(item))})
       case None => Move(s, id, Ready(rest), Recorded(j, Row(item, Failed, MAX_RETRIES))))
    case Finish(id) =>
      Move(s, id, Ending, s.jobs[id].(status := ClosingStatus(s.jobs[id].rows))).(cancelled := s.cancelled - {id})
    case Break(id, recorded) =>
      Move(s, id, Ending, if recorded then s.jobs[id].(status := FailedJob) else s.jobs[id])
    case Release(id) =>
      s.(running := false, threads := s.threads[id := Gone], cancelled := s.cancelled - {id})
    case _ => Cancelling(s, e)
  }

  /** A step; an event that is not possible changes nothing. */
  function Step(s: Sys, e: Event): Sys {
    if Enabled(s, e) then Apply(s, e) else s
  }

  function Run(s: Sys, es: seq<Event>): Sys
    decreases |es|
  {
    if es == [] then s else Run(Step(s, es[0]), es[1..])
  }

  function Start(held: set<(Target, Key)>): Sys {
    Sys(false, {}, map[], map[], held, multiset{}, multiset{})
  }

  // ---- what every step keeps ----

  predicate Holds(s: Sys, id: JobId) {
    id in s.threads && !s.threads[id].Gone?
  }

  /** At most one start request or job is under way, and the flag says whether one is. */
  ghost predicate OneJob(s: Sys) {
    && (forall a, b :: Holds(s, a) && Holds(s, b) ==> a == b)
    && (s.running <==> exists id :: Holds(s, id))
  }

  /** The items whose outcome is not recorded yet. */
  function Unfinished(phase: Phase): seq<Item> {
    match phase
    case Ready(todo) => todo
    case Uploading(item, rest) => [item] + rest
    case _ => []
  }

  predicate RowHolds(s: Sys, j: Record, i: nat)
    requires i < |j.rows| && i < |j.items|
  {
    var row := j.rows[i];
    && row.item == j.items[i]
    && GoodRow(row)
    && (row.result.Copied? ==> (j.target, KeyOf(row.item)) in s.held)
    && (row.result.Skipped? ==> KeyOf(row.item) in j.resumable)
  }

  /** A job's rows are the outcomes of its first files, in order. */
  predicate JobHolds(s: Sys, j: Record) {
    && |j.rows| <= |j.items|
    && (forall i :: 0 <= i < |j.rows| ==> RowHolds(s, j, i))
    && (j.source.None? ==> j.resumable == {})
    && (j.source.Some? ==> j.source.value in s.jobs && s.jobs[j.source.value].target.backend == j.target.backend
                           && forall k :: k in j.resumable ==> (s.jobs[j.source.value].target, k) in s.held)
    && (j.status in {Completed, CompletedWithErrors} ==> |j.rows| == |j.items| && j.status == ClosingStatus(j.rows))
  }

  predicate PhaseHolds(s: Sys, id: JobId)
    requires id in s.threads
  {
    match s.threads[id]
    case Starting(_, _) => id !in s.jobs
    case Launched(_) => id in s.jobs && s.jobs[id].rows == []
    case Gone => true
    case Ending => id in s.jobs
    case _ => id in s.jobs && IsRest(s.jobs[id], Unfinished(s.threads[id]))
  }

  predicate IsRest(j: Record, rest: seq<Item>) {
    |j.rows| <= |j.items| && j.items[|j.rows|..] == rest
  }

  ghost predicate Inv(s: Sys) {
    && OneJob(s)
    && (forall id :: id in s.jobs ==> id in s.threads && JobHolds(s, s.jobs[id]))
    && (forall id :: id in s.threads ==> PhaseHolds(s, id))
  }

  /** Targets of jobs never change, and no object disappears from a target. */
  predicate Extends(s: Sys, t: Sys) {
    && s.held <= t.held
    && forall id :: id in s.jobs ==> id in t.jobs && t.jobs[id].target == s.jobs[id].target
  }

  lemma StillHolds(s: Sys, t: Sys, j: Record)
    requires JobHolds(s, j) && Extends(s, t)
    ensures JobHolds(t, j)
  {
    forall i | 0 <= i < |j.rows| ensures RowHolds(t, j, i) {
      assert RowHolds(s, j, i);
    }
  }

  predicate Touches(s: Sys, t: Sys, id: JobId) {
    && t.threads.Keys == s.threads.Keys + {id} && t.jobs.Keys <= s.jobs.Keys + {id}
    && (forall k :: k in s.threads && k != id ==> t.threads[k] == s.threads[k])
    && (forall k :: k in s.jobs && k != id ==> k in t.jobs && t.jobs[k] == s.jobs[k])
  }

  /** A step that touches one thread and its job keeps the invariant if they end up right. */
  lemma TouchKeepsInv(s: Sys, t: Sys, id: JobId)
    requires Inv(s) && Extends(s, t) && OneJob(t) && Touches(s, t, id)
    requires id in t.jobs ==> JobHolds(t, t.jobs[id])
    requires PhaseHolds(t, id)
    ensures Inv(t)
  {
    forall k | k in t.jobs && k != id ensures JobHolds(t, t.jobs[k]) {
      StillHolds(s, t, s.jobs[k]);
    }
    hide OneJob, JobHolds;
    forall k | k in t.threads ensures PhaseHolds(t, k) {
      if k != id { assert PhaseHolds(s, k); }
    }
  }

  /** The flag changes hands exactly as its holder comes and goes. */
  lemma FlagFollows(s: Sys, t: Sys, id: JobId)
    requires OneJob(s) && Touches(s, t, id)
    requires Holds(s, id) ==> t.running == Holds(t, id)
    requires !Holds(s, id) ==> (if s.running then t.running && !Holds(t, id) else t.running == Holds(t, id))
    ensures OneJob(t)
  {
    forall k | k != id ensures Holds(t, k) <==> Holds(s, k) {
      assert k in t.threads <==> k in s.threads;
    }
    if s.running {
      var h :| Holds(s, h);
      assert Holds(t, h) || h == id;
    }
    if Holds(t, id) { assert t.running; }
  }

  lemma JobGrows(s: Sys, t: Sys, j: Record, row: Row, rest: seq<Item>)
    requires JobHolds(s, j) && IsRest(j, [row.item] + rest) && Extends(s, t)
    requires GoodRow(row) && (row.result.Copied? ==> (j.target, KeyOf(row.item)) in t.held)
    requires row.result.Skipped? ==> KeyOf(row.item) in j.resumable
    ensures JobHolds(t, Recorded(j, row)) && IsRest(Recorded(j, row), rest)
  {
    var g := Recorded(j, row);
    assert j.items[|j.rows|] == row.item;
    assert j.items[|j.rows| + 1..] == j.items[|j.rows|..][1..] == rest;
    forall i | 0 <= i < |g.rows| ensures RowHolds(t, g, i) {
      if i < |j.rows| { assert RowHolds(s, j, i); }
    }
  }

  lemma CopiedAreHeld(s: Sys, j: Record)
    requires JobHolds(s, j)
    ensures forall k :: k in CopiedKeys(j.rows) ==> (j.target, k) in s.held
  {
    forall k | k in CopiedKeys(j.rows) ensures (j.target, k) in s.held {
      var i :| 0 <= i < |j.rows| && j.rows[i].result.Copied? && KeyOf(j.rows[i].item) == k;
      assert RowHolds(s, j, i);
    }
  }

  lemma BeginHolds(s: Sys, id: JobId)
    requires Inv(s) && Enabled(s, Begin(id))
    ensures var t := Apply(s, Begin(id)); JobHolds(t, t.jobs[id]) && PhaseHolds(t, id) && Extends(s, t)
  {
    var j := s.jobs[id];
    assert PhaseHolds(s, id) && JobHolds(s, j);
    if j.source.Some? { CopiedAreHeld(s, s.jobs[j.source.value]); }
  }

  lemma LaunchHolds(s: Sys, id: JobId, source: Option<JobId>)
    requires Inv(s) && Enabled(s, Launch(id, source))
    ensures var t := Apply(s, Launch(id, source)); JobHolds(t, t.jobs[id]) && PhaseHolds(t, id) && Extends(s, t)
  {
    assert PhaseHolds(s, id);
  }

  lemma SameRowsHold(s: Sys, t: Sys, j: Record, g: Record)
    requires JobHolds(s, j) && Extends(s, t) && g == j.(status := g.status)
    requires g.status in {Completed, CompletedWithErrors} ==> |j.rows| == |j.items| && g.status == ClosingStatus(j.rows)
    ensures JobHolds(t, g)
  {
    forall i | 0 <= i < |j.rows| ensures RowHolds(t, g, i) {
      assert RowHolds(s, j, i);
    }
  }

  ghost predicate Settled(t: Sys, id: JobId) {
    id in t.jobs && id in t.threads && JobHolds(t, t.jobs[id]) && PhaseHolds(t, id)
  }

  lemma CheckHolds(s: Sys, id: JobId)
    requires Inv(s) && Enabled(s, Check(id))
    ensures var t := Apply(s, Check(id)); Settled(t, id) && Extends(s, t)
  {
    var t, j, todo := Apply(s, Check(id)), s.jobs[id], s.threads[id].todo;
    assert PhaseHolds(s, id) && JobHolds(s, j);
    assert Extends(s, t);
    assert todo == [todo[0]] + todo[1..];
    if id in s.cancelled {
      SameRowsHold(s, t, j, t.jobs[id]);
    } else if KeyOf(todo[0]) in j.resumable {
      JobGrows(s, t, j, Row(todo[0], Skipped, 0), todo[1..]);
    } else {
      SameRowsHold(s, t, j, j);
    }
  }

  lemma UploadHolds(s: Sys, id: JobId, retries: Option<nat>)
    requires Inv(s) && Enabled(s, Upload(id, retries))
    ensures var t := Apply(s, Upload(id, retries)); Settled(t, id) && Extends(s, t)
  {
    var t, j, phase := Apply(s, Upload(id, retries)), s.jobs[id], s.threads[id];
    assert PhaseHolds(s, id) && JobHolds(s, j);
    var row := if retries.Some? then Row(phase.item, Copied, retries.value) else Row(phase.item, Failed, MAX_RETRIES);
    JobGrows(s, t, j, row, phase.rest);
  }

  lemma CloseHolds(s: Sys, id: JobId, e: Event)
    requires Inv(s) && Enabled(s, e) && e.id == id && (e.Finish? || e.Break? || e.CancelWrite?)
    ensures var t := Apply(s, e); Settled(t, id) && Extends(s, t)
  {
    var t, j := Apply(s, e), s.jobs[id];
    assert JobHolds(s, j) && PhaseHolds(s, id);
    SameRowsHold(s, t, j, t.jobs[id]);
  }

  lemma OneThreadMoves(s: Sys, e: Event)
    requires Enabled(s, e) && !e.CancelRead? && !e.CancelMark?
    ensures var t := Apply(s, e);
            && (t.threads == s.threads || (e.id in t.threads && t.threads == s.threads[e.id := t.threads[e.id]]))
            && (e.CancelWrite? || e.id in t.threads)
  {
    hide MayResume, ClosingStatus, CopiedKeys, KeyOf, Recorded, Cancelling;
  }

  lemma OneJobChanges(s: Sys, e: Event)
    requires Enabled(s, e) && !e.CancelRead? && !e.CancelMark?
    ensures var t := Apply(s, e);
            t.jobs == s.jobs || (e.id in t.jobs && t.jobs == s.jobs[e.id := t.jobs[e.id]])
  {
    hide MayResume, ClosingStatus, CopiedKeys, KeyOf, Recorded, Cancelling;
  }

  lemma OneEntryTouches(s: Sys, t: Sys, id: JobId)
    requires t.threads == s.threads || (id in t.threads && t.threads == s.threads[id := t.threads[id]])
    requires id in t.threads
    requires t.jobs == s.jobs || (id in t.jobs && t.jobs == s.jobs[id := t.jobs[id]])
    ensures Touches(s, t, id)
  {
  }

  lemma WorkTouchesOne(s: Sys, e: Event)
    requires Inv(s) && Enabled(s, e) && !e.CancelRead? && !e.CancelMark?
    ensures Touches(s, Apply(s, e), e.id)
  {
    assert e.CancelWrite? ==> e.id in s.threads;
    hide *;
    OneThreadMoves(s, e);
    OneJobChanges(s, e);
    OneEntryTouches(s, Apply(s, e), e.id);
  }

  lemma WorkKeepsFlag(s: Sys, e: Event)
    requires Inv(s) && Enabled(s, e) && !e.CancelRead? && !e.CancelMark?
    ensures OneJob(Apply(s, e))
  {
    WorkTouchesOne(s, e);
    assert Holds(s, e.id) ==> s.running;
    FlagFollows(s, Apply(s, e), e.id);
  }

  lemma WorkKeepsInv(s: Sys, e: Event)
    requires Inv(s) && Enabled(s, e) && !e.CancelRead? && !e.CancelMark? && !e.Request? && !e.GiveUp? && !e.Release?
    ensures Inv(Apply(s, e))
  {
    var t, id := Apply(s, e), e.id;
    assert Settled(t, id) && Extends(s, t) by {
      match e {
        case Launch(_, source) => LaunchHolds(s, id, source);
        case Begin(_) => BeginHolds(s, id);
        case Check(_) => CheckHolds(s, id);
        case Upload(_, retries) => UploadHolds(s, id, retries);
        case _ => CloseHolds(s, id, e);
      }
    }
    assert OneJob(t) by { WorkKeepsFlag(s, e); }
    WorkTouchesOne(s, e);
    TouchKeepsInv(s, t, id);
  }

  lemma SameJobsKeepInv(s: Sys, t: Sys)
    requires Inv(s) && t.threads == s.threads && t.jobs == s.jobs && t.held == s.held && t.running == s.running
    ensures Inv(t)
  {
    assert forall k :: Holds(t, k) <==> Holds(s, k);
    forall k | k in t.jobs ensures JobHolds(t, t.jobs[k]) {
      StillHolds(s, t, s.jobs[k]);
    }
    forall k | k in t.threads ensures PhaseHolds(t, k) {
      assert PhaseHolds(s, k);
    }
  }

  lemma StepKeepsInv(s: Sys, e: Event)
    requires Inv(s)
    ensures Inv(Step(s, e))
  {
    if Enabled(s, e) {
      var t := Apply(s, e);
      if e.CancelRead? || e.CancelMark? {
        SameJobsKeepInv(s, t);
      } else if e.Request? || e.GiveUp? || e.Release? {
        ComingKeepsInv(s, e);
      } else {
        WorkKeepsInv(s, e);
      }
    }
  }

  lemma ComingKeepsInv(s: Sys, e: Event)
    requires Inv(s) && Enabled(s, e) && (e.Request? || e.GiveUp? || e.Release?)
    ensures Inv(Apply(s, e))
  {
    var t := Apply(s, e);
    WorkTouchesOne(s, e);
    WorkKeepsFlag(s, e);
    assert Extends(s, t);
    if e.id in t.jobs { StillHolds(s, t, s.jobs[e.id]); }
    hide OneJob;
    TouchKeepsInv(s, t, e.id);
  }

  lemma {:induction false} RunKeepsInv(s: Sys, es: seq<Event>)
    requires Inv(s)
    ensures Inv(Run(s, es))
    decreases |es|
  {
    if es != [] {
      StepKeepsInv(s, es[0]);
      RunKeepsInv(Step(s, es[0]), es[1..]);
    }
  }

  // ---- mutual exclusion ----

  lemma StartHolds(held: set<(Target, Key)>)
    ensures Inv(Start(held))
  {
  }

  /** In every reachable state at most one start request or job is under way, and the flag is down exactly when none
      is. */
  lemma AtMostOneJob(held: set<(Target, Key)>, es: seq<Event>)
    ensures var s := Run(Start(held), es);
            && (forall a, b :: Holds(s, a) && Holds(s, b) ==> a == b)
            && (!s.running <==> forall id :: id in s.threads ==> s.threads[id].Gone?)
  {
    StartHolds(held);
    RunKeepsInv(Start(held), es);
    var s := Run(Start(held), es);
    if !s.running {
      forall id | id in s.threads ensures s.threads[id].Gone? { assert !Holds(s, id); }
    }
  }

  /** Events by which a request or its job moves on, as opposed to an administrator's cancellation of it. */
  predicate Own(e: Event, id: JobId) {
    e.id == id && !e.Request? && !e.CancelRead? && !e.CancelMark? && !e.CancelWrite?
  }

  /** While it holds the flag it can always move on. */
  lemma HolderCanMove(s: Sys, id: JobId) returns (e: Event)
    requires Inv(s) && Holds(s, id)
    ensures Own(e, id) && Enabled(s, e)
  {
    assert PhaseHolds(s, id);
    match s.threads[id] {
      case Starting(_, _) => e := GiveUp(id);
      case Launched(_) => e := Begin(id);
      case Ready(todo) => e := if todo == [] then Finish(id) else Check(id);
      case Uploading(_, _) => e := Upload(id, None);
      case _ => e := Release(id);
    }
  }

  function PhaseRank(phase: Phase): nat {
    match phase
    case Starting(_, found) => 2 * |found| + 4
    case Launched(found) => 2 * |found| + 3
    case Ready(todo) => 2 * |todo| + 2
    case Uploading(_, rest) => 2 * |rest| + 3
    case Ending => 1
    case Gone => 0
  }

  /** How many of its own steps are left at most. */
  function Rank(s: Sys, id: JobId): nat {
    if id in s.threads then PhaseRank(s.threads[id]) else 0
  }

  function OwnSteps(s: Sys, es: seq<Event>, id: JobId): nat
    decreases |es|
  {
    if es == [] then 0
    else (if Own(es[0], id) && Enabled(s, es[0]) then 1 else 0) + OwnSteps(Step(s, es[0]), es[1..], id)
  }

  lemma OwnLowersRank(s: Sys, e: Event)
    requires e.id in s.threads && Enabled(s, e) && Own(e, e.id)
    ensures e.id in Apply(s, e).threads && PhaseRank(Apply(s, e).threads[e.id]) < PhaseRank(s.threads[e.id])
  {
    hide MayResume, ClosingStatus, CopiedKeys, KeyOf, Recorded, Cancelling;
  }

  lemma StepLowersRank(s: Sys, e: Event, id: JobId)
    requires id in s.threads
    ensures id in Step(s, e).threads
    ensures Rank(Step(s, e), id) + (if Own(e, id) && Enabled(s, e) then 1 else 0) <= Rank(s, id)
  {
    if Enabled(s, e) && IsCancelling(e) {
      assert Apply(s, e) == Cancelling(s, e);
      hide Apply, Enabled, Cancelling;
    } else if Enabled(s, e) {
      OneThreadMoves(s, e);
      assert e.id == id ==> Own(e, id);
      if Own(e, id) { OwnLowersRank(s, e); }
      hide Apply, Enabled, PhaseRank;
    }
  }

  /** A job is done, and the flag down again, after a number of its own steps fixed by the files it finds. */
  lemma {:induction false} JobIsFinite(s: Sys, es: seq<Event>, id: JobId)
    requires id in s.threads
    ensures OwnSteps(s, es, id) + Rank(Run(s, es), id) <= Rank(s, id)
    decreases |es|
  {
    if es != [] {
      StepLowersRank(s, es[0], id);
      JobIsFinite(Step(s, es[0]), es[1..], id);
    }
  }

  /** The step by which the holder lets go takes the flag down. */
  lemma LettingGo(s: Sys, e: Event, id: JobId)
    requires Inv(s) && Holds(s, id) && !Holds(Step(s, e), id)
    ensures !Step(s, e).running
  {
    StepKeepsInv(s, e);
    var t := Step(s, e);
    forall other ensures !Holds(t, other) {
      if Holds(t, other) { StaysGone(s, e, id, other); }
    }
  }

  lemma StaysGone(s: Sys, e: Event, id: JobId, other: JobId)
    requires Inv(s) && Holds(s, id) && Holds(Step(s, e), other)
    ensures Holds(s, other)
  {
    hide MayResume, ClosingStatus, CopiedKeys, KeyOf, Recorded, JobHolds, PhaseHolds;
    if e.Request? && Enabled(s, e) { assert s.running; }
  }

  /** A run in which the holder takes all its steps passes a state in which it has let go and the flag is down. */
  lemma {:induction false} FlagComesDown(s: Sys, es: seq<Event>, id: JobId) returns (n: nat)
    requires Inv(s) && Holds(s, id) && OwnSteps(s, es, id) >= Rank(s, id)
    ensures n <= |es| && !Holds(Run(s, es[..n]), id) && !Run(s, es[..n]).running
    decreases |es|
  {
    JobIsFinite(s, es, id);
    assert Rank(s, id) > 0;
    var t := Step(s, es[0]);
    StepLowersRank(s, es[0], id);
    if Holds(t, id) {
      StepKeepsInv(s, es[0]);
      n := FlagComesDown(t, es[1..], id);
      n := n + 1;
      assert es[..n][0] == es[0] && es[..n][1..] == es[1..][..n - 1];
      Next(s, es[..n]);
    } else {
      LettingGo(s, es[0], id);
      n := 1;
      Next(s, es[..1]);
      RunNothing(t, es[..1][1..]);
    }
  }

  // ---- cancellation ----

  function Uploads(s: Sys, es: seq<Event>, id: JobId): nat
    decreases |es|
  {
    if es == [] then 0
    else (if es[0].Upload? && es[0].id == id && Enabled(s, es[0]) then 1 else 0) + Uploads(Step(s, es[0]), es[1..], id)
  }

  /** The cancellation of the job is recorded, or the job is over. */
  predicate Stopping(s: Sys, id: JobId) {
    && id in s.threads && !s.threads[id].Starting?
    && (s.threads[id].Launched? || s.threads[id].Ready? || s.threads[id].Uploading? ==> id in s.cancelled)
  }

  lemma WorkStops(s: Sys, e: Event, id: JobId)
    requires Stopping(s, id) && Enabled(s, e) && !IsCancelling(e)
    ensures Stopping(Apply(s, e), id)
    ensures Apply(s, e).threads[id].Uploading? ==> s.threads[id].Uploading? && !(e.Upload? && e.id == id)
    ensures e.Upload? && e.id == id ==> s.threads[id].Uploading?
  {
    hide MayResume, ClosingStatus, CopiedKeys, KeyOf, Recorded, Cancelling;
  }

  lemma StepStops(s: Sys, e: Event, id: JobId)
    requires Stopping(s, id)
    ensures Stopping(Step(s, e), id)
    ensures Step(s, e).threads[id].Uploading? ==> s.threads[id].Uploading?
    ensures e.Upload? && e.id == id && Enabled(s, e) ==> s.threads[id].Uploading? && !Step(s, e).threads[id].Uploading?
  {
    if Enabled(s, e) && !IsCancelling(e) { WorkStops(s, e, id); }
    if Enabled(s, e) && IsCancelling(e) { assert Apply(s, e) == Cancelling(s, e); }
    hide Apply, Enabled, Cancelling;
  }

  lemma {:induction false} StoppingUploads(s: Sys, es: seq<Event>, id: JobId)
    requires Stopping(s, id)
    ensures Uploads(s, es, id) <= if s.threads[id].Uploading? then 1 else 0
    decreases |es|
  {
    if es != [] {
      StepStops(s, es[0], id);
      StoppingUploads(Step(s, es[0]), es[1..], id);
    }
  }

  predicate RequestsKnown(s: Sys) {
    forall id :: id in s.seen ==> id in s.jobs
  }

  lemma CancelKeepsRequests(s: Sys, e: Event)
    requires RequestsKnown(s) && IsCancelling(e) && Enabled(s, e)
    ensures RequestsKnown(Cancelling(s, e))
  {
    assert forall id :: id in Cancelling(s, e).seen ==> id in s.seen || id == e.id;
  }

  lemma WorkKeepsSeen(s: Sys, e: Event)
    requires !IsCancelling(e) && Enabled(s, e)
    ensures Apply(s, e).seen == s.seen
  {
    hide MayResume, ClosingStatus, CopiedKeys, KeyOf, Recorded, Cancelling;
  }

  lemma StepKeepsRequests(s: Sys, e: Event)
    requires RequestsKnown(s)
    ensures RequestsKnown(Step(s, e))
  {
    if Enabled(s, e) {
      if IsCancelling(e) {
        CancelKeepsRequests(s, e);
        assert Apply(s, e) == Cancelling(s, e);
      } else {
        WorkKeepsSeen(s, e);
        OneJobChanges(s, e);
      }
    }
    hide Apply, Enabled, Cancelling;
  }

  lemma {:induction false} RunKeepsRequests(s: Sys, es: seq<Event>)
    requires RequestsKnown(s)
    ensures RequestsKnown(Run(s, es))
    decreases |es|
  {
    if es != [] {
      StepKeepsRequests(s, es[0]);
      RunKeepsRequests(Step(s, es[0]), es[1..]);
    }
  }

  /** Once a cancellation is recorded, whatever happens next, only a file already past its check is still uploaded. */
  lemma CancelStopsUploads(held: set<(Target, Key)>, before: seq<Event>, id: JobId, after: seq<Event>)
    requires Enabled(Run(Start(held), before), CancelMark(id))
    ensures var s := Run(Start(held), before);
            && id in s.threads
            && Uploads(Step(s, CancelMark(id)), after, id) <= if s.threads[id].Uploading? then 1 else 0
  {
    var s := Run(Start(held), before);
    StartHolds(held);
    RunKeepsInv(Start(held), before);
    RunKeepsRequests(Start(held), before);
    assert PhaseHolds(s, id);
    StoppingUploads(Step(s, CancelMark(id)), after, id);
  }

  predicate Over(s: Sys, id: JobId) {
    id in s.jobs && id in s.threads && (s.threads[id].Ending? || s.threads[id].Gone?)
  }

  predicate IsClosing(status: Status) {
    status in {Completed, CompletedWithErrors, Cancelled, FailedJob}
  }

  /** A closed job, and no cancel request under way that could still write. */
  predicate AtRest(s: Sys, id: JobId, status: Status) {
    Over(s, id) && s.jobs[id].status == status && IsClosing(status) && id !in s.seen && id !in s.marked
  }

  lemma StepAtRest(s: Sys, e: Event, id: JobId, status: Status)
    requires AtRest(s, id, status)
    ensures AtRest(Step(s, e), id, status)
  {
    if Enabled(s, e) {
      if IsCancelling(e) { CancelAtRest(s, e, id, status); } else { WorkAtRest(s, e, id, status); }
    }
    hide Apply, Enabled, AtRest;
  }

  lemma CancelAtRest(s: Sys, e: Event, id: JobId, status: Status)
    requires AtRest(s, id, status) && IsCancelling(e) && Enabled(s, e)
    ensures AtRest(Cancelling(s, e), id, status)
  {
    assert e.id != id;
  }

  lemma WorkAtRest(s: Sys, e: Event, id: JobId, status: Status)
    requires AtRest(s, id, status) && !IsCancelling(e) && Enabled(s, e)
    ensures AtRest(Apply(s, e), id, status)
  {
    hide MayResume, ClosingStatus, CopiedKeys, KeyOf, Recorded, Cancelling;
  }

  lemma {:induction false} RunAtRest(s: Sys, es: seq<Event>, id: JobId, status: Status)
    requires AtRest(s, id, status)
    ensures AtRest(Run(s, es), id, status)
    decreases |es|
  {
    if es != [] {
      StepAtRest(s, es[0], id, status);
      RunAtRest(Step(s, es[0]), es[1..], id, status);
    }
  }

  /** A job that is over and whose row says that it is not. */
  predicate Stranded(s: Sys, id: JobId) {
    Over(s, id) && s.jobs[id].status in {Pending, Running, CancelRequested}
  }

  lemma WorkStranded(s: Sys, e: Event, id: JobId)
    requires Stranded(s, id) && !IsCancelling(e) && Enabled(s, e)
    ensures Stranded(Apply(s, e), id)
  {
    hide MayResume, ClosingStatus, CopiedKeys, KeyOf, Recorded, Cancelling;
  }

  lemma StepStranded(s: Sys, e: Event, id: JobId)
    requires Stranded(s, id)
    ensures Stranded(Step(s, e), id)
  {
    if Enabled(s, e) && IsCancelling(e) { assert Apply(s, e) == Cancelling(s, e); }
    if Enabled(s, e) && !IsCancelling(e) { WorkStranded(s, e, id); }
    hide Apply, Enabled, Cancelling;
  }

  /** Such a job, left behind by a lost failure report or by a late cancel request, can never be resumed. */
  lemma {:induction false} StrandedForGood(s: Sys, es: seq<Event>, id: JobId)
    requires Stranded(s, id)
    ensures Stranded(Run(s, es), id) && forall target :: !MayResume(Run(s, es), Some(id), target)
    decreases |es|
  {
    if es != [] {
      StepStranded(s, es[0], id);
      hide Step, Stranded;
      StrandedForGood(Step(s, es[0]), es[1..], id);
    }
  }

  predicate HasStatus(s: Sys, id: JobId, status: Status) {
    id in s.jobs && s.jobs[id].status == status
  }

  /** The job keeps the status in every continuation. */
  ghost predicate Lasts(s: Sys, id: JobId, status: Status) {
    forall es :: HasStatus(Run(s, es), id, status)
  }

  /** A cancel request that is under way when the job has closed can still write, and then the closing
      status is gone. */
  lemma PendingRequestOverwrites(s: Sys, id: JobId) returns (es: seq<Event>)
    requires id in s.jobs && (id in s.seen || id in s.marked)
    ensures HasStatus(Run(s, es), id, CancelRequested)
  {
    if id in s.marked {
      es := WriteOverwrites(s, id);
    } else {
      var t := MarkThenWrite(s, id);
      es := WriteOverwrites(t, id);
      es := [CancelMark(id)] + es;
      hide Step, Run;
      Next(s, es);
      assert es[1..] == es[1..][..];
    }
  }

  lemma WriteOverwrites(s: Sys, id: JobId) returns (es: seq<Event>)
    requires id in s.jobs && id in s.marked
    ensures es == [CancelWrite(id)] && HasStatus(Run(s, es), id, CancelRequested)
  {
    es := [CancelWrite(id)];
    var t := Step(s, CancelWrite(id));
    assert HasStatus(t, id, CancelRequested);
    hide Step, Run;
    Next(s, es);
    RunNothing(t, es[1..]);
  }

  lemma MarkThenWrite(s: Sys, id: JobId) returns (t: Sys)
    requires id in s.jobs && id in s.seen
    ensures t == Step(s, CancelMark(id)) && id in t.jobs && id in t.marked
  {
    t := Step(s, CancelMark(id));
  }

  /**
   * A closing status lasts, whatever happens next, exactly when at that moment no cancel request stands between having
   * read the job's earlier status and writing its own.
   */
  lemma ClosingStatusLasts(s: Sys, id: JobId)
    requires Over(s, id) && IsClosing(s.jobs[id].status)
    ensures Lasts(s, id, s.jobs[id].status) <==> id !in s.seen && id !in s.marked
  {
    var status := s.jobs[id].status;
    if id in s.seen || id in s.marked {
      var es := PendingRequestOverwrites(s, id);
      hide Run;
      assert Lasts(s, id, status) ==> HasStatus(Run(s, es), id, status);
    } else {
      forall es ensures HasStatus(Run(s, es), id, status) {
        RunAtRest(s, es, id, status);
      }
    }
  }

  // ---- a completed job ----

  lemma HasAt(s: Sys, j: Record, i: nat)
    requires JobHolds(s, j) && j.status.Completed? && i < |j.items|
    ensures |j.rows| == |j.items| && RowHolds(s, j, i) && !j.rows[i].result.Failed?
  {
    assert RowHolds(s, j, i);
    NoneFailed(j.rows, i);
  }

  ghost predicate AllThere(s: Sys, j: Record) {
    forall i :: 0 <= i < |j.items| ==> (j.target, KeyOf(j.items[i])) in s.held
  }

  ghost predicate SkippedThere(s: Sys, j: Record) {
    forall i :: 0 <= i < |j.items| && KeyOf(j.items[i]) in j.resumable ==> (j.target, KeyOf(j.items[i])) in s.held
  }

  predicate ResumesSameTarget(s: Sys, j: Record) {
    j.source.Some? && j.source.value in s.jobs ==> s.jobs[j.source.value].target == j.target
  }

  /** Every file of a completed job is in its target exactly when the files it skipped are. */
  lemma CompletedExactlyWhen(held: set<(Target, Key)>, es: seq<Event>, id: JobId)
    requires id in Run(Start(held), es).jobs && Run(Start(held), es).jobs[id].status.Completed?
    ensures var s := Run(Start(held), es);
            var j := s.jobs[id];
            AllThere(s, j) <==> SkippedThere(s, j)
  {
    var s := Run(Start(held), es);
    StartHolds(held);
    RunKeepsInv(Start(held), es);
    var j := s.jobs[id];
    forall i | 0 <= i < |j.items| ensures (j.target, KeyOf(j.items[i])) in s.held || KeyOf(j.items[i]) in j.resumable {
      HasAt(s, j, i);
    }
  }

  /** In particular they all are there when the job resumed nothing, or a job with the very same target. */
  lemma CompletedIsComplete(held: set<(Target, Key)>, es: seq<Event>, id: JobId)
    requires var s := Run(Start(held), es);
             && id in s.jobs && s.jobs[id].status.Completed?
             && ResumesSameTarget(s, s.jobs[id])
    ensures var s := Run(Start(held), es); AllThere(s, s.jobs[id])
  {
    var s := Run(Start(held), es);
    StartHolds(held);
    RunKeepsInv(Start(held), es);
    var j := s.jobs[id];
    assert JobHolds(s, j);
    CompletedExactlyWhen(held, es, id);
  }

  /** The keys that a job may skip, as it reads them when it begins. */
  function MaySkip(s: Sys, id: JobId): set<Key>
    requires id in s.jobs
  {
    var source := s.jobs[id].source;
    if source.Some? && source.value in s.jobs then CopiedKeys(s.jobs[source.value].rows) else {}
  }

  /** The files that a job about to begin will skip are in its target. */
  ghost predicate SkippableThere(s: Sys, id: JobId)
    requires Enabled(s, Begin(id))
  {
    forall i :: 0 <= i < |s.threads[id].found| && KeyOf(s.threads[id].found[i]) in MaySkip(s, id) ==>
      (s.jobs[id].target, KeyOf(s.threads[id].found[i])) in s.held
  }

  /** While a job that began in state s is under way, nobody stores or removes the files it skips. */
  ghost predicate Skipping(s: Sys, t: Sys, id: JobId)
    requires Enabled(s, Begin(id))
  {
    && id in t.threads && id in t.jobs
    && t.jobs[id].target == s.jobs[id].target && t.jobs[id].items == s.threads[id].found
    && t.jobs[id].resumable == MaySkip(s, id)
    && (t.threads[id].Uploading? ==> KeyOf(t.threads[id].item) !in MaySkip(s, id))
    && !t.threads[id].Starting? && !t.threads[id].Launched?
    && (!t.threads[id].Gone? ==>
          forall k :: k in MaySkip(s, id) ==> ((s.jobs[id].target, k) in t.held <==> (s.jobs[id].target, k) in s.held))
  }

  lemma OwnStepKeepsSkipping(s: Sys, t: Sys, id: JobId, e: Event)
    requires Enabled(s, Begin(id)) && Skipping(s, t, id) && Enabled(t, e) && e.id == id && !IsCancelling(e)
    ensures Skipping(s, Apply(t, e), id)
  {
    hide MaySkip, ClosingStatus, MayResume, CopiedKeys;
  }

  lemma OnlyUploadsStore(s: Sys, e: Event)
    requires Enabled(s, e)
    ensures if e.Upload? then Holds(s, e.id) else Apply(s, e).held == s.held
  {
    hide MayResume, ClosingStatus, CopiedKeys, KeyOf, Recorded, Cancelling;
  }

  lemma OtherStepKeepsSkipping(s: Sys, t: Sys, id: JobId, e: Event)
    requires Enabled(s, Begin(id)) && Skipping(s, t, id) && OneJob(t) && Enabled(t, e) && e.id != id
    requires Touches(t, Apply(t, e), e.id)
    ensures Skipping(s, Apply(t, e), id)
  {
    OnlyUploadsStore(t, e);
    assert e.Upload? ==> !Holds(t, id);
    hide MaySkip, Apply, OneJob, Enabled;
  }

  lemma CancelKeepsSkipping(s: Sys, t: Sys, id: JobId, e: Event)
    requires Enabled(s, Begin(id)) && Skipping(s, t, id) && IsCancelling(e) && Enabled(t, e)
    ensures Skipping(s, Cancelling(t, e), id)
  {
    hide MaySkip, Cancelling;
  }

  lemma StepKeepsSkipping(s: Sys, t: Sys, id: JobId, e: Event)
    requires Enabled(s, Begin(id)) && Inv(t) && Skipping(s, t, id)
    ensures Skipping(s, Step(t, e), id)
  {
    assert OneJob(t);
    if !Enabled(t, e) {
    } else if IsCancelling(e) {
      assert Apply(t, e) == Cancelling(t, e);
      hide Skipping, Apply, Enabled, Inv, OneJob;
      CancelKeepsSkipping(s, t, id, e);
    } else {
      assert !e.CancelRead? && !e.CancelMark?;
      hide Skipping, Apply, Enabled, Inv, OneJob;
      if e.id == id {
        OwnStepKeepsSkipping(s, t, id, e);
      } else {
        WorkTouchesOne(t, e);
        OtherStepKeepsSkipping(s, t, id, e);
      }
    }
  }

  lemma {:induction false} RunKeepsSkipping(s: Sys, t: Sys, id: JobId, es: seq<Event>)
    requires Enabled(s, Begin(id)) && Inv(t) && Skipping(s, t, id)
    ensures Skipping(s, Run(t, es), id)
    decreases |es|
  {
    if es != [] {
      StepKeepsSkipping(s, t, id, es[0]);
      StepKeepsInv(t, es[0]);
      hide Step, Skipping, Inv;
      RunKeepsSkipping(s, Step(t, es[0]), id, es[1..]);
    }
  }

  lemma {:induction false} RunTwo(s: Sys, a: seq<Event>, b: seq<Event>)
    ensures Run(s, a + b) == Run(Run(s, a), b)
    decreases |a|
  {
    if a == [] {
      assert a + b == b;
    } else {
      assert (a + b)[1..] == a[1..] + b;
      RunTwo(Step(s, a[0]), a[1..], b);
    }
  }

  /**
   * So it is settled when a job begins: if it closes as completed, all its files are in its target exactly when those
   * that it may skip were there at its beginning, whatever else happens in between.
   */
  lemma CompletedFromTheStart(held: set<(Target, Key)>, before: seq<Event>, id: JobId, later: seq<Event>)
    requires var s := Run(Start(held), before);
             && Enabled(s, Begin(id))
             && var end := Run(Step(s, Begin(id)), later);
                id in end.threads && id in end.jobs && end.threads[id].Ending? && end.jobs[id].status.Completed?
    ensures var s := Run(Start(held), before);
            var end := Run(Step(s, Begin(id)), later);
            AllThere(end, end.jobs[id]) <==> SkippableThere(s, id)
  {
    var s := Run(Start(held), before);
    var t := Step(s, Begin(id));
    var end := Run(t, later);
    StartHolds(held);
    RunKeepsInv(Start(held), before);
    StepKeepsInv(s, Begin(id));
    assert Skipping(s, t, id);
    hide Step, Inv;
    RunTwo(Start(held), before, [Begin(id)] + later);
    assert ([Begin(id)] + later)[1..] == later;
    RunKeepsSkipping(s, t, id, later);
    CompletedExactlyWhen(held, before + ([Begin(id)] + later), id);
    hide Run;
  }

  /** One job that copies its only file and then breaks off. */
  function BrokenJob(target: Target, item: Item): seq<Event> {
    [Request(0, target, [item]), Launch(0, None), Begin(0), Check(0), Upload(0, Some(0)), Break(0, true), Release(0)]
  }

  /** Another that resumes it. */
  function ResumingJob(target: Target, item: Item): seq<Event> {
    [Request(1, target, [item]), Launch(1, Some(0)), Begin(1), Check(1), Finish(1), Release(1)]
  }

  predicate AfterBroken(s: Sys, target: Target, item: Item) {
    && !s.running && s.cancelled == {} && s.threads == map[0 := Gone] && s.held == {(target, KeyOf(item))}
    && s.jobs == map[0 := Record(target, None, FailedJob, [item], {}, [Row(item, Copied, 0)])]
  }

  predicate AfterSkip(s: Sys, source: Target, target: Target, item: Item) {
    && s.running && 1 in s.threads && s.threads[1] == Ready([]) && s.held == {(source, KeyOf(item))}
    && 1 in s.jobs && s.jobs[1] == Record(target, Some(0), Running, [item], {KeyOf(item)}, [Row(item, Skipped, 0)])
  }

  /** One step of a run. */
  lemma Next(s: Sys, es: seq<Event>)
    requires es != []
    ensures Run(s, es) == Run(Step(s, es[0]), es[1..])
  {
  }

  lemma BrokenJobRuns(target: Target, item: Item)
    ensures AfterBroken(Run(Start({}), BrokenJob(target, item)), target, item)
  {
    var es := BrokenJob(target, item);
    var s0, e := Start({}), es;
    var s3 := FilesFound(target, item);
    var s7 := CopiesThenBreaks(s3, target, item);
    hide Step, Run, AfterBroken, AfterFound;
    Next(s0, es);
    Next(Step(s0, e[0]), es[1..]);
    Next(Step(Step(s0, e[0]), e[1]), es[2..]);
    Next(s3, es[3..]);
    Next(Step(s3, e[3]), es[4..]);
    Next(Step(Step(s3, e[3]), e[4]), es[5..]);
    Next(Step(Step(Step(s3, e[3]), e[4]), e[5]), es[6..]);
    RunNothing(s7, es[7..]);
  }

  predicate AfterFound(s: Sys, target: Target, item: Item) {
    s == Sys(true, {}, map[0 := Ready([item])], map[0 := Record(target, None, Running, [item], {}, [])], {},
             multiset{}, multiset{})
  }

  lemma FilesFound(target: Target, item: Item) returns (t: Sys)
    ensures t == Step(Step(Step(Start({}), Request(0, target, [item])), Launch(0, None)), Begin(0))
    ensures AfterFound(t, target, item)
  {
    var s1 := Step(Start({}), Request(0, target, [item]));
    var s2 := Step(s1, Launch(0, None));
    t := Step(s2, Begin(0));
  }

  lemma CopiesThenBreaks(s: Sys, target: Target, item: Item) returns (t: Sys)
    requires AfterFound(s, target, item)
    ensures t == Step(Step(Step(Step(s, Check(0)), Upload(0, Some(0))), Break(0, true)), Release(0))
    ensures AfterBroken(t, target, item)
  {
    var s4 := Step(s, Check(0));
    assert [item][1..] == [];
    assert s4.threads == map[0 := Uploading(item, [])];
    var s5 := Step(s4, Upload(0, Some(0)));
    assert s5.held == {(target, KeyOf(item))};
    assert s5.jobs[0].rows == [Row(item, Copied, 0)];
    t := Step(Step(s5, Break(0, true)), Release(0));
  }

  lemma RunNothing(s: Sys, es: seq<Event>)
    requires es == []
    ensures Run(s, es) == s
  {
  }

  lemma SkipsInNewBucket(s: Sys, a: Target, b: Target, item: Item) returns (t: Sys)
    requires AfterBroken(s, a, item) && a.backend == b.backend
    ensures t == Step(Step(Step(Step(s, Request(1, b, [item])), Launch(1, Some(0))), Begin(1)), Check(1))
    ensures AfterSkip(t, a, b, item)
  {
    hide Cancelling, ClosingStatus, KeyOf;
    var s1 := Step(s, Request(1, b, [item]));
    assert MayResume(s1, Some(0), b);
    var s2 := Step(s1, Launch(1, Some(0)));
    var s3 := Step(s2, Begin(1));
    assert CopiedKeys(s.jobs[0].rows) == {KeyOf(item)} by {
      assert s.jobs[0].rows[0] == Row(item, Copied, 0);
    }
    assert s3.jobs[1].resumable == {KeyOf(item)};
    t := Step(s3, Check(1));
    assert t.jobs[1].rows == [Row(item, Skipped, 0)];
  }

  lemma CompletesAfterSkip(s: Sys, a: Target, b: Target, item: Item)
    requires AfterSkip(s, a, b, item) && a != b
    ensures var t := Step(Step(s, Finish(1)), Release(1));
            1 in t.jobs && t.jobs[1].status.Completed? && t.jobs[1].items == [item] && !AllThere(t, t.jobs[1])
  {
    var t := Step(Step(s, Finish(1)), Release(1));
    var rows := s.jobs[1].rows;
    assert rows[..|rows| - 1] == [] && Count([], Failed) == 0;
    assert ClosingStatus(rows) == Completed;
    assert (b, KeyOf(t.jobs[1].items[0])) !in t.held;
  }

  /** Resuming compares backends but not buckets: a job can complete although its only file is not in its bucket. */
  lemma ResumeAcrossBuckets(a: Target, b: Target, item: Item)
    requires a.backend == b.backend && a != b
    ensures var s := Run(Start({}), BrokenJob(a, item) + ResumingJob(b, item));
            1 in s.jobs && s.jobs[1].status.Completed? && s.jobs[1].items == [item] && !AllThere(s, s.jobs[1])
  {
    var es := ResumingJob(b, item);
    var s := Run(Start({}), BrokenJob(a, item));
    BrokenJobRuns(a, item);
    var t := SkipsInNewBucket(s, a, b, item);
    CompletesAfterSkip(t, a, b, item);
    hide Step, Run, AfterBroken, AfterSkip, AllThere;
    RunTwo(Start({}), BrokenJob(a, item), es);
    Next(s, es);
    Next(Step(s, es[0]), es[1..]);
    Next(Step(Step(s, es[0]), es[1]), es[2..]);
    Next(Step(Step(Step(s, es[0]), es[1]), es[2]), es[3..]);
    Next(t, es[4..]);
    Next(Step(t, es[4]), es[5..]);
    RunNothing(Step(Step(t, es[4]), es[5]), es[6..]);
  }

  /** A cancel request that reads the status while the job is still running, and writes after the job has completed. */
  function LateCancel(target: Target): seq<Event> {
    [Request(0, target, []), Launch(0, None), Begin(0), CancelRead(0), Finish(0), Release(0), CancelMark(0),
     CancelWrite(0)]
  }

  lemma EmptyJobRead(target: Target) returns (t: Sys)
    ensures t == Step(Step(Step(Step(Start({}), Request(0, target, [])), Launch(0, None)), Begin(0)), CancelRead(0))
    ensures t.threads == map[0 := Ready([])] && t.seen == multiset{0} && t.marked == multiset{}
    ensures t.jobs == map[0 := Record(target, None, Running, [], {}, [])]
  {
    t := Step(Step(Step(Step(Start({}), Request(0, target, [])), Launch(0, None)), Begin(0)), CancelRead(0));
  }

  lemma EmptyJobCloses(s: Sys, target: Target)
    requires s.threads == map[0 := Ready([])] && s.seen == multiset{0} && s.marked == multiset{}
    requires s.jobs == map[0 := Record(target, None, Running, [], {}, [])]
    ensures HasStatus(Step(s, Finish(0)), 0, Completed)
    ensures var t := Step(Step(s, Finish(0)), Release(0));
            t.threads == map[0 := Gone] && 0 in t.seen && 0 in t.jobs
  {
    var t := Step(s, Finish(0));
    assert t.threads == map[0 := Ending] && t.seen == s.seen;
    hide Cancelling;
  }

  lemma EmptyJobOverwritten(s: Sys)
    requires s.threads == map[0 := Gone] && 0 in s.seen && 0 in s.jobs
    ensures var t := Step(Step(s, CancelMark(0)), CancelWrite(0));
            t.threads == map[0 := Gone] && HasStatus(t, 0, CancelRequested)
  {
    var t := MarkThenWrite(s, 0);
    assert t.threads == s.threads;
    hide MayResume, ClosingStatus, CopiedKeys, KeyOf, Recorded;
  }

  /** The completed job ends as `cancel_requested`, a status that no job can be resumed from. */
  lemma LateCancelOverwrites(target: Target)
    ensures var s := Run(Start({}), LateCancel(target));
            && s.threads == map[0 := Gone] && 0 in s.jobs && s.jobs[0].status == CancelRequested
            && !MayResume(s, Some(0), target)
  {
    var es := LateCancel(target);
    var s0 := Start({});
    var t := EmptyJobRead(target);
    EmptyJobCloses(t, target);
    EmptyJobOverwritten(Step(Step(t, es[4]), es[5]));
    hide Step, Run;
    Next(s0, es);
    Next(Step(s0, es[0]), es[1..]);
    Next(Step(Step(s0, es[0]), es[1]), es[2..]);
    Next(Step(Step(Step(s0, es[0]), es[1]), es[2]), es[3..]);
    Next(t, es[4..]);
    Next(Step(t, es[4]), es[5..]);
    Next(Step(Step(t, es[4]), es[5]), es[6..]);
    Next(Step(Step(Step(t, es[4]), es[5]), es[6]), es[7..]);
    RunNothing(Step(Step(Step(Step(t, es[4]), es[5]), es[6]), es[7]), es[8..]);
  }
}
