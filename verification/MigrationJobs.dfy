// One migration job as steps of the interleaved system: undisturbed, it does what the loops of Migration do.
//
// The steps are those of MigrationRuns, the outcomes those of Migration. Between them stands the list of events that
// one job goes through: a check for every file, and an upload unless the file is skipped.

module MigrationJobs {
  import opened Common
  import opened Migration
  import opened MigrationRuns

  /** The steps of a job over its files: a check each, and an upload unless the file is skipped. */
  function FileSteps(id: JobId, items: seq<Item>, resumable: set<Key>, put: (Item, nat) -> bool): seq<Event> {
    if items == [] then []
    else
      [Check(id)] + (if KeyOf(items[0]) in resumable then [] else [Upload(id, RetriesUsed(items[0], put, 1))])
      + FileSteps(id, items[1..], resumable, put)
  }

  function Copied(target: Target, rows: seq<Row>): set<(Target, Key)> {
    set i | 0 <= i < |rows| && rows[i].result.Copied? :: (target, KeyOf(rows[i].item))
  }

  lemma RetriesAreFew(item: Item, put: (Item, nat) -> bool)
    ensures RetriesUsed(item, put, 1).Some? ==> RetriesUsed(item, put, 1).value <= MAX_RETRIES
  {
    OutcomeSays(item, {}, put);
  }

  /** The state of a job that is about to check for its next file. */
  predicate At(s: Sys, id: JobId, todo: seq<Item>, j: Record) {
    id in s.threads && s.threads[id] == Ready(todo) && id in s.jobs && s.jobs[id] == j && id !in s.cancelled
  }

  /** s with the job at another place, and some objects more. */
  function Moved(s: Sys, id: JobId, todo: seq<Item>, j: Record, more: set<(Target, Key)>): Sys {
    s.(threads := s.threads[id := Ready(todo)], jobs := s.jobs[id := j], held := s.held + more)
  }

  lemma SkipStep(s: Sys, id: JobId, item: Item, rest: seq<Item>, j: Record)
    requires At(s, id, [item] + rest, j) && KeyOf(item) in j.resumable
    ensures Step(s, Check(id)) == Moved(s, id, rest, Recorded(j, Row(item, Skipped, 0)), {})
  {
    assert ([item] + rest)[1..] == rest;
    assert s.held + {} == s.held;
  }

  lemma CheckStep(s: Sys, id: JobId, item: Item, rest: seq<Item>, j: Record)
    requires At(s, id, [item] + rest, j) && KeyOf(item) !in j.resumable
    ensures Step(s, Check(id)) == s.(threads := s.threads[id := Uploading(item, rest)])
  {
    hide KeyOf;
    assert ([item] + rest)[1..] == rest;
  }

  lemma UploadSteps(s: Sys, id: JobId, item: Item, rest: seq<Item>, j: Record, put: (Item, nat) -> bool)
    requires At(s, id, [item] + rest, j) && KeyOf(item) !in j.resumable
    ensures var row := Outcome(item, j.resumable, put);
      Step(Step(s, Check(id)), Upload(id, RetriesUsed(item, put, 1))) ==
      Moved(s, id, rest, Recorded(j, row), if row.result.Copied? then {(j.target, KeyOf(item))} else {})
  {
    CheckStep(s, id, item, rest, j);
    RetriesAreFew(item, put);
    var t := s.(threads := s.threads[id := Uploading(item, rest)]);
    assert Step(s, Check(id)) == t;
    hide KeyOf, RetriesUsed;
    assert s.held + {} == s.held;
    assert t.threads[id := Ready(rest)] == s.threads[id := Ready(rest)];
  }

  lemma MovedTwice(s: Sys, id: JobId, a: seq<Item>, j: Record, more: set<(Target, Key)>, b: seq<Item>, k: Record,
                   rest: set<(Target, Key)>)
    ensures Moved(Moved(s, id, a, j, more), id, b, k, rest) == Moved(s, id, b, k, more + rest)
  {
    assert s.threads[id := Ready(a)][id := Ready(b)] == s.threads[id := Ready(b)];
    assert s.jobs[id := j][id := k] == s.jobs[id := k];
    assert s.held + more + rest == s.held + (more + rest);
  }

  lemma CopiedFirst(target: Target, row: Row, rows: seq<Row>)
    ensures Copied(target, [row] + rows) ==
            (if row.result.Copied? then {(target, KeyOf(row.item))} else {}) + Copied(target, rows)
  {
    hide KeyOf;
    var all := [row] + rows;
    assert all[0] == row && forall i :: 0 <= i < |rows| ==> all[i + 1] == rows[i];
    forall x | x in Copied(target, rows) ensures x in Copied(target, all) {
      var i :| 0 <= i < |rows| && rows[i].result.Copied? && (target, KeyOf(rows[i].item)) == x;
      assert all[i + 1] == rows[i];
    }
    forall x | x in Copied(target, all) && (row.result.Copied? ==> x != (target, KeyOf(row.item)))
      ensures x in Copied(target, rows)
    {
      var i :| 0 <= i < |all| && all[i].result.Copied? && (target, KeyOf(all[i].item)) == x;
      assert i > 0 && rows[i - 1] == all[i];
    }
  }

  lemma OutcomesFirst(item: Item, rest: seq<Item>, resumable: set<Key>, put: (Item, nat) -> bool)
    ensures Outcomes([item] + rest, resumable, put) == [Outcome(item, resumable, put)] + Outcomes(rest, resumable, put)
  {
    hide Outcome;
  }

  /** s with all files of the job done. */
  function Finished(s: Sys, id: JobId, items: seq<Item>, j: Record, put: (Item, nat) -> bool): Sys {
    var rows := Outcomes(items, j.resumable, put);
    Moved(s, id, [], j.(rows := j.rows + rows), Copied(j.target, rows))
  }

  /** s with the first file of the job done. */
  function OneDone(s: Sys, id: JobId, item: Item, rest: seq<Item>, j: Record, put: (Item, nat) -> bool): Sys {
    var row := Outcome(item, j.resumable, put);
    Moved(s, id, rest, Recorded(j, row), if row.result.Copied? then {(j.target, KeyOf(item))} else {})
  }

  lemma FinishedLater(s: Sys, id: JobId, item: Item, rest: seq<Item>, j: Record, put: (Item, nat) -> bool)
    ensures Finished(OneDone(s, id, item, rest, j, put), id, rest, Recorded(j, Outcome(item, j.resumable, put)), put) ==
            Finished(s, id, [item] + rest, j, put)
  {
    var row, rows := Outcome(item, j.resumable, put), Outcomes(rest, j.resumable, put);
    var k, more := Recorded(j, row), if row.result.Copied? then {(j.target, KeyOf(item))} else {};
    assert row.item == item;
    OutcomesFirst(item, rest, j.resumable, put);
    CopiedFirst(j.target, row, rows);
    hide Outcome, Outcomes, Copied, KeyOf, Moved;
    assert k.rows + rows == j.rows + ([row] + rows);
    MovedTwice(s, id, rest, k, more, [], k.(rows := k.rows + rows), Copied(j.target, rows));
  }

  /** Undisturbed, the job gives every file the outcome that the loops specify. */
  lemma {:induction false} FilesAreDone(s: Sys, id: JobId, items: seq<Item>, j: Record, put: (Item, nat) -> bool)
    requires At(s, id, items, j)
    ensures Run(s, FileSteps(id, items, j.resumable, put)) == Finished(s, id, items, j, put)
    decreases |items|
  {
    hide Run, Outcome, FileSteps, At, OneDone, Finished;
    if items == [] {
      NoFiles(s, id, j, put);
    } else {
      var item, rest := items[0], items[1..];
      assert items == [item] + rest;
      FirstFile(s, id, item, rest, j, put);
      OneDoneIsAt(s, id, item, rest, j, put);
      FilesAreDone(OneDone(s, id, item, rest, j, put), id, rest, Recorded(j, Outcome(item, j.resumable, put)), put);
      FinishedLater(s, id, item, rest, j, put);
    }
  }

  lemma OneDoneIsAt(s: Sys, id: JobId, item: Item, rest: seq<Item>, j: Record, put: (Item, nat) -> bool)
    requires At(s, id, [item] + rest, j)
    ensures At(OneDone(s, id, item, rest, j, put), id, rest, Recorded(j, Outcome(item, j.resumable, put)))
  {
    hide Outcome, KeyOf;
  }

  lemma NoFiles(s: Sys, id: JobId, j: Record, put: (Item, nat) -> bool)
    requires At(s, id, [], j)
    ensures Run(s, FileSteps(id, [], j.resumable, put)) == Finished(s, id, [], j, put)
  {
    assert j.rows + [] == j.rows && s.held + {} == s.held;
    assert s.threads[id := Ready([])] == s.threads && s.jobs[id := j] == s.jobs;
  }

  /** The steps of the first file. */
  lemma FirstFile(s: Sys, id: JobId, item: Item, rest: seq<Item>, j: Record, put: (Item, nat) -> bool)
    requires At(s, id, [item] + rest, j)
    ensures Run(s, FileSteps(id, [item] + rest, j.resumable, put)) ==
            Run(OneDone(s, id, item, rest, j, put), FileSteps(id, rest, j.resumable, put))
  {
    assert ([item] + rest)[0] == item && ([item] + rest)[1..] == rest;
    var tail := FileSteps(id, rest, j.resumable, put);
    if KeyOf(item) in j.resumable {
      assert FileSteps(id, [item] + rest, j.resumable, put) == [Check(id)] + tail;
      SkipStep(s, id, item, rest, j);
      hide Step, FileSteps, Moved;
      RunFirst(s, Check(id), tail);
    } else {
      var upload := Upload(id, RetriesUsed(item, put, 1));
      assert FileSteps(id, [item] + rest, j.resumable, put) == [Check(id)] + ([upload] + tail);
      UploadSteps(s, id, item, rest, j, put);
      hide Step, FileSteps, Moved, Outcome, RetriesUsed;
      RunFirst(s, Check(id), [upload] + tail);
      RunFirst(Step(s, Check(id)), upload, tail);
    }
  }

  lemma RunFirst(s: Sys, e: Event, es: seq<Event>)
    ensures Run(s, [e] + es) == Run(Step(s, e), es)
  {
    assert ([e] + es)[0] == e && ([e] + es)[1..] == es;
    hide Step;
  }

  /** A whole job: request, launch, begin, its files, closing, and release of the flag. */
  function WholeJob(id: JobId, target: Target, source: Option<JobId>, items: seq<Item>, resumable: set<Key>,
                    put: (Item, nat) -> bool): seq<Event> {
    [Request(id, target, items)] + ([Launch(id, source)] + ([Begin(id)] +
      (FileSteps(id, items, resumable, put) + [Finish(id), Release(id)])))
  }

  /** The keys that a job resuming `source` may skip. */
  function Resumable(s: Sys, source: Option<JobId>): set<Key> {
    if source.Some? && source.value in s.jobs then CopiedKeys(s.jobs[source.value].rows) else {}
  }

  lemma JobStarts(s: Sys, id: JobId, target: Target, source: Option<JobId>, items: seq<Item>)
    requires !s.running && id !in s.threads && id !in s.jobs && MayResume(s, source, target)
    ensures Step(Step(Step(s, Request(id, target, items)), Launch(id, source)), Begin(id)) ==
            s.(running := true, threads := s.threads[id := Ready(items)],
               jobs := s.jobs[id := Record(target, source, Running, items, Resumable(s, source), [])])
  {
    hide CopiedKeys;
    var s1 := Step(s, Request(id, target, items));
    assert s1 == s.(running := true, threads := s.threads[id := Starting(target, items)]);
    var s2 := Step(s1, Launch(id, source));
    assert s2.threads == s.threads[id := Launched(items)];
    assert s2.jobs == s.jobs[id := Record(target, source, Pending, [], {}, [])];
    var s3 := Step(s2, Begin(id));
    assert s3.threads == s.threads[id := Ready(items)];
    assert s3.jobs == s.jobs[id := Record(target, source, Running, items, Resumable(s, source), [])];
  }

  lemma JobCloses(s: Sys, id: JobId, j: Record)
    requires At(s, id, [], j)
    ensures var t := Step(Step(s, Finish(id)), Release(id));
      && !t.running && t.held == s.held && id in t.threads && t.threads[id].Gone?
      && id in t.jobs && t.jobs[id] == j.(status := ClosingStatus(j.rows))
  {
    hide ClosingStatus;
  }

  /**
   * A job that nobody cancels, and whose updates are saved, ends with the rows, the stored files and the status that
   * the two loops specify, and lets go of the flag.
   */
  lemma WholeJobDoes(s: Sys, id: JobId, target: Target, source: Option<JobId>, items: seq<Item>,
                     put: (Item, nat) -> bool)
    requires !s.running && id !in s.threads && id !in s.jobs && id !in s.cancelled && MayResume(s, source, target)
    ensures var resumable := Resumable(s, source);
      var (t, rows) := (Run(s, WholeJob(id, target, source, items, resumable, put)), Outcomes(items, resumable, put));
      && !t.running && id in t.threads && t.threads[id].Gone?
      && t.held == s.held + Copied(target, rows)
      && id in t.jobs
      && t.jobs[id] == Record(target, source, if Count(rows, Failed) > 0 then CompletedWithErrors else Completed,
                              items, resumable, rows)
  {
    var resumable := Resumable(s, source);
    var rows := Outcomes(items, resumable, put);
    var j := Record(target, source, Running, items, resumable, []);
    var ready := s.(running := true, threads := s.threads[id := Ready(items)], jobs := s.jobs[id := j]);
    JobStarts(s, id, target, source, items);
    FilesAreDone(ready, id, items, j, put);
    var done := Moved(ready, id, [], j.(rows := [] + rows), Copied(target, rows));
    assert [] + rows == rows;
    JobCloses(done, id, j.(rows := rows));
    hide Step, Run, Outcomes, Copied, FileSteps, Resumable, MayResume, CopiedKeys, WholeJob, Moved;
    WholeJobRuns(s, id, target, source, items, resumable, put);
  }

  lemma WholeJobRuns(s: Sys, id: JobId, target: Target, source: Option<JobId>, items: seq<Item>, resumable: set<Key>,
                     put: (Item, nat) -> bool)
    ensures var ready := Step(Step(Step(s, Request(id, target, items)), Launch(id, source)), Begin(id));
      var done := Run(ready, FileSteps(id, items, resumable, put));
      Run(s, WholeJob(id, target, source, items, resumable, put)) == Step(Step(done, Finish(id)), Release(id))
  {
    hide Step, Run, FileSteps;
    var files := FileSteps(id, items, resumable, put);
    var tail := files + [Finish(id), Release(id)];
    RunFirst(s, Request(id, target, items), [Launch(id, source)] + ([Begin(id)] + tail));
    RunFirst(Step(s, Request(id, target, items)), Launch(id, source), [Begin(id)] + tail);
    RunFirst(Step(Step(s, Request(id, target, items)), Launch(id, source)), Begin(id), tail);
    var ready := Step(Step(Step(s, Request(id, target, items)), Launch(id, source)), Begin(id));
    RunTwo(ready, files, [Finish(id), Release(id)]);
    RunLastTwo(Run(ready, files), Finish(id), Release(id));
  }

  lemma RunLastTwo(s: Sys, a: Event, b: Event)
    ensures Run(s, [a, b]) == Step(Step(s, a), b)
  {
    assert [a, b] == [a] + ([b] + []);
    hide Step, Run;
    RunFirst(s, a, [b] + []);
    RunFirst(Step(s, a), b, []);
    RunNothing(Step(Step(s, a), b), []);
  }

  /** A recorded cancellation stops the job at its next check, as cancelled, with the rows that it has. */
  lemma CancelledJobStops(s: Sys, id: JobId)
    requires id in s.threads && s.threads[id].Ready? && s.threads[id].todo != [] && id in s.jobs && id in s.cancelled
    ensures var t := Step(s, Check(id));
      && t.threads == s.threads[id := Ending] && t.jobs == s.jobs[id := s.jobs[id].(status := Migration.Cancelled)]
      && t.held == s.held && id !in t.cancelled
  {
  }
}
