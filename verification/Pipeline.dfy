/**
  The two stages together. The API submits story jobs; a story worker's SaveEmailJob inserts
  the email stage's status row, and its XADD to the notification stream submits the same job,
  retry count included, to the email stage. The theorems are about every run of this system.
*/
module Pipeline {
  import opened Jobs
  import opened Sets
  import opened Worker
  import opened Stage
  import opened Records
  import NoLoss
  import UniqueCopy

  function StoryConfig(maxRetry: int, exclusive: bool): Config {
    Config(maxRetry, exclusive, true, 3, false)
  }

  function EmailConfig(maxRetry: int, exclusive: bool): Config {
    Config(maxRetry, exclusive, false, 1, true)
  }

  datatype Params = Params(maxRetry: int, exclusive: bool) {
    function Story(): Config { StoryConfig(maxRetry, exclusive) }
    function Email(): Config { EmailConfig(maxRetry, exclusive) }
  }

  /** `saved` lists the story messages whose execution inserted an email_jobs row. */
  datatype System = System(story: State, email: State, saved: seq<nat>)

  const START := System(Stage.INIT, Stage.INIT, [])

  /** A step of one stage; `key` is the id the database gives to a new email_jobs row. */
  datatype Step = StoryStep(l: Label, key: int) | EmailStep(l: Label)

  /** The worker call of this label in the story stage, if it is one that took effect. */
  predicate TakesEffect(s: State, l: Label, phase: Phase) {
    l.Work? && l.w in s.workers && s.workers[l.w].At? && s.workers[l.w].phase == phase && l.o.Applied()
  }

  predicate Notifies(s: State, l: Label) {
    TakesEffect(s, l, OkNotify)
  }

  /** Execute's third call is SaveEmailJob. */
  predicate SavesRow(s: State, l: Label) {
    TakesEffect(s, l, Running(2))
  }

  function JobOf(s: State, l: Label): Job
    requires l.Work? && l.w in s.workers && s.workers[l.w].At?
  {
    s.workers[l.w].job
  }

  /** What the email stage does when the story stage makes this step. */
  function Signal(s: State, l: Label, key: int): Option<Label> {
    if Notifies(s, l) then Some(Submit(JobOf(s, l)))
    else if SavesRow(s, l) then Some(AddRow(key, Row(JobOf(s, l).storyId, JobOf(s, l).userId, Pending)))
    else None
  }

  ghost predicate CanStep(g: System, p: Step) {
    match p
    case StoryStep(l, key) =>
      && Enabled(g.story, l)
      && (l.Submit? ==> l.job.retryCounts == 0)
      && (Signal(g.story, l, key).Some? ==> Enabled(g.email, Signal(g.story, l, key).value))
    case EmailStep(l) => Enabled(g.email, l) && !l.Submit? && !l.AddRow?
  }

  function After(ps: Params, g: System, p: Step): System
    requires CanStep(g, p)
  {
    match p
    case EmailStep(l) => g.(email := Next(ps.Email(), g.email, l))
    case StoryStep(l, key) =>
      var signal := Signal(g.story, l, key);
      System(
        Next(ps.Story(), g.story, l),
        if signal.Some? then Next(ps.Email(), g.email, signal.value) else g.email,
        if SavesRow(g.story, l) then g.saved + [g.story.workers[l.w].id] else g.saved)
  }

  ghost predicate Possible(ps: Params, g: System, steps: seq<Step>)
    decreases |steps|
  {
    steps == [] || (CanStep(g, steps[0]) && Possible(ps, After(ps, g, steps[0]), steps[1..]))
  }

  ghost function End(ps: Params, g: System, steps: seq<Step>): System
    requires Possible(ps, g, steps)
    decreases |steps|
  {
    if steps == [] then g else End(ps, After(ps, g, steps[0]), steps[1..])
  }

  // ----- invariants of every run

  /** The email stage was given exactly the notifications, in order. */
  ghost predicate Linked(g: System) {
    g.email.h.added == g.story.st.outbox
  }

  /** Every successful execution saved its row, and no execution saved two. */
  ghost predicate SavedFor(s: State, saved: seq<nat>) {
    && Distinct(saved)
    && (forall id :: id in s.h.done ==> id in saved)
    && (forall id :: id in saved ==> id in s.h.done || id in s.h.failed)
    && (forall w :: w in s.workers && s.workers[w].At? && s.workers[w].phase.Running? ==>
          s.workers[w].id !in saved && s.workers[w].phase.op <= 2)
  }

  ghost predicate Inv(ps: Params, g: System) {
    && NoLoss.Inv(g.story) && NoLoss.Inv(g.email)
    && Records.Inv(ps.Story(), g.story) && Records.Inv(ps.Email(), g.email)
    && Linked(g) && SavedFor(g.story, g.saved)
    && (forall job :: job in g.story.h.added ==> job.retryCounts == 0)
  }

  /** What is handed on is within the next stage's limits. */
  lemma SignalWithin(ps: Params, g: System, p: Step)
    requires Inv(ps, g) && CanStep(g, p) && p.StoryStep? && Signal(g.story, p.l, p.key).Some?
    ensures SubmitsWithin(ps.Email(), Signal(g.story, p.l, p.key).value)
  {
    var pc := g.story.workers[p.l.w];
    assert Records.HoldsMessage(g.story, pc);
    assert pc.job in g.story.st.stream.log;
    assert pc.job in g.story.h.added || ScheduledOk(ps.Story(), g.story, pc.job);
  }

  lemma OutboxChange(c: Config, s: State, l: Label)
    requires Enabled(s, l)
    ensures Next(c, s, l).st.outbox == if Notifies(s, l) then s.st.outbox + [JobOf(s, l)] else s.st.outbox
  {
    if l.Work? {
      WorkSummary(c, s, l);
    } else if !l.Read? {
      QuietSummary(c, s, l);
    }
  }

  lemma AddedChange(c: Config, s: State, l: Label)
    requires Enabled(s, l)
    ensures Next(c, s, l).h.added == if l.Submit? then s.h.added + [l.job] else s.h.added
  {
    if l.Work? {
      WorkSummary(c, s, l);
    }
  }

  lemma LinkedStep(ps: Params, g: System, p: Step)
    requires Linked(g) && CanStep(g, p)
    ensures Linked(After(ps, g, p))
  {
    if p.EmailStep? {
      AddedChange(ps.Email(), g.email, p.l);
    } else {
      OutboxChange(ps.Story(), g.story, p.l);
      var signal := Signal(g.story, p.l, p.key);
      if signal.Some? {
        AddedChange(ps.Email(), g.email, signal.value);
      }
    }
  }

  lemma SavedWork(c: Config, s: State, l: Label, saved: seq<nat>)
    requires Enabled(s, l) && l.Work? && Shape(s) && c.execOps == 3
    requires SavedFor(s, saved)
    ensures SavedFor(Next(c, s, l), if SavesRow(s, l) then saved + [s.workers[l.w].id] else saved)
  {
    WorkSummary(c, s, l);
    assert Records.HoldsMessage(s, s.workers[l.w]);
  }

  lemma SavedQuiet(c: Config, s: State, l: Label, saved: seq<nat>)
    requires Enabled(s, l) && !l.Work? && Shape(s) && SavedFor(s, saved)
    ensures SavedFor(Next(c, s, l), saved)
  {
    if l.Read? {
      NextMessage(s.st.stream);
      assert forall id :: id in saved ==> id < s.st.stream.cursor;
    } else {
      QuietSummary(c, s, l);
    }
  }

  lemma StepKeepsInv(ps: Params, g: System, p: Step)
    requires Inv(ps, g) && CanStep(g, p)
    ensures Inv(ps, After(ps, g, p))
  {
    LinkedStep(ps, g, p);
    if p.StoryStep? {
      AddedChange(ps.Story(), g.story, p.l);
      if p.l.Work? {
        SavedWork(ps.Story(), g.story, p.l, g.saved);
      } else {
        SavedQuiet(ps.Story(), g.story, p.l, g.saved);
      }
      NoLoss.StepKeepsInv(ps.Story(), g.story, p.l);
      Records.StepKeepsInv(ps.Story(), g.story, p.l);
      var signal := Signal(g.story, p.l, p.key);
      if signal.Some? {
        SignalWithin(ps, g, p);
        NoLoss.StepKeepsInv(ps.Email(), g.email, signal.value);
        Records.StepKeepsInv(ps.Email(), g.email, signal.value);
      }
    } else {
      NoLoss.StepKeepsInv(ps.Email(), g.email, p.l);
      Records.StepKeepsInv(ps.Email(), g.email, p.l);
    }
  }

  lemma {:induction false} RunKeepsInv(ps: Params, g: System, steps: seq<Step>)
    requires Inv(ps, g) && Possible(ps, g, steps)
    ensures Inv(ps, End(ps, g, steps))
    decreases |steps|
  {
    if steps != [] {
      StepKeepsInv(ps, g, steps[0]);
      RunKeepsInv(ps, After(ps, g, steps[0]), steps[1..]);
    }
  }

  // ----- theorems about every run

  ghost predicate Somewhere(s: State, x: Job) {
    || (exists id: nat :: s.st.stream.InFlight(id) && Ident(s.st.stream.log[id]) == Ident(x))
    || (exists copy :: copy in s.st.retry && Ident(copy) == Ident(x))
    || (exists copy :: copy in s.st.dlq && Ident(copy) == Ident(x))
    || (exists id :: id in s.h.done && id < |s.st.stream.log| && Ident(s.st.stream.log[id]) == Ident(x))
  }

  /** No job that reached a stage is ever lost before it succeeds there. */
  lemma NoJobIsLost(ps: Params, steps: seq<Step>)
    requires Possible(ps, START, steps)
    ensures
      var g := End(ps, START, steps);
      && (forall x :: x in g.story.h.added ==> Somewhere(g.story, x))
      && (forall x :: x in g.story.st.outbox ==> Somewhere(g.email, x))
  {
    SafeStages(ps, steps);
    SafeIsSomewhere(End(ps, START, steps).story);
    SafeIsSomewhere(End(ps, START, steps).email);
  }

  lemma SafeStages(ps: Params, steps: seq<Step>)
    requires Possible(ps, START, steps)
    ensures var g := End(ps, START, steps); NoLoss.Inv(g.story) && NoLoss.Inv(g.email) && Linked(g)
  {
    RunKeepsInv(ps, START, steps);
  }

  lemma SafeIsSomewhere(s: State)
    requires NoLoss.Inv(s)
    ensures forall x :: x in s.h.added ==> Somewhere(s, x)
  {
    forall x | x in s.h.added
      ensures Somewhere(s, x)
    {
      assert NoLoss.Safe(s, Ident(x), x.retryCounts);
    }
  }

  /** An execution of the job failed at this retry count, in either stage. */
  ghost predicate FailedInEither(g: System, x: Job, level: int) {
    FailedAt(g.story, x.(retryCounts := level)) || FailedAt(g.email, x.(retryCounts := level))
  }

  /** A retry count is the number of real failures: a copy at level k, wherever it is stored,
      has a failed execution behind it for every level below k, over both stages. */
  lemma RetryCountsRecordFailures(ps: Params, steps: seq<Step>, copy: Job)
    requires Possible(ps, START, steps)
    requires Copy(End(ps, START, steps).story, copy) || Copy(End(ps, START, steps).email, copy)
    ensures 0 <= copy.retryCounts <= Cap(ps.Story())
    ensures forall level :: 0 <= level < copy.retryCounts ==> FailedInEither(End(ps, START, steps), copy, level)
  {
    RunKeepsInv(ps, START, steps);
    CopyLevels(ps, End(ps, START, steps), copy);
  }

  lemma CopyLevels(ps: Params, g: System, copy: Job)
    requires Inv(ps, g) && (Copy(g.story, copy) || Copy(g.email, copy))
    ensures 0 <= copy.retryCounts <= Cap(ps.Story())
    ensures forall level :: 0 <= level < copy.retryCounts ==> FailedInEither(g, copy, level)
  {
    if Copy(g.story, copy) {
      StoryLevels(ps, g, copy);
    } else {
      CopyIsKnown(ps.Email(), g.email, copy);
      var base := CopyExplained(ps.Email(), g.email, copy);
      var start := copy.(retryCounts := base);
      assert start in g.story.st.outbox;
      StoryLevels(ps, g, start);
      forall level | 0 <= level < copy.retryCounts
        ensures FailedInEither(g, copy, level)
      {
        if level < base {
          assert FailedInEither(g, start, level);
          assert start.(retryCounts := level) == copy.(retryCounts := level);
        }
      }
    }
  }

  lemma CopyIsKnown(c: Config, s: State, copy: Job)
    requires Records.Inv(c, s) && Copy(s, copy)
    ensures copy in s.h.added || copy in s.h.scheduled
    ensures 0 <= copy.retryCounts <= Cap(c)
  {
    if copy in s.st.dlq {
      var i :| 0 <= i < |s.st.dlq| && s.st.dlq[i] == copy;
      assert copy == s.st.stream.log[s.h.dlqFrom[i]];
    } else if copy in s.st.outbox {
      var i :| 0 <= i < |s.st.outbox| && s.st.outbox[i] == copy;
      assert copy == s.st.stream.log[s.h.outFrom[i]];
    }
    assert copy in s.h.added || ScheduledOk(c, s, copy);
  }

  lemma StoryLevels(ps: Params, g: System, copy: Job)
    requires Inv(ps, g) && Copy(g.story, copy)
    ensures 0 <= copy.retryCounts <= Cap(ps.Story())
    ensures forall level :: 0 <= level < copy.retryCounts ==> FailedInEither(g, copy, level)
  {
    CopyIsKnown(ps.Story(), g.story, copy);
    var base := CopyExplained(ps.Story(), g.story, copy);
    assert copy.(retryCounts := base) in g.story.h.added;
  }

  /** Dead letters have exactly the configured retry count and are, job by job, no more than
      the failed executions at that count, even when re-enqueueing duplicates copies. */
  lemma DeadLettersAreFailures(ps: Params, steps: seq<Step>, x: Job)
    requires Possible(ps, START, steps)
    ensures
      var g := End(ps, START, steps);
      && DeadLettersBacked(ps.maxRetry, g.story, x)
      && DeadLettersBacked(ps.maxRetry, g.email, x)
  {
    RunKeepsInv(ps, START, steps);
    var g := End(ps, START, steps);
    DlqBacked(ps.Story(), g.story, x);
    DlqBacked(ps.Email(), g.email, x);
  }

  ghost predicate DeadLettersBacked(maxRetry: int, s: State, x: Job) {
    var letters := set i | 0 <= i < |s.st.dlq| && Ident(s.st.dlq[i]) == Ident(x);
    var failures := set id | id in s.h.failed && id < |s.st.stream.log| && s.st.stream.log[id] == x.(retryCounts := maxRetry);
    && (forall job :: job in s.st.dlq ==> job.retryCounts == maxRetry)
    && |letters| <= |failures|
  }

  lemma DlqBacked(c: Config, s: State, x: Job)
    requires Records.Inv(c, s)
    ensures DeadLettersBacked(c.maxRetry, s, x)
  {
    DeadLettersCounted(c, s, x);
    forall job | job in s.st.dlq
      ensures job.retryCounts == c.maxRetry
    {
      var i :| 0 <= i < |s.st.dlq| && s.st.dlq[i] == job;
      assert s.h.dlqFrom[i] in s.h.dlqFrom && s.st.stream.log[s.h.dlqFrom[i]] == job;
    }
  }

  /** Status rows never claim what did not happen. */
  lemma StatusesAgreeWithHistory(ps: Params, steps: seq<Step>)
    requires Possible(ps, START, steps)
    ensures
      var g := End(ps, START, steps);
      && (forall key :: key in g.story.st.rows ==>
            var row := g.story.st.rows[key];
            && (row.status == Completed ==> Mentions(g.email.h.added, row.storyId))
            && (row.status == Failed ==> Mentions(g.story.st.dlq, row.storyId))
            && (row.status == Processing ==> exists job :: job in g.story.h.scheduled && job.storyId == row.storyId && job.retryCounts >= 1))
      && (forall key :: key in g.email.st.rows ==>
            var row := g.email.st.rows[key];
            && (row.status == Completed ==> Succeeded(g.email, row.storyId))
            && (row.status == Failed ==> Mentions(g.email.st.dlq, row.storyId))
            && (row.status == Processing ==> exists job :: job in g.email.h.scheduled && job.storyId == row.storyId && job.retryCounts >= 1))
  {
    RunKeepsInv(ps, START, steps);
    var g := End(ps, START, steps);
    RowsAgree(ps.Story(), g.story);
    RowsAgree(ps.Email(), g.email);
  }

  lemma RowsAgree(c: Config, s: State)
    requires Records.Inv(c, s)
    ensures forall key :: key in s.st.rows ==>
      var row := s.st.rows[key];
      && (row.status == Completed ==> Succeeded(s, row.storyId) && (c.notifies ==> Mentions(s.st.outbox, row.storyId)))
      && (row.status == Failed ==> Mentions(s.st.dlq, row.storyId))
      && (row.status == Processing ==> exists job :: job in s.h.scheduled && job.storyId == row.storyId && job.retryCounts >= 1)
  {
    forall key | key in s.st.rows && s.st.rows[key].status == Processing
      ensures exists job :: job in s.h.scheduled && job.storyId == s.st.rows[key].storyId && job.retryCounts >= 1
    {
      assert RowOk(c, s, s.st.rows[key]);
      var job :| job in s.h.scheduled && job.storyId == s.st.rows[key].storyId;
      assert ScheduledOk(c, s, job);
    }
    assert forall key :: key in s.st.rows ==> RowOk(c, s, s.st.rows[key]);
  }

  // ----- counting notifications, rows and successes

  ghost function IdSet(ids: seq<nat>): set<nat> {
    set id | id in ids
  }

  lemma {:induction false} DistinctSize(ids: seq<nat>)
    requires Distinct(ids)
    ensures |IdSet(ids)| == |ids|
  {
    if ids != [] {
      var last := ids[|ids| - 1];
      var init := ids[..|ids| - 1];
      DistinctSize(init);
      assert IdSet(ids) == IdSet(init) + {last};
    }
  }

  lemma DistinctWithin(ids: seq<nat>, all: set<nat>)
    requires Distinct(ids) && forall id :: id in ids ==> id in all
    ensures |ids| <= |all|
  {
    DistinctSize(ids);
    SubsetSize(IdSet(ids), all);
  }

  /** Every email submission has its own successful story execution, and every successful
      execution its own inserted row. */
  lemma EmailsNeverOutnumberSuccesses(ps: Params, steps: seq<Step>)
    requires Possible(ps, START, steps)
    ensures
      var g := End(ps, START, steps);
      |g.email.h.added| <= |g.story.h.done| <= |g.saved|
  {
    RunKeepsInv(ps, START, steps);
    var g := End(ps, START, steps);
    DistinctWithin(g.story.h.outFrom, g.story.h.done);
    DistinctSize(g.saved);
    SubsetSize(g.story.h.done, IdSet(g.saved));
  }

  /** SaveEmailJob inserts its row, but the worker sees an error. */
  predicate LosesReply(g: System, p: Step) {
    p.StoryStep? && SavesRow(g.story, p.l) && p.l.o.ReplyLost?
  }

  ghost function LostReplies(ps: Params, g: System, steps: seq<Step>): nat
    requires Possible(ps, g, steps)
    decreases |steps|
  {
    if steps == [] then 0
    else (if LosesReply(g, steps[0]) then 1 else 0) + LostReplies(ps, After(ps, g, steps[0]), steps[1..])
  }

  /** Nobody deletes a user, and with it the user's email_jobs rows. */
  predicate KeepsRows(steps: seq<Step>) {
    forall p :: p in steps ==> !(p.EmailStep? && p.l.DropRows?)
  }

  lemma RowsChange(c: Config, s: State, l: Label)
    requires Enabled(s, l) && !l.DropRows?
    ensures |Next(c, s, l).st.rows| == |s.st.rows| + if l.AddRow? then 1 else 0
  {
    if l.Work? {
      assert Next(c, s, l).st.rows.Keys == s.st.rows.Keys;
      assert |Next(c, s, l).st.rows.Keys| == |s.st.rows.Keys|;
    }
  }

  lemma RowsStep(ps: Params, g: System, p: Step)
    requires CanStep(g, p) && !(p.EmailStep? && p.l.DropRows?)
    ensures |After(ps, g, p).email.st.rows| == |g.email.st.rows| + |After(ps, g, p).saved| - |g.saved|
  {
    if p.EmailStep? {
      RowsChange(ps.Email(), g.email, p.l);
    } else {
      var signal := Signal(g.story, p.l, p.key);
      if signal.Some? {
        RowsChange(ps.Email(), g.email, signal.value);
      }
    }
  }

  /** The third call of an execution that reports success makes it one. */
  lemma DoneChange(c: Config, s: State, l: Label)
    requires Shape(s) && Enabled(s, l) && c.execOps == 3
    requires l.Work? && s.workers[l.w].phase.Running? ==> s.workers[l.w].phase.op <= 2
    ensures |Next(c, s, l).h.done| == |s.h.done| + if SavesRow(s, l) && l.o.Ok() then 1 else 0
  {
    if l.Work? {
      WorkSummary(c, s, l);
      assert Records.HoldsMessage(s, s.workers[l.w]);
    } else if !l.Read? {
      QuietSummary(c, s, l);
    }
  }

  /** A step saves a row for a success, or for a failure whose reply was lost. */
  lemma SuccessStep(ps: Params, g: System, p: Step)
    requires Shape(g.story) && SavedFor(g.story, g.saved) && CanStep(g, p)
    ensures |After(ps, g, p).saved| - |g.saved|
         == |After(ps, g, p).story.h.done| - |g.story.h.done| + if LosesReply(g, p) then 1 else 0
  {
    if p.StoryStep? {
      DoneChange(ps.Story(), g.story, p.l);
    }
  }

  lemma {:induction false} RowsRun(ps: Params, g: System, steps: seq<Step>)
    requires Inv(ps, g) && Possible(ps, g, steps) && KeepsRows(steps)
    ensures |End(ps, g, steps).email.st.rows| - |g.email.st.rows|
         == |End(ps, g, steps).story.h.done| - |g.story.h.done| + LostReplies(ps, g, steps)
    decreases |steps|
  {
    if steps != [] {
      assert steps[0] in steps;
      StepKeepsInv(ps, g, steps[0]);
      RowsStep(ps, g, steps[0]);
      SuccessStep(ps, g, steps[0]);
      RowsRun(ps, After(ps, g, steps[0]), steps[1..]);
    }
  }

  /** While no user is deleted there are as many email_jobs rows as successful story executions
      and lost replies of SaveEmailJob together. */
  lemma OneRowPerSuccess(ps: Params, steps: seq<Step>)
    requires Possible(ps, START, steps) && KeepsRows(steps)
    ensures
      var g := End(ps, START, steps);
      && |g.email.st.rows| == |g.story.h.done| + LostReplies(ps, START, steps)
      && |g.email.h.added| <= |g.story.h.done|
  {
    RowsRun(ps, START, steps);
    EmailsNeverOutnumberSuccesses(ps, steps);
  }

  // ----- atomic re-enqueues

  /** Re-enqueues are atomic in both stages and the API never reuses a job. */
  ghost predicate Atomic(ps: Params, g: System, p: Step) {
    match p
    case StoryStep(l, _) => UniqueCopy.Tame(ps.Story(), g.story, l)
    case EmailStep(l) => !l.Fetch?
  }

  ghost predicate UniqueInv(ps: Params, g: System) {
    Inv(ps, g) && UniqueCopy.Inv(ps.Story(), g.story) && UniqueCopy.Inv(ps.Email(), g.email)
  }

  /** Two delivered copies of one job differ in their retry counts. */
  lemma DifferentLevels(c: Config, s: State, a: nat, b: nat)
    requires UniqueCopy.Inv(c, s) && a != b && a < s.st.stream.cursor && b < s.st.stream.cursor
    ensures Ident(s.st.stream.log[a]) == Ident(s.st.stream.log[b]) ==>
              s.st.stream.log[a].retryCounts != s.st.stream.log[b].retryCounts
  {
    var log := s.st.stream.log;
    assert if a < b then log[a] != log[b] else log[b] != log[a];
    assert log[a] == Ident(log[a]).(retryCounts := log[a].retryCounts);
    assert log[b] == Ident(log[b]).(retryCounts := log[b].retryCounts);
  }

  /** A job succeeds at most once in a stage. */
  lemma OneSuccess(c: Config, s: State, a: nat, b: nat)
    requires UniqueCopy.Inv(c, s) && a in s.h.done && b in s.h.done && a != b
    ensures Ident(s.st.stream.log[a]) != Ident(s.st.stream.log[b])
  {
    DifferentLevels(c, s, a, b);
    HighestDone(c, s, b, a);
    HighestDone(c, s, a, b);
  }

  /** A successful execution stands at the highest level delivered of its job. */
  lemma HighestDone(c: Config, s: State, id: nat, other: nat)
    requires UniqueCopy.Inv(c, s) && id in s.h.done && other < s.st.stream.cursor
    ensures id < |s.st.stream.log| && other < |s.st.stream.log|
    ensures Ident(s.st.stream.log[other]) == Ident(s.st.stream.log[id]) ==>
      s.st.stream.log[other].retryCounts <= s.st.stream.log[id].retryCounts
  {
    assert UniqueCopy.DeliveredOf(s, other, s.st.stream.log[other]);
    assert Ident(s.st.stream.log[other]) == Ident(s.st.stream.log[id]) ==> UniqueCopy.DeliveredOf(s, other, s.st.stream.log[id]);
  }

  /** A job is handed to the email stage once: it succeeds as a story only once. */
  lemma NotifiedOnce(ps: Params, g: System, p: Step)
    requires UniqueInv(ps, g) && CanStep(g, p) && p.StoryStep? && Notifies(g.story, p.l)
    ensures forall job :: job in g.email.h.added ==> Ident(job) != Ident(JobOf(g.story, p.l))
  {
    var s := g.story;
    var pc := s.workers[p.l.w];
    assert Records.HoldsMessage(s, pc) && OutWorker(ps.Story(), s, pc);
    forall i | 0 <= i < |s.st.outbox|
      ensures Ident(s.st.outbox[i]) != Ident(pc.job)
    {
      var k := s.h.outFrom[i];
      assert k in s.h.outFrom && s.st.outbox[i] == s.st.stream.log[k];
      OneSuccess(ps.Story(), s, k, pc.id);
    }
  }

  lemma StepKeepsUnique(ps: Params, g: System, p: Step)
    requires UniqueInv(ps, g) && CanStep(g, p) && Atomic(ps, g, p)
    ensures UniqueInv(ps, After(ps, g, p))
  {
    StepKeepsInv(ps, g, p);
    if p.StoryStep? {
      UniqueCopy.StepKeepsInv(ps.Story(), g.story, p.l);
      var signal := Signal(g.story, p.l, p.key);
      if signal.Some? {
        SignalWithin(ps, g, p);
        if Notifies(g.story, p.l) {
          NotifiedOnce(ps, g, p);
        }
        UniqueCopy.StepKeepsInv(ps.Email(), g.email, signal.value);
      }
    } else {
      UniqueCopy.StepKeepsInv(ps.Email(), g.email, p.l);
    }
  }

  lemma DeadLetterOnce(c: Config, s: State)
    requires UniqueCopy.Inv(c, s)
    ensures forall i, j :: 0 <= i < j < |s.st.dlq| ==> Ident(s.st.dlq[i]) != Ident(s.st.dlq[j])
  {
    forall i, j | 0 <= i < j < |s.st.dlq|
      ensures Ident(s.st.dlq[i]) != Ident(s.st.dlq[j])
    {
      var a, b := s.h.dlqFrom[i], s.h.dlqFrom[j];
      assert a in s.h.dlqFrom && b in s.h.dlqFrom && a != b;
      DifferentLevels(c, s, a, b);
    }
  }
}
