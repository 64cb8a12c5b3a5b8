/**
  What the data of one stage says about the past, in every run: retry counts record real
  failures, dead letters come from last-allowed failures, and the status table agrees with
  what happened. None of it needs atomic re-enqueues or truthful replies.
*/
module Records {
  import opened Jobs
  import opened Backoff
  import opened Worker
  import opened Stage

  predicate InDlqBranch(phase: Phase) {
    phase.DlqAdd? || phase.DlqAck? || phase.DlqDelete? || phase.DlqStatus?
  }

  predicate AfterRetryAdd(phase: Phase) {
    phase.RetryAck? || phase.RetryDelete? || phase.RetryStatus?
  }

  predicate AfterFailure(phase: Phase) {
    InDlqBranch(phase) || phase.RetryAdd? || AfterRetryAdd(phase)
  }

  predicate AfterSuccess(phase: Phase) {
    phase.OkAck? || phase.OkDelete? || phase.OkNotify? || phase.OkStatus?
  }

  // ----- one worker call, seen from outside

  /** The calls that change the history, and the phases they lead to. */
  ghost predicate Moves(c: Config, phase: Phase, job: Job, o: Outcome, next: Option<Phase>) {
    && (phase.Running? ==>
          && next.Some?
          && (next.value.Running? || next.value.OkAck? ==> o.Ok())
          && (o.Ok() ==> if next.value.Running? then phase.op + 1 < c.execOps else next.value.OkAck? && phase.op + 1 >= c.execOps)
          && (!o.Ok() ==> if job.retryCounts == c.maxRetry then next.value.DlqAdd? else next.value.RetryAdd?))
    && (AfterFailure(phase) && next.Some? ==> AfterFailure(next.value) && !next.value.DlqAdd?)
    && (AfterSuccess(phase) && next.Some? ==> AfterSuccess(next.value) && !next.value.OkAck?)
    && (next.Some? && next.value.DlqAck? ==> phase.DlqAdd? && o.Ok())
    && (next.Some? && InDlqBranch(next.value) && !next.value.DlqAdd? ==> InDlqBranch(phase))
    && (InDlqBranch(phase) && next.Some? && next.value.RetryAdd? ==> !c.exclusiveDlq)
    && (next.Some? && AfterRetryAdd(next.value) ==> AfterRetryAdd(phase) || (phase.RetryAdd? && o.Ok()))
    && (next.Some? && next.value.OkStatus? && c.notifies ==> phase.OkNotify? && o.Ok())
    && (phase.OkNotify? && next.Some? ==> next.value.OkStatus?)
  }

  ghost predicate Worked(c: Config, s: State, l: Label, t: State)
    requires l.Work? && l.w in s.workers && s.workers[l.w].At?
  {
    var pc := s.workers[l.w];
    && l.w in t.workers
    && t.workers == s.workers[l.w := t.workers[l.w]]
    && t.scheds == s.scheds
    && (t.workers[l.w].At? ==>
          && t.workers[l.w].id == pc.id && t.workers[l.w].job == pc.job
          && Moves(c, pc.phase, pc.job, l.o, Some(t.workers[l.w].phase)))
    && t.st.stream.log == s.st.stream.log
    && t.st.stream.cursor == s.st.stream.cursor
    && t.st.stream.deleted - {pc.id} <= s.st.stream.deleted
    && t.h.added == s.h.added
    && t.h.failed == (if pc.phase.Running? && !l.o.Ok() then s.h.failed + {pc.id} else s.h.failed)
    && t.h.done == (if pc.phase.Running? && l.o.Ok() && pc.phase.op + 1 >= c.execOps then s.h.done + {pc.id} else s.h.done)
    && WorkedDlq(c, s, pc, l.o, t)
    && WorkedOut(c, s, pc, l.o, t)
    && WorkedRetry(c, s, pc, l, t)
  }

  ghost predicate WorkedDlq(c: Config, s: State, pc: PC, o: Outcome, t: State)
    requires pc.At?
  {
    if pc.phase.DlqAdd? && o.Applied()
    then t.st.dlq == s.st.dlq + [pc.job] && t.h.dlqFrom == s.h.dlqFrom + [pc.id]
    else t.st.dlq == s.st.dlq && t.h.dlqFrom == s.h.dlqFrom
  }

  ghost predicate WorkedOut(c: Config, s: State, pc: PC, o: Outcome, t: State)
    requires pc.At?
  {
    if pc.phase.OkNotify? && o.Applied()
    then t.st.outbox == s.st.outbox + [pc.job] && t.h.outFrom == s.h.outFrom + [pc.id]
    else t.st.outbox == s.st.outbox && t.h.outFrom == s.h.outFrom
  }

  ghost predicate WorkedRetry(c: Config, s: State, pc: PC, l: Label, t: State)
    requires pc.At? && l.Work?
  {
    if pc.phase.RetryAdd? && l.o.Applied() && !CalculateBackoffDelay(pc.job.retryCounts + 1, l.draw).Panic?
    then t.st.retry.Keys == s.st.retry.Keys + {Bump(pc.job)} && t.h.scheduled == s.h.scheduled + {Bump(pc.job)}
    else t.st.retry == s.st.retry && t.h.scheduled == s.h.scheduled
  }

  lemma AdvanceMoves(c: Config, phase: Phase, job: Job, o: Outcome)
    ensures Moves(c, phase, job, o, Advance(c, phase, job, o.Ok()))
  {
  }

  lemma WorkSummary(c: Config, s: State, l: Label)
    requires l.Work? && Enabled(s, l)
    ensures Worked(c, s, l, Next(c, s, l))
  {
    AdvanceMoves(c, s.workers[l.w].phase, s.workers[l.w].job, l.o);
  }

  /** The labels that neither deliver a message nor act for a worker. */
  predicate Quiet(l: Label) {
    !l.Read? && !l.Work?
  }

  /** Such a step leaves deliveries, verdicts, dead letters and notifications alone; workers
      only come (idle) and go. */
  lemma QuietSummary(c: Config, s: State, l: Label)
    requires Quiet(l) && Enabled(s, l)
    ensures
      var t := Next(c, s, l);
      && s.st.stream.log <= t.st.stream.log
      && t.st.stream.cursor == s.st.stream.cursor && t.st.stream.deleted == s.st.stream.deleted
      && t.st.dlq == s.st.dlq && t.st.outbox == s.st.outbox
      && t.h == s.h.(added := t.h.added)
      && (forall w :: w in t.workers && t.workers[w].At? ==> w in s.workers && t.workers[w] == s.workers[w])
  {
  }

  // ----- messages and the workers that hold them

  ghost predicate HoldsMessage(s: State, pc: PC) {
    pc.At? ==>
      && pc.id < s.st.stream.cursor <= |s.st.stream.log|
      && s.st.stream.log[pc.id] == pc.job
      && (pc.phase.Running? ==> pc.id !in s.h.failed && pc.id !in s.h.done)
      && (AfterFailure(pc.phase) ==> pc.id in s.h.failed)
      && (AfterSuccess(pc.phase) ==> pc.id in s.h.done)
  }

  ghost predicate OneHolder(s: State) {
    forall v, w :: v in s.workers && w in s.workers && s.workers[v].At? && s.workers[w].At? && v != w ==>
      s.workers[v].id != s.workers[w].id
  }

  /** Every message is held by at most one worker, and a message's execution has at most one
      verdict. Messages are deleted only after delivery. */
  ghost predicate Shape(s: State) {
    && s.st.stream.cursor <= |s.st.stream.log|
    && (forall id :: id in s.st.stream.deleted ==> id < s.st.stream.cursor)
    && (forall id :: id in s.h.failed ==> id < s.st.stream.cursor && id !in s.h.done)
    && (forall id :: id in s.h.done ==> id < s.st.stream.cursor)
    && (forall w :: w in s.workers ==> HoldsMessage(s, s.workers[w]))
    && OneHolder(s)
  }

  /** The next message is always the one the cursor points at. */
  lemma NextMessage(st: Stream)
    requires forall id :: id in st.deleted ==> id < st.cursor
    requires st.FirstFrom(st.cursor).Some?
    ensures st.FirstFrom(st.cursor).value == st.cursor < |st.log|
  {
  }

  lemma ShapeWork(c: Config, s: State, l: Label)
    requires Shape(s) && Enabled(s, l) && l.Work?
    ensures Shape(Next(c, s, l))
  {
    WorkSummary(c, s, l);
    assert HoldsMessage(s, s.workers[l.w]);
    var t := Next(c, s, l);
    forall w | w in t.workers
      ensures HoldsMessage(t, t.workers[w])
    {
      assert w in s.workers && HoldsMessage(s, s.workers[w]);
    }
  }

  lemma ShapeStep(c: Config, s: State, l: Label)
    requires Shape(s) && Enabled(s, l)
    ensures Shape(Next(c, s, l))
  {
    if l.Work? {
      ShapeWork(c, s, l);
    } else if l.Read? {
      NextMessage(s.st.stream);
    } else {
      QuietSummary(c, s, l);
      var t := Next(c, s, l);
      forall w | w in t.workers
        ensures HoldsMessage(t, t.workers[w])
      {
        assert t.workers[w].At? ==> HoldsMessage(s, s.workers[w]);
      }
    }
  }

  // ----- dead letters and notifications

  ghost predicate Distinct(ids: seq<nat>) {
    forall i, j :: 0 <= i < j < |ids| ==> ids[i] != ids[j]
  }

  /** The i-th appended job is the job of message from[i], and no message appears twice. */
  ghost predicate Copies(log: seq<Job>, jobs: seq<Job>, from: seq<nat>) {
    && |jobs| == |from|
    && Distinct(from)
    && forall i :: 0 <= i < |from| ==> from[i] < |log| && jobs[i] == log[from[i]]
  }

  lemma CopiesAppend(log: seq<Job>, jobs: seq<Job>, from: seq<nat>, id: nat)
    requires Copies(log, jobs, from) && id < |log| && id !in from
    ensures Copies(log, jobs + [log[id]], from + [id])
  {
  }

  lemma CopiesLonger(log: seq<Job>, more: seq<Job>, jobs: seq<Job>, from: seq<nat>)
    requires Copies(log, jobs, from) && log <= more
    ensures Copies(more, jobs, from)
  {
  }

  /** Every dead letter is a copy of a failed execution at the last allowed level. */
  ghost predicate DlqOk(c: Config, s: State) {
    && Copies(s.st.stream.log, s.st.dlq, s.h.dlqFrom)
    && (forall id :: id in s.h.dlqFrom ==>
          id in s.h.failed && id < |s.st.stream.log| && s.st.stream.log[id].retryCounts == c.maxRetry)
    && (forall w :: w in s.workers ==> DlqWorker(c, s, s.workers[w]))
  }

  ghost predicate DlqWorker(c: Config, s: State, pc: PC) {
    pc.At? ==>
      && (pc.phase.Running? || pc.phase.DlqAdd? ==> pc.id !in s.h.dlqFrom)
      && (InDlqBranch(pc.phase) ==> pc.job.retryCounts == c.maxRetry)
      && (InDlqBranch(pc.phase) && !pc.phase.DlqAdd? ==> pc.job in s.st.dlq)
      && (c.exclusiveDlq && pc.phase.RetryAdd? ==> pc.job.retryCounts != c.maxRetry)
  }

  lemma DlqWork(c: Config, s: State, l: Label)
    requires Shape(s) && DlqOk(c, s) && Enabled(s, l) && l.Work?
    ensures DlqOk(c, Next(c, s, l))
  {
    WorkSummary(c, s, l);
    var t := Next(c, s, l);
    var pc := s.workers[l.w];
    assert HoldsMessage(s, pc) && DlqWorker(c, s, pc);
    if pc.phase.DlqAdd? && l.o.Applied() {
      CopiesAppend(s.st.stream.log, s.st.dlq, s.h.dlqFrom, pc.id);
    }
    forall w | w in t.workers
      ensures DlqWorker(c, t, t.workers[w])
    {
      assert w in s.workers && DlqWorker(c, s, s.workers[w]);
    }
  }

  lemma DlqStep(c: Config, s: State, l: Label)
    requires Shape(s) && DlqOk(c, s) && Enabled(s, l)
    ensures DlqOk(c, Next(c, s, l))
  {
    var t := Next(c, s, l);
    if l.Work? {
      DlqWork(c, s, l);
    } else if l.Read? {
      NextMessage(s.st.stream);
    } else {
      QuietSummary(c, s, l);
      CopiesLonger(s.st.stream.log, t.st.stream.log, s.st.dlq, s.h.dlqFrom);
      forall w | w in t.workers
        ensures DlqWorker(c, t, t.workers[w])
      {
        assert t.workers[w].At? ==> DlqWorker(c, s, s.workers[w]);
      }
    }
  }

  /** Every notification is a copy of a successful execution, sent once for it. */
  ghost predicate OutOk(c: Config, s: State) {
    && Copies(s.st.stream.log, s.st.outbox, s.h.outFrom)
    && (forall id :: id in s.h.outFrom ==> id in s.h.done)
    && (forall w :: w in s.workers ==> OutWorker(c, s, s.workers[w]))
  }

  ghost predicate OutWorker(c: Config, s: State, pc: PC) {
    pc.At? ==>
      && (!pc.phase.OkStatus? ==> pc.id !in s.h.outFrom)
      && (pc.phase.OkStatus? && c.notifies ==> pc.job in s.st.outbox)
  }

  lemma OutWork(c: Config, s: State, l: Label)
    requires Shape(s) && OutOk(c, s) && Enabled(s, l) && l.Work?
    ensures OutOk(c, Next(c, s, l))
  {
    WorkSummary(c, s, l);
    var t := Next(c, s, l);
    var pc := s.workers[l.w];
    assert HoldsMessage(s, pc) && OutWorker(c, s, pc);
    if pc.phase.OkNotify? && l.o.Applied() {
      CopiesAppend(s.st.stream.log, s.st.outbox, s.h.outFrom, pc.id);
    }
    forall w | w in t.workers
      ensures OutWorker(c, t, t.workers[w])
    {
      assert w in s.workers && OutWorker(c, s, s.workers[w]);
    }
  }

  lemma OutStep(c: Config, s: State, l: Label)
    requires Shape(s) && OutOk(c, s) && Enabled(s, l)
    ensures OutOk(c, Next(c, s, l))
  {
    var t := Next(c, s, l);
    if l.Work? {
      OutWork(c, s, l);
    } else if l.Read? {
      NextMessage(s.st.stream);
    } else {
      QuietSummary(c, s, l);
      CopiesLonger(s.st.stream.log, t.st.stream.log, s.st.outbox, s.h.outFrom);
      forall w | w in t.workers
        ensures OutWorker(c, t, t.workers[w])
      {
        assert t.workers[w].At? ==> OutWorker(c, s, s.workers[w]);
      }
    }
  }

  // ----- retry counts

  /** The highest retry count a stored copy can carry: the configured one when the DLQ branch
      is exclusive and it can be reached, otherwise the last one whose backoff does not panic. */
  function Cap(c: Config): int {
    if c.exclusiveDlq && 0 <= c.maxRetry <= LAST_SAFE_RETRY then c.maxRetry else LAST_SAFE_RETRY
  }

  predicate SubmitsWithin(c: Config, l: Label) {
    l.Submit? ==> 0 <= l.job.retryCounts <= Cap(c)
  }

  /** Some failed execution was of exactly this copy. */
  ghost predicate FailedAt(s: State, job: Job) {
    exists id :: id in s.h.failed && id < |s.st.stream.log| && s.st.stream.log[id] == job
  }

  ghost predicate ScheduledOk(c: Config, s: State, job: Job) {
    && 1 <= job.retryCounts <= Cap(c)
    && FailedAt(s, job.(retryCounts := job.retryCounts - 1))
  }

  /** Every copy was added from outside or stands one above a failed execution. */
  ghost predicate Levels(c: Config, s: State) {
    && (forall job :: job in s.h.added ==> 0 <= job.retryCounts <= Cap(c))
    && (forall job :: job in s.h.scheduled ==> ScheduledOk(c, s, job))
    && (forall i :: 0 <= i < |s.st.stream.log| ==> s.st.stream.log[i] in s.h.added || s.st.stream.log[i] in s.h.scheduled)
    && s.st.retry.Keys <= s.h.scheduled
    && (forall k :: k in s.scheds ==> BatchOk(s, s.scheds[k]))
    && (forall w :: w in s.workers && s.workers[w].At? && AfterRetryAdd(s.workers[w].phase) ==>
          Bump(s.workers[w].job) in s.h.scheduled)
  }

  ghost predicate BatchOk(s: State, p: Sched) {
    !p.Resting? ==> p.batch != [] && forall job :: job in p.batch ==> job in s.h.scheduled
  }

  lemma ScheduledStays(c: Config, s: State, t: State, job: Job)
    requires ScheduledOk(c, s, job) && s.st.stream.log <= t.st.stream.log && s.h.failed <= t.h.failed
    ensures ScheduledOk(c, t, job)
  {
    var id :| id in s.h.failed && id < |s.st.stream.log| && s.st.stream.log[id] == job.(retryCounts := job.retryCounts - 1);
    assert id in t.h.failed && t.st.stream.log[id] == s.st.stream.log[id];
  }

  /** ScheduleRetry only succeeds within the cap. */
  lemma BumpScheduled(c: Config, s: State, pc: PC, draw: nat)
    requires Shape(s) && Levels(c, s) && HoldsMessage(s, pc) && DlqWorker(c, s, pc)
    requires pc.At? && pc.phase.RetryAdd? && !CalculateBackoffDelay(pc.job.retryCounts + 1, draw).Panic?
    ensures ScheduledOk(c, s, Bump(pc.job))
  {
    assert 0 <= s.st.stream.log[pc.id].retryCounts <= Cap(c);
    NoPanicExactly(pc.job.retryCounts + 1, draw);
    assert Bump(pc.job).(retryCounts := pc.job.retryCounts) == s.st.stream.log[pc.id];
  }

  lemma LevelsWork(c: Config, s: State, l: Label)
    requires Shape(s) && DlqOk(c, s) && Levels(c, s) && Enabled(s, l) && l.Work?
    ensures Levels(c, Next(c, s, l))
  {
    WorkSummary(c, s, l);
    var t := Next(c, s, l);
    var pc := s.workers[l.w];
    assert HoldsMessage(s, pc) && DlqWorker(c, s, pc);
    forall job | job in t.h.scheduled
      ensures ScheduledOk(c, t, job)
    {
      if job !in s.h.scheduled {
        BumpScheduled(c, s, pc, l.draw);
      }
      ScheduledStays(c, s, t, job);
    }
    forall k | k in t.scheds
      ensures BatchOk(t, t.scheds[k])
    {
      assert BatchOk(s, s.scheds[k]);
    }
    assert t.workers[l.w].At? && t.workers[l.w].phase.RetryAck? ==> Bump(pc.job) in t.h.scheduled;
  }

  /** A step that schedules nothing keeps what was scheduled explained. */
  lemma ScheduledKept(c: Config, s: State, t: State)
    requires Levels(c, s) && t.h.scheduled == s.h.scheduled
    requires s.st.stream.log <= t.st.stream.log && s.h.failed <= t.h.failed
    ensures forall job :: job in t.h.scheduled ==> ScheduledOk(c, t, job)
  {
    forall job | job in t.h.scheduled
      ensures ScheduledOk(c, t, job)
    {
      ScheduledStays(c, s, t, job);
    }
  }

  lemma LevelsMove(c: Config, s: State, l: Label)
    requires Levels(c, s) && Enabled(s, l) && l.Move?
    ensures Levels(c, Next(c, s, l))
  {
    var t := Next(c, s, l);
    ScheduledKept(c, s, t);
    assert BatchOk(s, s.scheds[l.k]) && s.scheds[l.k].batch[0] in s.h.scheduled;
    forall k | k in t.scheds
      ensures BatchOk(t, t.scheds[k])
    {
      assert BatchOk(s, s.scheds[k]);
    }
  }

  lemma LevelsRead(c: Config, s: State, l: Label)
    requires Levels(c, s) && Enabled(s, l) && l.Read?
    ensures Levels(c, Next(c, s, l))
  {
    var t := Next(c, s, l);
    ScheduledKept(c, s, t);
    forall k | k in t.scheds
      ensures BatchOk(t, t.scheds[k])
    {
      assert BatchOk(s, s.scheds[k]);
    }
  }

  lemma LevelsQuiet(c: Config, s: State, l: Label)
    requires Levels(c, s) && Enabled(s, l) && Quiet(l) && !l.Move? && SubmitsWithin(c, l)
    ensures Levels(c, Next(c, s, l))
  {
    var t := Next(c, s, l);
    ScheduledKept(c, s, t);
    QuietSummary(c, s, l);
    forall k | k in t.scheds
      ensures BatchOk(t, t.scheds[k])
    {
      if k in s.scheds {
        assert BatchOk(s, s.scheds[k]);
      }
    }
  }

  /** A copy of the job anywhere in the stage. */
  ghost predicate Copy(s: State, job: Job) {
    || job in s.st.stream.log
    || job in s.st.retry
    || job in s.st.dlq
    || job in s.st.outbox
  }

  /** From some submission of the job upwards, every retry count below the copy's own belongs
      to an execution that failed. */
  ghost predicate FailedUpTo(s: State, job: Job, base: int) {
    && base <= job.retryCounts
    && job.(retryCounts := base) in s.h.added
    && forall level :: base <= level < job.retryCounts ==> FailedAt(s, job.(retryCounts := level))
  }

  lemma {:induction false} CopyExplained(c: Config, s: State, job: Job) returns (base: int)
    requires Shape(s) && Levels(c, s) && (job in s.h.added || job in s.h.scheduled)
    ensures FailedUpTo(s, job, base) && 0 <= base
    decreases job.retryCounts
  {
    if job in s.h.added {
      base := job.retryCounts;
    } else {
      assert ScheduledOk(c, s, job);
      var below := job.(retryCounts := job.retryCounts - 1);
      var id :| id in s.h.failed && id < |s.st.stream.log| && s.st.stream.log[id] == below;
      base := CopyExplained(c, s, below);
      forall level | base <= level < job.retryCounts
        ensures FailedAt(s, job.(retryCounts := level))
      {
        if level < below.retryCounts {
          assert FailedAt(s, below.(retryCounts := level));
          assert below.(retryCounts := level) == job.(retryCounts := level);
        }
      }
    }
  }

  // ----- the status table

  ghost predicate Mentions(jobs: seq<Job>, storyId: int) {
    exists job :: job in jobs && job.storyId == storyId
  }

  ghost predicate Retried(s: State, storyId: int) {
    exists job :: job in s.h.scheduled && job.storyId == storyId
  }

  ghost predicate Succeeded(s: State, storyId: int) {
    exists id :: id in s.h.done && id < |s.st.stream.log| && s.st.stream.log[id].storyId == storyId
  }

  /** The row's status is backed by the event it reports. */
  ghost predicate RowOk(c: Config, s: State, row: Row) {
    match row.status
    case Pending => true
    case Processing => Retried(s, row.storyId)
    case Completed => Succeeded(s, row.storyId) && (c.notifies ==> Mentions(s.st.outbox, row.storyId))
    case Failed => Mentions(s.st.dlq, row.storyId)
  }

  ghost predicate Statuses(c: Config, s: State) {
    forall key :: key in s.st.rows ==> RowOk(c, s, s.st.rows[key])
  }

  lemma RowStays(c: Config, s: State, t: State, row: Row)
    requires RowOk(c, s, row) && s.st.stream.log <= t.st.stream.log && s.h.done <= t.h.done
    requires s.h.scheduled <= t.h.scheduled && s.st.dlq <= t.st.dlq && s.st.outbox <= t.st.outbox
    ensures RowOk(c, t, row)
  {
    match row.status
    case Pending =>
    case Processing =>
      var job :| job in s.h.scheduled && job.storyId == row.storyId;
      assert job in t.h.scheduled;
    case Completed =>
      var id :| id in s.h.done && id < |s.st.stream.log| && s.st.stream.log[id].storyId == row.storyId;
      assert id in t.h.done && t.st.stream.log[id] == s.st.stream.log[id];
      if c.notifies {
        var job :| job in s.st.outbox && job.storyId == row.storyId;
        assert job in t.st.outbox;
      }
    case Failed =>
      var job :| job in s.st.dlq && job.storyId == row.storyId;
      assert job in t.st.dlq;
  }

  /** What a status call writes is true when it is made. */
  lemma WrittenStatusOk(c: Config, s: State, pc: PC, row: Row)
    requires Shape(s) && pc.At? && HoldsMessage(s, pc) && DlqWorker(c, s, pc) && OutWorker(c, s, pc)
    requires pc.phase.RetryStatus? ==> Bump(pc.job) in s.h.scheduled
    requires row.storyId == pc.job.storyId
    requires
      || (pc.phase.DlqStatus? && row.status == Failed)
      || (pc.phase.RetryStatus? && row.status == Processing)
      || (pc.phase.OkStatus? && row.status == Completed)
    ensures RowOk(c, s, row)
  {
    if pc.phase.RetryStatus? {
      assert Bump(pc.job).storyId == row.storyId;
    }
  }

  lemma StatusWork(c: Config, s: State, l: Label)
    requires Shape(s) && DlqOk(c, s) && OutOk(c, s) && Levels(c, s) && Statuses(c, s) && Enabled(s, l) && l.Work?
    ensures Statuses(c, Next(c, s, l))
  {
    WorkSummary(c, s, l);
    var t := Next(c, s, l);
    var pc := s.workers[l.w];
    assert HoldsMessage(s, pc) && DlqWorker(c, s, pc) && OutWorker(c, s, pc);
    forall key | key in t.st.rows
      ensures RowOk(c, t, t.st.rows[key])
    {
      if t.st.rows[key] != s.st.rows[key] {
        WrittenStatusOk(c, s, pc, t.st.rows[key]);
      }
      RowStays(c, s, t, t.st.rows[key]);
    }
  }

  lemma StatusQuiet(c: Config, s: State, l: Label)
    requires Statuses(c, s) && Enabled(s, l) && !l.Work?
    ensures Statuses(c, Next(c, s, l))
  {
    var t := Next(c, s, l);
    forall key | key in t.st.rows
      ensures RowOk(c, t, t.st.rows[key])
    {
      if key in s.st.rows {
        RowStays(c, s, t, s.st.rows[key]);
      }
    }
  }

  // ----- all together, over whole runs

  ghost predicate Inv(c: Config, s: State) {
    Shape(s) && DlqOk(c, s) && OutOk(c, s) && Levels(c, s) && Statuses(c, s)
  }

  lemma StepKeepsInv(c: Config, s: State, l: Label)
    requires Inv(c, s) && Enabled(s, l) && SubmitsWithin(c, l)
    ensures Inv(c, Next(c, s, l))
  {
    ShapeStep(c, s, l);
    DlqStep(c, s, l);
    OutStep(c, s, l);
    if l.Work? {
      LevelsWork(c, s, l);
      StatusWork(c, s, l);
    } else {
      if l.Move? {
        LevelsMove(c, s, l);
      } else if l.Read? {
        LevelsRead(c, s, l);
      } else {
        LevelsQuiet(c, s, l);
      }
      StatusQuiet(c, s, l);
    }
  }

  /** Dead letters of one job never outnumber its failed executions at the last level: the
      messages they came from are that many different ones. */
  lemma DeadLettersCounted(c: Config, s: State, x: Job)
    requires Inv(c, s)
    ensures
      var letters := set i | 0 <= i < |s.st.dlq| && Ident(s.st.dlq[i]) == Ident(x);
      var failures := set id | id in s.h.failed && id < |s.st.stream.log|
                                && s.st.stream.log[id] == x.(retryCounts := c.maxRetry);
      |letters| <= |failures|
  {
    var letters := set i | 0 <= i < |s.st.dlq| && Ident(s.st.dlq[i]) == Ident(x);
    var failures := set id | id in s.h.failed && id < |s.st.stream.log|
                              && s.st.stream.log[id] == x.(retryCounts := c.maxRetry);
    var from := s.h.dlqFrom;
    forall i | i in letters
      ensures from[i] in failures
    {
      assert from[i] in s.h.dlqFrom;
      assert s.st.stream.log[from[i]] == s.st.dlq[i];
      assert s.st.dlq[i] == Ident(s.st.dlq[i]).(retryCounts := c.maxRetry);
    }
    InjectionBound(letters, failures, from);
  }

  /** A set of positions whose entries are distinct is no larger than what they point into. */
  lemma {:induction false} InjectionBound(positions: set<int>, targets: set<nat>, from: seq<nat>)
    requires Distinct(from)
    requires forall i :: i in positions ==> 0 <= i < |from| && from[i] in targets
    ensures |positions| <= |targets|
  {
    if forall i :: i !in positions {
      assert positions == {};
      return;
    }
    var i :| i in positions;
    InjectionBound(positions - {i}, targets - {from[i]}, from);
  }
}
