/**
  Where the code parts from what its parts suggest, each with its exact condition: when a
  success notifies, and when a dead letter is retried as well; and that no retry comes back
  early or late.
*/
module Gaps {
  import opened Jobs
  import opened Backoff
  import opened Worker
  import opened Stage
  import opened Records
  import opened Completion
  import opened WorkerPool

  // ----- a successful story without its notification

  /** OnSuccess lets go of the message before it notifies: the notification is appended if
      and only if both earlier calls reported success and the append took effect. */
  lemma NotifiedExactly(c: Config, st: Store, id: nat, job: Job, os: seq<Outcome>, clock: int, draw: nat)
    requires c.notifies && |os| == 4
    ensures
      var st' := RunBranch(c, Branch.Success, st, At(OkAck, id, job), os, clock, draw).0;
      st'.outbox == if os[0].Ok() && os[1].Ok() && os[2].Applied() then st.outbox + [job] else st.outbox
  {
    Unroll(c, st, OkAck, id, job, os, clock, draw);
    var st1 := Step(c, st, At(OkAck, id, job), os[0], clock, draw).0;
    if os[0].Ok() {
      Unroll(c, st1, OkDelete, id, job, os[1..], clock, draw);
      var st2 := Step(c, st1, At(OkDelete, id, job), os[1], clock, draw).0;
      if os[1].Ok() {
        Unroll(c, st2, OkNotify, id, job, os[1..][1..], clock, draw);
        var st3 := Step(c, st2, At(OkNotify, id, job), os[2], clock, draw).0;
        Unroll(c, st3, OkStatus, id, job, os[1..][1..][1..], clock, draw);
      }
    }
  }

  /** The execution for message id succeeded, and neither is there a notification from it nor
      a worker that could still send one. */
  ghost predicate Unnotified(s: State, id: nat) {
    && id in s.h.done && id !in s.h.outFrom
    && forall w :: w in s.workers && s.workers[w].At? ==> s.workers[w].id != id
  }

  lemma UnnotifiedStep(c: Config, s: State, l: Label, id: nat)
    requires Shape(s) && Enabled(s, l) && Unnotified(s, id)
    ensures Unnotified(Next(c, s, l), id)
  {
    if l.Work? {
      WorkSummary(c, s, l);
    } else if l.Read? {
      NextMessage(s.st.stream);
    } else {
      QuietSummary(c, s, l);
    }
  }

  /** Once lost, that notification never comes, whatever runs afterwards. */
  lemma {:induction false} UnnotifiedForever(c: Config, s: State, ls: seq<Label>, id: nat)
    requires Shape(s) && Legal(c, s, ls) && Unnotified(s, id)
    ensures Unnotified(Run(c, s, ls), id)
    decreases |ls|
  {
    if ls != [] {
      UnnotifiedStep(c, s, ls[0], id);
      ShapeStep(c, s, ls[0]);
      UnnotifiedForever(c, Next(c, s, ls[0]), ls[1..], id);
    }
  }

  /** So one refused Delete (or a crash) after a success loses that message's notification for good. */
  lemma LostByOneFailure(c: Config, s: State, w: nat, o: Outcome, ls: seq<Label>)
    requires Shape(s) && OutOk(c, s) && w in s.workers && s.workers[w].At?
    requires s.workers[w].phase.OkAck? || s.workers[w].phase.OkDelete?
    requires !o.Ok() && Legal(c, Next(c, s, Work(w, o, 0, 0)), ls)
    ensures s.workers[w].id !in Run(c, Next(c, s, Work(w, o, 0, 0)), ls).h.outFrom
  {
    var l := Work(w, o, 0, 0);
    var id := s.workers[w].id;
    WorkSummary(c, s, l);
    assert Records.HoldsMessage(s, s.workers[w]) && OutWorker(c, s, s.workers[w]);
    ShapeStep(c, s, l);
    assert Unnotified(Next(c, s, l), id);
    UnnotifiedForever(c, Next(c, s, l), ls, id);
  }

  // ----- a dead letter that is retried as well

  /** Some call of the execution fails. */
  predicate Fails(exec: seq<Outcome>) {
    exists i :: 0 <= i < |exec| && !exec[i].Ok()
  }

  /** Whatever happens while a failed execution at the last allowed level is handled: the dead
      letter is written exactly if its append took effect, and the retry is scheduled as well
      exactly if the branch is not exclusive, the ZADD took effect and the backoff did not panic. */
  lemma DeadLetterRetriedExactly(c: Config, st: Store, id: nat, job: Job, r: Round)
    requires WellFormed(c, r) && job.retryCounts == c.maxRetry && Fails(r.exec)
    ensures
      var st' := Handle(c, st, At(Running(0), id, job), r).0;
      && st'.dlq == (if r.dlq[0].Applied() then st.dlq + [job] else st.dlq)
      && (Bump(job) in st'.retry <==>
            || Bump(job) in st.retry
            || (!c.exclusiveDlq && r.rest[0].Applied() && !CalculateBackoffDelay(c.maxRetry + 1, r.draw).Panic?))
    ensures c.maxRetry <= LAST_SAFE_RETRY ==>
      (CalculateBackoffDelay(c.maxRetry + 1, r.draw).Panic? <==> !(0 <= c.maxRetry + 1 <= LAST_SAFE_RETRY))
  {
    if c.maxRetry <= LAST_SAFE_RETRY {
      NoPanicExactly(c.maxRetry + 1, r.draw);
    }
    assert r.exec[0..] == r.exec;
    ExecutionFails(c, st, 0, id, job, r.exec, r.clock, r.draw);
    DeadLetterChain(c, st, DlqAdd, id, job, r.dlq, r.clock, r.draw);
    if !c.exclusiveDlq {
      RetryChain(c, RunBranch(c, DeadLetter, st, At(DlqAdd, id, job), r.dlq, r.clock, r.draw).0, id, job, r.rest, r.clock, r.draw);
    }
  }

  lemma {:induction false} ExecutionFails(c: Config, st: Store, op: nat, id: nat, job: Job, os: seq<Outcome>, clock: int, draw: nat)
    requires op + |os| == c.execOps && Fails(os) && job.retryCounts == c.maxRetry
    ensures RunBranch(c, Execution, st, At(Running(op), id, job), os, clock, draw) == (st, At(DlqAdd, id, job))
    decreases |os|
  {
    Unroll(c, st, Running(op), id, job, os, clock, draw);
    if os[0].Ok() {
      var i :| 0 <= i < |os| && !os[i].Ok();
      assert os[1..][i - 1] == os[i];
      ExecutionFails(c, st, op + 1, id, job, os[1..], clock, draw);
    }
  }

  /** The calls still to come in a branch. */
  function CallsLeft(phase: Phase): nat {
    match phase
    case DlqAdd => 4
    case DlqAck => 3
    case DlqDelete => 2
    case DlqStatus => 1
    case RetryAck => 3
    case RetryDelete => 2
    case RetryStatus => 1
    case _ => 0
  }

  /** Only the first call of the dead-letter branch writes a dead letter, none schedules. */
  lemma {:induction false} DeadLetterChain(c: Config, st: Store, phase: Phase, id: nat, job: Job, os: seq<Outcome>, clock: int, draw: nat)
    requires InDlqBranch(phase) && |os| == CallsLeft(phase)
    ensures
      var (st', pc') := RunBranch(c, DeadLetter, st, At(phase, id, job), os, clock, draw);
      && pc' == (if c.exclusiveDlq then Idle else At(RetryAdd, id, job))
      && st'.retry == st.retry
      && st'.dlq == if phase.DlqAdd? && os[0].Applied() then st.dlq + [job] else st.dlq
    decreases |os|
  {
    Unroll(c, st, phase, id, job, os, clock, draw);
    var (st1, pc1) := Step(c, st, At(phase, id, job), os[0], clock, draw);
    if pc1.At? && InDlqBranch(pc1.phase) {
      DeadLetterChain(c, st1, pc1.phase, id, job, os[1..], clock, draw);
    }
  }

  lemma {:induction false} LetGoChain(c: Config, st: Store, phase: Phase, id: nat, job: Job, os: seq<Outcome>, clock: int, draw: nat)
    requires AfterRetryAdd(phase) && |os| == CallsLeft(phase)
    ensures
      var (st', pc') := RunBranch(c, Retry, st, At(phase, id, job), os, clock, draw);
      pc' == Idle && st'.retry == st.retry && st'.dlq == st.dlq
    decreases |os|
  {
    Unroll(c, st, phase, id, job, os, clock, draw);
    var (st1, pc1) := Step(c, st, At(phase, id, job), os[0], clock, draw);
    if pc1.At? {
      LetGoChain(c, st1, pc1.phase, id, job, os[1..], clock, draw);
    }
  }

  lemma RetryChain(c: Config, st: Store, id: nat, job: Job, os: seq<Outcome>, clock: int, draw: nat)
    requires |os| == 4
    ensures
      var (st', pc') := RunBranch(c, Retry, st, At(RetryAdd, id, job), os, clock, draw);
      && !pc'.At? && st'.dlq == st.dlq
      && (Bump(job) in st'.retry <==>
            Bump(job) in st.retry || (os[0].Applied() && !CalculateBackoffDelay(job.retryCounts + 1, draw).Panic?))
  {
    Unroll(c, st, RetryAdd, id, job, os, clock, draw);
    var (st1, pc1) := Step(c, st, At(RetryAdd, id, job), os[0], clock, draw);
    if pc1.At? {
      LetGoChain(c, st1, pc1.phase, id, job, os[1..], clock, draw);
    }
  }

  // ----- no retry comes back early or late

  /** This step puts the copy into the retry set, `ns` nanoseconds after its clock reading. */
  ghost predicate Schedules(s: State, l: Label, copy: Job, clock: int, ns: int)
    requires Enabled(s, l)
  {
    && l.Work? && s.workers[l.w].phase.RetryAdd? && l.o.Applied()
    && Bump(s.workers[l.w].job) == copy
    && l.clock == clock && CalculateBackoffDelay(copy.retryCounts, l.draw) == Wait(ns)
  }

  /** No step of the run does, at whatever time. */
  ghost predicate Unscheduled(c: Config, s: State, ls: seq<Label>, copy: Job)
    requires Legal(c, s, ls)
    decreases |ls|
  {
    ls == [] ||
    (&& (forall clock, ns :: !Schedules(s, ls[0], copy, clock, ns))
     && Unscheduled(c, Next(c, s, ls[0]), ls[1..], copy))
  }

  /** Some step of the run does, and no later one. */
  ghost predicate LastScheduled(c: Config, s: State, ls: seq<Label>, copy: Job, clock: int, ns: int)
    requires Legal(c, s, ls)
    decreases |ls|
  {
    ls != [] &&
    (|| (Schedules(s, ls[0], copy, clock, ns) && Unscheduled(c, Next(c, s, ls[0]), ls[1..], copy))
     || LastScheduled(c, Next(c, s, ls[0]), ls[1..], copy, clock, ns))
  }

  /** Scheduling writes the score, over an older one too, and nothing else does. */
  lemma ScoreStep(c: Config, s: State, l: Label, copy: Job) returns (clock: int, ns: int)
    requires Enabled(s, l) && copy in Next(c, s, l).st.retry
    ensures
      || (copy in s.st.retry && Next(c, s, l).st.retry[copy] == s.st.retry[copy]
          && forall k, d :: !Schedules(s, l, copy, k, d))
      || (Schedules(s, l, copy, clock, ns) && Next(c, s, l).st.retry[copy] == RunAt(clock, ns))
  {
    clock, ns := 0, 0;
    if l.Work? {
      var delay := CalculateBackoffDelay(s.workers[l.w].job.retryCounts + 1, l.draw);
      clock, ns := l.clock, if delay.Wait? then delay.ns else 0;
    }
  }

  lemma {:induction false} ScoresAreLatest(c: Config, s: State, ls: seq<Label>, copy: Job) returns (clock: int, ns: int)
    requires Legal(c, s, ls) && copy in Run(c, s, ls).st.retry
    ensures
      || (copy in s.st.retry && Run(c, s, ls).st.retry[copy] == s.st.retry[copy] && Unscheduled(c, s, ls, copy))
      || (LastScheduled(c, s, ls, copy, clock, ns) && Run(c, s, ls).st.retry[copy] == RunAt(clock, ns))
    decreases |ls|
  {
    clock, ns := 0, 0;
    if ls != [] {
      var t := Next(c, s, ls[0]);
      clock, ns := ScoresAreLatest(c, t, ls[1..], copy);
      if !LastScheduled(c, t, ls[1..], copy, clock, ns) || Run(c, s, ls).st.retry[copy] != RunAt(clock, ns) {
        clock, ns := ScoreStep(c, s, ls[0], copy);
      }
    }
  }

  /** In every run: what a scheduler fetches when its clock shows `nowNs` was scheduled by a
      step of the run, and the clock reading plus the delay of the latest such step lies less
      than one second after `nowNs`, both roundings to whole seconds included. */
  lemma NotEarly(c: Config, ls: seq<Label>, k: nat, nowNs: int, batch: seq<Job>, copy: Job) returns (clock: int, ns: int)
    requires Legal(c, INIT, ls) && Enabled(Run(c, INIT, ls), Fetch(k, nowNs / SECOND, batch)) && copy in batch
    ensures LastScheduled(c, INIT, ls, copy, clock, ns) && clock + ns - SECOND < nowNs
  {
    var t := Run(c, INIT, ls);
    var i :| 0 <= i < |batch| && batch[i] == copy;
    assert Due(t.st.retry, nowNs / SECOND, batch[i]);
    clock, ns := ScoresAreLatest(c, INIT, ls, copy);
    NotBeforeRunAt(clock, ns, nowNs);
  }

  /** Nor late: in every run what is in the retry set is due from the end of that delay on. */
  lemma NotLate(c: Config, ls: seq<Label>, copy: Job, nowNs: int) returns (clock: int, ns: int)
    requires Legal(c, INIT, ls) && copy in Run(c, INIT, ls).st.retry
    ensures LastScheduled(c, INIT, ls, copy, clock, ns)
    ensures 0 <= clock + ns <= nowNs ==> Due(Run(c, INIT, ls).st.retry, nowNs / SECOND, copy)
  {
    clock, ns := ScoresAreLatest(c, INIT, ls, copy);
    DueFromRunAt(clock, ns, nowNs);
  }

  lemma DueFromRunAt(clock: int, ns: int, nowNs: int)
    ensures 0 <= clock + ns <= nowNs ==> 0 <= RunAt(clock, ns) <= nowNs / SECOND
  {
    RunAtBounds(clock, ns);
  }
}
