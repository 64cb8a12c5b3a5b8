/**
  The worker loop: read, execute, and hand over to the completion handlers. A round is proved
  equal to a chain of automaton branches, and every such chain is a path of the stage's
  transition system, whatever the other goroutines did before it.
*/
module WorkerPool {
  import opened Jobs
  import opened Backoff
  import opened Worker
  import opened RedisTask
  import opened Completion
  import opened Stage

  /** What the environment does during one round: the outcome of every call that may be made. */
  datatype Round = Round(read: Outcome, exec: seq<Outcome>, dlq: seq<Outcome>, rest: seq<Outcome>, clock: int, draw: nat)

  predicate WellFormed(c: Config, r: Round) {
    |r.exec| == c.execOps && |r.dlq| == 4 && |r.rest| == 4
  }

  /** One round of an idle worker on the stage's data. */
  function RoundResult(c: Config, st: Store, r: Round): (Store, PC) {
    var next := st.stream.FirstFrom(st.stream.cursor);
    if next.None? || !r.read.Applied() then (st, Idle)
    else
      var st1 := st.(stream := st.stream.Deliver(next.value));
      if !r.read.Ok() then (st1, Idle) else Handle(c, st1, At(Running(0), next.value, st.stream.log[next.value]), r)
  }

  /** Execute, then whichever branches its result leads through. */
  function Handle(c: Config, st: Store, pc: PC, r: Round): (Store, PC) {
    var (st1, pc1) := RunBranch(c, Execution, st, pc, r.exec, r.clock, r.draw);
    Complete(c, st1, pc1, r)
  }

  /** The branches after Execute. */
  function Complete(c: Config, st: Store, pc: PC, r: Round): (Store, PC) {
    var (st1, pc1) := RunBranch(c, DeadLetter, st, pc, r.dlq, r.clock, r.draw);
    var (st2, pc2) := RunBranch(c, Retry, st1, pc1, r.rest, r.clock, r.draw);
    RunBranch(c, Branch.Success, st2, pc2, r.rest, r.clock, r.draw)
  }

  /** Rounds one after the other, until a panic ends the goroutine. */
  function RoundsResult(c: Config, st: Store, rounds: seq<Round>): (Store, PC)
    decreases |rounds|
  {
    if rounds == [] then (st, Idle)
    else
      var (st', pc') := RoundResult(c, st, rounds[0]);
      if pc' == Idle then RoundsResult(c, st', rounds[1..]) else (st', pc')
  }

  /** The loop is its rounds in order: one round is a round, two runs of rounds are one, and a
      panic is the end. */
  lemma {:induction false} RoundsCompose(c: Config, st: Store, first: seq<Round>, second: seq<Round>)
    ensures RoundsResult(c, st, []) == (st, Idle)
    ensures |first| == 1 ==> RoundsResult(c, st, first) == RoundResult(c, st, first[0])
    ensures
      var (m, pc) := RoundsResult(c, st, first);
      RoundsResult(c, st, first + second) == if pc == Idle then RoundsResult(c, m, second) else (m, pc)
    decreases |first|
  {
    if first == [] {
      assert first + second == second;
    } else {
      assert (first + second)[1..] == first[1..] + second;
      RoundsCompose(c, RoundResult(c, st, first[0]).0, first[1..], second);
    }
  }

  class Pool {
    const completion: JobCompletion

    constructor (completion: JobCompletion)
      ensures this.completion == completion
    {
      this.completion := completion;
    }

    /** The executer's calls in order; the first error ends it. */
    method Execute(ghost st: Store, ghost id: nat, job: Job, os: seq<Outcome>, ghost clock: int, ghost draw: nat) returns (ok: bool)
      requires |os| == completion.c.execOps >= 1
      ensures RunBranch(completion.c, Execution, st, At(Running(0), id, job), os, clock, draw)
           == (st, At(AfterExecute(completion.c, job, ok), id, job))
      ensures ok <==> forall i :: 0 <= i < |os| ==> os[i].Ok()
    {
      var c := completion.c;
      var op := 0;
      while op < c.execOps
        invariant 0 <= op <= c.execOps
        invariant forall i :: 0 <= i < op ==> os[i].Ok()
        invariant RunBranch(c, Execution, st, At(Running(0), id, job), os, clock, draw)
               == RunBranch(c, Execution, st, At(if op < c.execOps then Running(op) else OkAck, id, job), os[op..], clock, draw)
      {
        Unroll(c, st, Running(op), id, job, os[op..], clock, draw);
        if !os[op].Ok() {
          return false;
        }
        assert os[op..][1..] == os[op + 1..];
        op := op + 1;
      }
      ok := true;
    }

    /** What the failed execution of message id leads from and to: its dead letter, its retry, what
        becomes of the message, and the status. */
    ghost predicate FailureLeft(s: Store, t: Store, id: nat, job: Job, r: Round, panicked: bool)
      requires WellFormed(completion.c, r)
    {
      var c := completion.c;
      var dead, retried := job.retryCounts == c.maxRetry, job.retryCounts != c.maxRetry || !c.exclusiveDlq;
      var copy, delay := Bump(job), CalculateBackoffDelay(job.retryCounts + 1, r.draw);
      var buried := dead && r.dlq[0].Ok() && r.dlq[1].Ok();
      var parked := retried && !panicked && r.rest[0].Ok() && r.rest[1].Ok();
      && (panicked <==> retried && delay.Panic?)
      && t.dlq == (if dead && r.dlq[0].Applied() then s.dlq + [job] else s.dlq)
      && (copy in t.retry <==> copy in s.retry || (retried && !panicked && r.rest[0].Applied()))
      && (retried && !panicked && r.rest[0].Applied() ==>
            t.retry[copy] * SECOND <= r.clock + delay.ns < (t.retry[copy] + 1) * SECOND)
      && (!retried || panicked || !r.rest[0].Applied() ==> t.retry == s.retry) && t.retry - {copy} == s.retry - {copy}
      && t.outbox == s.outbox && t.stream.log == s.stream.log && t.stream.cursor == s.stream.cursor
      && t.stream.pending == s.stream.pending
           - (if dead && r.dlq[0].Ok() && r.dlq[1].Applied() then {id} else {})
           - (if retried && !panicked && r.rest[0].Ok() && r.rest[1].Applied() then {id} else {})
      && (forall i :: t.stream.Has(i) <==>
            s.stream.Has(i) && !(buried && r.dlq[2].Applied() && i == id) && !(parked && r.rest[2].Applied() && i == id))
      && var rows := if buried && r.dlq[2].Ok() && r.dlq[3].Applied() then SetStatus(s.rows, c.byUser, job, Status.Failed) else s.rows;
         t.rows == if parked && r.rest[2].Ok() && r.rest[3].Applied() then SetStatus(rows, c.byUser, job, Processing) else rows
    }

    /** Whether the message is still pending and still stored, whichever handler let go of it. */
    ghost predicate MessageLeft(s: Store, t: Store, id: nat, job: Job, r: Round, panicked: bool)
      requires WellFormed(completion.c, r)
    {
      var c := completion.c;
      var dead, again := job.retryCounts == c.maxRetry, (job.retryCounts != c.maxRetry || !c.exclusiveDlq) && !panicked;
      var buried, parked := dead && r.dlq[0].Ok() && r.dlq[1].Ok(), again && r.rest[0].Ok() && r.rest[1].Ok();
      var acked := (dead && r.dlq[0].Ok() && r.dlq[1].Applied()) || (again && r.rest[0].Ok() && r.rest[1].Applied());
      && t.stream.pending == s.stream.pending - (if acked then {id} else {})
      && (forall i :: t.stream.Has(i) <==>
            s.stream.Has(i) && !(i == id && ((buried && r.dlq[2].Applied()) || (parked && r.rest[2].Applied()))))
    }

    lemma OneMessage(s: Store, t: Store, id: nat, job: Job, r: Round, panicked: bool)
      requires WellFormed(completion.c, r) && FailureLeft(s, t, id, job, r, panicked)
      ensures MessageLeft(s, t, id, job, r, panicked)
    {
    }

    /** A job that failed at the last allowed level is dead-lettered. */
    method Bury(job: Job, id: nat, r: Round)
      requires completion.Valid() && WellFormed(completion.c, r)
      modifies completion.task, completion.table
      ensures completion.Valid()
      ensures var c, dead := completion.c, job.retryCounts == completion.c.maxRetry;
        RunBranch(c, DeadLetter, old(completion.Contents()), At(AfterExecute(c, job, false), id, job), r.dlq, r.clock, r.draw)
        == (completion.Contents(), if dead && c.exclusiveDlq then Idle else At(RetryAdd, id, job))
      ensures var s, t, dead := old(completion.Contents()), completion.Contents(), job.retryCounts == completion.c.maxRetry;
        && t.dlq == (if dead && r.dlq[0].Applied() then s.dlq + [job] else s.dlq)
        && t.retry == s.retry && t.outbox == s.outbox
        && t.stream.log == s.stream.log && t.stream.cursor == s.stream.cursor
        && t.stream.pending == s.stream.pending - (if dead && r.dlq[0].Ok() && r.dlq[1].Applied() then {id} else {})
        && (forall i :: t.stream.Has(i) <==>
              s.stream.Has(i) && !(dead && r.dlq[0].Ok() && r.dlq[1].Ok() && r.dlq[2].Applied() && i == id))
        && t.rows == if dead && r.dlq[0].Ok() && r.dlq[1].Ok() && r.dlq[2].Ok() && r.dlq[3].Applied()
                     then SetStatus(s.rows, completion.c.byUser, job, Status.Failed) else s.rows
    {
      if job.retryCounts == completion.c.maxRetry {
        var _ := completion.SendToDQL(job, id, r.dlq, r.clock, r.draw);
      }
    }

    /** The part of the loop after a failed execution. As written, OnFailure also follows
        SendToDQL. */
    method Failed(job: Job, id: nat, r: Round) returns (panicked: bool)
      requires completion.Valid() && WellFormed(completion.c, r)
      modifies completion.task, completion.table
      ensures completion.Valid()
      ensures (completion.Contents(), if panicked then Dead else Idle)
           == Complete(completion.c, old(completion.Contents()), At(AfterExecute(completion.c, job, false), id, job), r)
      ensures FailureLeft(old(completion.Contents()), completion.Contents(), id, job, r, panicked)
    {
      panicked := false;
      Bury(job, id, r);
      if job.retryCounts == completion.c.maxRetry && completion.c.exclusiveDlq {
        return;
      }
      panicked := Park(job, id, r);
    }

    /** OnFailure, whose error is not looked at; its panic ends the goroutine. */
    method Park(job: Job, id: nat, r: Round) returns (panicked: bool)
      requires completion.Valid() && WellFormed(completion.c, r)
      modifies completion.task, completion.table
      ensures completion.Valid()
      ensures (completion.Contents(), if panicked then Dead else Idle)
           == RunBranch(completion.c, Retry, old(completion.Contents()), At(RetryAdd, id, job), r.rest, r.clock, r.draw)
      ensures var s, t := old(completion.Contents()), completion.Contents();
        var copy, delay := Bump(job), CalculateBackoffDelay(job.retryCounts + 1, r.draw);
        && (panicked <==> delay.Panic?)
        && (copy in t.retry <==> copy in s.retry || (!panicked && r.rest[0].Applied()))
        && (!panicked && r.rest[0].Applied() ==> t.retry[copy] * SECOND <= r.clock + delay.ns < (t.retry[copy] + 1) * SECOND)
        && (panicked || !r.rest[0].Applied() ==> t.retry == s.retry) && t.retry - {copy} == s.retry - {copy}
        && t.dlq == s.dlq && t.outbox == s.outbox && t.stream.log == s.stream.log && t.stream.cursor == s.stream.cursor
        && t.stream.pending == s.stream.pending - (if !panicked && r.rest[0].Ok() && r.rest[1].Applied() then {id} else {})
        && (forall i :: t.stream.Has(i) <==>
              s.stream.Has(i) && !(!panicked && r.rest[0].Ok() && r.rest[1].Ok() && r.rest[2].Applied() && i == id))
        && t.rows == if !panicked && r.rest[0].Ok() && r.rest[1].Ok() && r.rest[2].Ok() && r.rest[3].Applied()
                     then SetStatus(s.rows, completion.c.byUser, job, Processing) else s.rows
    {
      var end := completion.OnFailure(job, id, r.rest, r.clock, r.draw);
      panicked := end == Panicked;
    }

    /** The loop from Execute on. */
    method Treat(job: Job, id: nat, r: Round) returns (panicked: bool)
      requires completion.Valid() && completion.c.execOps >= 1 && WellFormed(completion.c, r)
      modifies completion.task, completion.table
      ensures completion.Valid()
      ensures (completion.Contents(), if panicked then Dead else Idle)
           == Handle(completion.c, old(completion.Contents()), At(Running(0), id, job), r)
      ensures var s, t, c := old(completion.Contents()), completion.Contents(), completion.c;
        (forall i :: 0 <= i < |r.exec| ==> r.exec[i].Ok()) ==>
          var gone := r.rest[0].Ok() && r.rest[1].Ok();
          && !panicked && t.retry == s.retry && t.dlq == s.dlq
          && t.outbox == (if c.notifies && gone && r.rest[2].Applied() then s.outbox + [job] else s.outbox)
          && t.stream.log == s.stream.log && t.stream.cursor == s.stream.cursor
          && t.stream.pending == s.stream.pending - (if r.rest[0].Applied() then {id} else {})
          && (forall i :: t.stream.Has(i) <==> s.stream.Has(i) && !(r.rest[0].Ok() && r.rest[1].Applied() && i == id))
          && t.rows == if gone && (if c.notifies then r.rest[2].Ok() && r.rest[3].Applied() else r.rest[2].Applied())
                       then SetStatus(s.rows, c.byUser, job, Completed) else s.rows
      ensures (exists i :: 0 <= i < |r.exec| && !r.exec[i].Ok()) ==>
        && FailureLeft(old(completion.Contents()), completion.Contents(), id, job, r, panicked)
        && MessageLeft(old(completion.Contents()), completion.Contents(), id, job, r, panicked)
    {
      ghost var s := completion.Contents();
      var ok := Execute(completion.Contents(), id, job, r.exec, r.clock, r.draw);
      if ok {
        var _ := completion.OnSuccess(job, id, r.rest, r.clock, r.draw);
        return false;
      }
      panicked := Failed(job, id, r);
      OneMessage(s, completion.Contents(), id, job, r, panicked);
    }

    /** One iteration of the loop. */
    method OneRound(r: Round) returns (panicked: bool)
      requires completion.Valid() && completion.c.execOps >= 1 && WellFormed(completion.c, r)
      modifies completion.task, completion.table
      ensures completion.Valid()
      ensures (completion.Contents(), if panicked then Dead else Idle)
           == RoundResult(completion.c, old(completion.Contents()), r)
      // nothing to read, or the read fails
      ensures var s, t := old(completion.Contents()), completion.Contents(); var next := s.stream.FirstFrom(s.stream.cursor);
        && (next.None? || r.read.Refused? ==> !panicked && t == s)
        && (next.Some? && r.read.ReplyLost? ==> !panicked && t == s.(stream := t.stream))
        && (next.Some? && r.read.Applied() ==> t.stream.log == s.stream.log && t.stream.cursor == next.value + 1)
        && (next.Some? && r.read.ReplyLost? ==>
              t.stream.pending == s.stream.pending + {next.value} && forall i :: t.stream.Has(i) <==> s.stream.Has(i))
      // the execution succeeds
      ensures var s, t, c := old(completion.Contents()), completion.Contents(), completion.c;
        var next := s.stream.FirstFrom(s.stream.cursor);
        next.Some? && r.read.Done? && (forall i :: 0 <= i < |r.exec| ==> r.exec[i].Ok()) ==>
          var gone := r.rest[0].Ok() && r.rest[1].Ok();
          && !panicked && t.retry == s.retry && t.dlq == s.dlq
          && t.outbox == (if c.notifies && gone && r.rest[2].Applied() then s.outbox + [s.stream.log[next.value]] else s.outbox)
          && t.stream.pending == s.stream.pending + {next.value} - (if r.rest[0].Applied() then {next.value} else {})
          && (forall i :: t.stream.Has(i) <==>
                s.stream.Has(i) && !(r.rest[0].Ok() && r.rest[1].Applied() && i == next.value))
          && t.rows == if gone && (if c.notifies then r.rest[2].Ok() && r.rest[3].Applied() else r.rest[2].Applied())
                       then SetStatus(s.rows, c.byUser, s.stream.log[next.value], Completed) else s.rows
      // the execution fails: the dead letter and the retry
      ensures var s, t, c := old(completion.Contents()), completion.Contents(), completion.c;
        var next := s.stream.FirstFrom(s.stream.cursor);
        next.Some? && r.read.Done? && (exists i :: 0 <= i < |r.exec| && !r.exec[i].Ok()) ==>
          var job := s.stream.log[next.value];
          var dead, retried := job.retryCounts == c.maxRetry, job.retryCounts != c.maxRetry || !c.exclusiveDlq;
          var copy, delay := Bump(job), CalculateBackoffDelay(job.retryCounts + 1, r.draw);
          && (panicked <==> retried && delay.Panic?)
          && t.dlq == (if dead && r.dlq[0].Applied() then s.dlq + [job] else s.dlq)
          && (copy in t.retry <==> copy in s.retry || (retried && !panicked && r.rest[0].Applied()))
          && (retried && !panicked && r.rest[0].Applied() ==>
                t.retry[copy] * SECOND <= r.clock + delay.ns < (t.retry[copy] + 1) * SECOND)
          && (!retried || panicked || !r.rest[0].Applied() ==> t.retry == s.retry)
          && t.retry - {copy} == s.retry - {copy} && t.outbox == s.outbox
      // the execution fails: the message and the status
      ensures var s, t, c := old(completion.Contents()), completion.Contents(), completion.c;
        var next := s.stream.FirstFrom(s.stream.cursor);
        next.Some? && r.read.Done? && (exists i :: 0 <= i < |r.exec| && !r.exec[i].Ok()) ==>
          var job := s.stream.log[next.value];
          var dead, again := job.retryCounts == c.maxRetry, (job.retryCounts != c.maxRetry || !c.exclusiveDlq) && !panicked;
          var buried, parked := dead && r.dlq[0].Ok() && r.dlq[1].Ok(), again && r.rest[0].Ok() && r.rest[1].Ok();
          var acked := (dead && r.dlq[0].Ok() && r.dlq[1].Applied()) || (again && r.rest[0].Ok() && r.rest[1].Applied());
          && t.stream.pending == s.stream.pending + {next.value} - (if acked then {next.value} else {})
          && (forall i :: t.stream.Has(i) <==>
                s.stream.Has(i) && !(i == next.value && ((buried && r.dlq[2].Applied()) || (parked && r.rest[2].Applied()))))
          && var rows := if buried && r.dlq[2].Ok() && r.dlq[3].Applied() then SetStatus(s.rows, c.byUser, job, Status.Failed) else s.rows;
             t.rows == if parked && r.rest[2].Ok() && r.rest[3].Applied() then SetStatus(rows, c.byUser, job, Processing) else rows
    {
      var msg := completion.Read(r.read);
      if msg.None? {
        return false;
      }
      panicked := Treat(msg.value.payload, msg.value.messageId, r);
    }

    /** One iteration as the loop sees it. */
    method Iterate(r: Round) returns (panicked: bool)
      requires completion.Valid() && completion.c.execOps >= 1 && WellFormed(completion.c, r)
      modifies completion.task, completion.table
      ensures completion.Valid()
      ensures (completion.Contents(), if panicked then Dead else Idle)
           == RoundResult(completion.c, old(completion.Contents()), r)
    {
      panicked := OneRound(r);
    }

    /** The loop of Run; a panic leaves it. */
    method Run(rounds: seq<Round>) returns (panicked: bool)
      requires completion.Valid() && completion.c.execOps >= 1
      requires forall r :: r in rounds ==> WellFormed(completion.c, r)
      modifies completion.task, completion.table
      ensures completion.Valid()
      ensures (completion.Contents(), if panicked then Dead else Idle)
           == RoundsResult(completion.c, old(completion.Contents()), rounds)
    {
      panicked := false;
      for i := 0 to |rounds|
        invariant completion.Valid() && !panicked
        invariant (completion.Contents(), Idle) == RoundsResult(completion.c, old(completion.Contents()), rounds[..i])
      {
        RoundsCompose(completion.c, old(completion.Contents()), rounds[..i], [rounds[i]]);
        RoundsCompose(completion.c, completion.Contents(), [rounds[i]], []);
        assert rounds[..i] + [rounds[i]] == rounds[..i + 1];
        panicked := Iterate(rounds[i]);
        if panicked {
          RoundsCompose(completion.c, old(completion.Contents()), rounds[..i + 1], rounds[i + 1..]);
          assert rounds[..i + 1] + rounds[i + 1..] == rounds;
          return;
        }
      }
      assert rounds[..|rounds|] == rounds;
    }
  }

  function AfterExecute(c: Config, job: Job, ok: bool): Phase {
    if ok then OkAck else if job.retryCounts == c.maxRetry then DlqAdd else RetryAdd
  }

  // ----- rounds are paths

  /** s reaches t by calls of worker w alone. */
  ghost predicate WorkerPath(c: Config, s: State, w: nat, ls: seq<Label>, st: Store, pc: PC) {
    && Legal(c, s, ls)
    && (forall l :: l in ls ==> (l.Read? || l.Work?) && l.w == w)
    && Run(c, s, ls).st == st
    && Run(c, s, ls).workers == s.workers[w := pc]
    && Run(c, s, ls).scheds == s.scheds
  }

  /** Calls of worker w with these outcomes, in order. */
  function Works(w: nat, os: seq<Outcome>, clock: int, draw: nat): seq<Label> {
    if os == [] then [] else [Work(w, os[0], clock, draw)] + Works(w, os[1..], clock, draw)
  }

  lemma {:induction false} WorksAppend(w: nat, a: seq<Outcome>, b: seq<Outcome>, clock: int, draw: nat)
    ensures Works(w, a + b, clock, draw) == Works(w, a, clock, draw) + Works(w, b, clock, draw)
    decreases |a|
  {
    if a == [] {
      assert a + b == b;
    } else {
      assert (a + b)[1..] == a[1..] + b;
      WorksAppend(w, a[1..], b, clock, draw);
    }
  }

  /** n calls are made: all of them, or up to the first that reports an error. */
  predicate UpToError(os: seq<Outcome>, n: nat) {
    && n <= |os|
    && (forall i :: 0 <= i < n - 1 ==> os[i].Ok())
    && (0 < n < |os| ==> !os[n - 1].Ok())
  }

  lemma {:induction false} BranchIsPath(c: Config, s: State, w: nat, b: Branch, os: seq<Outcome>, clock: int, draw: nat)
    returns (ls: seq<Label>, n: nat)
    requires w in s.workers
    ensures n <= |os| && ls == Works(w, os[..n], clock, draw)
    ensures n > 0 <==> os != [] && s.workers[w].At? && BranchOf(s.workers[w].phase) == b
    ensures
      var (st, pc) := RunBranch(c, b, s.st, s.workers[w], os, clock, draw);
      WorkerPath(c, s, w, ls, st, pc)
    decreases |os|
  {
    var pc := s.workers[w];
    if os == [] || !pc.At? || BranchOf(pc.phase) != b {
      ls, n := [], 0;
      assert s.workers[w := pc] == s.workers;
    } else {
      var l := Work(w, os[0], clock, draw);
      var rest, m := BranchIsPath(c, Next(c, s, l), w, b, os[1..], clock, draw);
      ls, n := [l] + rest, m + 1;
      assert ls[1..] == rest;
      assert os[..n][1..] == os[1..][..m];
    }
  }

  lemma {:induction false} PathThen(c: Config, s: State, w: nat, first: seq<Label>, st: Store, pc: PC, second: seq<Label>, st': Store, pc': PC)
    requires WorkerPath(c, s, w, first, st, pc) && WorkerPath(c, Run(c, s, first), w, second, st', pc')
    ensures WorkerPath(c, s, w, first + second, st', pc')
    decreases |first|
  {
    if first == [] {
      assert first + second == second;
      assert s.workers[w := pc'] == Run(c, s, first).workers[w := pc'];
    } else {
      var t := Next(c, s, first[0]);
      assert (first + second)[1..] == first[1..] + second;
      assert first[0] in first;
      assert WorkerPath(c, t, w, first[1..], st, pc);
      PathThen(c, t, w, first[1..], st, pc, second, st', pc');
    }
  }

  /** Once in the retry branch, never in the success branch. */
  lemma {:induction false} RetryEnds(c: Config, st: Store, pc: PC, os: seq<Outcome>, clock: int, draw: nat)
    requires pc.At? && BranchOf(pc.phase) == Retry
    ensures var pc' := RunBranch(c, Retry, st, pc, os, clock, draw).1; pc'.At? ==> BranchOf(pc'.phase) == Retry
    decreases |os|
  {
    if os != [] {
      var (st', pc') := Step(c, st, pc, os[0], clock, draw);
      if pc'.At? {
        RetryEnds(c, st', pc', os[1..], clock, draw);
      }
    }
  }

  /** Execute changes nothing, makes its calls up to the first error, and decides what comes next. */
  lemma {:induction false} ExecutionEnds(c: Config, st: Store, op: nat, id: nat, job: Job, os: seq<Outcome>, clock: int, draw: nat)
    requires op + |os| == c.execOps && os != []
    ensures RunBranch(c, Execution, st, At(Running(op), id, job), os, clock, draw)
         == (st, At(AfterExecute(c, job, forall i :: 0 <= i < |os| ==> os[i].Ok()), id, job))
    decreases |os|
  {
    Unroll(c, st, Running(op), id, job, os, clock, draw);
    if os[0].Ok() && |os| > 1 {
      ExecutionEnds(c, st, op + 1, id, job, os[1..], clock, draw);
      assert forall i :: 0 < i < |os| ==> os[i] == os[1..][i - 1];
      assert (forall i :: 0 <= i < |os| ==> os[i].Ok()) <==> (forall i :: 0 <= i < |os[1..]| ==> os[1..][i].Ok());
    }
  }

  lemma {:induction false} ExecutionCalls(c: Config, s: State, w: nat, os: seq<Outcome>, clock: int, draw: nat)
    returns (ls: seq<Label>, n: nat)
    requires w in s.workers && s.workers[w].At? && s.workers[w].phase.Running?
    requires s.workers[w].phase.op + |os| == c.execOps && os != []
    ensures 0 < n && UpToError(os, n) && ls == Works(w, os[..n], clock, draw)
    ensures var (st, pc) := RunBranch(c, Execution, s.st, s.workers[w], os, clock, draw); WorkerPath(c, s, w, ls, st, pc)
    decreases |os|
  {
    var l := Work(w, os[0], clock, draw);
    var t := Next(c, s, l);
    var rest, m := [], 0;
    if os[0].Ok() && |os| > 1 {
      rest, m := ExecutionCalls(c, t, w, os[1..], clock, draw);
      assert forall i :: 0 < i < |os| ==> os[i] == os[1..][i - 1];
    } else {
      assert t.workers[w := t.workers[w]] == t.workers;
    }
    ls, n := [l] + rest, m + 1;
    assert ls[1..] == rest;
    assert os[..n][1..] == os[1..][..m];
  }

  /** Completing a message is a path whose calls have the outcomes of the round, in order. */
  lemma CompleteIsPath(c: Config, s: State, w: nat, r: Round) returns (ls: seq<Label>, m: nat, k: nat)
    requires w in s.workers && WellFormed(c, r)
    ensures var (st, pc) := Complete(c, s.st, s.workers[w], r); WorkerPath(c, s, w, ls, st, pc)
    ensures m <= |r.dlq| && k <= |r.rest| && ls == Works(w, r.dlq[..m] + r.rest[..k], r.clock, r.draw)
    ensures m > 0 <==> s.workers[w].At? && BranchOf(s.workers[w].phase) == DeadLetter
  {
    ls, m := BranchIsPath(c, s, w, DeadLetter, r.dlq, r.clock, r.draw);
    var t := Run(c, s, ls);
    var (st, pc) := RunBranch(c, DeadLetter, s.st, s.workers[w], r.dlq, r.clock, r.draw);
    var more;
    more, k := RestIsPath(c, t, w, r);
    var (st', pc') := Complete(c, s.st, s.workers[w], r);
    PathThen(c, s, w, ls, st, pc, more, st', pc');
    WorksAppend(w, r.dlq[..m], r.rest[..k], r.clock, r.draw);
    ls := ls + more;
  }

  lemma RestIsPath(c: Config, s: State, w: nat, r: Round) returns (ls: seq<Label>, k: nat)
    requires w in s.workers && WellFormed(c, r)
    ensures k <= |r.rest| && ls == Works(w, r.rest[..k], r.clock, r.draw)
    ensures
      var (st1, pc1) := RunBranch(c, Retry, s.st, s.workers[w], r.rest, r.clock, r.draw);
      var (st, pc) := RunBranch(c, Branch.Success, st1, pc1, r.rest, r.clock, r.draw);
      WorkerPath(c, s, w, ls, st, pc)
  {
    var (st1, pc1) := RunBranch(c, Retry, s.st, s.workers[w], r.rest, r.clock, r.draw);
    ls, k := BranchIsPath(c, s, w, Retry, r.rest, r.clock, r.draw);
    if k > 0 {
      RetryEnds(c, s.st, s.workers[w], r.rest, r.clock, r.draw);
    } else {
      assert s.workers[w := pc1] == s.workers;
      ls, k := BranchIsPath(c, s, w, Branch.Success, r.rest, r.clock, r.draw);
    }
  }

  /** The calls of a round: its executions up to the first error, those of SendToDQL exactly for
      a failure at MaxJobRetry, and those of OnFailure or OnSuccess. */
  ghost predicate RoundCalls(c: Config, job: Job, r: Round, n: nat, m: nat, k: nat)
    requires WellFormed(c, r)
  {
    && 0 < n && UpToError(r.exec, n) && m <= |r.dlq| && k <= |r.rest|
    && (m > 0 <==> job.retryCounts == c.maxRetry && exists i :: 0 <= i < |r.exec| && !r.exec[i].Ok())
  }

  /** Handling a message is a path whose calls have the outcomes of the round, in order. */
  lemma HandleIsPath(c: Config, s: State, w: nat, r: Round) returns (ls: seq<Label>, n: nat, m: nat, k: nat)
    requires w in s.workers && s.workers[w].At? && s.workers[w].phase == Running(0) && c.execOps >= 1 && WellFormed(c, r)
    ensures var (st, pc) := Handle(c, s.st, s.workers[w], r); WorkerPath(c, s, w, ls, st, pc)
    ensures RoundCalls(c, s.workers[w].job, r, n, m, k)
    ensures ls == Works(w, r.exec[..n] + (r.dlq[..m] + r.rest[..k]), r.clock, r.draw)
  {
    var pc := s.workers[w];
    ExecutionEnds(c, s.st, 0, pc.id, pc.job, r.exec, r.clock, r.draw);
    var (st1, pc1) := RunBranch(c, Execution, s.st, pc, r.exec, r.clock, r.draw);
    ls, n := ExecutionCalls(c, s, w, r.exec, r.clock, r.draw);
    var t := Run(c, s, ls);
    var more;
    more, m, k := CompleteIsPath(c, t, w, r);
    var (st2, pc2) := Complete(c, st1, pc1, r);
    PathThen(c, s, w, ls, st1, pc1, more, st2, pc2);
    WorksAppend(w, r.exec[..n], r.dlq[..m] + r.rest[..k], r.clock, r.draw);
    ls := ls + more;
  }

  /** Every round of the loop is a path of the transition system: the read with its outcome, then
      the calls with theirs. */
  lemma RoundIsPath(c: Config, s: State, w: nat, r: Round) returns (ls: seq<Label>, n: nat, m: nat, k: nat)
    requires w in s.workers && s.workers[w] == Idle && c.execOps >= 1 && WellFormed(c, r)
    ensures var (st, pc) := RoundResult(c, s.st, r); WorkerPath(c, s, w, ls, st, pc)
    ensures
      var next := s.st.stream.FirstFrom(s.st.stream.cursor);
      if next.None? then ls == []
      else if !r.read.Done? then ls == [Label.Read(w, r.read)]
      else
        && RoundCalls(c, s.st.stream.log[next.value], r, n, m, k)
        && ls == [Label.Read(w, r.read)] + Works(w, r.exec[..n] + (r.dlq[..m] + r.rest[..k]), r.clock, r.draw)
  {
    var next := s.st.stream.FirstFrom(s.st.stream.cursor);
    ls, n, m, k := [], 0, 0, 0;
    if next.None? {
      assert s.workers[w := Idle] == s.workers;
    } else {
      var l := Label.Read(w, r.read);
      var t := Next(c, s, l);
      if r.read.Ok() {
        var rest;
        rest, n, m, k := HandleIsPath(c, t, w, r);
        ls := [l] + rest;
        assert ls[1..] == rest;
        assert s.workers[w := t.workers[w]] == t.workers;
      } else {
        ls := [l];
        assert s.workers[w := Idle] == s.workers;
      }
    }
  }
}
