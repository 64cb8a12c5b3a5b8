/**
  No job is lost before it succeeds: whatever the interleaving, the failures and the
  crashes, every job added to the stage's stream is in flight in the stream, in the retry
  set or in the dead-letter stream, or an execution of it succeeded.
*/
module NoLoss {
  import opened Jobs
  import opened Worker
  import opened Stage

  // ----- where a copy of the job x, retried at least `level` times, can be found

  ghost predicate InStream(s: State, x: Job, level: int) {
    exists id: nat :: s.st.stream.InFlight(id) && Ident(s.st.stream.log[id]) == x && s.st.stream.log[id].retryCounts >= level
  }

  ghost predicate InRetry(s: State, x: Job, level: int) {
    exists job :: job in s.st.retry && Ident(job) == x && job.retryCounts >= level
  }

  /** x is in the dead-letter stream or was executed successfully. */
  ghost predicate Settled(s: State, x: Job) {
    || (exists job :: job in s.st.dlq && Ident(job) == x)
    || (exists id :: id in s.h.done && id < |s.st.stream.log| && Ident(s.st.stream.log[id]) == x)
  }

  ghost predicate Safe(s: State, x: Job, level: int) {
    Settled(s, x) || InStream(s, x, level) || InRetry(s, x, level)
  }

  /** Safe without counting on the retry entry of exactly this level. */
  ghost predicate SafeBeyond(s: State, x: Job, level: int) {
    Settled(s, x) || InStream(s, x, level) || InRetry(s, x, level + 1)
  }

  // ----- the invariant

  /** A worker speaks about a delivered message, and past its first completed call it
      already has what makes dropping that message harmless. */
  ghost predicate WorkerOk(s: State, pc: PC) {
    pc.At? ==>
      && pc.id < s.st.stream.cursor && pc.id < |s.st.stream.log| && s.st.stream.log[pc.id] == pc.job
      && (pc.phase in {DlqAck, DlqDelete, DlqStatus} ==> pc.job in s.st.dlq)
      && (pc.phase in {RetryAck, RetryDelete, RetryStatus} ==> Safe(s, Ident(pc.job), pc.job.retryCounts + 1))
      && (pc.phase in {OkAck, OkDelete, OkNotify, OkStatus} ==> pc.id in s.h.done)
  }

  /** A scheduler between XADD and ZREM has a copy that outlives the ZREM. */
  ghost predicate SchedOk(s: State, p: Sched) {
    && (!p.Resting? ==> p.batch != [])
    && (p.Removing? && p.batch != [] ==> SafeBeyond(s, Ident(p.batch[0]), p.batch[0].retryCounts))
  }

  ghost predicate Inv(s: State) {
    && s.st.stream.cursor <= |s.st.stream.log|
    && (forall id :: id in s.st.stream.deleted ==> id < |s.st.stream.log|)
    && (forall id :: id in s.h.done ==> id < |s.st.stream.log|)
    && (forall w :: w in s.workers ==> WorkerOk(s, s.workers[w]))
    && (forall k :: k in s.scheds ==> SchedOk(s, s.scheds[k]))
    && (forall job :: job in s.h.added ==> Safe(s, Ident(job), job.retryCounts))
  }

  // ----- what keeps copies safe

  /** Nothing that makes a job safe goes away. */
  ghost predicate Grows(s: State, t: State) {
    && s.st.stream.log <= t.st.stream.log
    && s.st.stream.cursor <= t.st.stream.cursor
    && (forall id :: s.st.stream.InFlight(id) ==> t.st.stream.InFlight(id))
    && s.st.retry.Keys <= t.st.retry.Keys
    && (forall job :: job in s.st.dlq ==> job in t.st.dlq)
    && s.h.done <= t.h.done
  }

  ghost predicate Keeps(s: State, t: State) {
    && (forall x, level :: Safe(s, x, level) ==> Safe(t, x, level))
    && (forall x, level :: SafeBeyond(s, x, level) ==> SafeBeyond(t, x, level))
  }

  lemma GrowsKeeps(s: State, t: State)
    requires Grows(s, t)
    ensures Keeps(s, t)
  {
    forall x, level
      ensures Settled(s, x) ==> Settled(t, x)
      ensures InStream(s, x, level) ==> InStream(t, x, level)
      ensures InRetry(s, x, level) ==> InRetry(t, x, level)
    {
      if InStream(s, x, level) {
        var id: nat :| s.st.stream.InFlight(id) && Ident(s.st.stream.log[id]) == x && s.st.stream.log[id].retryCounts >= level;
        assert t.st.stream.InFlight(id) && t.st.stream.log[id] == s.st.stream.log[id];
      }
    }
  }

  /** Message `id` leaves the stream, everything else stays. */
  ghost predicate DropsMessage(s: State, t: State, id: nat) {
    && s.st.stream.log == t.st.stream.log
    && s.st.stream.cursor == t.st.stream.cursor
    && (forall i :: i != id && s.st.stream.InFlight(i) ==> t.st.stream.InFlight(i))
    && s.st.retry == t.st.retry
    && s.st.dlq == t.st.dlq
    && s.h.done == t.h.done
  }

  /** Dropping a message is harmless once its job is settled or has a copy one level up. */
  lemma DropKeeps(s: State, t: State, id: nat)
    requires DropsMessage(s, t, id)
    requires id < |s.st.stream.log|
    requires var job := s.st.stream.log[id]; Settled(s, Ident(job)) || Safe(s, Ident(job), job.retryCounts + 1)
    ensures Keeps(s, t)
  {
    var log := s.st.stream.log;
    var job := log[id];
    forall x, level | InStream(s, x, level)
      ensures Settled(t, x) || InStream(t, x, level) || InRetry(t, x, level + 1)
    {
      {
        var i: nat :| s.st.stream.InFlight(i) && Ident(log[i]) == x && log[i].retryCounts >= level;
        if i != id {
          assert t.st.stream.InFlight(i);
        } else if InStream(s, x, job.retryCounts + 1) {
          var n: nat :| s.st.stream.InFlight(n) && Ident(log[n]) == x && log[n].retryCounts >= job.retryCounts + 1;
          assert t.st.stream.InFlight(n);
        } else if InRetry(s, x, job.retryCounts + 1) {
          var r :| r in s.st.retry && Ident(r) == x && r.retryCounts >= job.retryCounts + 1;
          assert r in t.st.retry && r.retryCounts >= level + 1;
        }
      }
    }
    WeakenRetry(t);
  }

  /** A higher retry entry also counts for a lower level. */
  lemma WeakenRetry(t: State)
    ensures forall x, level {:trigger InRetry(t, x, level + 1)} :: InRetry(t, x, level + 1) ==> InRetry(t, x, level)
  {
    forall x, level | InRetry(t, x, level + 1)
      ensures InRetry(t, x, level)
    {
      var r :| r in t.st.retry && Ident(r) == x && r.retryCounts >= level + 1;
    }
  }

  /** Removing a retry entry is harmless once a copy beyond it is safe. */
  lemma RemoveKeeps(s: State, t: State, job: Job)
    requires t == s.(st := s.st.(retry := s.st.retry - {job}), scheds := t.scheds)
    requires SafeBeyond(s, Ident(job), job.retryCounts)
    ensures Keeps(s, t)
  {
    forall x, level
      ensures Settled(s, x) ==> Settled(t, x)
      ensures InStream(s, x, level) ==> InStream(t, x, level)
      ensures InRetry(s, x, level) ==>
                Settled(t, x) || InRetry(t, x, level) || (x == Ident(job) && InStream(t, x, job.retryCounts) && level <= job.retryCounts)
    {
      if InRetry(s, x, level) {
        var r :| r in s.st.retry && Ident(r) == x && r.retryCounts >= level;
        if r != job {
          assert r in t.st.retry;
        } else if InRetry(s, x, job.retryCounts + 1) {
          var q :| q in s.st.retry && Ident(q) == x && q.retryCounts >= job.retryCounts + 1;
          assert q in t.st.retry;
        }
      }
    }
    LowerStream(t, job);
  }

  lemma LowerStream(t: State, job: Job)
    ensures InStream(t, Ident(job), job.retryCounts) ==>
              forall level :: level <= job.retryCounts ==> InStream(t, Ident(job), level)
  {
  }

  // ----- one step

  /** History and log only grow, and no message is delivered before it is added. */
  ghost predicate Advances(s: State, t: State) {
    && s.st.stream.log <= t.st.stream.log
    && s.st.stream.cursor <= t.st.stream.cursor <= |t.st.stream.log|
    && (forall job :: job in s.st.dlq ==> job in t.st.dlq)
    && s.h.done <= t.h.done
  }

  lemma Carry(s: State, t: State)
    requires Inv(s) && Advances(s, t) && Keeps(s, t)
    ensures forall pc :: WorkerOk(s, pc) ==> WorkerOk(t, pc)
    ensures forall p :: SchedOk(s, p) ==> SchedOk(t, p)
    ensures forall job :: job in s.h.added ==> Safe(t, Ident(job), job.retryCounts)
  {
  }

  /** A new message is in flight. */
  lemma AddIsSafe(s: State, t: State, job: Job)
    requires s.st.stream.cursor <= |s.st.stream.log| && t.st.stream == s.st.stream.Add(job)
    requires forall id :: id in s.st.stream.deleted ==> id < |s.st.stream.log|
    ensures InStream(t, Ident(job), job.retryCounts)
  {
    assert t.st.stream.InFlight(|s.st.stream.log|);
  }

  lemma SubmitStep(c: Config, s: State, l: Label)
    requires Inv(s) && Enabled(s, l) && l.Submit?
    ensures Inv(Next(c, s, l))
  {
    var t := Next(c, s, l);
    GrowsKeeps(s, t);
    Carry(s, t);
    AddIsSafe(s, t, l.job);
  }

  lemma ReadStep(c: Config, s: State, l: Label)
    requires Inv(s) && Enabled(s, l) && l.Read?
    ensures Inv(Next(c, s, l))
  {
    var t := Next(c, s, l);
    GrowsKeeps(s, t);
    Carry(s, t);
  }

  lemma QuietStep(c: Config, s: State, l: Label)
    requires Inv(s) && Enabled(s, l)
    requires l.AddRow? || l.DropRows? || l.Spawn? || l.Crash? || l.SpawnSched? || l.CrashSched? || l.Fetch?
    ensures Inv(Next(c, s, l))
  {
    var t := Next(c, s, l);
    GrowsKeeps(s, t);
    Carry(s, t);
  }

  /** The calls that take a message out of the stream. */
  predicate Drops(phase: Phase) {
    phase.DlqAck? || phase.DlqDelete? || phase.RetryAck? || phase.RetryDelete? || phase.OkAck? || phase.OkDelete?
  }

  lemma WorkDrops(c: Config, s: State, l: Label)
    requires Inv(s) && Enabled(s, l) && l.Work? && Drops(s.workers[l.w].phase)
    ensures DropsMessage(s, Next(c, s, l), s.workers[l.w].id)
    ensures Advances(s, Next(c, s, l))
    ensures forall id :: id in Next(c, s, l).st.stream.deleted ==> id < |s.st.stream.log|
  {
    assert WorkerOk(s, s.workers[l.w]);
  }

  lemma WorkGrows(c: Config, s: State, l: Label)
    requires Inv(s) && Enabled(s, l) && l.Work? && !Drops(s.workers[l.w].phase)
    ensures Grows(s, Next(c, s, l)) && Advances(s, Next(c, s, l))
    ensures Next(c, s, l).st.stream == s.st.stream
  {
  }

  lemma WorkKeeps(c: Config, s: State, l: Label)
    requires Inv(s) && Enabled(s, l) && l.Work?
    ensures Keeps(s, Next(c, s, l)) && Advances(s, Next(c, s, l))
    ensures forall id :: id in Next(c, s, l).st.stream.deleted ==> id < |s.st.stream.log|
  {
    var pc := s.workers[l.w];
    if Drops(pc.phase) {
      WorkDrops(c, s, l);
      assert WorkerOk(s, pc);
      DropKeeps(s, Next(c, s, l), pc.id);
    } else {
      WorkGrows(c, s, l);
      GrowsKeeps(s, Next(c, s, l));
    }
  }

  /** A call to ScheduleRetry that succeeds leaves the higher copy in the retry set. */
  lemma RetryLeft(c: Config, s: State, l: Label)
    requires Enabled(s, l) && l.Work? && s.workers[l.w].phase.RetryAdd? && Next(c, s, l).workers[l.w].At?
    ensures InRetry(Next(c, s, l), Ident(s.workers[l.w].job), s.workers[l.w].job.retryCounts + 1)
  {
    var copy := Bump(s.workers[l.w].job);
    assert copy in Next(c, s, l).st.retry && Ident(copy) == Ident(s.workers[l.w].job);
  }

  /** The worker that moved still has what its next call needs. */
  lemma WorkerMoves(c: Config, s: State, l: Label)
    requires Enabled(s, l) && l.Work?
    requires WorkerOk(Next(c, s, l), s.workers[l.w])
    ensures WorkerOk(Next(c, s, l), Next(c, s, l).workers[l.w])
  {
    if s.workers[l.w].phase.RetryAdd? && Next(c, s, l).workers[l.w].At? {
      RetryLeft(c, s, l);
    }
  }

  lemma WorkStep(c: Config, s: State, l: Label)
    requires Inv(s) && Enabled(s, l) && l.Work?
    ensures Inv(Next(c, s, l))
  {
    var t := Next(c, s, l);
    WorkKeeps(c, s, l);
    Carry(s, t);
    WorkerMoves(c, s, l);
    assert forall id :: id in t.h.done ==> id in s.h.done || id == s.workers[l.w].id;
  }

  lemma MoveStep(c: Config, s: State, l: Label)
    requires Inv(s) && Enabled(s, l) && l.Move?
    ensures Inv(Next(c, s, l))
  {
    var t := Next(c, s, l);
    var p := s.scheds[l.k];
    assert SchedOk(s, p);
    var job := p.batch[0];
    if p.Adding? {
      GrowsKeeps(s, t);
      if l.o.Applied() {
        AddIsSafe(s, t, job);
      }
    } else if l.o.Applied() {
      RemoveKeeps(s, t, job);
    } else {
      GrowsKeeps(s, t);
    }
    Carry(s, t);
  }

  lemma MoveAtomicStep(c: Config, s: State, l: Label)
    requires Inv(s) && Enabled(s, l) && l.MoveAtomic?
    ensures Inv(Next(c, s, l))
  {
    var mid := s.(st := s.st.(stream := s.st.stream.Add(l.job)));
    GrowsKeeps(s, mid);
    AddIsSafe(s, mid, l.job);
    var t := Next(c, s, l);
    RemoveKeeps(mid, t, l.job);
    assert Keeps(s, t);
    Carry(s, t);
  }

  lemma StepKeepsInv(c: Config, s: State, l: Label)
    requires Inv(s) && Enabled(s, l)
    ensures Inv(Next(c, s, l))
  {
    match l
    case Submit(_) => SubmitStep(c, s, l);
    case Read(_, _) => ReadStep(c, s, l);
    case Work(_, _, _, _) => WorkStep(c, s, l);
    case Move(_, _) => MoveStep(c, s, l);
    case MoveAtomic(_, _) => MoveAtomicStep(c, s, l);
    case _ => QuietStep(c, s, l);
  }

  lemma {:induction false} RunKeepsInv(c: Config, s: State, ls: seq<Label>)
    requires Inv(s) && Legal(c, s, ls)
    ensures Inv(Run(c, s, ls))
    decreases |ls|
  {
    if ls != [] {
      StepKeepsInv(c, s, ls[0]);
      RunKeepsInv(c, Next(c, s, ls[0]), ls[1..]);
    }
  }

  /** The theorem: in every run, with duplicated re-enqueues, lost replies, failing calls and
      dying goroutines, no job that was added has vanished. */
  lemma NoJobIsLost(c: Config, ls: seq<Label>, job: Job)
    requires Legal(c, INIT, ls) && job in Run(c, INIT, ls).h.added
    ensures
      var s := Run(c, INIT, ls);
      || (exists id: nat :: s.st.stream.InFlight(id) && Ident(s.st.stream.log[id]) == Ident(job))
      || (exists copy :: copy in s.st.retry && Ident(copy) == Ident(job))
      || (exists copy :: copy in s.st.dlq && Ident(copy) == Ident(job))
      || (exists id :: id in s.h.done && id < |s.st.stream.log| && Ident(s.st.stream.log[id]) == Ident(job))
  {
    RunKeepsInv(c, INIT, ls);
  }
}
