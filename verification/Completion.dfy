/**
  The completion handlers and the worker loop as they are written, one call after the other
  with early returns. Each is proved to do what the worker automaton does, so that every
  round of a worker is a path of the stage's transition system.
*/
module Completion {
  import opened Jobs
  import opened Backoff
  import opened Worker
  import opened RetryOrder
  import opened RedisTask

  /** story_jobs or email_jobs. */
  class StatusTable {
    var rows: map<int, Row>

    constructor ()
      ensures rows == map[]
    {
      rows := map[];
    }

    /** UPDATE ... RETURNING id: an update that matches no row is an error. */
    method Update(job: Job, byUser: bool, status: Status, o: Outcome) returns (ok: bool)
      modifies this
      ensures rows == if o.Applied() then SetStatus(old(rows), byUser, job, status) else old(rows)
      ensures ok <==> o.Ok() && exists k :: k in old(rows) && Matches(old(rows)[k], byUser, job)
    {
      ok := o.Ok() && exists k :: k in rows && Matches(rows[k], byUser, job);
      if o.Applied() {
        rows := SetStatus(rows, byUser, job, status);
      }
    }
  }

  class JobCompletion {
    const c: Config
    const task: Task
    const table: StatusTable
    const stream: string
    const dlq: string
    const notify: string

    constructor (c: Config, task: Task, table: StatusTable, stream: string, dlq: string, notify: string)
      requires task.Valid() && stream != dlq && stream != notify && dlq != notify
      ensures Valid() && this.c == c && this.task == task && this.table == table
    {
      this.c, this.task, this.table := c, task, table;
      this.stream, this.dlq, this.notify := stream, dlq, notify;
    }

    ghost predicate Valid()
      reads task
    {
      task.Valid() && stream != dlq && stream != notify && dlq != notify
    }

    /** The stage these Redis keys and this table hold. */
    ghost function Contents(): Store
      reads task, table
      requires Valid()
    {
      Store(
        StreamOf(task.streams, stream),
        Decoded(task.codec, ZSetOf(task.zsets, RetryKey(stream))),
        StreamOf(task.streams, dlq).log,
        StreamOf(task.streams, notify).log,
        table.rows)
    }

    /** Some row of the table is this job's. */
    ghost predicate HasRow(st: Store, job: Job) {
      exists k :: k in st.rows && Matches(st.rows[k], c.byUser, job)
    }

    /** The next new message becomes pending; it is handed over unless the reply is lost. */
    method Read(o: Outcome) returns (msg: Option<Message>)
      requires Valid()
      modifies task
      ensures Valid()
      ensures var s, t := old(Contents()), Contents(); var next := s.stream.FirstFrom(s.stream.cursor);
        if next.None? || !o.Applied() then t == s && msg.None?
        else
          && t == s.(stream := s.stream.Deliver(next.value))
          && t.stream.log == s.stream.log && t.stream.cursor == next.value + 1
          && t.stream.pending == s.stream.pending + {next.value} && (forall i :: t.stream.Has(i) <==> s.stream.Has(i))
          && msg == if o.Ok() then Some(Message(next.value, s.stream.log[next.value])) else None
    {
      msg := task.Read(stream, o);
    }

    method Ack(id: nat, o: Outcome) returns (ok: bool)
      requires Valid()
      modifies task
      ensures Valid() && ok == o.Ok()
      ensures Contents() == if o.Applied() then old(Contents()).(stream := old(Contents()).stream.Ack(id)) else old(Contents())
    {
      ok := task.Ack(id, stream, o);
    }

    method Delete(id: nat, o: Outcome) returns (ok: bool)
      requires Valid()
      modifies task
      ensures Valid() && ok == o.Ok()
      ensures Contents() == if o.Applied() then old(Contents()).(stream := old(Contents()).stream.Delete(id)) else old(Contents())
    {
      ok := task.Delete(id, stream, o);
    }

    method AddDeadLetter(job: Job, o: Outcome) returns (ok: bool)
      requires Valid()
      modifies task
      ensures Valid() && ok == o.Ok()
      ensures Contents() == if o.Applied() then old(Contents()).(dlq := old(Contents()).dlq + [job]) else old(Contents())
    {
      ok := task.Add(job, dlq, o);
    }

    method AddNotification(job: Job, o: Outcome) returns (ok: bool)
      requires Valid()
      modifies task
      ensures Valid() && ok == o.Ok()
      ensures Contents() == if o.Applied() then old(Contents()).(outbox := old(Contents()).outbox + [job]) else old(Contents())
    {
      ok := task.Add(job, notify, o);
    }

    method ScheduleRetry(job: Job, o: Outcome, clock: int, draw: nat) returns (end: Ending)
      requires Valid()
      modifies task
      ensures Valid()
      ensures var delay := CalculateBackoffDelay(job.retryCounts, draw);
        if delay.Panic? then end == Panicked && Contents() == old(Contents())
        else
          && end == (if o.Ok() then Ending.Success else Error)
          && Contents() == if o.Applied()
                           then old(Contents()).(retry := old(Contents()).retry[job := RunAt(clock, delay.ns)])
                           else old(Contents())
      ensures var delay := CalculateBackoffDelay(job.retryCounts, draw);
        delay.Wait? && o.Applied() ==>
          job in Contents().retry && Contents().retry[job] * SECOND <= clock + delay.ns < (Contents().retry[job] + 1) * SECOND
      ensures Contents() == old(Contents()).(retry := Contents().retry)
      ensures Contents().retry - {job} == old(Contents()).retry - {job}
    {
      ghost var z := ZSetOf(task.zsets, RetryKey(stream));
      end := task.ScheduleRetry(job, stream, o, clock, draw);
      var delay := CalculateBackoffDelay(job.retryCounts, draw);
      if !delay.Panic? {
        DecodedUpdate(task.codec, z, job, RunAt(clock, delay.ns));
        RunAtBounds(clock, delay.ns);
      }
    }

    method UpdateStatus(job: Job, status: Status, o: Outcome) returns (ok: bool)
      requires Valid()
      modifies table
      ensures Valid()
      ensures Contents() == if o.Applied() then old(Contents()).(rows := SetStatus(old(Contents()).rows, c.byUser, job, status)) else old(Contents())
      ensures ok <==> o.Ok() && HasRow(old(Contents()), job)
    {
      ok := table.Update(job, c.byUser, status, o);
    }

    /** The rest of OnFailure once the retry is scheduled: let go of the message. */
    method LetGo(job: Job, id: nat, os: seq<Outcome>, clock: int, draw: nat) returns (end: Ending)
      requires Valid() && |os| == 3
      modifies task, table
      ensures Valid() && end != Panicked
      ensures (Contents(), Idle) == RunBranch(c, Retry, old(Contents()), At(RetryAck, id, job), os, clock, draw)
      ensures var s, t := old(Contents()), Contents();
        && t.retry == s.retry && t.dlq == s.dlq && t.outbox == s.outbox
        && t.stream.log == s.stream.log && t.stream.cursor == s.stream.cursor
        && t.stream.pending == (if os[0].Applied() then s.stream.pending - {id} else s.stream.pending)
        && (forall i :: t.stream.Has(i) <==> s.stream.Has(i) && !(os[0].Ok() && os[1].Applied() && i == id))
        && t.rows == (if os[0].Ok() && os[1].Ok() && os[2].Applied() then SetStatus(s.rows, c.byUser, job, Processing) else s.rows)
      ensures end == Ending.Success <==> os[0].Ok() && os[1].Ok() && os[2].Ok() && HasRow(old(Contents()), job)
    {
      ghost var st := Contents();
      var ok := Ack(id, os[0]);
      Unroll(c, st, RetryAck, id, job, os, clock, draw);
      if !ok {
        return Error;
      }
      st := Contents();
      ok := Delete(id, os[1]);
      Unroll(c, st, RetryDelete, id, job, os[1..], clock, draw);
      if !ok {
        return Error;
      }
      st := Contents();
      ok := UpdateStatus(job, Processing, os[2]);
      Unroll(c, st, RetryStatus, id, job, os[1..][1..], clock, draw);
      end := if ok then Ending.Success else Error;
    }

    /** One more retry: it is scheduled first. */
    method OnFailure(job: Job, id: nat, os: seq<Outcome>, clock: int, draw: nat) returns (end: Ending)
      requires Valid() && |os| == 4
      modifies task, table
      ensures Valid()
      ensures (Contents(), if end == Panicked then Dead else Idle)
           == RunBranch(c, Retry, old(Contents()), At(RetryAdd, id, job), os, clock, draw)
      ensures end == Panicked <==> CalculateBackoffDelay(job.retryCounts + 1, draw).Panic?
      ensures end == Panicked ==> Contents() == old(Contents())
      ensures var s, t := old(Contents()), Contents(); var copy, delay := Bump(job), CalculateBackoffDelay(job.retryCounts + 1, draw);
        end != Panicked ==>
          && (copy in t.retry <==> copy in s.retry || os[0].Applied())
          && (os[0].Applied() ==> t.retry[copy] * SECOND <= clock + delay.ns < (t.retry[copy] + 1) * SECOND)
          && (!os[0].Applied() ==> t.retry == s.retry) && t.retry - {copy} == s.retry - {copy}
      ensures var s, t := old(Contents()), Contents();
        end != Panicked ==>
          && t.dlq == s.dlq && t.outbox == s.outbox
          && t.stream.log == s.stream.log && t.stream.cursor == s.stream.cursor
          && t.stream.pending == (if os[0].Ok() && os[1].Applied() then s.stream.pending - {id} else s.stream.pending)
          && (forall i :: t.stream.Has(i) <==> s.stream.Has(i) && !(os[0].Ok() && os[1].Ok() && os[2].Applied() && i == id))
          && t.rows == (if os[0].Ok() && os[1].Ok() && os[2].Ok() && os[3].Applied()
                        then SetStatus(s.rows, c.byUser, job, Processing) else s.rows)
      ensures end != Panicked ==>
        (end == Ending.Success <==> os[0].Ok() && os[1].Ok() && os[2].Ok() && os[3].Ok() && HasRow(old(Contents()), job))
    {
      ghost var st := Contents();
      end := ScheduleRetry(Bump(job), os[0], clock, draw);
      RetryUnroll(c, st, id, job, os, clock, draw);
      if end == Ending.Success {
        assert HasRow(Contents(), job) == HasRow(st, job);
        end := LetGo(job, id, os[1..], clock, draw);
      }
    }

    /** Acknowledge and delete the message, hand the job on if there is a next stage. */
    method OnSuccess(job: Job, id: nat, os: seq<Outcome>, clock: int, draw: nat) returns (end: Ending)
      requires Valid() && |os| == 4
      modifies task, table
      ensures Valid() && end != Panicked
      ensures (Contents(), Idle) == RunBranch(c, Branch.Success, old(Contents()), At(OkAck, id, job), os, clock, draw)
      ensures var s, t := old(Contents()), Contents();
        && t.retry == s.retry && t.dlq == s.dlq
        && t.stream.log == s.stream.log && t.stream.cursor == s.stream.cursor
        && t.stream.pending == (if os[0].Applied() then s.stream.pending - {id} else s.stream.pending)
        && (forall i :: t.stream.Has(i) <==> s.stream.Has(i) && !(os[0].Ok() && os[1].Applied() && i == id))
      ensures var s, t := old(Contents()), Contents(); var gone := os[0].Ok() && os[1].Ok();
        && t.outbox == (if gone && c.notifies && os[2].Applied() then s.outbox + [job] else s.outbox)
        && t.rows == (if gone && (if c.notifies then os[2].Ok() && os[3].Applied() else os[2].Applied())
                      then SetStatus(s.rows, c.byUser, job, Completed) else s.rows)
      ensures end == Ending.Success <==>
        os[0].Ok() && os[1].Ok() && os[2].Ok() && (c.notifies ==> os[3].Ok()) && HasRow(old(Contents()), job)
    {
      ghost var st := Contents();
      var ok := Ack(id, os[0]);
      Unroll(c, st, OkAck, id, job, os, clock, draw);
      if !ok {
        return Error;
      }
      st := Contents();
      ok := Delete(id, os[1]);
      Unroll(c, st, OkDelete, id, job, os[1..], clock, draw);
      if !ok {
        return Error;
      }
      end := HandOn(job, id, os[1..][1..], clock, draw);
    }

    /** The rest of OnSuccess once the message is gone. */
    method HandOn(job: Job, id: nat, os: seq<Outcome>, clock: int, draw: nat) returns (end: Ending)
      requires Valid() && |os| == 2
      modifies task, table
      ensures Valid() && end != Panicked
      ensures (Contents(), Idle)
           == RunBranch(c, Branch.Success, old(Contents()), At(if c.notifies then OkNotify else OkStatus, id, job), os, clock, draw)
      ensures var s, t := old(Contents()), Contents();
        && t.stream == s.stream && t.retry == s.retry && t.dlq == s.dlq
        && t.outbox == (if c.notifies && os[0].Applied() then s.outbox + [job] else s.outbox)
        && t.rows == (if (if c.notifies then os[0].Ok() && os[1].Applied() else os[0].Applied())
                      then SetStatus(s.rows, c.byUser, job, Completed) else s.rows)
      ensures end == Ending.Success <==> os[0].Ok() && (c.notifies ==> os[1].Ok()) && HasRow(old(Contents()), job)
    {
      ghost var st := Contents();
      var ok;
      if c.notifies {
        ok := AddNotification(job, os[0]);
        Unroll(c, st, OkNotify, id, job, os, clock, draw);
        if !ok {
          return Error;
        }
        st := Contents();
        ok := UpdateStatus(job, Completed, os[1]);
        Unroll(c, st, OkStatus, id, job, os[1..], clock, draw);
      } else {
        ok := UpdateStatus(job, Completed, os[0]);
        Unroll(c, st, OkStatus, id, job, os, clock, draw);
      }
      end := if ok then Ending.Success else Error;
    }

    /** Copy the job to the dead-letter stream, then let go of the message. */
    method SendToDQL(job: Job, id: nat, os: seq<Outcome>, clock: int, draw: nat) returns (end: Ending)
      requires Valid() && |os| == 4
      modifies task, table
      ensures Valid() && end != Panicked
      ensures (Contents(), if c.exclusiveDlq then Idle else At(RetryAdd, id, job))
           == RunBranch(c, DeadLetter, old(Contents()), At(DlqAdd, id, job), os, clock, draw)
      ensures var s, t := old(Contents()), Contents();
        && t.dlq == (if os[0].Applied() then s.dlq + [job] else s.dlq)
        && t.retry == s.retry && t.outbox == s.outbox
        && t.stream.log == s.stream.log && t.stream.cursor == s.stream.cursor
        && t.stream.pending == (if os[0].Ok() && os[1].Applied() then s.stream.pending - {id} else s.stream.pending)
        && (forall i :: t.stream.Has(i) <==> s.stream.Has(i) && !(os[0].Ok() && os[1].Ok() && os[2].Applied() && i == id))
        && t.rows == (if os[0].Ok() && os[1].Ok() && os[2].Ok() && os[3].Applied()
                      then SetStatus(s.rows, c.byUser, job, Failed) else s.rows)
      ensures end == Ending.Success <==> os[0].Ok() && os[1].Ok() && os[2].Ok() && os[3].Ok() && HasRow(old(Contents()), job)
    {
      ghost var st := Contents();
      var ok := AddDeadLetter(job, os[0]);
      Unroll(c, st, DlqAdd, id, job, os, clock, draw);
      if !ok {
        return Error;
      }
      st := Contents();
      ok := Ack(id, os[1]);
      Unroll(c, st, DlqAck, id, job, os[1..], clock, draw);
      if !ok {
        return Error;
      }
      st := Contents();
      ok := Delete(id, os[2]);
      Unroll(c, st, DlqDelete, id, job, os[1..][1..], clock, draw);
      if !ok {
        return Error;
      }
      st := Contents();
      ok := UpdateStatus(job, Failed, os[3]);
      Unroll(c, st, DlqStatus, id, job, os[1..][1..][1..], clock, draw);
      end := if ok then Ending.Success else Error;
    }
  }

  /** The automaton's run starts with one step. */
  lemma Unroll(c: Config, st: Store, phase: Phase, id: nat, job: Job, os: seq<Outcome>, clock: int, draw: nat)
    requires os != []
    ensures
      var pc := At(phase, id, job);
      var b := BranchOf(phase);
      var (st', pc') := Step(c, st, pc, os[0], clock, draw);
      RunBranch(c, b, st, pc, os, clock, draw) ==
        if pc'.At? && BranchOf(pc'.phase) == b then RunBranch(c, b, st', pc', os[1..], clock, draw) else (st', pc')
  {
  }

  /** The retry branch starts with the backoff and the call that schedules the retry. */
  lemma RetryUnroll(c: Config, st: Store, id: nat, job: Job, os: seq<Outcome>, clock: int, draw: nat)
    requires os != []
    ensures
      var delay := CalculateBackoffDelay(job.retryCounts + 1, draw);
      var st' := if delay.Wait? && os[0].Applied() then st.(retry := st.retry[Bump(job) := RunAt(clock, delay.ns)]) else st;
      RunBranch(c, Retry, st, At(RetryAdd, id, job), os, clock, draw) ==
        if delay.Panic? then (st, Dead)
        else if os[0].Ok() then RunBranch(c, Retry, st', At(RetryAck, id, job), os[1..], clock, draw)
        else (st', Idle)
  {
    Unroll(c, st, RetryAdd, id, job, os, clock, draw);
  }

  lemma DecodedUpdate(k: Codec, z: map<string, int>, job: Job, score: int)
    requires RoundTrips(k) && Encoded(k, z)
    ensures Encoded(k, z[k.encode(job) := score])
    ensures Decoded(k, z[k.encode(job) := score]) == Decoded(k, z)[job := score]
  {
    forall j | k.encode(j) == k.encode(job)
      ensures j == job
    {
      assert k.decode(k.encode(j)) == Some(j);
    }
  }
}
