/**
  One worker goroutine as an automaton: what each call to Redis or to the database does
  when it takes effect, and where the worker goes on success and on error. The phases are
  the calls of WorkerPool.Run, Execute, OnSuccess, OnFailure and SendToDQL in order.
*/
module Worker {
  import opened Jobs
  import opened Backoff

  /** `exclusiveDlq` is whether a dead-lettered job skips the retry branch. The code falls
      through (false); its README describes the exclusive form (true). `notifies` and
      `execOps` tell the story stage (true, 3) from the email stage (false, 1). */
  datatype Config = Config(maxRetry: int, exclusiveDlq: bool, notifies: bool, execOps: nat, byUser: bool)

  datatype Phase =
    | Running(op: nat)
    | DlqAdd | DlqAck | DlqDelete | DlqStatus
    | RetryAdd | RetryAck | RetryDelete | RetryStatus
    | OkAck | OkDelete | OkNotify | OkStatus

  /** Dead: the goroutine ended, by a crash of its process or by a recovered panic. */
  datatype PC = Idle | Dead | At(phase: Phase, id: nat, job: Job)

  /** The stage after the call made in `phase` took effect. */
  function Effect(c: Config, st: Store, phase: Phase, id: nat, job: Job, runAt: int): Store {
    match phase
    case Running(_) => st
    case DlqAdd => st.(dlq := st.dlq + [job])
    case RetryAdd => st.(retry := st.retry[Bump(job) := runAt])
    case OkNotify => st.(outbox := st.outbox + [job])
    case DlqAck => st.(stream := st.stream.Ack(id))
    case RetryAck => st.(stream := st.stream.Ack(id))
    case OkAck => st.(stream := st.stream.Ack(id))
    case DlqDelete => st.(stream := st.stream.Delete(id))
    case RetryDelete => st.(stream := st.stream.Delete(id))
    case OkDelete => st.(stream := st.stream.Delete(id))
    case DlqStatus => st.(rows := SetStatus(st.rows, c.byUser, job, Failed))
    case RetryStatus => st.(rows := SetStatus(st.rows, c.byUser, job, Processing))
    case OkStatus => st.(rows := SetStatus(st.rows, c.byUser, job, Completed))
  }

  /** The call made next; None means back to reading the stream. */
  function Advance(c: Config, phase: Phase, job: Job, ok: bool): Option<Phase> {
    match phase
    case Running(op) =>
      if !ok then Some(if job.retryCounts == c.maxRetry then DlqAdd else RetryAdd)
      else if op + 1 < c.execOps then Some(Running(op + 1))
      else Some(OkAck)
    case DlqAdd => if ok then Some(DlqAck) else AfterDlq(c)
    case DlqAck => if ok then Some(DlqDelete) else AfterDlq(c)
    case DlqDelete => if ok then Some(DlqStatus) else AfterDlq(c)
    case DlqStatus => AfterDlq(c)
    case RetryAdd => if ok then Some(RetryAck) else None
    case RetryAck => if ok then Some(RetryDelete) else None
    case RetryDelete => if ok then Some(RetryStatus) else None
    case RetryStatus => None
    case OkAck => if ok then Some(OkDelete) else None
    case OkDelete => if ok then Some(if c.notifies then OkNotify else OkStatus) else None
    case OkNotify => if ok then Some(OkStatus) else None
    case OkStatus => None
  }

  /** SendToDQL's result is ignored either way. */
  function AfterDlq(c: Config): Option<Phase> {
    if c.exclusiveDlq then None else Some(RetryAdd)
  }

  /** One call: its effect if it is applied, then the next call. ScheduleRetry first computes
      the backoff, whose panic ends the goroutine. */
  function Step(c: Config, st: Store, pc: PC, o: Outcome, clock: int, draw: nat): (Store, PC) {
    if !pc.At? then (st, pc)
    else
      var delay := if pc.phase.RetryAdd? then CalculateBackoffDelay(pc.job.retryCounts + 1, draw) else Wait(0);
      if delay.Panic? then (st, Dead)
      else
        var st' := if o.Applied() then Effect(c, st, pc.phase, pc.id, pc.job, RunAt(clock, delay.ns)) else st;
        var next := Advance(c, pc.phase, pc.job, o.Ok());
        (st', if next.Some? then At(next.value, pc.id, pc.job) else Idle)
  }

  /** The calls come in four chains: Execute, SendToDQL, OnFailure and OnSuccess. */
  datatype Branch = Execution | DeadLetter | Retry | Success

  function BranchOf(phase: Phase): Branch {
    match phase
    case Running(_) => Execution
    case DlqAdd => DeadLetter
    case DlqAck => DeadLetter
    case DlqDelete => DeadLetter
    case DlqStatus => DeadLetter
    case RetryAdd => Retry
    case RetryAck => Retry
    case RetryDelete => Retry
    case RetryStatus => Retry
    case OkAck => Success
    case OkDelete => Success
    case OkNotify => Success
    case OkStatus => Success
  }

  /** The worker takes steps, one outcome each, as long as it stays in the branch. */
  function RunBranch(c: Config, b: Branch, st: Store, pc: PC, os: seq<Outcome>, clock: int, draw: nat): (Store, PC)
    decreases |os|
  {
    if os == [] || !pc.At? || BranchOf(pc.phase) != b then (st, pc)
    else
      var (st', pc') := Step(c, st, pc, os[0], clock, draw);
      RunBranch(c, b, st', pc', os[1..], clock, draw)
  }
}
