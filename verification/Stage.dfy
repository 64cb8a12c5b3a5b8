/**
  One pipeline stage as a labelled transition system. Any number of worker and scheduler
  goroutines interleave; every call to Redis or to the database is one step with its own
  outcome, and any goroutine may die between two calls.
*/
module Stage {
  import opened Jobs
  import opened Worker
  import opened Backoff

  const BATCH := 10

  /** A scheduler inside ReEnqueue: about to add, or to remove, the head of what is left of
      its batch. */
  datatype Sched = Resting | Adding(batch: seq<Job>) | Removing(batch: seq<Job>)

  /** What happened so far. Executions are named by the id of the message they ran for;
      `dlqFrom` and `outFrom` say which message each dead letter and each notification came
      from; `scheduled` holds every job ever put in the retry set. */
  datatype History = History(
    added: seq<Job>,
    failed: set<nat>,
    done: set<nat>,
    scheduled: set<Job>,
    dlqFrom: seq<nat>,
    outFrom: seq<nat>)

  datatype State = State(st: Store, workers: map<nat, PC>, scheds: map<nat, Sched>, h: History)

  const INIT := State(EMPTY_STORE, map[], map[], History([], {}, {}, {}, [], []))

  datatype Label =
    | Submit(job: Job)
    | AddRow(key: int, row: Row)
    | DropRows(keys: set<int>)
    | Spawn(w: nat)
    | Crash(w: nat)
    | Read(w: nat, o: Outcome)
    | Work(w: nat, o: Outcome, clock: int, draw: nat)
    | SpawnSched(k: nat)
    | CrashSched(k: nat)
    | Fetch(k: nat, now: int, batch: seq<Job>)
    | Move(k: nat, o: Outcome)
    | MoveAtomic(job: Job, now: int)

  predicate Due(retry: map<Job, int>, now: int, job: Job) {
    job in retry && 0 <= retry[job] <= now
  }

  /** What ZRANGEBYSCORE 0 now LIMIT 10 may answer: lowest scores first. */
  ghost predicate IsBatch(retry: map<Job, int>, now: int, batch: seq<Job>) {
    && |batch| <= BATCH
    && (forall i :: 0 <= i < |batch| ==> Due(retry, now, batch[i]))
    && (forall i, j :: 0 <= i < j < |batch| ==> batch[i] != batch[j] && retry[batch[i]] <= retry[batch[j]])
    && (forall job :: Due(retry, now, job) && job !in batch ==>
          |batch| == BATCH && forall i :: 0 <= i < |batch| ==> retry[batch[i]] <= retry[job])
  }

  ghost predicate Enabled(s: State, l: Label) {
    match l
    case Submit(_) => true
    case AddRow(key, row) => key !in s.st.rows && row.status == Pending
    case DropRows(_) => true
    case Spawn(w) => w !in s.workers
    case Crash(w) => w in s.workers
    case Read(w, _) => w in s.workers && s.workers[w] == Idle && s.st.stream.FirstFrom(s.st.stream.cursor).Some?
    case Work(w, _, _, _) => w in s.workers && s.workers[w].At?
    case SpawnSched(k) => k !in s.scheds
    case CrashSched(k) => k in s.scheds
    case Fetch(k, now, batch) =>
      k in s.scheds && s.scheds[k] == Resting && batch != [] && IsBatch(s.st.retry, now, batch)
    case Move(k, _) => k in s.scheds && !s.scheds[k].Resting? && s.scheds[k].batch != []
    case MoveAtomic(job, now) => Due(s.st.retry, now, job)
  }

  /** What a worker's call adds to the history. */
  function Record(c: Config, h: History, phase: Phase, id: nat, job: Job, o: Outcome): History {
    match phase
    case Running(op) =>
      if !o.Ok() then h.(failed := h.failed + {id})
      else if op + 1 < c.execOps then h
      else h.(done := h.done + {id})
    case RetryAdd => if o.Applied() then h.(scheduled := h.scheduled + {Bump(job)}) else h
    case DlqAdd => if o.Applied() then h.(dlqFrom := h.dlqFrom + [id]) else h
    case OkNotify => if o.Applied() then h.(outFrom := h.outFrom + [id]) else h
    case _ => h
  }

  function NextWork(c: Config, s: State, w: nat, o: Outcome, clock: int, draw: nat): State
    requires w in s.workers && s.workers[w].At?
  {
    var pc := s.workers[w];
    var (st', pc') := Step(c, s.st, pc, o, clock, draw);
    var h' := if pc'.Dead? then s.h else Record(c, s.h, pc.phase, pc.id, pc.job, o);
    State(st', s.workers[w := pc'], s.scheds, h')
  }

  function NextRead(s: State, w: nat, o: Outcome): State
    requires s.st.stream.FirstFrom(s.st.stream.cursor).Some?
  {
    var id := s.st.stream.FirstFrom(s.st.stream.cursor).value;
    if !o.Applied() then s
    else
      s.(st := s.st.(stream := s.st.stream.Deliver(id)),
         workers := if o.Ok() then s.workers[w := At(Running(0), id, s.st.stream.log[id])] else s.workers)
  }

  /** XADD then ZREM, payload by payload; a failed XADD ends the call, ZREM's result is not
      looked at. */
  function NextMove(s: State, k: nat, o: Outcome): State
    requires k in s.scheds && !s.scheds[k].Resting? && s.scheds[k].batch != []
  {
    var batch := s.scheds[k].batch;
    if s.scheds[k].Adding? then
      s.(st := if o.Applied() then s.st.(stream := s.st.stream.Add(batch[0])) else s.st,
         scheds := s.scheds[k := if o.Ok() then Removing(batch) else Resting])
    else
      s.(st := if o.Applied() then s.st.(retry := s.st.retry - {batch[0]}) else s.st,
         scheds := s.scheds[k := if |batch| > 1 then Adding(batch[1..]) else Resting])
  }

  function Next(c: Config, s: State, l: Label): State
    requires Enabled(s, l)
  {
    match l
    case Submit(job) =>
      s.(st := s.st.(stream := s.st.stream.Add(job)), h := s.h.(added := s.h.added + [job]))
    case AddRow(key, row) => s.(st := s.st.(rows := s.st.rows[key := row]))
    case DropRows(keys) => s.(st := s.st.(rows := s.st.rows - keys))
    case Spawn(w) => s.(workers := s.workers[w := Idle])
    case Crash(w) => s.(workers := s.workers[w := Dead])
    case Read(w, o) => NextRead(s, w, o)
    case Work(w, o, clock, draw) => NextWork(c, s, w, o, clock, draw)
    case SpawnSched(k) => s.(scheds := s.scheds[k := Resting])
    case CrashSched(k) => s.(scheds := s.scheds - {k})
    case Fetch(k, _, batch) => s.(scheds := s.scheds[k := Adding(batch)])
    case Move(k, o) => NextMove(s, k, o)
    case MoveAtomic(job, _) =>
      s.(st := s.st.(stream := s.st.stream.Add(job), retry := s.st.retry - {job}))
  }

  ghost predicate Legal(c: Config, s: State, ls: seq<Label>)
    decreases |ls|
  {
    ls == [] || (Enabled(s, ls[0]) && Legal(c, Next(c, s, ls[0]), ls[1..]))
  }

  ghost function Run(c: Config, s: State, ls: seq<Label>): State
    requires Legal(c, s, ls)
    decreases |ls|
  {
    if ls == [] then s else Run(c, Next(c, s, ls[0]), ls[1..])
  }
}
