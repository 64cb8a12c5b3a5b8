/**
  The data one pipeline stage works on: jobs, a Redis stream with its consumer group, the
  retry set, the dead-letter stream, the notifications handed on and the status table.
*/
module Jobs {

  datatype Option<+T> = None | Some(value: T)

  datatype Job = Job(
    jobId: int,
    userId: int,
    storyId: int,
    userEmail: string,
    userPreferences: string,
    requestId: string,
    retryCounts: int)

  /** The job whatever its retry count: copies of one job share it. */
  function Ident(job: Job): Job {
    job.(retryCounts := 0)
  }

  function Bump(job: Job): Job {
    job.(retryCounts := job.retryCounts + 1)
  }

  /** What one call to Redis or to the database does: it takes effect and says so, it fails
      cleanly, or it takes effect but the reply is lost and the caller sees an error. */
  datatype Outcome = Done | Refused | ReplyLost {
    predicate Applied() { this != Refused }
    predicate Ok() { this == Done }
  }

  /** A stream and its one consumer group. Entry ids are positions in the append-only log;
      ids below `cursor` were delivered, `pending` ones are delivered and not acknowledged. */
  datatype Stream = Stream(log: seq<Job>, deleted: set<nat>, cursor: nat, pending: set<nat>) {

    predicate Has(id: nat) {
      id < |log| && id !in deleted
    }

    /** Still to be delivered, or delivered and neither acknowledged nor deleted. */
    predicate InFlight(id: nat) {
      Has(id) && (id >= cursor || id in pending)
    }

    function Add(job: Job): Stream {
      this.(log := log + [job])
    }

    function Ack(id: nat): Stream {
      this.(pending := pending - {id})
    }

    function Delete(id: nat): Stream {
      this.(deleted := deleted + {id})
    }

    /** The first entry at or after `from` that is still there. */
    function FirstFrom(from: nat): (r: Option<nat>)
      ensures r.Some? ==> from <= r.value && Has(r.value)
      ensures forall i :: from <= i && Has(i) ==> r.Some? && r.value <= i
      decreases |log| - from
    {
      if from >= |log| then None
      else if from in deleted then FirstFrom(from + 1)
      else Some(from)
    }

    /** XREADGROUP with ">" : the group moves past the entry, which becomes pending. */
    function Deliver(id: nat): Stream {
      this.(cursor := id + 1, pending := pending + {id})
    }
  }

  const EMPTY_STREAM := Stream([], {}, 0, {})

  datatype Status = Pending | Processing | Completed | Failed

  datatype Row = Row(storyId: int, userId: int, status: Status)

  /** One stage: `dlq` and `outbox` are what it appended to its dead-letter stream and to the
      notification stream, `retry` its sorted set (ZADD on an equal member overwrites). */
  datatype Store = Store(
    stream: Stream,
    retry: map<Job, int>,
    dlq: seq<Job>,
    outbox: seq<Job>,
    rows: map<int, Row>)

  const EMPTY_STORE := Store(EMPTY_STREAM, map[], [], [], map[])

  predicate Matches(row: Row, byUser: bool, job: Job) {
    row.storyId == job.storyId && (byUser ==> row.userId == job.userId)
  }

  /** UPDATE ... SET status WHERE story_id (AND user_id). */
  function SetStatus(rows: map<int, Row>, byUser: bool, job: Job, status: Status): (r: map<int, Row>)
    ensures r.Keys == rows.Keys
    ensures forall k :: k in rows ==>
      r[k] == if Matches(rows[k], byUser, job) then rows[k].(status := status) else rows[k]
  {
    map k | k in rows :: if Matches(rows[k], byUser, job) then rows[k].(status := status) else rows[k]
  }

  /** Of two updates for one job the last decides. */
  lemma LastStatusWins(rows: map<int, Row>, byUser: bool, job: Job, x: Status, y: Status)
    ensures SetStatus(SetStatus(rows, byUser, job, x), byUser, job, y) == SetStatus(rows, byUser, job, y)
  {
    var once := SetStatus(rows, byUser, job, x);
    forall k | k in rows
      ensures SetStatus(once, byUser, job, y)[k] == SetStatus(rows, byUser, job, y)[k]
    {
      assert Matches(once[k], byUser, job) <==> Matches(rows[k], byUser, job);
    }
  }

  /** Updates for jobs that share no row may come in either order. */
  lemma OtherStatusesStay(rows: map<int, Row>, byUser: bool, a: Job, x: Status, b: Job, y: Status)
    requires forall k :: k in rows ==> !(Matches(rows[k], byUser, a) && Matches(rows[k], byUser, b))
    ensures SetStatus(SetStatus(rows, byUser, a, x), byUser, b, y) == SetStatus(SetStatus(rows, byUser, b, y), byUser, a, x)
  {
    var ra, rb := SetStatus(rows, byUser, a, x), SetStatus(rows, byUser, b, y);
    forall k | k in rows
      ensures SetStatus(ra, byUser, b, y)[k] == SetStatus(rb, byUser, a, x)[k]
    {
      assert Matches(ra[k], byUser, b) <==> Matches(rows[k], byUser, b);
      assert Matches(rb[k], byUser, a) <==> Matches(rows[k], byUser, a);
    }
  }
}
